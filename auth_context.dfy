/**
 * The session store and auth context (src/contexts/AuthContext.tsx).
 *
 * The provider holds the current identity (`user`, mirrored to local storage
 * under 'gym-app-user') and the `isLoading` flag. The external `users` table is
 * a map from row id to row; every query against it takes an explicit failure
 * flag standing for a network or service error.
 */
module Auth {
  import opened Collections

  /** Roles are the strings stored in the `role` column; the source casts them unchecked. */
  type Role = string

  const OwnerRole: Role := "owner"
  const TrainerRole: Role := "trainer"
  const MemberRole: Role := "member"

  /** The identity kept in the session. It has no password field. */
  datatype User = User(id: string, username: string, role: Role, name: string)

  /** A row of the `users` table; its id is the key under which the table holds it. */
  datatype Row = Row(username: string, password: string, name: string, role: Role)

  type Table = map<string, Row>

  /** `Partial<User>`: a field is overridden exactly when it is present. */
  datatype UserUpdate = UserUpdate(
    id: Option<string>, username: Option<string>, role: Option<Role>, name: Option<string>)

  /** What `.eq('username', u).maybeSingle()` yields. */
  datatype Lookup = NoRow | OneRow(id: string, row: Row) | QueryError

  datatype RegisterOutcome = CheckFailed | UsernameTaken | InsertFailed | Registered

  datatype UpdateOutcome = NoSession | UpdateFailed | ProfileUpdated

  ghost function IdsWithUsername(users: Table, username: string): set<string>
  {
    set id | id in users && users[id].username == username
  }

  /** At most one row carries `username`. */
  ghost predicate UniqueUsername(users: Table, username: string)
  {
    forall a, b :: a in users && b in users && users[a].username == username && users[b].username == username ==> a == b
  }

  /** The uniqueness the external store enforces on the `username` column. */
  ghost predicate UniqueUsernames(users: Table)
  {
    forall a, b :: a in users && b in users && users[a].username == users[b].username ==> a == b
  }

  lemma SingletonSet(ids: set<string>, a: string)
    requires a in ids && |ids| <= 1
    ensures ids == {a}
  {
    assert |ids - {a}| == |ids| - 1;
  }

  lemma {:induction false} UniqueIffAtMostOne(users: Table, username: string)
    ensures UniqueUsername(users, username) <==> |IdsWithUsername(users, username)| <= 1
    ensures IdsWithUsername(users, username) == {} <==> forall id :: id in users ==> users[id].username != username
  {
    var ids := IdsWithUsername(users, username);
    forall id | id in users && users[id].username == username ensures id in ids {
    }
    if UniqueUsername(users, username) && ids != {} {
      var a :| a in ids;
      assert ids == {a};
    }
    if |ids| <= 1 {
      forall a, b | a in users && b in users && users[a].username == username && users[b].username == username
        ensures a == b
      {
        assert a in ids && b in ids;
        SingletonSet(ids, a);
      }
    }
  }

  /**
   * The username lookup: a query error, or more than one matching row (which
   * `maybeSingle` reports as an error), gives QueryError; no matching row gives
   * NoRow; otherwise the one matching row.
   */
  ghost function LookupUsername(users: Table, username: string, queryFails: bool): (r: Lookup)
    ensures r.QueryError? <==> queryFails || !UniqueUsername(users, username)
    ensures r.NoRow? <==> !queryFails && forall id :: id in users ==> users[id].username != username
    ensures r.OneRow? ==> r.id in users && users[r.id] == r.row && r.row.username == username && UniqueUsername(users, username)
  {
    var ids := IdsWithUsername(users, username);
    UniqueIffAtMostOne(users, username);
    if queryFails || |ids| > 1 then QueryError
    else if ids == {} then NoRow
    else
      var id :| id in ids;
      OneRow(id, users[id])
  }

  /** The session identity built from a table row: every field but the password. */
  function IdentityOf(id: string, row: Row): User
  {
    User(id, row.username, row.role, row.name)
  }

  /** The identity `login` stores, or None when it returns false. */
  ghost function LoginResult(users: Table, username: string, password: string, queryFails: bool): (r: Option<User>)
    ensures r.Some? ==> !queryFails && r.value.id in users && r.value == IdentityOf(r.value.id, users[r.value.id])
    ensures r.Some? ==> users[r.value.id].username == username && users[r.value.id].password == password
  {
    match LookupUsername(users, username, queryFails)
    case OneRow(id, row) => if row.password == password then Some(IdentityOf(id, row)) else None
    case _ => None
  }

  /** A row with that exact username and password, the only one with that username, logs in. */
  lemma {:induction false} LoginSucceeds(users: Table, id: string, username: string, password: string)
    requires id in users && users[id].username == username && users[id].password == password
    requires UniqueUsername(users, username)
    ensures LoginResult(users, username, password, false) == Some(IdentityOf(id, users[id]))
  {
    var l := LookupUsername(users, username, false);
    assert !l.NoRow?;
  }

  /** No row with that username, a wrong password, or a query error: login fails. */
  lemma {:induction false} LoginFails(users: Table, username: string, password: string, queryFails: bool)
    requires queryFails || forall id :: id in users && users[id].username == username ==> users[id].password != password
    ensures LoginResult(users, username, password, queryFails) == None
  {
  }

  /** What `checkUser` keeps of the stored identity. */
  function CheckedUser(stored: Option<User>, users: Table, lookupFails: bool): (r: Option<User>)
    ensures r == stored || r == None
    ensures stored.Some? && stored.value.id != "" ==> (r == stored <==> !lookupFails && stored.value.id in users)
  {
    if stored.Some? && stored.value.id != "" then
      if lookupFails || stored.value.id !in users then None else stored
    else stored
  }

  /** With no stored id there is no lookup: the result does not depend on the query. */
  lemma {:induction false} CheckWithoutIdMakesNoLookup(stored: Option<User>, users: Table, other: Table, f: bool, g: bool)
    requires stored.None? || stored.value.id == ""
    ensures CheckedUser(stored, users, f) == CheckedUser(stored, other, g) == stored
  {
  }

  /** What register does with the table, decided before the insert. */
  ghost function RegisterOutcomeOf(users: Table, username: string, checkFails: bool, insertFails: bool): (r: RegisterOutcome)
    ensures r == CheckFailed <==> checkFails || !UniqueUsername(users, username)
    ensures r == UsernameTaken <==>
      !checkFails && UniqueUsername(users, username) && exists id :: id in users && users[id].username == username
    ensures r == InsertFailed <==>
      !checkFails && insertFails && forall id :: id in users ==> users[id].username != username
    ensures r == Registered <==>
      !checkFails && !insertFails && forall id :: id in users ==> users[id].username != username
  {
    match LookupUsername(users, username, checkFails)
    case QueryError => CheckFailed
    case OneRow(_, _) => UsernameTaken
    case NoRow => if insertFails then InsertFailed else Registered
  }

  /** A username already in the table is never registered again. */
  lemma {:induction false} RegisterRejectsTakenUsername(users: Table, id: string, username: string, checkFails: bool, insertFails: bool)
    requires id in users && users[id].username == username
    ensures RegisterOutcomeOf(users, username, checkFails, insertFails) != Registered
  {
  }

  /** A successful registration keeps every username unique. */
  lemma {:induction false} RegisterKeepsUsernamesUnique(users: Table, newId: string, row: Row, checkFails: bool, insertFails: bool)
    requires UniqueUsernames(users) && newId !in users
    requires RegisterOutcomeOf(users, row.username, checkFails, insertFails) == Registered
    ensures UniqueUsernames(users[newId := row])
  {
  }

  /** After a successful registration the new credentials log in as the new identity. */
  lemma {:induction false} RegisterThenLogin(users: Table, newId: string, username: string, password: string, name: string, role: Role)
    requires newId !in users
    requires RegisterOutcomeOf(users, username, false, false) == Registered
    ensures LoginResult(users[newId := Row(username, password, name, role)], username, password, false)
         == Some(User(newId, username, role, name))
  {
    var users' := users[newId := Row(username, password, name, role)];
    assert UniqueUsername(users', username);
    LoginSucceeds(users', newId, username, password);
  }

  /** A free username registers, and the new account can then sign in. */
  lemma {:induction false} FreeUsernameRegistersAndLogsIn(users: Table, newId: string, username: string, password: string,
                                                          name: string, role: Role)
    requires newId !in users
    requires forall id :: id in users ==> users[id].username != username
    ensures RegisterOutcomeOf(users, username, false, false) == Registered
    ensures LoginResult(users[newId := Row(username, password, name, role)], username, password, false)
         == Some(User(newId, username, role, name))
  {
    RegisterThenLogin(users, newId, username, password, name, role);
  }

  /** `{ ...user, ...updates }` */
  function Merge(u: User, updates: UserUpdate): (r: User)
    ensures r.id == (if updates.id.Some? then updates.id.value else u.id)
    ensures r.username == (if updates.username.Some? then updates.username.value else u.username)
    ensures r.role == (if updates.role.Some? then updates.role.value else u.role)
    ensures r.name == (if updates.name.Some? then updates.name.value else u.name)
  {
    User(
      if updates.id.Some? then updates.id.value else u.id,
      if updates.username.Some? then updates.username.value else u.username,
      if updates.role.Some? then updates.role.value else u.role,
      if updates.name.Some? then updates.name.value else u.name)
  }

  /**
   * The table after `update({username, name, role}).eq('id', id)`: the row with
   * that id takes the three fields, keeping its password; nothing changes when
   * the write fails or no row has that id.
   */
  function PersistProfile(users: Table, id: string, updated: User, writeFails: bool): (r: Table)
    ensures r.Keys == users.Keys
    ensures forall k :: k in users && k != id ==> r[k] == users[k]
    ensures id in users ==> r[id].password == users[id].password
    ensures !writeFails && id in users ==>
      r[id].username == updated.username && r[id].name == updated.name && r[id].role == updated.role
    ensures writeFails ==> r == users
  {
    if writeFails || id !in users then users
    else users[id := users[id].(username := updated.username, name := updated.name, role := updated.role)]
  }

  /**
   * The update is optimistic and not rolled back: after a failed write the
   * session shows the new name while the table still holds the old one.
   */
  lemma {:induction false} FailedUpdateDiverges(users: Table, u: User, newName: string)
    requires u.id in users && users[u.id].name == u.name && newName != u.name
    ensures Merge(u, UserUpdate(None, None, None, Some(newName))).name == newName
    ensures PersistProfile(users, u.id, Merge(u, UserUpdate(None, None, None, Some(newName))), true)[u.id].name != newName
  {
  }

  class AuthProvider {
    var user: Option<User>
    var isLoading: bool
    var users: Table

    /** The provider as it mounts: the identity read from local storage, loading. */
    constructor (table: Table, stored: Option<User>)
      ensures user == stored && isLoading && users == table
    {
      user := stored;
      isLoading := true;
      users := table;
    }

    /** `isAuthenticated: !!user` */
    predicate IsAuthenticated()
      reads this
    {
      user.Some?
    }

    /** The start-up check of a stored identity against the table. */
    method CheckUser(lookupFails: bool)
      modifies this`user, this`isLoading
      ensures !isLoading && users == old(users)
      ensures user == CheckedUser(old(user), users, lookupFails)
    {
      isLoading := true;
      if user.Some? && user.value.id != "" {
        if lookupFails || user.value.id !in users {
          user := None;
        }
      }
      isLoading := false;
    }

    method Login(username: string, password: string, queryFails: bool) returns (ok: bool)
      modifies this`user, this`isLoading
      ensures !isLoading && users == old(users)
      ensures ok <==> LoginResult(users, username, password, queryFails).Some?
      ensures ok ==> IsAuthenticated()
      ensures user == if ok then LoginResult(users, username, password, queryFails) else old(user)
    {
      isLoading := true;
      ok := false;
      var ids := set id | id in users && users[id].username == username;
      assert ids == IdsWithUsername(users, username);
      UniqueIffAtMostOne(users, username);
      if !queryFails && |ids| == 1 {
        var id :| id in ids;
        SingletonSet(ids, id);
        var row := users[id];
        if row.password == password {
          user := Some(IdentityOf(id, row));
          ok := true;
        }
      }
      isLoading := false;
    }

    /** Registers a new account without logging in as it; `newId` is the key the store generates. */
    method Register(username: string, password: string, name: string, role: Role,
                    checkFails: bool, insertFails: bool, newId: string) returns (outcome: RegisterOutcome)
      requires newId !in users
      modifies this`users, this`isLoading
      ensures !isLoading && user == old(user)
      ensures outcome == RegisterOutcomeOf(old(users), username, checkFails, insertFails)
      ensures users == if outcome == Registered then old(users)[newId := Row(username, password, name, role)] else old(users)
    {
      isLoading := true;
      var ids := set id | id in users && users[id].username == username;
      assert ids == IdsWithUsername(users, username);
      UniqueIffAtMostOne(users, username);
      if checkFails || |ids| > 1 {
        outcome := CheckFailed;
      } else if ids != {} {
        outcome := UsernameTaken;
      } else if insertFails {
        outcome := InsertFailed;
      } else {
        users := users[newId := Row(username, password, name, role)];
        outcome := Registered;
      }
      isLoading := false;
    }

    /** Clears the identity and returns the route it navigates to. */
    method Logout() returns (target: string)
      modifies this`user
      ensures user == None && target == "/login"
      ensures !IsAuthenticated()
    {
      user := None;
      target := "/login";
    }

    method UpdateUserProfile(updates: UserUpdate, writeFails: bool) returns (outcome: UpdateOutcome)
      modifies this`user, this`users
      ensures old(user).None? ==> user == None && users == old(users) && outcome == NoSession
      ensures old(user).Some? ==>
        && user == Some(Merge(old(user).value, updates))
        && users == PersistProfile(old(users), old(user).value.id, user.value, writeFails)
        && outcome == (if writeFails then UpdateFailed else ProfileUpdated)
    {
      if user.None? {
        outcome := NoSession;
        return;
      }
      var previous := user.value;
      var updated := Merge(previous, updates);
      user := Some(updated);
      users := PersistProfile(users, previous.id, updated, writeFails);
      outcome := if writeFails then UpdateFailed else ProfileUpdated;
    }
  }
}
