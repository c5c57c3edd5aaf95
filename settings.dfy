/**
 * The settings page (src/pages/Settings.tsx): the profile card with the
 * signed-in user's initials and role, and the entries the page lists.
 */
module SettingsPage {
  import opened Collections
  import opened Text
  import opened Auth

  /** `parts.map(part => part[0]).join('')`: an empty part's `part[0]` is `undefined`, which joins as nothing. */
  function FirstChars(parts: seq<string>): (r: string)
    ensures |r| <= |parts|
  {
    if parts == [] then ""
    else (if parts[0] == "" then "" else [parts[0][0]]) + FirstChars(parts[1..])
  }

  /** `s.substring(0, n)` for `n >= 0`. */
  function Prefix(s: string, n: nat): (r: string)
    ensures |r| == if |s| <= n then |s| else n
    ensures r == s[..|r|]
  {
    if |s| <= n then s else s[..n]
  }

  /** `getInitials` */
  function GetInitials(name: string): (r: string)
    ensures |r| <= 2
  {
    Prefix(Upper(FirstChars(Split(name, ' '))), 2)
  }

  /**
   * The reference definition: the characters that begin a word, that is every
   * non-space character at the start of the name or right after a space.
   * `atStart` says whether the position before `s` is such a start.
   */
  function WordStarts(s: string, atStart: bool): string
  {
    if s == [] then ""
    else if s[0] == ' ' then WordStarts(s[1..], true)
    else (if atStart then [s[0]] else "") + WordStarts(s[1..], false)
  }

  /**
   * The split-based computation and the reference definition agree; the second
   * clause, about every part but the first, carries the induction.
   */
  lemma {:induction false} FirstCharsAreWordStarts(s: string)
    ensures FirstChars(Split(s, ' ')) == WordStarts(s, true)
    ensures FirstChars(Split(s, ' ')[1..]) == WordStarts(s, false)
  {
    if s != [] {
      var rest := Split(s[1..], ' ');
      FirstCharsAreWordStarts(s[1..]);
      if s[0] == ' ' {
        assert Split(s, ' ') == [""] + rest;
        assert ([""] + rest)[1..] == rest;
      } else {
        var parts := [[s[0]] + rest[0]] + rest[1..];
        assert Split(s, ' ') == parts;
        assert parts[1..] == rest[1..];
      }
    }
  }

  /** The initials are the upper-cased first two word starts. */
  lemma {:induction false} InitialsAreFirstTwoWordStarts(name: string)
    ensures GetInitials(name) == Prefix(Upper(WordStarts(name, true)), 2)
  {
    FirstCharsAreWordStarts(name);
  }

  predicate IsNonEmpty(s: string)
  {
    s != ""
  }

  /** Empty parts, from leading, trailing or repeated spaces, contribute nothing. */
  lemma {:induction false} EmptyPartsContributeNothing(parts: seq<string>)
    ensures FirstChars(parts) == FirstChars(Filter(parts, IsNonEmpty))
  {
    if parts != [] {
      var rest := Filter(parts[1..], IsNonEmpty);
      EmptyPartsContributeNothing(parts[1..]);
      if parts[0] == "" {
        assert Filter(parts, IsNonEmpty) == rest;
      } else {
        var kept := [parts[0]] + rest;
        assert Filter(parts, IsNonEmpty) == kept;
        assert kept[0] == parts[0] && kept[1..] == rest;
      }
    }
  }

  lemma {:induction false} WordStartsWithoutSpaces(s: string, atStart: bool)
    requires ' ' !in s
    ensures WordStarts(s, atStart) == if atStart && s != [] then [s[0]] else ""
  {
    if s != [] {
      assert ' ' !in s[1..] by {
        assert forall c :: c in s[1..] ==> c in s;
      }
      WordStartsWithoutSpaces(s[1..], false);
    }
  }

  /** A single word yields exactly its first character, upper-cased. */
  lemma {:induction false} SingleWordInitial(name: string)
    requires name != "" && ' ' !in name
    ensures GetInitials(name) == [UpperChar(name[0])]
  {
    InitialsAreFirstTwoWordStarts(name);
    WordStartsWithoutSpaces(name, true);
  }

  /** Only the first two words count. */
  lemma {:induction false} InitialsOfLongNames(a: string, b: string, rest: string)
    requires a != "" && b != "" && ' ' !in a && ' ' !in b
    ensures GetInitials(a + " " + b + " " + rest) == [UpperChar(a[0]), UpperChar(b[0])]
  {
    var tailB := " " + rest;
    var tailA := " " + (b + tailB);
    var name := a + tailA;
    assert name == a + " " + b + " " + rest;
    WordStartsConcat(b, tailB, true);
    WordStartsWithoutSpaces(b, true);
    assert tailA[1..] == b + tailB;
    WordStartsConcat(a, tailA, true);
    WordStartsWithoutSpaces(a, true);
    var w := WordStarts(name, true);
    assert w == [a[0]] + ([b[0]] + WordStarts(rest, true));
    assert w[0] == a[0] && w[1] == b[0];
    InitialsAreFirstTwoWordStarts(name);
  }

  /** The word starts of `a + b` when `a` has no space and `b` starts with one. */
  lemma {:induction false} WordStartsConcat(a: string, b: string, atStart: bool)
    requires ' ' !in a && b != [] && b[0] == ' '
    ensures WordStarts(a + b, atStart) == WordStarts(a, atStart) + WordStarts(b[1..], true)
  {
    if a == [] {
      assert a + b == b;
    } else {
      assert (a + b)[0] == a[0];
      assert (a + b)[1..] == a[1..] + b;
      assert ' ' !in a[1..] by {
        assert forall c :: c in a[1..] ==> c in a;
      }
      WordStartsConcat(a[1..], b, false);
    }
  }

  /** The role label: `role.charAt(0).toUpperCase() + role.slice(1)`. */
  function Capitalize(s: string): (r: string)
    ensures |r| == |s|
    ensures s != "" ==> r[0] == UpperChar(s[0]) && r[1..] == s[1..]
  {
    if s == "" then "" else Upper(s[..1]) + s[1..]
  }

  lemma RoleLabels()
    ensures Capitalize(OwnerRole) == "Owner"
    ensures Capitalize(TrainerRole) == "Trainer"
    ensures Capitalize(MemberRole) == "Member"
  {
  }

  /** The profile card: initials, name and role label. */
  datatype ProfileCard = ProfileCard(initials: string, name: string, roleLabel: string)

  datatype Entry = RegisterTrainer | RegisterMember | Logout

  function ProfileCardOf(user: Option<User>): (c: Option<ProfileCard>)
    ensures c.Some? <==> user.Some?
    ensures c.Some? ==>
      c.value.name == user.value.name && |c.value.initials| <= 2 && |c.value.roleLabel| == |user.value.role|
    ensures c.Some? ==> c.value.initials == Prefix(Upper(WordStarts(user.value.name, true)), 2)
    ensures c.Some? && user.value.role != "" ==>
      c.value.roleLabel[0] == UpperChar(user.value.role[0]) && c.value.roleLabel[1..] == user.value.role[1..]
  {
    match user
    case None => None
    case Some(u) =>
      InitialsAreFirstTwoWordStarts(u.name);
      Some(ProfileCard(GetInitials(u.name), u.name, Capitalize(u.role)))
  }

  /** The entries listed below the card: "Register Trainer" for owners only, then the rest for everyone. */
  function Entries(user: Option<User>): (es: seq<Entry>)
    ensures RegisterTrainer in es <==> user.Some? && user.value.role == OwnerRole
    ensures RegisterMember in es && Logout in es
  {
    (if user.Some? && user.value.role == OwnerRole then [RegisterTrainer] else [])
    + [RegisterMember, Logout]
  }

  /** Where an entry leads; logging out goes to the login page. */
  function Target(e: Entry): (r: string)
    ensures r == "/register-trainer" <==> e == RegisterTrainer
    ensures r == "/new-member" <==> e == RegisterMember
    ensures r == "/login" <==> e == Logout
  {
    match e
    case RegisterTrainer => "/register-trainer"
    case RegisterMember => "/new-member"
    case Logout => "/login"
  }

  /** A trainer sees every entry but "Register Trainer". */
  lemma TrainerEntries(u: User)
    requires u.role == TrainerRole
    ensures Entries(Some(u)) == [RegisterMember, Logout]
  {
  }
}
