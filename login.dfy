/**
 * The sign-in page (src/pages/Login.tsx): blank credentials are refused before
 * any lookup, the provider's `login` receives the fields as typed, and every
 * failed sign-in shows the same message.
 */
module LoginPage {
  import opened Collections
  import opened Text
  import opened Auth

  datatype SubmitOutcome = ValidationError | LoginSucceeded | LoginFailed

  datatype View = RedirectHome | ShowForm

  const RequiredMessage := "Username and password are required"
  const InvalidCredentialsMessage := "Invalid username or password. Please try again."
  const WelcomeMessage := "Welcome to Dronacharya Gym!"

  /** A visitor who is already signed in is sent to the home route instead of the form. */
  function PageView(isAuthenticated: bool): (v: View)
    ensures v == RedirectHome <==> isAuthenticated
  {
    if isAuthenticated then RedirectHome else ShowForm
  }

  /** The outcome of a submit, given what `login` would answer for the fields as typed. */
  function SubmitDecision(username: string, password: string, loginOk: bool): (r: SubmitOutcome)
    ensures r == ValidationError <==> IsBlank(username) || IsBlank(password)
    ensures r == LoginSucceeded <==> !IsBlank(username) && !IsBlank(password) && loginOk
  {
    if IsBlank(username) || IsBlank(password) then ValidationError
    else if loginOk then LoginSucceeded
    else LoginFailed
  }

  /** The description of the toast each outcome shows. */
  function Message(o: SubmitOutcome): (m: string)
    ensures m == RequiredMessage <==> o == ValidationError
    ensures m == WelcomeMessage <==> o == LoginSucceeded
    ensures m == InvalidCredentialsMessage <==> o == LoginFailed
  {
    match o
    case ValidationError => RequiredMessage
    case LoginSucceeded => WelcomeMessage
    case LoginFailed => InvalidCredentialsMessage
  }

  /** The route a submit navigates to, if any. */
  function Navigation(o: SubmitOutcome): (r: Option<string>)
    ensures r.Some? <==> o == LoginSucceeded
    ensures r.Some? ==> r.value == "/"
  {
    if o == LoginSucceeded then Some("/") else None
  }

  /** The whole submit against a table, as the page and the provider run it together. */
  ghost function SubmitAgainst(users: Table, username: string, password: string, queryFails: bool): (r: SubmitOutcome)
    ensures r == ValidationError <==> IsBlank(username) || IsBlank(password)
    ensures r == LoginSucceeded <==>
      && !IsBlank(username) && !IsBlank(password) && !queryFails && UniqueUsername(users, username)
      && exists id :: id in users && users[id].username == username && users[id].password == password
  {
    SubmitDecision(username, password, LoginResult(users, username, password, queryFails).Some?)
  }

  /** Blank fields decide the outcome alone: whatever `login` would answer is never consulted. */
  lemma BlankFieldsNeverReachLogin(username: string, password: string, users: Table, f: bool)
    requires forall i :: 0 <= i < |username| ==> IsJsWhitespace(username[i])
    ensures SubmitAgainst(users, username, password, f) == ValidationError
    ensures Navigation(SubmitAgainst(users, username, password, f)).None?
  {
    BlankIffAllWhitespace(username);
  }

  /**
   * Unknown user, wrong password and query error all end in the same outcome
   * and the same message, so the page does not reveal which usernames exist.
   */
  lemma {:induction false} FailuresLookAlike(users: Table, username: string, password: string, queryFails: bool)
    requires !IsBlank(username) && !IsBlank(password)
    requires queryFails || forall id :: id in users && users[id].username == username ==> users[id].password != password
    ensures SubmitAgainst(users, username, password, queryFails) == LoginFailed
    ensures Message(SubmitAgainst(users, username, password, queryFails)) == InvalidCredentialsMessage
  {
    LoginFails(users, username, password, queryFails);
  }

  /** The username is not trimmed: a padded copy of a stored username does not sign in. */
  lemma {:induction false} PaddedUsernameDoesNotMatch(users: Table, id: string, password: string)
    requires id in users && users[id].username == "the gym"
    requires forall k :: k in users ==> users[k].username != " the gym"
    ensures SubmitAgainst(users, " the gym", password, false) != LoginSucceeded
  {
    LoginFails(users, " the gym", password, false);
  }

  class LoginForm {
    var username: string
    var password: string
    var isLoading: bool

    constructor ()
      ensures username == "" && password == "" && !isLoading
    {
      username, password, isLoading := "", "", false;
    }

    /** `handleSubmit`; `queryFails` stands for a failure of the provider's lookup. */
    method HandleSubmit(auth: AuthProvider, queryFails: bool) returns (outcome: SubmitOutcome, navigateTo: Option<string>)
      modifies this`isLoading, auth`user, auth`isLoading
      ensures !isLoading && auth.users == old(auth.users)
      ensures outcome == SubmitAgainst(auth.users, username, password, queryFails)
      ensures navigateTo == Navigation(outcome)
      ensures outcome == ValidationError ==> auth.user == old(auth.user) && auth.isLoading == old(auth.isLoading)
      ensures outcome != ValidationError ==>
        !auth.isLoading
        && auth.user == if outcome == LoginSucceeded then LoginResult(auth.users, username, password, queryFails) else old(auth.user)
    {
      isLoading := true;
      if IsBlank(username) || IsBlank(password) {
        outcome := ValidationError;
        navigateTo := None;
        isLoading := false;
        return;
      }
      var ok := auth.Login(username, password, queryFails);
      outcome := if ok then LoginSucceeded else LoginFailed;
      navigateTo := Navigation(outcome);
      isLoading := false;
    }
  }
}
