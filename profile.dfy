/**
 * The profile editor: it loads the current user, fills the form from it, and
 * sends the changed profile; a 401 from either request signs out.
 */
module Profile {
  import opened JsValues
  import opened Domain
  import opened BlogApi
  import opened Schema
  import opened FormErrors
  import opened AuthSlice
  import AutoUpdaterUser

  /** The form's values; the password and the image are nullable. */
  datatype ProfileValues = ProfileValues(username: string, email: string, password: Option<string>, image: Option<string>)

  /** The image: null passes, the empty string fails `required`, anything else must match the explicit URL pattern. */
  function ImageIssue(image: Option<string>): (r: Option<Issue>)
    ensures r.None? <==> image.None? || (image.value != "" && MatchesHttpUrl(image.value))
  {
    match image
    case None => None
    case Some(s) => if s == "" then Some(Required) else if MatchesHttpUrl(s) then None else Some(BadUrl)
  }

  /** The password as the schema states it: optional, but a present value, even "", must be 6 to 40 characters. */
  function PasswordIssueAsWritten(password: Option<string>): Option<Issue> {
    StringIssue(password, false, Some(6), Some(40))
  }

  /**
   * The corrected password rule, which HandleSubmit uses: "" means unchanged, as
   * the payload's omission of an empty password shows. The schema as written
   * rejects "" (PasswordIssueAsWritten).
   */
  function PasswordIssue(password: Option<string>): (r: Option<Issue>)
    ensures r.None? <==> password.None? || password.value == "" || 6 <= |password.value| <= 40
  {
    if password == Some("") then None else PasswordIssueAsWritten(password)
  }

  function SchemaWith(v: ProfileValues, password: Option<Issue>): map<string, Issue> {
    var withUsername := Put(map[], "username", StringIssue(Some(v.username), true, None, Some(20)));
    var withEmail := Put(withUsername, "email", StringIssue(Some(v.email), true, None, None));
    var withPassword := Put(withEmail, "password", password);
    Put(withPassword, "image", ImageIssue(v.image))
  }

  /** The schema's errors as written; the e-mail and URL format checks are library code and left out. */
  function IssuesAsWritten(v: ProfileValues): map<string, Issue> {
    SchemaWith(v, PasswordIssueAsWritten(v.password))
  }

  /** The schema's errors with an empty password accepted. */
  function Issues(v: ProfileValues): map<string, Issue> {
    SchemaWith(v, PasswordIssue(v.password))
  }

  /** The corrected schema: username 1 to 20, e-mail present, password null, empty or 6 to 40, image null or a matching URL. */
  lemma SchemaBounds(v: ProfileValues)
    ensures "username" in Issues(v) <==> !(1 <= |v.username| <= 20)
    ensures "password" in Issues(v) <==> v.password.Some? && v.password.value != "" && !(6 <= |v.password.value| <= 40)
    ensures "image" in Issues(v) <==> !(v.image.None? || (v.image.value != "" && MatchesHttpUrl(v.image.value)))
    ensures Issues(v) == map[] <==>
      && 1 <= |v.username| <= 20 && v.email != ""
      && (v.password.None? || v.password.value == "" || 6 <= |v.password.value| <= 40)
      && (v.image.None? || (v.image.value != "" && MatchesHttpUrl(v.image.value)))
  {
  }

  /** The schema as written: username 1 to 20, e-mail present, password null or 6 to 40 (so "" fails), image null or a matching URL. */
  lemma SchemaBoundsAsWritten(v: ProfileValues)
    ensures "password" in IssuesAsWritten(v) <==> v.password.Some? && !(6 <= |v.password.value| <= 40)
    ensures IssuesAsWritten(v) == map[] <==>
      && 1 <= |v.username| <= 20 && v.email != ""
      && (v.password.None? || 6 <= |v.password.value| <= 40)
      && (v.image.None? || (v.image.value != "" && MatchesHttpUrl(v.image.value)))
  {
  }

  /** The two schemas differ only on an empty password. */
  lemma CorrectionOnlyOnEmptyPassword(v: ProfileValues)
    ensures v.password != Some("") ==> Issues(v) == IssuesAsWritten(v)
    ensures v.password == Some("") ==> "password" in IssuesAsWritten(v) && IssuesAsWritten(v)["password"] == TooShort(6)
  {
  }

  /** The reset effect's values: the user's fields with an empty password. */
  function ResetValues(u: User): ProfileValues {
    ProfileValues(u.username, u.email, Some(""), u.image)
  }

  /** As written, the form as reset from any user fails on its password, so an unedited profile cannot be submitted. */
  lemma ResetFormRejectedAsWritten(u: User)
    ensures "password" in IssuesAsWritten(ResetValues(u))
    ensures IssuesAsWritten(ResetValues(u)) != map[]
  {
  }

  /** With the empty password accepted, a profile reset from a well-formed user passes and sends no password. */
  lemma ResetFormAccepted(u: User)
    requires 1 <= |u.username| <= 20 && u.email != ""
    requires u.image.None? || (u.image.value != "" && MatchesHttpUrl(u.image.value))
    ensures Issues(ResetValues(u)) == map[]
    ensures UpdateData(ResetValues(u)).user.password.None?
  {
    SchemaBounds(ResetValues(u));
  }

  /** The request body: username and e-mail always, the password and the image only when truthy. */
  function UpdateData(v: ProfileValues): (r: Body)
    ensures r.UserEnvelope? && r.user.username == Some(v.username) && r.user.email == Some(v.email)
    ensures r.user.password.Some? <==> Truthy(v.password)
    ensures r.user.password.Some? ==> r.user.password == v.password
    ensures r.user.image.Some? <==> Truthy(v.image)
    ensures r.user.image.Some? ==> r.user.image == v.image
    ensures r.user.repeatPassword.None? && r.user.agree.None?
  {
    UserEnvelope(UserFields(
      Some(v.username), Some(v.email),
      if Truthy(v.password) then v.password else None,
      if Truthy(v.image) then v.image else None,
      None, None))
  }

  const UpdateFailed := "Update failed. Please try again."
  const SignInRoute := "/sign-in"
  /** The TypeError thrown when a property of an undefined reply is read. */
  const UndefinedReply := "Cannot read properties of undefined (reading 'user')"

  datatype Effect = Updated(user: User) | Unauthorized | Failed(handling: Handling)

  /**
   * How a settled update ends. The reply has already been reduced to the
   * user, so reading `user` and `token` from it gives no user and the user's
   * token; an undefined reply throws a TypeError with neither status nor data.
   */
  function Settle(outcome: Outcome<Option<User>>): (r: Effect)
    ensures r.Updated? <==> outcome.Ok? && outcome.value.Some?
    ensures r.Updated? ==> Some(r.user) == outcome.value
    ensures outcome.Ok? && outcome.value.None? ==> r == Failed(RootError(UndefinedReply))
    ensures outcome.Err? ==> (r.Unauthorized? <==> outcome.failure.status == Some(401))
    ensures outcome.Err? && outcome.failure.status != Some(401) ==>
      r.Failed? && r.handling ==
        (if outcome.failure.errors.Some? then ServerFields(outcome.failure.errors.value)
         else RootError(RootMessage(outcome.failure, UpdateFailed)))
  {
    match outcome
    case Ok(response) =>
      if response.Some? then Updated(response.value) else Failed(RootError(UndefinedReply))
    case Err(f) =>
      if f.status == Some(401) then Unauthorized
      else if f.errors.Some? then Failed(ServerFields(f.errors.value))
      else Failed(RootError(RootMessage(f, UpdateFailed)))
  }

  /** The credentials a successful update stores. */
  function UpdatedCredentials(reply: User): Credentials {
    Credentials(None, reply.token, None)
  }

  /**
   * A successful update empties the session's user and keeps it
   * authenticated; when the token is unchanged the revalidation effect does
   * not run, so the user stays empty.
   */
  lemma UpdateDropsUser(s: Snapshot, reply: User)
    ensures SetCredentialsStep(s, UpdatedCredentials(reply)).session == Session(None, reply.token, true)
    ensures s.session.isAuthenticated && s.session.token == reply.token ==>
      !AutoUpdaterUser.Dispatches(Some(s.session), SetCredentialsStep(s, UpdatedCredentials(reply)).session)
  {
  }

  /**
   * handleSubmit(onSubmit): a failing schema records its errors and sends
   * nothing. Otherwise the list is opened before the update is awaited, so
   * every outcome starts with it; success stores the credentials read from
   * the reply, a 401 logs out and opens the sign-in route, and any other
   * failure fills the error object.
   */
  method HandleSubmit(form: Form, store: AuthStore, v: ProfileValues, outcome: Outcome<Option<User>>)
    returns (request: Option<Request>, navigations: seq<string>)
    modifies form, store
    ensures Issues(v) != map[] ==>
      request.None? && navigations == [] && form.errors == SchemaErrors(Issues(v)) && store.Snap() == old(store.Snap())
    ensures Issues(v) == map[] ==> request == Some(Query(UpdateCurrentUser(UpdateData(v)))) && |navigations| >= 1 && navigations[0] == "/"
    ensures Issues(v) == map[] && Settle(outcome).Updated? ==>
      && store.Snap() == SetCredentialsStep(old(store.Snap()), UpdatedCredentials(Settle(outcome).user))
      && navigations == ["/"] && form.errors == map[]
    ensures Issues(v) == map[] && Settle(outcome).Unauthorized? ==>
      store.Snap() == ClearStep(old(store.Snap())) && navigations == ["/", SignInRoute] && form.errors == map[]
    ensures Issues(v) == map[] && Settle(outcome).Failed? ==>
      && store.Snap() == old(store.Snap()) && navigations == ["/"]
      && form.errors == ErrorsAfter(map[], Settle(outcome).handling)
  {
    var issues := Issues(v);
    form.Validate(issues);
    navigations := [];
    if issues != map[] {
      request := None;
      return;
    }
    request := Some(Query(UpdateCurrentUser(UpdateData(v))));
    navigations := ["/"];
    match Settle(outcome) {
      case Updated(reply) =>
        store.SetCredentials(UpdatedCredentials(reply));
      case Unauthorized =>
        store.Logout();
        navigations := navigations + [SignInRoute];
      case Failed(h) =>
        form.Report(h);
    }
  }

  /** The current-user query runs only with a truthy token. */
  function CurrentUserRequest(token: Option<string>): (r: Option<Request>)
    ensures r.Some? <==> Truthy(token)
    ensures r.Some? ==> r.value.verb == GET && r.value.url == "/user"
  {
    if Truthy(token) then Some(Query(GetCurrentUser)) else None
  }

  /** The reset effect: once the user is loaded the form takes its values; before that nothing is reset. */
  function ResetOnLoad(currentUser: Option<User>): (r: Option<ProfileValues>)
    ensures r.Some? <==> currentUser.Some?
    ensures r.Some? ==> r.value == ResetValues(currentUser.value)
  {
    match currentUser
    case None => None
    case Some(u) => Some(ResetValues(u))
  }

  /** The query-error effect: a 401 logs out and opens the sign-in route; other errors change nothing. */
  method HandleUserError(store: AuthStore, userError: Option<Failure>) returns (navigations: seq<string>)
    modifies store
    ensures userError.Some? && userError.value.status == Some(401) ==>
      store.Snap() == ClearStep(old(store.Snap())) && navigations == [SignInRoute]
    ensures !(userError.Some? && userError.value.status == Some(401)) ==>
      store.Snap() == old(store.Snap()) && navigations == []
  {
    navigations := [];
    if userError.Some? && userError.value.status == Some(401) {
      store.Logout();
      navigations := [SignInRoute];
    }
  }

  datatype ProfileView = RedirectToSignIn | LoadError | Loading | ProfileForm

  /** No token redirects; then a query error; then loading until the user arrives; then the form. */
  function Render(token: Option<string>, userError: Option<Failure>, currentUser: Option<User>): (r: ProfileView)
    ensures r == RedirectToSignIn <==> !Truthy(token)
    ensures r == LoadError <==> Truthy(token) && userError.Some?
    ensures r == Loading <==> Truthy(token) && userError.None? && currentUser.None?
    ensures r == ProfileForm <==> Truthy(token) && userError.None? && currentUser.Some?
  {
    if !Truthy(token) then RedirectToSignIn
    else if userError.Some? then LoadError
    else if currentUser.None? then Loading
    else ProfileForm
  }

  /** The form is shown only while the query runs, and only once it has a user to reset from. */
  lemma FormImpliesQueryAndReset(token: Option<string>, userError: Option<Failure>, currentUser: Option<User>)
    requires Render(token, userError, currentUser) == ProfileForm
    ensures CurrentUserRequest(token).Some?
    ensures ResetOnLoad(currentUser).Some?
  {
  }
}
