/**
 * The login form: its schema, the check of the server's reply, and the
 * credentials, storage writes, navigation and form errors each result leads
 * to.
 */
module SignIn {
  import opened JsValues
  import opened Domain
  import opened BlogApi
  import opened Schema
  import opened FormErrors
  import opened AuthSlice
  import Routes

  datatype SignInValues = SignInValues(email: string, password: string)

  /** The schema's errors; the e-mail format check is library code and only `required` is kept. */
  function Issues(v: SignInValues): map<string, Issue> {
    var withEmail := Put(map[], "email", StringIssue(Some(v.email), true, None, None));
    Put(withEmail, "password", StringIssue(Some(v.password), true, Some(6), None))
  }

  /** E-mail present and a password of at least six characters. */
  lemma SchemaBounds(v: SignInValues)
    ensures "email" in Issues(v) <==> v.email == ""
    ensures "password" in Issues(v) <==> |v.password| < 6
    ensures Issues(v) == map[] <==> v.email != "" && |v.password| >= 6
  {
  }

  function RequestBody(v: SignInValues): Body {
    UserEnvelope(UserFields(None, Some(v.email), Some(v.password), None, None, None))
  }

  const InvalidResponse := "Invalid server response"
  const LoginFailed := "Login failed. Please try again."
  /** The route the code opens after a 401. */
  const LoginRouteAsWritten := "/login"
  /** The login page's route, which the profile page also sends a signed-out user to. */
  const LoginRoute := "/sign-in"

  /** The route opened after a 401 as written is not one the router renders a page for. */
  lemma UnauthorizedRouteAsWrittenUnrouted()
    ensures !Routes.Routed(LoginRouteAsWritten)
  {
  }

  /** The login route the corrected handler opens is routed, to this same form. */
  lemma UnauthorizedRouteRouted()
    ensures Routes.Routed(LoginRoute) && !Routes.IsArticlePath(LoginRoute)
  {
  }
  const UserKey := "user"
  const TokenKey := "token"

  datatype Effect = LoggedIn(user: User, token: string) | Unauthorized | Failed(handling: Handling)

  /**
   * How a settled request ends. A reply without a user or with a falsy token
   * throws "Invalid server response", which has neither status nor data. A
   * 401 signs out before any form error; then the server's `errors`; then the
   * thrown message, or the fixed text when it is empty.
   */
  function Settle(outcome: Outcome<UserResponse>): (r: Effect)
    ensures r.LoggedIn? <==> outcome.Ok? && outcome.value.user.Some? && Truthy(outcome.value.user.value.token)
    ensures r.LoggedIn? ==> Some(r.user) == outcome.value.user && Some(r.token) == r.user.token && r.token != ""
    ensures outcome.Ok? && !r.LoggedIn? ==> r == Failed(RootError(InvalidResponse))
    ensures outcome.Err? ==> (r.Unauthorized? <==> outcome.failure.status == Some(401))
    ensures outcome.Err? && outcome.failure.status != Some(401) ==>
      r.Failed? && r.handling ==
        (if outcome.failure.errors.Some? then ServerFields(outcome.failure.errors.value)
         else RootError(RootMessage(outcome.failure, LoginFailed)))
  {
    match outcome
    case Ok(result) =>
      if result.user.Some? && result.user.value.token.Some? && result.user.value.token.value != "" then
        LoggedIn(result.user.value, result.user.value.token.value)
      else Failed(RootError(InvalidResponse))
    case Err(f) =>
      if f.status == Some(401) then Unauthorized
      else if f.errors.Some? then Failed(ServerFields(f.errors.value))
      else Failed(RootError(RootMessage(f, LoginFailed)))
  }

  /** The login's effect on the store and storage: credentials set, then the separate user and token keys written. */
  function LoginStep(s: Snapshot, user: User, token: string): Snapshot {
    var stored := SetCredentialsStep(s, Credentials(Some(user), Some(token), Some(true)));
    stored.(storage := stored.storage[UserKey := UserText(user)][TokenKey := TokenText(token)])
  }

  /** After a login the session holds the user and token, and a reload reproduces it: the extra keys are never read. */
  lemma LoginPersists(s: Snapshot, user: User, token: string)
    ensures LoginStep(s, user, token).session == Session(Some(user), Some(token), true)
    ensures Persisted(LoginStep(s, user, token))
    ensures LoadAuthState(LoginStep(s, user, token).storage) == LoadAuthState(SetCredentialsStep(s, Credentials(Some(user), Some(token), None)).storage)
  {
    var stored := SetCredentialsStep(s, Credentials(Some(user), Some(token), Some(true)));
    LoadIgnoresOtherKeys(stored.storage, UserKey, UserText(user));
    LoadIgnoresOtherKeys(stored.storage[UserKey := UserText(user)], TokenKey, TokenText(token));
  }

  /**
   * handleSubmit(onSubmit): a failing schema records its errors and sends
   * nothing. Otherwise the form is sent; a valid reply logs in, writes the
   * two extra keys and opens the list; a 401 logs out and opens the login
   * route (corrected from an unrouted path, see LoginRouteAsWritten) with no form error; any other failure fills the error object.
   */
  method HandleSubmit(form: Form, store: AuthStore, v: SignInValues, outcome: Outcome<UserResponse>)
    returns (request: Option<Request>, navigations: seq<string>)
    modifies form, store
    ensures Issues(v) != map[] ==>
      request.None? && navigations == [] && form.errors == SchemaErrors(Issues(v)) && store.Snap() == old(store.Snap())
    ensures Issues(v) == map[] ==> request == Some(Query(SignIn(RequestBody(v))))
    ensures Issues(v) == map[] && Settle(outcome).LoggedIn? ==>
      && store.Snap() == LoginStep(old(store.Snap()), Settle(outcome).user, Settle(outcome).token)
      && navigations == ["/"] && form.errors == map[]
    ensures Issues(v) == map[] && Settle(outcome).Unauthorized? ==>
      store.Snap() == ClearStep(old(store.Snap())) && navigations == [LoginRoute] && form.errors == map[]
    ensures Issues(v) == map[] && Settle(outcome).Failed? ==>
      && store.Snap() == old(store.Snap()) && navigations == []
      && form.errors == ErrorsAfter(map[], Settle(outcome).handling)
  {
    var issues := Issues(v);
    form.Validate(issues);
    navigations := [];
    if issues != map[] {
      request := None;
      return;
    }
    request := Some(Query(SignIn(RequestBody(v))));
    match Settle(outcome) {
      case LoggedIn(user, token) =>
        store.SetCredentials(Credentials(Some(user), Some(token), Some(true)));
        store.SetItem(UserKey, UserText(user));
        store.SetItem(TokenKey, TokenText(token));
        navigations := ["/"];
      case Unauthorized =>
        store.Logout();
        navigations := [LoginRoute];
      case Failed(h) =>
        form.Report(h);
    }
  }
}
