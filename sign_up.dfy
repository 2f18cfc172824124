/**
 * The registration form: its schema, the request it sends, and how the
 * result becomes stored credentials or form errors.
 */
module SignUp {
  import opened JsValues
  import opened Domain
  import opened BlogApi
  import opened Schema
  import opened FormErrors
  import opened AuthSlice

  /** The form's values; `agree` is absent until the checkbox reports a value. */
  datatype SignUpValues = SignUpValues(username: string, email: string, password: string, repeatPassword: string, agree: Option<bool>)

  /** `oneOf([ref('password'), null])` after `required`: the repeat must equal the password. */
  function RepeatIssue(v: SignUpValues): (r: Option<Issue>)
    ensures r.None? <==> v.repeatPassword != "" && v.repeatPassword == v.password
  {
    match StringIssue(Some(v.repeatPassword), true, None, None)
    case Some(issue) => Some(issue)
    case None => if v.repeatPassword == v.password then None else Some(Mismatch)
  }

  /** `boolean().oneOf([true])`: only an explicit false fails, an absent value is skipped. */
  function AgreeIssue(agree: Option<bool>): (r: Option<Issue>)
    ensures r.None? <==> agree != Some(false)
  {
    if agree == Some(false) then Some(NotAccepted) else None
  }

  /** The schema's errors; the e-mail format check is library code and only `required` is kept. */
  function Issues(v: SignUpValues): map<string, Issue> {
    var withUsername := Put(map[], "username", StringIssue(Some(v.username), true, Some(3), Some(20)));
    var withEmail := Put(withUsername, "email", StringIssue(Some(v.email), true, None, None));
    var withPassword := Put(withEmail, "password", StringIssue(Some(v.password), true, Some(6), Some(40)));
    var withRepeat := Put(withPassword, "repeatPassword", RepeatIssue(v));
    Put(withRepeat, "agree", AgreeIssue(v.agree))
  }

  /** Username 3 to 20, e-mail present, password 6 to 40, an equal repeat, and agreement not refused. */
  lemma SchemaBounds(v: SignUpValues)
    ensures "username" in Issues(v) <==> !(3 <= |v.username| <= 20)
    ensures "password" in Issues(v) <==> !(6 <= |v.password| <= 40)
    ensures "repeatPassword" in Issues(v) <==> v.repeatPassword == "" || v.repeatPassword != v.password
    ensures "agree" in Issues(v) <==> v.agree == Some(false)
    ensures Issues(v) == map[] <==>
      3 <= |v.username| <= 20 && v.email != "" && 6 <= |v.password| <= 40
      && v.repeatPassword == v.password && v.agree != Some(false)
  {
  }

  /** `{user: data}`: every form value is sent, the repeat and the checkbox included. */
  function RequestBody(v: SignUpValues): Body {
    UserEnvelope(UserFields(Some(v.username), Some(v.email), Some(v.password), None, Some(v.repeatPassword), v.agree))
  }

  const RegistrationFailed := "Registration failed. Please try again."

  datatype Effect = Registered(user: User) | Failed(handling: Handling)

  /**
   * How a settled request ends: a reply with a user registers it; a reply
   * without one throws when its token is read, which has no `data`, so it
   * ends like any failure without an `errors` payload.
   */
  function Settle(outcome: Outcome<UserResponse>): (r: Effect)
    ensures r.Registered? <==> outcome.Ok? && outcome.value.user.Some?
    ensures r.Registered? ==> r.user == outcome.value.user.value
    ensures r.Failed? && r.handling.ServerFields? <==> outcome.Err? && outcome.failure.errors.Some?
    ensures r.Failed? && r.handling.ServerFields? ==> r.handling.entries == outcome.failure.errors.value
    ensures r.Failed? && !r.handling.ServerFields? ==> r.handling == RootError(RegistrationFailed)
  {
    match outcome
    case Ok(response) =>
      if response.user.Some? then Registered(response.user.value) else Failed(RootError(RegistrationFailed))
    case Err(f) =>
      if f.errors.Some? then Failed(ServerFields(f.errors.value)) else Failed(RootError(RegistrationFailed))
  }

  /** A failure sets the manual root error exactly when it carries no `errors` payload, and then sets nothing else. */
  lemma RootErrorOnlyWithoutPayload(outcome: Outcome<UserResponse>)
    requires Settle(outcome).Failed?
    ensures var errors := ErrorsAfter(map[], Settle(outcome).handling);
      (RootKey in errors && errors[RootKey].Manual?) <==> !(outcome.Err? && outcome.failure.errors.Some?)
    ensures !(outcome.Err? && outcome.failure.errors.Some?) ==>
      ErrorsAfter(map[], Settle(outcome).handling) == map[RootKey := Manual(RegistrationFailed)]
  {
    var h := Settle(outcome).handling;
    if h.ServerFields? {
      ServerErrorsAreServer(map[], h.entries);
    }
  }

  /**
   * handleSubmit(onSubmit): a failing schema records its errors and sends
   * nothing; otherwise the form's values are sent, a registered user becomes
   * the credentials with its own token and the list is opened, and a failure
   * fills the error object.
   */
  method HandleSubmit(form: Form, store: AuthStore, v: SignUpValues, outcome: Outcome<UserResponse>)
    returns (request: Option<Request>, navigations: seq<string>)
    modifies form, store
    ensures Issues(v) != map[] ==>
      request.None? && navigations == [] && form.errors == SchemaErrors(Issues(v)) && store.Snap() == old(store.Snap())
    ensures Issues(v) == map[] ==> request == Some(Query(SignUp(RequestBody(v))))
    ensures Issues(v) == map[] && Settle(outcome).Registered? ==>
      var user := Settle(outcome).user;
      && store.Snap() == SetCredentialsStep(old(store.Snap()), Credentials(Some(user), user.token, None))
      && navigations == ["/"] && form.errors == map[]
    ensures Issues(v) == map[] && Settle(outcome).Failed? ==>
      && store.Snap() == old(store.Snap()) && navigations == []
      && form.errors == ErrorsAfter(map[], Settle(outcome).handling)
  {
    var issues := Issues(v);
    form.Validate(issues);
    navigations := [];
    if issues != map[] {
      request := None;
      return;
    }
    request := Some(Query(SignUp(RequestBody(v))));
    match Settle(outcome) {
      case Registered(user) =>
        store.SetCredentials(Credentials(Some(user), user.token, None));
        navigations := ["/"];
      case Failed(h) =>
        form.Report(h);
    }
  }
}
