/**
 * The session store: the signed-in user, the bearer token and the
 * authentication flag, mirrored into one storage slot keyed "auth".
 * Loading and the revalidation decision are pure; the reducers update the
 * store's fields and the storage slot in place.
 */
module AuthSlice {
  import opened JsValues
  import opened Domain
  import opened BlogApi

  datatype Session = Session(user: Option<User>, token: Option<string>, isAuthenticated: bool)

  const EmptySession := Session(None, None, false)

  /**
   * A storage entry, by what its text holds: a serialized session record, a
   * serialized user, a raw token string, or text JSON.parse rejects.
   */
  datatype StoredValue = SessionText(session: Session) | UserText(user: User) | TokenText(text: string) | Corrupt

  /** Browser storage: key to stored text. */
  type Storage = map<string, StoredValue>

  const AuthKey := "auth"

  /**
   * The store's initial state. A missing entry, an empty text and a text
   * that does not parse all give the empty session; the function is total,
   * so loading never fails. Text that parses to something other than a
   * session record (a user, a token string) is also read as the empty
   * session, whereas the program would take the parsed value as its state.
   */
  function LoadAuthState(storage: Storage): Session {
    if AuthKey !in storage then EmptySession
    else match storage[AuthKey]
      case SessionText(s) => s
      case _ => EmptySession
  }

  /** With no "auth" entry, or a corrupt one, the loaded state is the empty session. */
  lemma LoadDefaults(storage: Storage)
    ensures AuthKey !in storage ==> LoadAuthState(storage) == Session(None, None, false)
    ensures AuthKey in storage && storage[AuthKey] in {Corrupt, TokenText("")} ==> LoadAuthState(storage) == EmptySession
  {
  }

  /** Loading reads only the "auth" entry: writing any other key leaves the loaded state as it was. */
  lemma LoadIgnoresOtherKeys(storage: Storage, key: string, value: StoredValue)
    requires key != AuthKey
    ensures LoadAuthState(storage[key := value]) == LoadAuthState(storage)
    ensures LoadAuthState(storage - {key}) == LoadAuthState(storage)
  {
  }

  /** What a `setCredentials` action carries; an `isAuthenticated` field in it is ignored. */
  datatype Credentials = Credentials(user: Option<User>, token: Option<string>, isAuthenticated: Option<bool>)

  /** The store's state together with browser storage. */
  datatype Snapshot = Snapshot(session: Session, storage: Storage)

  /** The in-memory session is what a reload would produce. */
  predicate Persisted(s: Snapshot) {
    LoadAuthState(s.storage) == s.session
  }

  function SetCredentialsStep(s: Snapshot, payload: Credentials): Snapshot {
    var session := Session(payload.user, payload.token, true);
    Snapshot(session, s.storage[AuthKey := SessionText(session)])
  }

  /** The effect of `logout` and of a rejected revalidation: identical in the source. */
  function ClearStep(s: Snapshot): Snapshot {
    Snapshot(EmptySession, s.storage - {AuthKey})
  }

  function FulfilledStep(s: Snapshot, user: User): Snapshot {
    var session := s.session.(user := Some(user), isAuthenticated := true);
    Snapshot(session, s.storage[AuthKey := SessionText(session)])
  }

  /**
   * setCredentials stores the payload's user and token, marks the session
   * authenticated whatever the token is, writes exactly that record, and a
   * reload gives the same session back.
   */
  lemma SetCredentialsRoundTrip(s: Snapshot, payload: Credentials, flag: Option<bool>)
    ensures var r := SetCredentialsStep(s, payload);
      && r.session == Session(payload.user, payload.token, true)
      && r.storage == s.storage[AuthKey := SessionText(r.session)]
      && LoadAuthState(r.storage) == r.session
      && SetCredentialsStep(s, payload.(isAuthenticated := flag)) == r
  {
  }

  /** Clearing empties the session, removes "auth" and nothing else, and doing it twice equals once. */
  lemma ClearIdempotent(s: Snapshot)
    ensures ClearStep(ClearStep(s)) == ClearStep(s)
    ensures ClearStep(s).session == EmptySession && AuthKey !in ClearStep(s).storage
    ensures forall k :: k != AuthKey && k in s.storage ==> k in ClearStep(s).storage && ClearStep(s).storage[k] == s.storage[k]
    ensures LoadAuthState(ClearStep(s).storage) == EmptySession
  {
  }

  /**
   * A fulfilled revalidation replaces the user, sets the flag, keeps the token,
   * and persists a record that holds the unchanged token.
   */
  lemma FulfilledKeepsToken(s: Snapshot, user: User)
    ensures var r := FulfilledStep(s, user);
      && r.session == Session(Some(user), s.session.token, true)
      && AuthKey in r.storage && r.storage[AuthKey] == SessionText(r.session)
      && LoadAuthState(r.storage) == r.session
  {
  }

  /** Every reducer leaves a state that a reload reproduces, and storing other keys keeps that so. */
  lemma ReducersPersist(s: Snapshot, payload: Credentials, user: User, key: string, value: StoredValue)
    ensures Persisted(SetCredentialsStep(s, payload))
    ensures Persisted(ClearStep(s))
    ensures Persisted(FulfilledStep(s, user))
    ensures Persisted(s) && key != AuthKey ==> Persisted(s.(storage := s.storage[key := value]))
  {
    if key != AuthKey {
      LoadIgnoresOtherKeys(s.storage, key, value);
    }
  }

  /** What fetchBaseQuery resolves to for GET /user, or a thrown error. */
  datatype BaseQueryResult = QueryData(user: Option<User>) | QueryError(message: Option<string>) | Thrown(error: string)

  datatype CheckAuthResult = Fulfilled(user: User) | Rejected(reason: string)

  /** The request `checkAuth` issues: none without a truthy token. */
  function CheckAuthRequest(token: Option<string>): Option<Request> {
    if Truthy(token) then Some(Query(GetCurrentUser)) else None
  }

  /** The `checkAuth` thunk's settlement, given the stored token and what the request produced. */
  function CheckAuth(token: Option<string>, result: BaseQueryResult): CheckAuthResult {
    if !Truthy(token) then Rejected("Token undefiend")
    else match result
      case QueryError(message) => Rejected(if Truthy(message) then message.value else "Authorization error")
      case Thrown(message) => Rejected(message)
      case QueryData(user) => if user.Some? then Fulfilled(user.value) else Rejected("Incorrect response format")
  }

  /** With a falsy token the thunk rejects with "Token undefiend", issues no request and ignores any response. */
  lemma CheckAuthWithoutToken(token: Option<string>, r1: BaseQueryResult, r2: BaseQueryResult)
    requires !Truthy(token)
    ensures CheckAuthRequest(token).None?
    ensures CheckAuth(token, r1) == CheckAuth(token, r2) == Rejected("Token undefiend")
  {
  }

  /**
   * With a truthy token the thunk issues GET /user and is fulfilled exactly when
   * the response carries `data.user`; an error result or a thrown error rejects.
   */
  lemma CheckAuthWithToken(token: Option<string>, result: BaseQueryResult)
    requires Truthy(token)
    ensures CheckAuthRequest(token) == Some(Request(GET, "/user", [], NoBody))
    ensures CheckAuth(token, result).Fulfilled? <==> result.QueryData? && result.user.Some?
    ensures result.QueryData? && result.user.Some? ==> CheckAuth(token, result).user == result.user.value
    ensures result.QueryError? && Truthy(result.message) ==> CheckAuth(token, result) == Rejected(result.message.value)
    ensures result.QueryError? && !Truthy(result.message) ==> CheckAuth(token, result) == Rejected("Authorization error")
    ensures result.Thrown? ==> CheckAuth(token, result) == Rejected(result.error)
    ensures result.QueryData? && result.user.None? ==> CheckAuth(token, result) == Rejected("Incorrect response format")
  {
  }

  /** The extra reducers: fulfilled stores the checked user, rejected clears the session. */
  function ApplyCheckAuth(s: Snapshot, result: CheckAuthResult): Snapshot {
    match result
    case Fulfilled(user) => FulfilledStep(s, user)
    case Rejected(_) => ClearStep(s)
  }

  /** Actions the components dispatch. */
  datatype AuthAction = SetCredentialsAction(payload: Credentials) | LogoutAction

  function Reduce(s: Snapshot, a: AuthAction): Snapshot {
    match a
    case SetCredentialsAction(payload) => SetCredentialsStep(s, payload)
    case LogoutAction => ClearStep(s)
  }

  /** The session store, whose reducers assign its fields and the storage slot in place. */
  class AuthStore {
    var user: Option<User>
    var token: Option<string>
    var isAuthenticated: bool
    var storage: Storage

    function Snap(): Snapshot
      reads this
    {
      Snapshot(Session(user, token, isAuthenticated), storage)
    }

    /** Reloading the page would reproduce the current state. */
    ghost predicate Valid()
      reads this
    {
      Persisted(Snap())
    }

    /** The store created at startup from whatever storage holds. */
    constructor (initial: Storage)
      ensures Snap() == Snapshot(LoadAuthState(initial), initial)
      ensures Valid()
    {
      var s := LoadAuthState(initial);
      user, token, isAuthenticated := s.user, s.token, s.isAuthenticated;
      storage := initial;
    }

    method SetCredentials(payload: Credentials)
      modifies this
      ensures Snap() == SetCredentialsStep(old(Snap()), payload)
      ensures Valid()
    {
      user := payload.user;
      token := payload.token;
      isAuthenticated := true;
      storage := storage[AuthKey := SessionText(Session(payload.user, payload.token, true))];
    }

    method Logout()
      modifies this
      ensures Snap() == ClearStep(old(Snap()))
      ensures Valid()
    {
      user := None;
      token := None;
      isAuthenticated := false;
      storage := storage - {AuthKey};
    }

    method CheckAuthFulfilled(checked: User)
      modifies this
      ensures Snap() == FulfilledStep(old(Snap()), checked)
      ensures Valid()
    {
      user := Some(checked);
      isAuthenticated := true;
      storage := storage[AuthKey := SessionText(Session(user, token, isAuthenticated))];
    }

    method CheckAuthRejected()
      modifies this
      ensures Snap() == ClearStep(old(Snap()))
      ensures Valid()
    {
      user := None;
      token := None;
      isAuthenticated := false;
      storage := storage - {AuthKey};
    }

    method Dispatch(a: AuthAction)
      modifies this
      ensures Snap() == Reduce(old(Snap()), a)
      ensures Valid()
    {
      match a
      case SetCredentialsAction(payload) => SetCredentials(payload);
      case LogoutAction => Logout();
    }

    /** A direct storage write by a component; the session is untouched. */
    method SetItem(key: string, value: StoredValue)
      modifies this
      ensures Snap() == old(Snap()).(storage := old(storage)[key := value])
      ensures old(Valid()) && key != AuthKey ==> Valid()
    {
      storage := storage[key := value];
      if key != AuthKey {
        LoadIgnoresOtherKeys(old(storage), key, value);
      }
    }
  }
}
