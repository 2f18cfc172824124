/**
 * The revalidation trigger: an effect that depends on the session's
 * authentication flag and token, and dispatches `checkAuth` when both are
 * truthy. It runs on mount and whenever one of the two changes.
 */
module AutoUpdaterUser {
  import opened JsValues
  import opened Domain
  import opened AuthSlice

  /** The effect's guard. */
  predicate ShouldCheckAuth(s: Session) {
    s.isAuthenticated && Truthy(s.token)
  }

  /** The effect's dependencies changed between two renders. */
  predicate DepsChanged(before: Session, after: Session) {
    before.isAuthenticated != after.isAuthenticated || before.token != after.token
  }

  /** The effect dispatches `checkAuth`: on mount (no previous render) or after a dependency change, when the guard holds. */
  predicate Dispatches(previous: Option<Session>, current: Session) {
    (previous.None? || DepsChanged(previous.value, current)) && ShouldCheckAuth(current)
  }

  /** checkAuth is dispatched only when the flag and the token are both truthy. */
  lemma DispatchNeedsCredentials(previous: Option<Session>, current: Session)
    ensures Dispatches(previous, current) ==> current.isAuthenticated && current.token.Some? && current.token.value != ""
    ensures previous.None? ==> (Dispatches(previous, current) <==> ShouldCheckAuth(current))
  {
  }

  /** A logged-out or rejected session never triggers revalidation. */
  lemma ClearedNeverRevalidates(s: Snapshot, previous: Option<Session>)
    ensures !Dispatches(previous, ClearStep(s).session)
    ensures !Dispatches(previous, ApplyCheckAuth(s, Rejected("")).session)
  {
  }

  /** A fulfilled check changes only the user, so it cannot retrigger itself. */
  lemma FulfilledDoesNotRetrigger(s: Snapshot, user: User)
    requires ShouldCheckAuth(s.session)
    ensures !DepsChanged(s.session, FulfilledStep(s, user).session)
    ensures !Dispatches(Some(s.session), FulfilledStep(s, user).session)
  {
  }

  /**
   * Whatever the revalidation request produces, once its result is reduced the
   * effect does not dispatch again: a revalidation triggers at most one check.
   */
  lemma RevalidationSettles(s: Snapshot, result: BaseQueryResult)
    requires ShouldCheckAuth(s.session)
    ensures var after := ApplyCheckAuth(s, CheckAuth(s.session.token, result));
            !Dispatches(Some(s.session), after.session)
  {
    match CheckAuth(s.session.token, result)
    case Fulfilled(user) => FulfilledDoesNotRetrigger(s, user);
    case Rejected(_) =>
  }

  /**
   * New credentials trigger a check exactly when their token is truthy and the
   * session was unauthenticated before or held a different token.
   */
  lemma SetCredentialsTriggers(s: Snapshot, payload: Credentials)
    ensures Dispatches(Some(s.session), SetCredentialsStep(s, payload).session)
            <==> Truthy(payload.token) && (!s.session.isAuthenticated || s.session.token != payload.token)
  {
  }
}
