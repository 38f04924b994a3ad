/** Delivery attempts and their status events: what each transaction does, as functions on the two tables. */
module Deliveries {
  import opened Options

  datatype AttemptState = Pending | Unknown | Accepted | Sent | Delivered | Read | Failed

  datatype Attempt = Attempt(state: AttemptState, providerId: Option<string>, errorCode: Option<string>)

  /** Attempts carry every delivery status, and Pending besides. */
  type DeliveryStatus = s: AttemptState | s != Pending witness Unknown

  datatype StatusEvent = StatusEvent(attempt: string, providerId: Option<string>, status: DeliveryStatus)

  /** Attempts are keyed by their idempotency key, which the table keeps unique. */
  datatype DeliveryTables = DeliveryTables(attempts: map<string, Attempt>, events: set<StatusEvent>)

  datatype DeliveryResult =
    DeliveryResult(status: DeliveryStatus, providerId: Option<string>, errorCode: Option<string>)

  datatype Callback = Callback(providerId: string, status: DeliveryStatus, errorCode: Option<string>)

  /** What applying a callback reports; for several matching attempts the lookup raises. */
  datatype CallbackOutcome = Applied | Duplicate | IgnoredRegression | MissingAttempt | AmbiguousAttempt

  const DELIVERY_PREFIX := "reply:"

  /** The idempotency key of the reply to message `id`. */
  function DeliveryKey(id: string): (k: string)
    ensures DELIVERY_PREFIX <= k && k[|DELIVERY_PREFIX|..] == id
  {
    DELIVERY_PREFIX + id
  }

  predicate HasText(o: Option<string>) {
    o.Some? && o.value != ""
  }

  predicate IsSuccess(status: AttemptState) {
    status in {Accepted, Sent, Delivered, Read}
  }

  /** The delivery truth rule: what the result contract demands before a result can be built. */
  predicate Truthful(result: DeliveryResult) {
    && (result.status in {Failed, Unknown} ==> HasText(result.errorCode))
    && (result.status !in {Failed, Unknown} ==> result.errorCode.None?)
    && (IsSuccess(result.status) ==> HasText(result.providerId))
  }

  const FRESH_ATTEMPT := Attempt(Pending, None, None)

  /** `claim`: insert a pending attempt unless the key exists; the flag says whether it was created. */
  function ClaimKey(t: DeliveryTables, key: string): (result: (DeliveryTables, bool))
    ensures key in result.0.attempts
  {
    if key in t.attempts then (t, false)
    else (t.(attempts := t.attempts[key := FRESH_ATTEMPT]), true)
  }

  /** The result replayed for an attempt somebody else created; None when building it raises. */
  function ExistingResult(a: Attempt): (result: Option<DeliveryResult>)
    ensures result.Some? ==> Truthful(result.value)
  {
    var r := if a.state == Pending
             then DeliveryResult(Unknown, None, Some("DELIVERY_ALREADY_IN_PROGRESS"))
             else DeliveryResult(a.state, a.providerId, a.errorCode);
    if Truthful(r) then Some(r) else None
  }

  /** The uniqueness of (provider id, status) among events; absent provider ids never conflict. */
  predicate EventExists(events: set<StatusEvent>, providerId: string, status: DeliveryStatus) {
    exists e :: e in events && e.providerId == Some(providerId) && e.status == status
  }

  predicate EventConflicts(events: set<StatusEvent>, providerId: Option<string>, status: DeliveryStatus) {
    providerId.Some? && EventExists(events, providerId.value, status)
  }

  /** `finalize`: only a pending attempt takes the result. None is a raised error, with nothing stored. */
  function Finalize(t: DeliveryTables, key: string, r: DeliveryResult): (result: Option<DeliveryTables>) {
    if key !in t.attempts || t.attempts[key].state != Pending then None
    else if EventConflicts(t.events, r.providerId, r.status) then None
    else Some(DeliveryTables(t.attempts[key := Attempt(r.status, r.providerId, r.errorCode)],
                             t.events + {StatusEvent(key, r.providerId, r.status)}))
  }

  /** `_can_transition`. */
  predicate CanTransition(current: AttemptState, target: AttemptState) {
    match current
    case Accepted => target in {Sent, Delivered, Read, Failed}
    case Sent => target in {Delivered, Read, Failed}
    case Delivered => target == Read
    case _ => false
  }

  predicate Matches(t: DeliveryTables, key: string, providerId: string) {
    key in t.attempts && t.attempts[key].providerId == Some(providerId)
  }

  ghost predicate HasMatch(t: DeliveryTables, providerId: string) {
    exists key :: Matches(t, key, providerId)
  }

  ghost predicate SeveralMatch(t: DeliveryTables, providerId: string) {
    exists j, k :: Matches(t, j, providerId) && Matches(t, k, providerId) && j != k
  }

  /** At most one attempt per provider id. */
  ghost predicate UniqueProviders(t: DeliveryTables) {
    forall j, k, p :: Matches(t, j, p) && Matches(t, k, p) ==> j == k
  }

  /** The attempt a callback belongs to. */
  ghost function MatchOf(t: DeliveryTables, providerId: string): (key: string)
    requires HasMatch(t, providerId)
    ensures Matches(t, key, providerId)
  {
    var key :| Matches(t, key, providerId);
    key
  }

  /** `_apply_callback` on the attempt it found, as one transaction. */
  function ApplyTo(t: DeliveryTables, key: string, cb: Callback)
    : (result: (DeliveryTables, CallbackOutcome))
    requires key in t.attempts
  {
    if EventExists(t.events, cb.providerId, cb.status) then (t, Duplicate)
    else
      var logged := t.(events := t.events + {StatusEvent(key, Some(cb.providerId), cb.status)});
      if CanTransition(t.attempts[key].state, cb.status) then
        (logged.(attempts := t.attempts[key := t.attempts[key].(state := cb.status, errorCode := cb.errorCode)]),
         Applied)
      else (logged, IgnoredRegression)
  }

  /** `_apply_callback`: find the attempt, deduplicate the event, then move the attempt if allowed. */
  ghost function ApplyCallback(t: DeliveryTables, cb: Callback): (result: (DeliveryTables, CallbackOutcome)) {
    if !HasMatch(t, cb.providerId) then (t, MissingAttempt)
    else if SeveralMatch(t, cb.providerId) then (t, AmbiguousAttempt)
    else ApplyTo(t, MatchOf(t, cb.providerId), cb)
  }

  /** What the webhook normaliser lets through: a status Meta reports, with a code exactly when it failed. */
  predicate WellFormed(cb: Callback) {
    && cb.status in {Sent, Delivered, Read, Failed}
    && (cb.status == Failed ==> HasText(cb.errorCode))
    && (cb.status != Failed ==> cb.errorCode.None?)
  }
}
