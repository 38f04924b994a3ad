/**
 The durable inbound-to-delivery protocol as a transition system. Any number of workers share the message
 table, the delivery tables and the lock; every label is one transaction, one provider call, one local
 computation or one environment event. Any worker may crash between two of them, and so may a webhook process
 between committing a callback and reporting it.
 */
module Protocol {
  import opened Options
  import opened Messages
  import opened Deliveries
  import opened Leases

  datatype Config = Config(maxAttempts: nat, claimTimeout: nat, leaseTtl: nat, retryDelay: nat)

  /** The snapshot a claim hands to its worker. */
  datatype Job = Job(id: string, scope: Scope, attempts: nat)

  /** How the locked section ended: a reply to deliver, or an exception. */
  datatype Verdict = Reply(text: string) | Raised(code: string)

  datatype ProviderOutcome = Answered(result: DeliveryResult) | Threw(code: string)

  /** Where a worker is inside `process_once`. */
  datatype Pc =
    | Idle
    | Claimed(job: Job)                              // about to acquire the lock
    | Locked(job: Job, token: nat)                   // about to look up the stored reply
    | Composing(job: Job, token: nat)                // no stored reply was found
    | Composed(job: Job, token: nat, text: string)   // about to store the reply
    | Releasing(job: Job, token: nat, verdict: Verdict)
    | Replied(job: Job, text: string)                // about to claim the delivery key
    | Sending(job: Job, text: string)                // created the attempt, about to call the provider
    | Finalizing(job: Job, result: DeliveryResult)   // has the provider's answer, about to store it
    | Settling(job: Job, result: DeliveryResult)     // about to complete or fail the message row
    | Handling(job: Job, code: string)               // inside the exception handler

  datatype Send = Send(key: string, text: string)
  datatype Telemetry = DeliverySucceeded | DeliveryFailed
  datatype Emission = Emission(key: string, kind: Telemetry)

  /** What happened so far; no step reads it. */
  datatype History = History(
    sends: seq<Send>,                  // every call of the provider
    emissions: seq<Emission>,          // callback telemetry
    dropped: set<Emission>,            // telemetry lost with the webhook process that owed it
    tokens: set<nat>,                  // lock tokens handed out
    providerIds: set<string>,          // provider ids handed out
    reclaims: map<string, nat>,        // stale claims taken over, per message
    retried: map<string, set<nat>>,    // job snapshots that put the message back to pending
    overtaken: set<Send>)              // replies composed while a different one was already stored

  datatype State = State(
    now: nat,
    messages: MessageTable,
    delivery: DeliveryTables,
    locks: map<Scope, Lease>,
    workers: map<nat, Pc>,
    reporting: set<Emission>,          // committed callbacks that have not reported yet
    history: History)

  datatype Label =
    | Ingest(id: string, scope: Scope, text: string)
    | Claim(w: nat, id: string)
    | Acquire(w: nat, token: nat)
    | LockUnavailable(w: nat)
    | Find(w: nat)
    | Compose(w: nat, text: string)
    | Record(w: nat)
    | Release(w: nat, reachable: bool)
    | DeliveryClaim(w: nat)
    | CallProvider(w: nat, outcome: ProviderOutcome)
    | Finalize(w: nat)
    | Settle(w: nat)
    | Handle(w: nat)
    | Raise(w: nat, code: string)
    | Crash(w: nat)
    | CallbackArrives(callback: Callback)
    | EmitReport(report: Emission)
    | LoseReport(report: Emission)
    | Tick(delta: nat)

  const INITIAL := State(0, map[], DeliveryTables(map[], {}), map[], map[], {},
                         History([], [], {}, {}, {}, map[], map[], {}))

  predicate WellConfigured(c: Config) {
    c.maxAttempts >= 1 && c.leaseTtl >= 1
  }

  function Reclaims(h: History, id: string): nat {
    if id in h.reclaims then h.reclaims[id] else 0
  }

  function Retried(h: History, id: string): set<nat> {
    if id in h.retried then h.retried[id] else {}
  }

  /** The worker exists and has a job in hand. */
  predicate Busy(s: State, w: nat) {
    w in s.workers && !s.workers[w].Idle?
  }

  /**
   Where a transaction, or a computation before it, can raise: everywhere but in the provider's hands and in the
   release of the lock, which answers Redis errors with a result.
   */
  predicate AwaitsDatabase(pc: Pc) {
    !pc.Idle? && !pc.Sending? && !pc.Releasing?
  }

  /** Provider answers: accepted under a new id, or failed or unknown with a reason and no id. */
  predicate Answerable(h: History, r: DeliveryResult) {
    && Truthful(r)
    && r.status in {Accepted, AttemptState.Failed, Unknown}
    && (if r.status == Accepted then r.providerId.Some? && r.providerId.value !in h.providerIds
        else r.providerId.None?)
  }

  /** When a label can happen. */
  predicate Enabled(c: Config, s: State, l: Label) {
    match l
    case Ingest(id, scope, text) => !IsReplyId(id)
    case Claim(w, id) =>
      && !Busy(s, w)
      && id in s.messages && Claimable(s.messages[id], s.now, c.claimTimeout)
    case Acquire(w, token) => w in s.workers && s.workers[w].Claimed? && token !in s.history.tokens
    case LockUnavailable(w) => w in s.workers && s.workers[w].Claimed?
    case Find(w) => w in s.workers && s.workers[w].Locked?
    case Compose(w, text) => w in s.workers && s.workers[w].Composing? && text != ""
    case Record(w) => w in s.workers && s.workers[w].Composed?
    case Release(w, reachable) => w in s.workers && s.workers[w].Releasing?
    case DeliveryClaim(w) => w in s.workers && s.workers[w].Replied?
    case CallProvider(w, outcome) =>
      && w in s.workers && s.workers[w].Sending?
      && (outcome.Answered? ==> Answerable(s.history, outcome.result))
    case Finalize(w) => w in s.workers && s.workers[w].Finalizing?
    case Settle(w) => w in s.workers && s.workers[w].Settling?
    case Handle(w) => w in s.workers && s.workers[w].Handling?
    case Raise(w, code) => w in s.workers && AwaitsDatabase(s.workers[w])
    case Crash(w) => Busy(s, w)
    case CallbackArrives(cb) => WellFormed(cb)
    case EmitReport(e) => e in s.reporting
    case LoseReport(e) => e in s.reporting
    case Tick(delta) => true
  }

  function At(s: State, w: nat, pc: Pc): State {
    s.(workers := s.workers[w := pc])
  }

  /**
   An exception inside the locked section still runs the release; outside it reaches the handler, and from there it
   escapes.
   */
  function Thrown(pc: Pc, code: string): Pc
    requires !pc.Idle?
  {
    if pc.Handling? then Idle
    else if pc.Locked? || pc.Composing? || pc.Composed? then Releasing(pc.job, pc.token, Raised(code))
    else Handling(pc.job, code)
  }

  function ErrorCodeOf(r: DeliveryResult): string {
    if HasText(r.errorCode) then r.errorCode.value else "delivery_failed"
  }

  const LOST_CLAIM := "runtimeerror"

  function TakeMessage(c: Config, s: State, w: nat, id: string): State
    requires Enabled(c, s, Claim(w, id))
  {
    var row := s.messages[id];
    var stale := row.status == Processing;
    var claimed := Messages.Claim(row, s.now);
    At(s, w, Claimed(Job(id, row.scope, claimed.attempts))).(
      messages := s.messages[id := claimed],
      history := if stale then s.history.(reclaims := s.history.reclaims[id := Reclaims(s.history, id) + 1])
                 else s.history)
  }

  function TakeLock(c: Config, s: State, w: nat, token: nat): State
    requires Enabled(c, s, Acquire(w, token))
  {
    var job := s.workers[w].job;
    var (locks, acquired) := Leases.Acquire(s.locks, job.scope, token, s.now, c.leaseTtl);
    At(s, w, if acquired then Locked(job, token) else Handling(job, "conversation_busy")).(
      locks := locks,
      history := s.history.(tokens := s.history.tokens + {token}))
  }

  function LookUpReply(c: Config, s: State, w: nat): State
    requires Enabled(c, s, Find(w))
  {
    var pc := s.workers[w];
    var id := ReplyId(pc.job.id);
    if id in s.messages && s.messages[id].text != ""
    then At(s, w, Releasing(pc.job, pc.token, Reply(s.messages[id].text)))
    else At(s, w, Composing(pc.job, pc.token))
  }

  function StoreReply(c: Config, s: State, w: nat): State
    requires Enabled(c, s, Record(w))
  {
    var pc := s.workers[w];
    var (messages, _) := InsertOutbound(s.messages, ReplyId(pc.job.id), pc.job.scope, pc.text);
    At(s, w, Releasing(pc.job, pc.token, Reply(pc.text))).(
      messages := messages,
      history := if messages[ReplyId(pc.job.id)].text == pc.text then s.history
                 else s.history.(overtaken := s.history.overtaken + {Send(DeliveryKey(pc.job.id), pc.text)}))
  }

  function LeaveLock(c: Config, s: State, w: nat, reachable: bool): State
    requires Enabled(c, s, Release(w, reachable))
  {
    var pc := s.workers[w];
    var next := match pc.verdict case Reply(text) => Replied(pc.job, text) case Raised(code) => Handling(pc.job, code);
    At(s, w, next).(
      locks := if reachable then Leases.Release(s.locks, pc.job.scope, pc.token, s.now).0 else s.locks)
  }

  function ClaimDelivery(c: Config, s: State, w: nat): State
    requires Enabled(c, s, DeliveryClaim(w))
  {
    var pc := s.workers[w];
    var key := DeliveryKey(pc.job.id);
    var (tables, created) := ClaimKey(s.delivery, key);
    if created then At(s, w, Sending(pc.job, pc.text)).(delivery := tables)
    else match ExistingResult(s.delivery.attempts[key])
         case Some(result) => At(s, w, Settling(pc.job, result))
         case None => At(s, w, Handling(pc.job, "validationerror"))
  }

  function Deliver(c: Config, s: State, w: nat, outcome: ProviderOutcome): State
    requires Enabled(c, s, CallProvider(w, outcome))
  {
    var pc := s.workers[w];
    var called := s.history.(sends := s.history.sends + [Send(DeliveryKey(pc.job.id), pc.text)]);
    match outcome
    case Answered(r) =>
      At(s, w, Finalizing(pc.job, r)).(
        history := if r.providerId.Some? then called.(providerIds := called.providerIds + {r.providerId.value})
                   else called)
    case Threw(code) => At(s, w, Handling(pc.job, code)).(history := called)
  }

  function StoreResult(c: Config, s: State, w: nat): State
    requires Enabled(c, s, Finalize(w))
  {
    var pc := s.workers[w];
    match Deliveries.Finalize(s.delivery, DeliveryKey(pc.job.id), pc.result)
    case Some(tables) => At(s, w, Settling(pc.job, pc.result)).(delivery := tables)
    case None => At(s, w, Handling(pc.job, LOST_CLAIM))
  }

  function SettleMessage(c: Config, s: State, w: nat): State
    requires Enabled(c, s, Settle(w))
  {
    var pc := s.workers[w];
    var updated := if IsSuccess(pc.result.status)
                   then Transition(s.messages, pc.job.id, Completed, None, None)
                   else Transition(s.messages, pc.job.id, ProcessingStatus.Failed, Some(ErrorCodeOf(pc.result)), None);
    match updated
    case Some(messages) => At(s, w, Idle).(messages := messages)
    case None => At(s, w, Handling(pc.job, LOST_CLAIM))
  }

  function PutBack(h: History, job: Job): History {
    h.(retried := h.retried[job.id := Retried(h, job.id) + {job.attempts}])
  }

  function HandleError(c: Config, s: State, w: nat): State
    requires Enabled(c, s, Handle(w))
  {
    var pc := s.workers[w];
    var retry := pc.job.attempts < c.maxAttempts;
    var updated := if retry
                   then Transition(s.messages, pc.job.id, ProcessingStatus.Pending, Some(pc.code),
                       Some(s.now + c.retryDelay))
                   else Transition(s.messages, pc.job.id, ProcessingStatus.Failed, Some(pc.code), None);
    match updated
    case Some(messages) =>
      At(s, w, Idle).(
        messages := messages,
        history := if retry then PutBack(s.history, pc.job) else s.history)
    case None => At(s, w, Idle)
  }

  /**
   The transaction of `apply_callback`; an applied DELIVERED or FAILED is still to be reported once it is committed.
   */
  ghost function ReceiveCallback(s: State, cb: Callback): State {
    var (tables, outcome) := ApplyCallback(s.delivery, cb);
    var loud := outcome == Applied && cb.status in {Delivered, AttemptState.Failed};
    s.(delivery := tables, reporting := if loud then s.reporting + {ReportOf(s, cb)} else s.reporting)
  }

  ghost function ReportOf(s: State, cb: Callback): Emission
    requires HasMatch(s.delivery, cb.providerId)
  {
    Emission(MatchOf(s.delivery, cb.providerId), if cb.status == Delivered then DeliverySucceeded else DeliveryFailed)
  }

  /** The state after a label. */
  ghost function Next(c: Config, s: State, l: Label): State
    requires Enabled(c, s, l)
  {
    match l
    case Ingest(id, scope, text) => s.(messages := InsertInbound(s.messages, id, scope, text, s.now).0)
    case Claim(w, id) => TakeMessage(c, s, w, id)
    case Acquire(w, token) => TakeLock(c, s, w, token)
    case LockUnavailable(w) => At(s, w, Handling(s.workers[w].job, "conversation_busy"))
    case Find(w) => LookUpReply(c, s, w)
    case Compose(w, text) => At(s, w, Composed(s.workers[w].job, s.workers[w].token, text))
    case Record(w) => StoreReply(c, s, w)
    case Release(w, reachable) => LeaveLock(c, s, w, reachable)
    case DeliveryClaim(w) => ClaimDelivery(c, s, w)
    case CallProvider(w, outcome) => Deliver(c, s, w, outcome)
    case Finalize(w) => StoreResult(c, s, w)
    case Settle(w) => SettleMessage(c, s, w)
    case Handle(w) => HandleError(c, s, w)
    case Raise(w, code) => At(s, w, Thrown(s.workers[w], code))
    case Crash(w) => At(s, w, Idle)
    case CallbackArrives(cb) => ReceiveCallback(s, cb)
    case EmitReport(e) =>
      s.(reporting := s.reporting - {e}, history := s.history.(emissions := s.history.emissions + [e]))
    case LoseReport(e) =>
      s.(reporting := s.reporting - {e}, history := s.history.(dropped := s.history.dropped + {e}))
    case Tick(delta) => s.(now := s.now + delta)
  }

  /** One step from s to t. */
  ghost predicate Steps(c: Config, s: State, l: Label, t: State) {
    Enabled(c, s, l) && t == Next(c, s, l)
  }

  /** A run: each label is enabled where it happens. */
  ghost predicate IsRun(c: Config, s: State, ls: seq<Label>)
    decreases |ls|
  {
    ls == [] || (Enabled(c, s, ls[0]) && IsRun(c, Next(c, s, ls[0]), ls[1..]))
  }

  ghost function Final(c: Config, s: State, ls: seq<Label>): State
    requires IsRun(c, s, ls)
    decreases |ls|
  {
    if ls == [] then s else Final(c, Next(c, s, ls[0]), ls[1..])
  }

  lemma {:induction false} TimeGoesOn(c: Config, s: State, ls: seq<Label>)
    requires IsRun(c, s, ls)
    ensures s.now <= Final(c, s, ls).now
    decreases |ls|
  {
    if ls != [] {
      TimeGoesOn(c, Next(c, s, ls[0]), ls[1..]);
    }
  }

  lemma {:induction false} RunSnoc(c: Config, s: State, ls: seq<Label>, l: Label)
    requires IsRun(c, s, ls) && Enabled(c, Final(c, s, ls), l)
    ensures IsRun(c, s, ls + [l]) && Final(c, s, ls + [l]) == Next(c, Final(c, s, ls), l)
    decreases |ls|
  {
    if ls == [] {
      assert ls + [l] == [l];
    } else {
      RunSnoc(c, Next(c, s, ls[0]), ls[1..], l);
      assert (ls + [l])[1..] == ls[1..] + [l];
    }
  }
}
