/**
 The conversation worker, transaction by transaction over the stores. Ghost states follow along: among any
 number of others that interfere between its transactions, what `process_once` does is a run of the protocol.
 */
module Worker {
  import opened Options
  import opened Messages
  import opened Deliveries
  import opened Leases
  import opened Protocol
  import opened ProtocolInvariants
  import opened Stores
  import opened Following

  // ---------- What a pass comes to when the worker is alone ----------

  /** The reply to the message is stored already. */
  predicate HasReply(messages: MessageTable, id: string) {
    ReplyId(id) in messages && messages[ReplyId(id)].text != ""
  }

  /** The reply is a row of its own conversation, unless there is one already. */
  function WithReply(messages: MessageTable, job: Job, verdict: Verdict): MessageTable {
    if verdict.Reply? && ReplyId(job.id) !in messages
    then messages[ReplyId(job.id) := Outbound(job.scope, verdict.text)] else messages
  }

  /** What the locked section comes to: the stored reply, or the composed one if it can be stored. */
  function LockedResponse(s: State, e: Environment, job: Job): Verdict {
    if e.outage(FindingReply).Some? then Raised(e.outage(FindingReply).value)
    else if HasReply(s.messages, job.id) then Reply(s.messages[ReplyId(job.id)].text)
    else
      match e.composition
      case Fails(code) => Raised(code)
      case Composes(text) =>
        if e.outage(RecordingReply).Some? then Raised(e.outage(RecordingReply).value) else Reply(text)
  }

  /** What responding comes to: nothing happens unless the lock can be reached and nobody holds it. */
  function Response(s: State, e: Environment, job: Job): Verdict {
    if !e.lockReachable || Held(s.locks, job.scope, s.now) then Raised("conversation_busy")
    else LockedResponse(s, e, job)
  }

  /** What delivering comes to: the replay of what is there, or the provider's answer if it can be stored. */
  function SendResult(d: DeliveryTables, e: Environment, job: Job): Option<DeliveryResult> {
    var key := DeliveryKey(job.id);
    if e.outage(ClaimingKey).Some? then None
    else if key in d.attempts then ExistingResult(d.attempts[key])
    else if e.provider.Answered? && e.outage(StoringAnswer).None? then Some(e.provider.result)
    else None
  }

  /** Why delivering comes to nothing. */
  function SendProblem(d: DeliveryTables, e: Environment, job: Job): string {
    if e.outage(ClaimingKey).Some? then e.outage(ClaimingKey).value
    else if DeliveryKey(job.id) in d.attempts then "validationerror"
    else
      match e.provider
      case Threw(code) => code
      case Answered(_) => if e.outage(StoringAnswer).Some? then e.outage(StoringAnswer).value else LOST_CLAIM
  }

  /** Why the pass for a job does not complete its message. */
  function Reason(s: State, e: Environment, job: Job): string {
    if Response(s, e, job).Raised? then Response(s, e, job).code
    else if SendResult(s.delivery, e, job).None? then SendProblem(s.delivery, e, job)
    else if e.outage(SettlingRow).Some? then e.outage(SettlingRow).value
    else ErrorCodeOf(SendResult(s.delivery, e, job).value)
  }

  /** The pass for a job ends with its message completed. */
  predicate Completes(s: State, e: Environment, job: Job) {
    && Response(s, e, job).Reply?
    && SendResult(s.delivery, e, job).Some? && IsSuccess(SendResult(s.delivery, e, job).value.status)
    && e.outage(SettlingRow).None?
  }

  /** How the row of the message stands when the worker was alone: completed, or the reason kept. */
  predicate Ends(row: MessageRow, s: State, e: Environment, job: Job) {
    && row.Inbound? && (row.status == Completed <==> Completes(s, e, job))
    && (row.status != Completed ==> row.errorCode == Some(Reason(s, e, job)))
  }

  /**
   A message is completed exactly if its conversation is free, its reply is stored or composed and recorded, it was
   accepted before or is now, and every transaction on that way succeeds.
   */
  lemma CompletesExactly(s: State, e: Environment, job: Job)
    requires DeliveryOk(s) && AnswerFits(s.history, e)
    ensures var key, reply := DeliveryKey(job.id), ReplyId(job.id);
            Completes(s, e, job) <==>
              && e.lockReachable && !(job.scope in s.locks && s.now < s.locks[job.scope].expires)
              && e.outage(FindingReply) == e.outage(ClaimingKey) == e.outage(SettlingRow) == None
              && ((reply in s.messages && s.messages[reply].text != "") ||
                  (e.composition.Composes? && e.outage(RecordingReply) == None))
              && (key in s.delivery.attempts ==>
                    s.delivery.attempts[key].state in {Accepted, Sent, Delivered, Read})
              && (key !in s.delivery.attempts ==>
                    e.provider.Answered? && e.provider.result.status == Accepted && e.outage(StoringAnswer) == None)
  {
  }

  // ---------- Delivering once ----------

  class IdempotentDeliveryService {
    const store: DeliveryStore

    constructor (store: DeliveryStore)
      ensures this.store == store
    {
      this.store := store;
    }

    /** Claims the key, calls the provider only if it created the attempt, and stores the answer. */
    method Send(x: Site, job: Job, text: string, e: Environment, ghost alone: bool, ghost s: State, ghost s': State)
      returns (result: Option<DeliveryResult>, code: string, ghost t: State)
      requires x.db == store.db && Along(x, alone, s, s') && Stands(x, s', Replied(job, text)) &&
               AnswerFits(s'.history, e)
      modifies x.db, x.server, x.clock
      ensures Along(x, alone, s, t) && Quiet(alone, job.id, e, s', t)
      ensures Stands(x, t, match result case Some(r) => Settling(job, r) case None => Handling(job, code))
      ensures alone && DeliveryOk(s) ==>
                && result == SendResult(s'.delivery, e, job) && t.messages == s'.messages
                && (result.None? ==> code == SendProblem(s'.delivery, e, job))
    {
      var created;
      created, result, code, t := ClaimAttempt(x, job, text, e, alone, s, s');
      if created {
        var answer;
        answer, code, t := CallAdapter(x, job, text, e, alone, s, t);
        if answer.Some? {
          result, code, t := StoreAnswer(x, job, answer.value, e, alone, s, t);
        } else {
          result := None;
        }
      }
    }

    /** One transaction: a new attempt under the key, or the replay of the one that is there. */
    method ClaimAttempt(x: Site, job: Job, text: string, e: Environment, ghost alone: bool, ghost s: State,
                        ghost s': State)
      returns (created: bool, result: Option<DeliveryResult>, code: string, ghost t: State)
      requires x.db == store.db && Along(x, alone, s, s') && Stands(x, s', Replied(job, text)) &&
               AnswerFits(s'.history, e)
      modifies x.db, x.server, x.clock
      ensures Along(x, alone, s, t) && Quiet(alone, job.id, e, s', t) && AnswerFits(t.history, e)
      ensures Stands(x, t, if created then Sending(job, text)
              else match result case Some(r) => Settling(job, r) case None => Handling(job, code))
      ensures alone ==> t.messages == s'.messages
      ensures alone ==> (created <==> e.outage(ClaimingKey).None? && DeliveryKey(job.id) !in s'.delivery.attempts)
      ensures alone && !created ==> t.delivery == s'.delivery && result == SendResult(s'.delivery, e, job)
      ensures alone && !created && result.None? ==> code == SendProblem(s'.delivery, e, job)
    {
      t := Interfere(x, e, alone, s, s');
      if e.outage(ClaimingKey).Some? {
        created, result, code := false, None, e.outage(ClaimingKey).value;
        t := Raises(x.c, x.w, alone, s, t, code);
        return;
      }
      code := "validationerror";
      created, result, t := ClaimRow(x, job, text, alone, s, t);
    }

    method ClaimRow(x: Site, job: Job, text: string, ghost alone: bool, ghost s: State, ghost s': State)
      returns (created: bool, result: Option<DeliveryResult>, ghost t: State)
      requires x.db == store.db && Along(x, alone, s, s') && Stands(x, s', Replied(job, text))
      modifies x.db`delivery
      ensures Along(x, alone, s, t) && t == ClaimDelivery(x.c, s', x.w)
      ensures created <==> DeliveryKey(job.id) !in s'.delivery.attempts
      ensures result == if created then None else ExistingResult(s'.delivery.attempts[DeliveryKey(job.id)])
    {
      var attempt;
      created, attempt := store.Claim(DeliveryKey(job.id));
      result := if created then None else ExistingResult(attempt);
      t := Advance(x.c, x.w, alone, s, s', DeliveryClaim(x.w));
    }

    /** The call of the provider, outside any transaction. */
    method CallAdapter(x: Site, job: Job, text: string, e: Environment, ghost alone: bool, ghost s: State,
                       ghost s': State)
      returns (answer: Option<DeliveryResult>, code: string, ghost t: State)
      requires x.db == store.db && Along(x, alone, s, s') && Stands(x, s', Sending(job, text)) &&
               AnswerFits(s'.history, e)
      modifies x.db, x.server, x.clock
      ensures Along(x, alone, s, t) && Quiet(alone, job.id, e, s', t)
      ensures Stands(x, t, match answer case Some(r) => Finalizing(job, r) case None => Handling(job, code))
      ensures alone ==> Untouched(s', t)
      ensures answer == if e.provider.Answered? then Some(e.provider.result) else None
      ensures e.provider.Threw? ==> code == e.provider.code
    {
      t := Interfere(x, e, alone, s, s');
      x.clock.Elapse(e.answering);
      t := Wait(x.c, x.w, alone, s, t, e.answering);
      t := Advance(x.c, x.w, alone, s, t, CallProvider(x.w, e.provider));
      match e.provider
      case Threw(problem) => answer, code := None, problem;
      case Answered(r) => answer, code := Some(r), "";
    }

    /** One transaction: the answer is stored in the pending attempt. */
    method StoreAnswer(x: Site, job: Job, answer: DeliveryResult, e: Environment, ghost alone: bool, ghost s: State,
                       ghost s': State)
      returns (result: Option<DeliveryResult>, code: string, ghost t: State)
      requires x.db == store.db && Along(x, alone, s, s') && Stands(x, s', Finalizing(job, answer))
      modifies x.db, x.server, x.clock
      ensures Along(x, alone, s, t) && Quiet(alone, job.id, e, s', t)
      ensures Stands(x, t, match result case Some(r) => Settling(job, r) case None => Handling(job, code))
      ensures alone ==> t.messages == s'.messages
      ensures alone && DeliveryOk(s) ==> result == if e.outage(StoringAnswer).None? then Some(answer) else None
      ensures e.outage(StoringAnswer).Some? ==> code == e.outage(StoringAnswer).value
    {
      if alone && DeliveryOk(s) {
        AnswerCanBeStored(x.c, x.w, s, s');
      }
      t := Interfere(x, e, alone, s, s');
      if e.outage(StoringAnswer).Some? {
        result, code := None, e.outage(StoringAnswer).value;
        t := Raises(x.c, x.w, alone, s, t, code);
        return;
      }
      code := LOST_CLAIM;
      result, t := StoreRow(x, job, answer, alone, s, t);
    }

    method StoreRow(x: Site, job: Job, answer: DeliveryResult, ghost alone: bool, ghost s: State, ghost s': State)
      returns (result: Option<DeliveryResult>, ghost t: State)
      requires x.db == store.db && Along(x, alone, s, s') && Stands(x, s', Finalizing(job, answer))
      modifies x.db`delivery
      ensures Along(x, alone, s, t) && t == StoreResult(x.c, s', x.w)
      ensures result == if Deliveries.Finalize(s'.delivery, DeliveryKey(job.id), answer).Some? then Some(answer)
              else None
    {
      var ok := store.Finalize(DeliveryKey(job.id), answer);
      result := if ok then Some(answer) else None;
      t := Advance(x.c, x.w, alone, s, s', Label.Finalize(x.w));
    }
  }

  /** Left alone, the worker that created the attempt finds it pending when it stores the answer. */
  lemma AnswerCanBeStored(c: Config, w: nat, s: State, t: State)
    requires Follows(c, w, true, s, t) && DeliveryOk(s) && w in t.workers && t.workers[w].Finalizing?
    ensures var key, r := DeliveryKey(t.workers[w].job.id), t.workers[w].result;
            Deliveries.Finalize(t.delivery, key, r).Some?
  {
    FollowingKeeps(c, w, true, s, t);
    FinalizeKeepsTables(t.delivery, t.history, DeliveryKey(t.workers[w].job.id), t.workers[w].result);
  }

  // ---------- Composing one reply under the lock ----------

  class ConversationOrchestrator {
    const lock: ConversationLock
    const repository: ConversationRepository

    constructor (lock: ConversationLock, repository: ConversationRepository)
      ensures this.lock == lock && this.repository == repository
    {
      this.lock, this.repository := lock, repository;
    }

    predicate Serves(x: Site) {
      x.db == repository.db && x.server == lock.server && x.c.leaseTtl == lock.ttl
    }

    /** The stored reply, or a new one that it stores; the lock is left on every path that took it. */
    method RespondPersisted(x: Site, job: Job, e: Environment, ghost alone: bool, ghost s: State, ghost s': State)
      returns (verdict: Verdict, ghost t: State)
      requires Serves(x) && Possible(e) && Fresh(s'.history, e) && Along(x, alone, s, s') && Stands(x, s', Claimed(job))
      modifies x.db, x.server, x.clock
      ensures Along(x, alone, s, t) && Quiet(alone, job.id, e, s', t) && AnswerFits(t.history, e)
      ensures Stands(x, t, match verdict case Reply(text) => Replied(job, text) case Raised(code) => Handling(job,
              code))
      ensures e.releaseReachable && (TokensOk(s) || verdict != Raised("conversation_busy")) ==>
                !HeldBy(x.server.locks, job.scope, e.token, x.clock.now)
      ensures alone ==> verdict == Response(s', e, job) && t.delivery == s'.delivery
      ensures alone ==> t.messages == WithReply(s'.messages, job, verdict)
    {
      var acquired;
      acquired, t := TakeLock(x, job, e, alone, s, s');
      if acquired {
        ghost var locked := t;
        verdict, t := RespondAndLeave(x, job, e, alone, s, t);
        QuietChain(alone, job.id, e, s', locked, t);
      } else {
        verdict := Raised("conversation_busy");
      }
    }

    /** The locked section and its end: whatever happens inside, the lock is left. */
    method RespondAndLeave(x: Site, job: Job, e: Environment, ghost alone: bool, ghost s: State, ghost s': State)
      returns (verdict: Verdict, ghost t: State)
      requires Serves(x) && Possible(e) && Along(x, alone, s, s') && Stands(x, s', Locked(job, e.token)) &&
               AnswerFits(s'.history, e)
      modifies x.db, x.server, x.clock
      ensures Along(x, alone, s, t) && Quiet(alone, job.id, e, s', t) && AnswerFits(t.history, e)
      ensures Stands(x, t, match verdict case Reply(text) => Replied(job, text) case Raised(code) => Handling(job,
              code))
      ensures e.releaseReachable ==> !HeldBy(x.server.locks, job.scope, e.token, x.clock.now)
      ensures alone ==> verdict == LockedResponse(s', e, job) && t.delivery == s'.delivery
      ensures alone ==> t.messages == WithReply(s'.messages, job, verdict)
    {
      verdict, t := RespondLocked(x, job, e, alone, s, s');
      ghost var ready := t;
      t := LeaveLock(x, job, verdict, e, alone, s, t);
      QuietChain(alone, job.id, e, s', ready, t);
    }

    method TakeLock(x: Site, job: Job, e: Environment, ghost alone: bool, ghost s: State, ghost s': State)
      returns (acquired: bool, ghost t: State)
      requires Serves(x) && Fresh(s'.history, e) && Along(x, alone, s, s') && Stands(x, s', Claimed(job))
      modifies x.db, x.server, x.clock
      ensures Along(x, alone, s, t) && Quiet(alone, job.id, e, s', t) && AnswerFits(t.history, e)
      ensures Stands(x, t, if acquired then Locked(job, e.token) else Handling(job, "conversation_busy"))
      ensures !acquired && TokensOk(s) ==> !HeldBy(x.server.locks, job.scope, e.token, x.clock.now)
      ensures acquired && x.c.leaseTtl >= 1 ==> HeldBy(x.server.locks, job.scope, e.token, x.clock.now)
      ensures alone ==> Untouched(s', t) && (acquired <==> e.lockReachable && !Held(s'.locks, job.scope, s'.now))
    {
      t := Interfere(x, e, alone, s, s');
      NewTokenHoldsNothing(x.c, x.w, alone, s, t, job.scope, e.token);
      acquired, t := AcquireLock(x, job, e.token, e.lockReachable, alone, s, t);
    }

    method AcquireLock(x: Site, job: Job, token: nat, reachable: bool, ghost alone: bool, ghost s: State,
                       ghost s': State)
      returns (acquired: bool, ghost t: State)
      requires Serves(x) && Along(x, alone, s, s') && Stands(x, s', Claimed(job)) && token !in s'.history.tokens
      modifies x.server
      ensures Along(x, alone, s, t) && acquired == (reachable && !Held(s'.locks, job.scope, s'.now))
      ensures t == if reachable then Protocol.TakeLock(x.c, s', x.w, token)
              else At(s', x.w, Handling(job, "conversation_busy"))
    {
      var status := lock.Acquire(job.scope, token, x.clock.now, reachable);
      acquired := status == Acquired;
      t := Advance(x.c, x.w, alone, s, s', if reachable then Label.Acquire(x.w, token) else LockUnavailable(x.w));
    }

    /**
     Leaving the lock never fails, and frees the conversation after a reply and after an exception; if Redis is away
     the lease runs out.
     */
    method LeaveLock(x: Site, job: Job, verdict: Verdict, e: Environment, ghost alone: bool, ghost s: State,
                     ghost s': State)
      returns (ghost t: State)
      requires Serves(x) && Along(x, alone, s, s') && Stands(x, s', Releasing(job, e.token, verdict)) &&
               AnswerFits(s'.history, e)
      modifies x.db, x.server, x.clock
      ensures Along(x, alone, s, t) && Quiet(alone, job.id, e, s', t) && AnswerFits(t.history, e)
      ensures Stands(x, t, match verdict case Reply(text) => Replied(job, text) case Raised(code) => Handling(job,
              code))
      ensures e.releaseReachable ==> !HeldBy(x.server.locks, job.scope, e.token, x.clock.now)
      ensures alone ==> Untouched(s', t)
    {
      t := Interfere(x, e, alone, s, s');
      lock.Release(job.scope, e.token, x.clock.now, e.releaseReachable);
      t := Advance(x.c, x.w, alone, s, t, Label.Release(x.w, e.releaseReachable));
    }

    /** The part between taking and leaving the lock. */
    method RespondLocked(x: Site, job: Job, e: Environment, ghost alone: bool, ghost s: State, ghost s': State)
      returns (verdict: Verdict, ghost t: State)
      requires Serves(x) && Possible(e) && Along(x, alone, s, s') && Stands(x, s', Locked(job, e.token)) &&
               AnswerFits(s'.history, e)
      modifies x.db, x.server, x.clock
      ensures Along(x, alone, s, t) && Quiet(alone, job.id, e, s', t) && AnswerFits(t.history, e)
      ensures Stands(x, t, Releasing(job, e.token, verdict))
      ensures alone ==> verdict == LockedResponse(s', e, job) && t.delivery == s'.delivery
      ensures alone ==> t.messages == WithReply(s'.messages, job, verdict)
    {
      var found;
      found, t := FindReply(x, job, e, alone, s, s');
      if found.Some? {
        return found.value, t;
      }
      verdict, t := ComposeReply(x, job, e, alone, s, t);
      match verdict
      case Raised(_) =>
      case Reply(text) => verdict, t := RecordReply(x, job, text, e, alone, s, t);
    }

    /** One transaction: the stored reply, if there is one with a text. */
    method FindReply(x: Site, job: Job, e: Environment, ghost alone: bool, ghost s: State, ghost s': State)
      returns (found: Option<Verdict>, ghost t: State)
      requires Serves(x) && Along(x, alone, s, s') && Stands(x, s', Locked(job, e.token)) && AnswerFits(s'.history, e)
      modifies x.db, x.server, x.clock
      ensures Along(x, alone, s, t) && Quiet(alone, job.id, e, s', t) && AnswerFits(t.history, e)
      ensures Stands(x, t, if found.Some? then Releasing(job, e.token, found.value) else Composing(job, e.token))
      ensures e.outage(FindingReply).Some? ==> found == Some(Raised(e.outage(FindingReply).value))
      ensures alone ==> Untouched(s', t)
      ensures alone && e.outage(FindingReply).None? ==>
                found == if HasReply(s'.messages, job.id) then Some(Reply(s'.messages[ReplyId(job.id)].text)) else None
    {
      t := Interfere(x, e, alone, s, s');
      if e.outage(FindingReply).Some? {
        found := Some(Raised(e.outage(FindingReply).value));
        t := Raises(x.c, x.w, alone, s, t, e.outage(FindingReply).value);
        return;
      }
      var existing := repository.FindMessage(ReplyId(job.id));
      found := if existing.Some? && existing.value.text != "" then Some(Reply(existing.value.text)) else None;
      t := Advance(x.c, x.w, alone, s, t, Find(x.w));
    }

    /** Composition takes its time and may raise. */
    method ComposeReply(x: Site, job: Job, e: Environment, ghost alone: bool, ghost s: State, ghost s': State)
      returns (verdict: Verdict, ghost t: State)
      requires Serves(x) && Possible(e) && Along(x, alone, s, s') && Stands(x, s', Composing(job, e.token)) &&
               AnswerFits(s'.history, e)
      modifies x.db, x.server, x.clock
      ensures Along(x, alone, s, t) && Quiet(alone, job.id, e, s', t) && AnswerFits(t.history, e)
      ensures Stands(x, t, match verdict case Reply(text) => Composed(job, e.token,
              text) case Raised(_) => Releasing(job, e.token, verdict))
      ensures verdict == match e.composition case Fails(code) => Raised(code) case Composes(text) => Reply(text)
      ensures alone ==> Untouched(s', t)
    {
      t := Interfere(x, e, alone, s, s');
      x.clock.Elapse(e.composing);
      t := Wait(x.c, x.w, alone, s, t, e.composing);
      match e.composition
      case Fails(code) =>
        t := Raises(x.c, x.w, alone, s, t, code);
        verdict := Raised(code);
      case Composes(text) =>
        t := Advance(x.c, x.w, alone, s, t, Compose(x.w, text));
        verdict := Reply(text);
    }

    /** One transaction: the reply is stored; whether it was the first one makes no difference to the caller. */
    method RecordReply(x: Site, job: Job, text: string, e: Environment, ghost alone: bool, ghost s: State,
                       ghost s': State)
      returns (verdict: Verdict, ghost t: State)
      requires Serves(x) && Along(x, alone, s, s') && Stands(x, s', Composed(job, e.token, text)) &&
               AnswerFits(s'.history, e)
      modifies x.db, x.server, x.clock
      ensures Along(x, alone, s, t) && Quiet(alone, job.id, e, s', t) && AnswerFits(t.history, e)
      ensures Stands(x, t, Releasing(job, e.token, verdict))
      ensures verdict == if e.outage(RecordingReply).Some? then Raised(e.outage(RecordingReply).value) else Reply(text)
      ensures alone ==>
                t.delivery == s'.delivery && t.messages == WithReply(s'.messages, job, verdict)
    {
      t := Interfere(x, e, alone, s, s');
      if e.outage(RecordingReply).Some? {
        verdict := Raised(e.outage(RecordingReply).value);
        t := Raises(x.c, x.w, alone, s, t, e.outage(RecordingReply).value);
        return;
      }
      var _ := repository.RecordOutbound(ReplyId(job.id), job.scope, text);
      verdict := Reply(text);
      t := Advance(x.c, x.w, alone, s, t, Record(x.w));
    }
  }

  /** A token that was not handed out yet is in no lock. */
  lemma NewTokenHoldsNothing(c: Config, w: nat, alone: bool, s: State, t: State, scope: Scope, token: nat)
    requires Follows(c, w, alone, s, t) && token !in t.history.tokens
    ensures TokensOk(s) ==> !HeldBy(t.locks, scope, token, t.now)
  {
    FollowingKeeps(c, w, alone, s, t);
  }

  // ---------- One pass over the outbox ----------

  /** The message is completed, or failed or back in the queue with attempts left, with the reason. */
  predicate Disposed(c: Config, row: MessageRow, attempts: nat) {
    && row.Inbound? && row.attempts == attempts && row.claimedAt.None?
    && (|| (row.status == Completed && row.errorCode.None?)
        || (row.status == ProcessingStatus.Failed && row.errorCode.Some?)
        || (row.status == ProcessingStatus.Pending && row.errorCode.Some? && row.availableAt.Some? &&
            attempts < c.maxAttempts))
  }

  /** The message is disposed of; no other row changed. */
  ghost predicate Disposes(c: Config, before: MessageTable, after: MessageTable, job: Job) {
    job.id in after && after == before[job.id := after[job.id]] && Disposed(c, after[job.id], job.attempts)
  }

  /** Other rows stay, and only replies are added. */
  ghost predicate OnlyTouches(before: MessageTable, after: MessageTable, id: string) {
    && (forall k :: k in before && k != id ==> k in after && after[k] == before[k])
    && (forall k :: k in after && k !in before ==> after[k].Outbound?)
  }

  /** Adding a reply and disposing of the message touches nothing else. */
  lemma AnsweredAndDisposed(c: Config, before: MessageTable, between: MessageTable, after: MessageTable, job: Job)
    requires InProgress(before, job.id) && AddsAtMostReply(before, between, job.id) && Disposes(c, between, after, job)
    ensures job.id in after && Disposed(c, after[job.id], job.attempts) && OnlyTouches(before, after, job.id)
  {
  }

  /** The row, after this result or exception was settled or handled. */
  predicate Closes(row: MessageRow, e: Environment, result: Option<DeliveryResult>, code: string) {
    && row.Inbound?
    && (row.status == Completed <==> result.Some? && IsSuccess(result.value.status) && e.outage(SettlingRow).None?)
    && (row.status != Completed ==>
          row.errorCode == Some(
            if result.None? then code
            else if e.outage(SettlingRow).Some? then e.outage(SettlingRow).value
            else ErrorCodeOf(result.value)))
  }

  /** The result or the exception that answering comes to. */
  predicate Answers(s: State, e: Environment, job: Job, result: Option<DeliveryResult>, code: string) {
    && result == (if Response(s, e, job).Reply? then SendResult(s.delivery, e, job) else None)
    && (result.None? ==> code == Reason(s, e, job))
  }

  lemma RespondedAndSent(s: State, e: Environment, job: Job, verdict: Verdict, result: Option<DeliveryResult>,
                         code: string)
    requires verdict == Response(s, e, job)
    requires verdict.Raised? ==> result.None? && code == verdict.code
    requires verdict.Reply? ==> result == SendResult(s.delivery, e, job)
    requires verdict.Reply? && result.None? ==> code == SendProblem(s.delivery, e, job)
    ensures Answers(s, e, job, result, code)
  {
  }

  lemma AnsweredAndClosed(s: State, e: Environment, job: Job, result: Option<DeliveryResult>, code: string,
                          row: MessageRow)
    requires Answers(s, e, job, result, code) && Closes(row, e, result, code)
    ensures Ends(row, s, e, job)
  {
  }

  /** What one pass does to the message table: it disposes of one claimable row, and may store its reply. */
  ghost predicate Processed(c: Config, now: nat, before: MessageTable, after: MessageTable, id: string) {
    && id in before && Claimable(before[id], now, c.claimTimeout)
    && id in after && Disposed(c, after[id], before[id].attempts + 1)
    && OnlyTouches(before, after, id)
  }

  predicate InHand(messages: MessageTable, job: Job) {
    InProgress(messages, job.id) && messages[job.id].attempts == job.attempts
  }

  /** How a pass ends: nothing was due, a message was worked on, or an exception escaped. */
  datatype Pass = NothingDue | Worked | Escaped

  /** The worker took this message: one more attempt, and everything else as it was. */
  predicate Takes(c: Config, s: State, t: State, job: Job) {
    && job.id in s.messages && Claimable(s.messages[job.id], s.now, c.claimTimeout)
    && job == Job(job.id, s.messages[job.id].scope, s.messages[job.id].attempts + 1)
    && t.messages == s.messages[job.id := Messages.Claim(s.messages[job.id], s.now)]
    && t.delivery == s.delivery && t.locks == s.locks && t.now == s.now
  }

  /** Taking a message and disposing of it is what a pass does. */
  lemma TakenAndDisposed(c: Config, s: State, t: State, after: MessageTable, job: Job)
    requires Takes(c, s, t, job)
    requires job.id in after && Disposed(c, after[job.id], job.attempts) && OnlyTouches(t.messages, after, job.id)
    ensures Processed(c, s.now, s.messages, after, job.id)
  {
  }

  /** Claiming a message leaves its reply, its attempt and the lock as they were. */
  lemma EndsAsTaken(c: Config, row: MessageRow, s: State, t: State, e: Environment, job: Job)
    requires Takes(c, s, t, job) && Ends(row, t, e, job)
    ensures Ends(row, s, e, job)
  {
    assert |ReplyId(job.id)| > |job.id|;
    assert Response(t, e, job) == Response(s, e, job);
  }

  class ConversationProcessingWorker {
    const c: Config
    const id: nat
    const db: Database
    const clock: Clock
    const store: MessageProcessingStore
    const orchestrator: ConversationOrchestrator
    const delivery: IdempotentDeliveryService

    constructor (c: Config, id: nat, db: Database, server: LockServer, clock: Clock)
      ensures this.c == c && this.id == id && this.db == db && this.clock == clock
      ensures Valid() && orchestrator.lock.server == server
    {
      this.c, this.id, this.db, this.clock := c, id, db, clock;
      store := new MessageProcessingStore(db);
      var lock := new ConversationLock(server, c.leaseTtl);
      var repository := new ConversationRepository(db);
      orchestrator := new ConversationOrchestrator(lock, repository);
      var attempts := new DeliveryStore(db);
      delivery := new IdempotentDeliveryService(attempts);
    }

    predicate Valid() {
      store.db == db && delivery.store.db == db && orchestrator.Serves(Here())
    }

    function Here(): Site {
      Site(c, id, db, orchestrator.lock.server, clock)
    }

    ghost predicate Reflects(s: State)
      reads db, orchestrator.lock.server, clock
    {
      Mirrors(db, orchestrator.lock.server, clock, s)
    }

    /**
     `process_once`: claim a message, compose and deliver its reply, and settle the row. Whatever others do in
     between, it is a run of the protocol that leaves the worker idle; alone, it disposes of one claimable row.
     */
    method ProcessOnce(e: Environment, ghost alone: bool, ghost s: State) returns (pass: Pass, ghost t: State,
        ghost taken: Job)
      requires Valid() && Reflects(s) && Possible(e) && Fresh(s.history, e) && !Protocol.Busy(s, id)
      modifies db, orchestrator.lock.server, clock
      ensures Along(Here(), alone, s, t) && !Protocol.Busy(t, id)
      ensures alone ==> UsesOnly(s.history, t.history, e)
      ensures alone && pass.NothingDue? ==> t == s && forall k :: k in s.messages ==>
              !Claimable(s.messages[k], s.now, c.claimTimeout)
      ensures alone && pass.Worked? ==>
                && Processed(c, s.now, s.messages, t.messages, taken.id)
                && taken == Job(taken.id, s.messages[taken.id].scope, s.messages[taken.id].attempts + 1)
      ensures alone && pass.Worked? && DeliveryOk(s) ==> Ends(t.messages[taken.id], s, e, taken)
      ensures alone && pass.Escaped? ==> e.outage(ClaimingMessage).Some? || e.outage(HandlingFailure).Some?
    {
      Start(c, id, alone, s);
      var job;
      pass, job, t := TakeMessage(e, alone, s);
      taken := job;
      if pass.Worked? {
        ghost var claimed := t;
        pass, t := Process(job, e, alone, s, t);
        if alone && pass.Worked? {
          TakenAndDisposed(c, s, claimed, t.messages, job);
          if DeliveryOk(s) {
            EndsAsTaken(c, t.messages[job.id], s, claimed, e, job);
          }
        }
      }
    }

    /** One transaction: the next message is claimed, if one is due. */
    method TakeMessage(e: Environment, ghost alone: bool, ghost s: State) returns (pass: Pass, job: Job, ghost t: State)
      requires Valid() && Along(Here(), alone, s, s) && !Protocol.Busy(s, id) && Fresh(s.history, e)
      modifies db, orchestrator.lock.server, clock
      ensures Along(Here(), alone, s, t) && Fresh(t.history, e)
      ensures pass.Worked? ==> Stands(Here(), t, Claimed(job))
      ensures !pass.Worked? ==> !Protocol.Busy(t, id)
      ensures alone && !pass.Worked? ==> t == s
      ensures alone && pass.NothingDue? ==> forall k :: k in s.messages ==>
              !Claimable(s.messages[k], s.now, c.claimTimeout)
      ensures pass.Escaped? ==> e.outage(ClaimingMessage).Some?
      ensures alone && pass.Worked? ==>
                && Takes(c, s, t, job) && InHand(t.messages, job)
                && t.history.tokens == s.history.tokens && t.history.providerIds == s.history.providerIds
    {
      t := Interfere(Here(), e, alone, s, s);
      job := Job("", Scope(Web, "", ""), 0);
      if e.outage(ClaimingMessage).Some? {
        return Escaped, job, t;
      }
      pass, job, t := ClaimRow(alone, s, t);
    }

    method ClaimRow(ghost alone: bool, ghost s: State, ghost s': State)
      returns (pass: Pass, job: Job, ghost t: State)
      requires Valid() && Along(Here(), alone, s, s') && !Protocol.Busy(s', id)
      modifies db`messages
      ensures Along(Here(), alone, s, t) && (pass.NothingDue? || pass.Worked?)
      ensures pass.NothingDue? ==> t == s' && forall k :: k in s'.messages ==>
              !Claimable(s'.messages[k], s'.now, c.claimTimeout)
      ensures pass.Worked? ==>
                && job.id in s'.messages && Claimable(s'.messages[job.id], s'.now, c.claimTimeout)
                && job == Job(job.id, s'.messages[job.id].scope, s'.messages[job.id].attempts + 1)
                && t == Protocol.TakeMessage(c, s', id, job.id)
    {
      job, t := Job("", Scope(Web, "", ""), 0), s';
      var claimed := store.ClaimNext(clock.now, c.claimTimeout, {});
      if claimed.None? {
        return NothingDue, job, t;
      }
      pass, job := Worked, Job(claimed.value.id, claimed.value.scope, claimed.value.attempts);
      assert Claimable(s'.messages[job.id], s'.now, c.claimTimeout);
      t := Advance(c, id, alone, s, s', Label.Claim(id, job.id));
    }

    method Process(job: Job, e: Environment, ghost alone: bool, ghost s: State, ghost s': State) returns (pass: Pass,
        ghost t: State)
      requires Valid() && Along(Here(), alone, s, s') && Possible(e) && Fresh(s'.history, e) &&
               Stands(Here(), s', Claimed(job))
      requires alone ==> InHand(s'.messages, job)
      modifies db, orchestrator.lock.server, clock
      ensures Along(Here(), alone, s, t) && !Protocol.Busy(t, id)
      ensures alone ==> UsesOnly(s'.history, t.history, e)
      ensures pass.Worked? || pass.Escaped?
      ensures alone && pass.Worked? ==>
                job.id in t.messages && Disposed(c, t.messages[job.id], job.attempts) &&
                    OnlyTouches(s'.messages, t.messages, job.id)
      ensures alone && pass.Worked? && DeliveryOk(s) ==>
                Ends(t.messages[job.id], s', e, job)
      ensures alone && pass.Escaped? ==> e.outage(HandlingFailure).Some?
    {
      var result, code;
      result, code, t := AnswerMessage(job, e, alone, s, s');
      ghost var between := t.messages;
      pass, t := CloseMessage(job, result, code, e, alone, s, t);
      if alone && pass.Worked? {
        AnsweredAndDisposed(c, s'.messages, between, t.messages, job);
        if DeliveryOk(s) {
          AnsweredAndClosed(s', e, job, result, code, t.messages[job.id]);
        }
      }
    }

    /** Composes the reply and delivers it. */
    method AnswerMessage(job: Job, e: Environment, ghost alone: bool, ghost s: State, ghost s': State)
      returns (result: Option<DeliveryResult>, code: string, ghost t: State)
      requires Valid() && Along(Here(), alone, s, s') && Possible(e) && Fresh(s'.history, e) &&
               Stands(Here(), s', Claimed(job))
      modifies db, orchestrator.lock.server, clock
      ensures Along(Here(), alone, s, t) && Quiet(alone, job.id, e, s', t)
      ensures Stands(Here(), t, match result case Some(r) => Settling(job, r) case None => Handling(job, code))
      ensures alone && DeliveryOk(s) ==> Answers(s', e, job, result, code)
    {
      var verdict;
      verdict, t := orchestrator.RespondPersisted(Here(), job, e, alone, s, s');
      ghost var between := t;
      match verdict {
        case Raised(problem) => result, code := None, problem;
        case Reply(text) =>
          result, code, t := delivery.Send(Here(), job, text, e, alone, s, t);
          QuietChain(alone, job.id, e, s', between, t);
      }
      if alone && DeliveryOk(s) {
        RespondedAndSent(s', e, job, verdict, result, code);
      }
    }

    /** Settles the row after a result, and handles whatever was raised. */
    method CloseMessage(job: Job, result: Option<DeliveryResult>, code: string, e: Environment,
                        ghost alone: bool, ghost s: State, ghost s': State)
      returns (pass: Pass, ghost t: State)
      requires Valid() && Along(Here(), alone, s, s')
      requires Stands(Here(), s', match result case Some(r) => Settling(job, r) case None => Handling(job, code))
      requires alone ==> InHand(s'.messages, job)
      modifies db, orchestrator.lock.server, clock
      ensures Along(Here(), alone, s, t) && !Protocol.Busy(t, id)
      ensures alone ==> t.history.tokens == s'.history.tokens && t.history.providerIds == s'.history.providerIds
      ensures pass.Worked? || pass.Escaped?
      ensures alone && pass.Worked? ==> Disposes(c, s'.messages, t.messages, job)
      ensures alone && pass.Worked? ==> Closes(t.messages[job.id], e, result, code)
      ensures alone && pass.Escaped? ==> e.outage(HandlingFailure).Some?
    {
      t := s';
      var settled, raised := false, code;
      if result.Some? {
        settled, raised, t := SettleMessage(job, result.value, e, alone, s, t);
      }
      pass := Worked;
      if !settled {
        var handled;
        handled, t := HandleFailure(job, raised, e, alone, s, t);
        pass := if handled then Worked else Escaped;
      }
    }

    /**
     One transaction: the row is completed after a success and given up after a failure; it may raise, or find the
     claim lost.
     */
    method SettleMessage(job: Job, r: DeliveryResult, e: Environment, ghost alone: bool, ghost s: State,
                         ghost s': State)
      returns (settled: bool, code: string, ghost t: State)
      requires Valid() && Along(Here(), alone, s, s') && Stands(Here(), s', Settling(job, r))
      modifies db, orchestrator.lock.server, clock
      ensures Along(Here(), alone, s, t) && Stands(Here(), t, if settled then Idle else Handling(job, code))
      ensures alone ==> t.history.tokens == s'.history.tokens && t.history.providerIds == s'.history.providerIds
      ensures alone && settled && InHand(s'.messages, job) ==> Disposes(c, s'.messages, t.messages, job)
      ensures alone && !settled ==> t.messages == s'.messages
      ensures alone ==> (settled <==> e.outage(SettlingRow).None? && InProgress(s'.messages, job.id))
      ensures alone && settled && InHand(s'.messages, job) ==>
                && t.messages[job.id].status == (if IsSuccess(r.status) then Completed else ProcessingStatus.Failed)
                && t.messages[job.id].errorCode == (if IsSuccess(r.status) then None else Some(ErrorCodeOf(r)))
      ensures e.outage(SettlingRow).Some? ==> code == e.outage(SettlingRow).value
    {
      t := Interfere(Here(), e, alone, s, s');
      if e.outage(SettlingRow).Some? {
        settled, code := false, e.outage(SettlingRow).value;
        t := Raises(c, id, alone, s, t, code);
        return;
      }
      code := LOST_CLAIM;
      settled, t := SettleRow(job, r, alone, s, t);
    }

    method SettleRow(job: Job, r: DeliveryResult, ghost alone: bool, ghost s: State, ghost s': State)
      returns (settled: bool, ghost t: State)
      requires Valid() && Along(Here(), alone, s, s') && Stands(Here(), s', Settling(job, r))
      modifies db`messages
      ensures Along(Here(), alone, s, t) && t == Protocol.SettleMessage(c, s', id)
      ensures settled <==> InProgress(s'.messages, job.id)
    {
      if IsSuccess(r.status) {
        settled := store.Complete(job.id);
      } else {
        settled := store.Fail(job.id, ErrorCodeOf(r), false, clock.now, c.retryDelay);
      }
      t := Advance(c, id, alone, s, s', Settle(id));
    }

    /**
     One transaction, the handler's: the message goes back while its snapshot has attempts left; an exception of its
     own escapes.
     */
    method HandleFailure(job: Job, code: string, e: Environment, ghost alone: bool, ghost s: State, ghost s': State)
      returns (handled: bool, ghost t: State)
      requires Valid() && Along(Here(), alone, s, s') && Stands(Here(), s', Handling(job, code))
      modifies db, orchestrator.lock.server, clock
      ensures Along(Here(), alone, s, t) && Stands(Here(), t, Idle)
      ensures alone ==> t.history.tokens == s'.history.tokens && t.history.providerIds == s'.history.providerIds
      ensures alone && handled && InHand(s'.messages, job) ==> Disposes(c, s'.messages, t.messages, job)
      ensures alone && InHand(s'.messages, job) ==> (handled <==> e.outage(HandlingFailure).None?)
      ensures alone && handled && InHand(s'.messages, job) ==>
                && t.messages[job.id].errorCode == Some(code)
                && if job.attempts < c.maxAttempts
                   then t.messages[job.id].status == ProcessingStatus.Pending &&
                        t.messages[job.id].availableAt == Some(t.now + c.retryDelay)
                   else t.messages[job.id].status == ProcessingStatus.Failed
    {
      t := Interfere(Here(), e, alone, s, s');
      if e.outage(HandlingFailure).Some? {
        handled := false;
        t := Raises(c, id, alone, s, t, code);
        return;
      }
      handled, t := GiveBack(job, code, alone, s, t);
    }

    method GiveBack(job: Job, code: string, ghost alone: bool, ghost s: State, ghost s': State)
      returns (handled: bool, ghost t: State)
      requires Valid() && Along(Here(), alone, s, s') && Stands(Here(), s', Handling(job, code))
      modifies db`messages
      ensures Along(Here(), alone, s, t) && Stands(Here(), t, Idle) && t.now == s'.now
      ensures t.history.tokens == s'.history.tokens && t.history.providerIds == s'.history.providerIds
      ensures handled <==> InProgress(s'.messages, job.id)
      ensures !handled ==> t.messages == s'.messages
      ensures handled && job.attempts < c.maxAttempts ==> t.messages == s'.messages[job.id :=
                s'.messages[job.id].(status := ProcessingStatus.Pending, availableAt := Some(s'.now + c.retryDelay),
                                     claimedAt := None, errorCode := Some(code))]
      ensures handled && job.attempts >= c.maxAttempts ==> t.messages == s'.messages[job.id :=
                s'.messages[job.id].(status := ProcessingStatus.Failed, availableAt := None, claimedAt := None,
                                     errorCode := Some(code))]
    {
      handled := store.Fail(job.id, code, job.attempts < c.maxAttempts, clock.now, c.retryDelay);
      t := Advance(c, id, alone, s, s', Handle(id));
    }

    /** One pass of the loop: it works on a message and lowers the work left, or nothing is due. */
    method Turn(environment: nat -> Environment, i: nat, ghost s: State, ghost s': State)
      returns (worked: bool, ghost t: State)
      requires Valid() && Along(Here(), true, s, s') && !Protocol.Busy(s', id) && SchedulesOk(s'.messages)
      requires Environments(environment, s.history) && StillFresh(environment, s'.history, i)
      modifies db, orchestrator.lock.server, clock
      ensures Along(Here(), true, s, t) && !Protocol.Busy(t, id) && SchedulesOk(t.messages)
      ensures worked ==> Work(c, t.messages) < Work(c, s'.messages) && StillFresh(environment, t.history, i + 1)
      ensures !worked ==> t == s' && forall k :: k in t.messages ==> !Claimable(t.messages[k], t.now, c.claimTimeout)
    {
      Start(c, id, true, s');
      var pass; ghost var taken;
      pass, t, taken := ProcessOnce(environment(i), true, s');
      Chain(c, id, true, s, s', t);
      worked := pass.Worked?;
      if worked {
        ProcessedLowersWork(c, s'.now, s'.messages, t.messages, taken.id);
        LaterStayFresh(environment, s'.history, t.history, i);
      }
    }

    /**
     The worker's main loop, left alone: while a message is unfinished, pass over the outbox, and wait when
     nothing was due. It ends with every message completed or failed, after at most as many working passes
     as the attempts left in the table.
     */
    method Drain(environment: nat -> Environment, poll: nat, ghost s: State) returns (passes: nat, ghost t: State)
      requires Valid() && Reflects(s) && !Protocol.Busy(s, id) && SchedulesOk(s.messages) && poll >= 1
      requires Environments(environment, s.history)
      modifies db, orchestrator.lock.server, clock
      ensures Along(Here(), true, s, t)
      ensures forall k :: k in db.messages ==> !Unfinished(db.messages[k])
      ensures passes <= Work(c, s.messages)
    {
      passes, t := 0, s;
      Start(c, id, true, s);
      while exists k :: k in db.messages && Unfinished(db.messages[k])
        invariant Along(Here(), true, s, t) && !Protocol.Busy(t, id) && SchedulesOk(t.messages)
        invariant passes + Work(c, t.messages) <= Work(c, s.messages)
        invariant StillFresh(environment, t.history, passes)
        decreases Work(c, t.messages), Horizon(c, t.messages) - t.now
      {
        var worked;
        worked, t := Turn(environment, passes, s, t);
        if worked {
          passes := passes + 1;
        } else {
          WaitingGetsCloser(c, t.now, t.messages);
          clock.Elapse(poll);
          t := Wait(c, id, true, s, t, poll);
        }
      }
    }
  }

  // ---------- The work left in the outbox ----------

  predicate Unfinished(row: MessageRow) {
    row.Inbound? && row.status in {ProcessingStatus.Pending, Processing}
  }

  /** The passes a row may still take: its attempts left, and the one that gives it up. */
  function RowWork(c: Config, row: MessageRow): nat {
    if !Unfinished(row) then 0
    else if row.attempts < c.maxAttempts then c.maxAttempts - row.attempts + 1
    else 1
  }

  ghost function Work(c: Config, m: MessageTable): nat {
    if m == map[] then 0
    else
      var k :| k in m;
      RowWork(c, m[k]) + Work(c, m - {k})
  }

  /** The work of a table is that of any one row and of the rest. */
  lemma {:induction false} WorkSplits(c: Config, m: MessageTable, k: string)
    requires k in m
    ensures Work(c, m) == RowWork(c, m[k]) + Work(c, m - {k})
    decreases |m|
  {
    var j :| j in m && Work(c, m) == RowWork(c, m[j]) + Work(c, m - {j});
    if j != k {
      WorkSplits(c, m - {j}, k);
      WorkSplits(c, m - {k}, j);
      assert m - {j} - {k} == m - {k} - {j};
    }
  }

  /** Rows added by a pass are replies, and replies carry no work. */
  lemma {:induction false} AddedRepliesAddNoWork(c: Config, before: MessageTable, after: MessageTable)
    requires forall k :: k in before ==> k in after && after[k] == before[k]
    requires forall k :: k in after && k !in before ==> after[k].Outbound?
    ensures Work(c, after) == Work(c, before)
    decreases |after|
  {
    if k :| k in after && k !in before {
      WorkSplits(c, after, k);
      AddedRepliesAddNoWork(c, before, after - {k});
    } else {
      assert after == before;
    }
  }

  lemma {:induction false} ProcessedLowersWork(c: Config, now: nat, before: MessageTable, after: MessageTable,
                                               id: string)
    requires Processed(c, now, before, after, id) && SchedulesOk(before)
    ensures Work(c, after) < Work(c, before) && SchedulesOk(after)
  {
    WorkSplits(c, before, id);
    WorkSplits(c, after, id);
    AddedRepliesAddNoWork(c, before - {id}, after - {id});
  }

  /** When a row can be claimed at the latest. */
  function DueTime(c: Config, row: MessageRow): nat {
    if !Unfinished(row) then 0
    else if row.status == Processing then (if row.claimedAt.Some? then row.claimedAt.value + c.claimTimeout else 0)
    else (if row.availableAt.Some? then row.availableAt.value else 0)
  }

  ghost function Horizon(c: Config, m: MessageTable): (h: nat)
    ensures forall k :: k in m ==> DueTime(c, m[k]) <= h
  {
    if m == map[] then 0
    else
      var k :| k in m;
      var rest := Horizon(c, m - {k});
      assert forall j :: j in m && j != k ==> j in m - {k} && (m - {k})[j] == m[j];
      if DueTime(c, m[k]) <= rest then rest else DueTime(c, m[k])
  }

  /** If nothing can be claimed although work is left, its due time lies ahead. */
  lemma {:induction false} WaitingGetsCloser(c: Config, now: nat, m: MessageTable)
    requires SchedulesOk(m) && exists k :: k in m && Unfinished(m[k])
    requires forall k :: k in m ==> !Claimable(m[k], now, c.claimTimeout)
    ensures now < Horizon(c, m)
  {
    var k :| k in m && Unfinished(m[k]);
    assert DueTime(c, m[k]) <= Horizon(c, m);
  }

  // ---------- The surroundings of a whole run ----------

  /** Claiming and handling failures succeed; every other transaction may fail. */
  predicate Steady(e: Environment) {
    e.outage(ClaimingMessage).None? && e.outage(HandlingFailure).None?
  }

  /** Every pass meets a possible and steady environment, with its own token and its own provider id. */
  ghost predicate Environments(environment: nat -> Environment, h: History) {
    && (forall i :: Possible(environment(i)) && Steady(environment(i)))
    && StillFresh(environment, h, 0)
    && (forall i, j :: 0 <= i < j ==> environment(i).token != environment(j).token &&
                                      NewProviderIds(environment(i)) !! NewProviderIds(environment(j)))
  }

  ghost predicate StillFresh(environment: nat -> Environment, h: History, from: nat) {
    forall i :: from <= i ==> Fresh(h, environment(i))
  }

  /** Environments yet to come stay fresh after a pass that used only its own. */
  lemma LaterStayFresh(environment: nat -> Environment, h: History, k: History, i: nat)
    requires forall j :: i < j ==> environment(i).token != environment(j).token &&
                                   NewProviderIds(environment(i)) !! NewProviderIds(environment(j))
    requires StillFresh(environment, h, i) && UsesOnly(h, k, environment(i))
    ensures StillFresh(environment, k, i + 1)
  {
    forall j | i + 1 <= j ensures Fresh(k, environment(j)) {
      assert Fresh(h, environment(j));
      if environment(j).provider.Answered? && environment(j).provider.result.providerId.Some? {
        assert environment(j).provider.result.providerId.value in NewProviderIds(environment(j));
      }
    }
  }
}
