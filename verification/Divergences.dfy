/** Exactly when a run of the protocol fails a delivered message, or loses a reply. */
module Divergences {
  import opened Options
  import opened Messages
  import opened Deliveries
  import opened Protocol
  import opened ProtocolInvariants
  import opened ProtocolTheorems

  // ---------- Failed, yet delivered ----------

  predicate FailedRow(messages: MessageTable, id: string) {
    id in messages && messages[id].Inbound? && messages[id].status == ProcessingStatus.Failed
  }

  predicate Succeeded(d: DeliveryTables, id: string) {
    DeliveryKey(id) in d.attempts && IsSuccess(d.attempts[DeliveryKey(id)].state)
  }

  /** The row says the message failed, and the attempt says its reply was accepted. */
  predicate FailedYetDelivered(s: State, id: string) {
    FailedRow(s.messages, id) && Succeeded(s.delivery, id)
  }

  /**
   The three late steps: an accepted answer is stored after the row was failed, or a job fails the row, by a result
   that is no success or by running out of attempts, after the reply was accepted.
   */
  predicate TooLate(c: Config, s: State, l: Label, id: string)
    requires Enabled(c, s, l)
  {
    match l
    case Finalize(w) =>
      s.workers[w].job.id == id && IsSuccess(s.workers[w].result.status) && FailedRow(s.messages, id)
    case Settle(w) =>
      s.workers[w].job.id == id && !IsSuccess(s.workers[w].result.status) && InProgress(s.messages, id) &&
          Succeeded(s.delivery, id)
    case Handle(w) =>
      s.workers[w].job.id == id && s.workers[w].job.attempts >= c.maxAttempts && InProgress(s.messages, id) &&
          Succeeded(s.delivery, id)
    case _ => false
  }

  /** Which labels can change whether a row has failed. */
  lemma RowFails(c: Config, s: State, l: Label, t: State, id: string)
    requires Steps(c, s, l, t)
    ensures FailedRow(s.messages, id) ==> FailedRow(t.messages, id)
    ensures !FailedRow(s.messages, id) ==>
              (FailedRow(t.messages, id) <==>
                 InProgress(s.messages, id) &&
                 ((l.Settle? && s.workers[l.w].job.id == id && !IsSuccess(s.workers[l.w].result.status)) ||
                  (l.Handle? && s.workers[l.w].job.id == id && s.workers[l.w].job.attempts >= c.maxAttempts)))
  {
    if !WritesMessages(l) {
      MessagesUntouched(c, s, l, t);
    }
  }

  /** Only storing an accepted answer makes an attempt a success; of callbacks only failures undo it. */
  lemma AttemptSucceeds(c: Config, s: State, l: Label, t: State, id: string)
    requires Steps(c, s, l, t) && DeliveryOk(s)
    ensures !Succeeded(s.delivery, id) ==>
              (Succeeded(t.delivery, id) <==>
                  l.Finalize? && s.workers[l.w].job.id == id && IsSuccess(s.workers[l.w].result.status))
    ensures !l.CallbackArrives? && Succeeded(s.delivery, id) ==> Succeeded(t.delivery, id)
  {
    if !TouchesDelivery(l) {
      DeliveryUntouched(c, s, l, t);
    } else if l.Finalize? {
      assert OwnerOk(s.delivery, s.history, s.workers[l.w]);
      FinalizeKeepsTables(s.delivery, s.history, DeliveryKey(s.workers[l.w].job.id), s.workers[l.w].result);
      assert DeliveryKey(s.workers[l.w].job.id) == DeliveryKey(id) <==> s.workers[l.w].job.id == id;
    }
  }

  /** A step makes a message failed yet delivered exactly if it comes too late. */
  lemma FailedYetDeliveredStep(c: Config, s: State, l: Label, t: State, id: string)
    requires Steps(c, s, l, t) && DeliveryOk(s) && !FailedYetDelivered(s, id)
    ensures FailedYetDelivered(t, id) <==> TooLate(c, s, l, id)
  {
    RowFails(c, s, l, t, id);
    AttemptSucceeds(c, s, l, t, id);
  }

  /** Some step of the run comes too late for the message. */
  ghost predicate EverTooLate(c: Config, s: State, ls: seq<Label>, id: string)
    requires IsRun(c, s, ls)
    decreases |ls|
  {
    ls != [] && (TooLate(c, s, ls[0], id) || EverTooLate(c, Next(c, s, ls[0]), ls[1..], id))
  }

  /** The message is failed yet delivered at some point of the run. */
  ghost predicate EverFailedYetDelivered(c: Config, s: State, ls: seq<Label>, id: string)
    requires IsRun(c, s, ls)
    decreases |ls|
  {
    FailedYetDelivered(s, id) || (ls != [] && EverFailedYetDelivered(c, Next(c, s, ls[0]), ls[1..], id))
  }

  lemma {:induction false} EverFailedIsEverTooLate(c: Config, s: State, ls: seq<Label>, id: string)
    requires IsRun(c, s, ls) && DeliveryOk(s) && !FailedYetDelivered(s, id)
    ensures EverFailedYetDelivered(c, s, ls, id) <==> EverTooLate(c, s, ls, id)
    decreases |ls|
  {
    if ls != [] {
      var t := Next(c, s, ls[0]);
      FailedYetDeliveredStep(c, s, ls[0], t, id);
      DeliveryOkStep(c, s, ls[0], t);
      if !FailedYetDelivered(t, id) {
        EverFailedIsEverTooLate(c, t, ls[1..], id);
      }
    }
  }

  /** In every run a message is failed yet delivered at some point exactly if some step came too late for it. */
  lemma {:induction false} DeliveredIsNotFailedUnlessTooLate(c: Config, ls: seq<Label>, id: string)
    requires IsRun(c, INITIAL, ls)
    ensures EverFailedYetDelivered(c, INITIAL, ls, id) <==> EverTooLate(c, INITIAL, ls, id)
  {
    InitialInv(c);
    EverFailedIsEverTooLate(c, INITIAL, ls, id);
  }

  lemma {:induction false} EndIsReached(c: Config, s: State, ls: seq<Label>, id: string)
    requires IsRun(c, s, ls) && FailedYetDelivered(Final(c, s, ls), id)
    ensures EverFailedYetDelivered(c, s, ls, id)
    decreases |ls|
  {
    if ls != [] {
      EndIsReached(c, Next(c, s, ls[0]), ls[1..], id);
    }
  }

  /** A run in which no step comes too late ends with no delivered message failed. */
  lemma {:induction false} InTimeIsConsistent(c: Config, ls: seq<Label>, id: string)
    requires IsRun(c, INITIAL, ls) && !EverTooLate(c, INITIAL, ls, id)
    ensures !FailedYetDelivered(Final(c, INITIAL, ls), id)
  {
    DeliveredIsNotFailedUnlessTooLate(c, ls, id);
    if FailedYetDelivered(Final(c, INITIAL, ls), id) {
      EndIsReached(c, INITIAL, ls, id);
    }
  }

  // ---------- Lost replies ----------

  /** A worker has created the attempt and is about to call the provider. */
  ghost predicate BeingSent(s: State, key: string) {
    exists w :: w in s.workers && s.workers[w].Sending? && DeliveryKey(s.workers[w].job.id) == key
  }

  /** The attempt exists, but the provider was not called and nobody is going to. */
  ghost predicate Lost(s: State, key: string) {
    key in s.delivery.attempts && !SentFor(s.history.sends, key) && !BeingSent(s, key)
  }

  /** The crash of the worker that was about to call the provider. */
  predicate LosesReply(c: Config, s: State, l: Label, key: string)
    requires Enabled(c, s, l)
  {
    l.Crash? && s.workers[l.w].Sending? && DeliveryKey(s.workers[l.w].job.id) == key
  }

  /** A worker comes to send only by creating the attempt. */
  lemma SendingCameFrom(c: Config, s: State, l: Label, t: State)
    requires Steps(c, s, l, t) && ByWorker(l) && t.workers[l.w].Sending?
    ensures l.DeliveryClaim? && s.workers[l.w].job == t.workers[l.w].job &&
            DeliveryKey(t.workers[l.w].job.id) !in s.delivery.attempts
  {
  }

  /** Once lost, a reply stays lost. */
  lemma LostStays(c: Config, s: State, l: Label, t: State, key: string)
    requires Steps(c, s, l, t) && Lost(s, key)
    ensures Lost(t, key)
  {
    OneWorkerMoves(c, s, l, t);
    AttemptsStay(c, s, l, t);
    if ByWorker(l) && t.workers[l.w].Sending? {
      SendingCameFrom(c, s, l, t);
    }
    SendsGrow(c, s, l, t);
  }

  lemma AttemptsStay(c: Config, s: State, l: Label, t: State)
    requires Steps(c, s, l, t)
    ensures s.delivery.attempts.Keys <= t.delivery.attempts.Keys
    ensures forall k :: k in t.delivery.attempts && k !in s.delivery.attempts ==>
              l.DeliveryClaim? && k == DeliveryKey(s.workers[l.w].job.id) && t.workers[l.w].Sending? &&
                  t.workers[l.w].job == s.workers[l.w].job
  {
  }

  /** Only a worker that is sending calls the provider, for its own key. */
  lemma SendsGrow(c: Config, s: State, l: Label, t: State)
    requires Steps(c, s, l, t)
    ensures forall k :: SentFor(t.history.sends, k) <==>
              SentFor(s.history.sends, k) || (l.CallProvider? && k == DeliveryKey(s.workers[l.w].job.id))
  {
    if l.CallProvider? {
      SentForSnoc(s.history.sends, Send(DeliveryKey(s.workers[l.w].job.id), s.workers[l.w].text));
    }
  }

  /** Sending ends with the call or with a crash; a second sender of the same key does not exist. */
  lemma SendingEnds(c: Config, s: State, l: Label, t: State, w: nat)
    requires Steps(c, s, l, t) && w in s.workers && s.workers[w].Sending?
    ensures w in t.workers
    ensures t.workers[w] == s.workers[w] || (l.CallProvider? && l.w == w) || (l.Crash? && l.w == w)
  {
    OneWorkerMoves(c, s, l, t);
  }

  /** A step loses a reply exactly if it is the crash of the worker about to send it. */
  lemma LostStep(c: Config, s: State, l: Label, t: State, key: string)
    requires Steps(c, s, l, t) && DeliveryOk(s) && !Lost(s, key)
    ensures Lost(t, key) <==> LosesReply(c, s, l, key)
  {
    OneWorkerMoves(c, s, l, t);
    AttemptsStay(c, s, l, t);
    SendsGrow(c, s, l, t);
    if LosesReply(c, s, l, key) {
      CrashLoses(c, s, l, t, key);
    } else if w :| w in s.workers && s.workers[w].Sending? && DeliveryKey(s.workers[w].job.id) == key {
      SendingEnds(c, s, l, t, w);
      assert t.workers[w] == s.workers[w] ==> BeingSent(t, key);
    } else if key in t.delivery.attempts && key !in s.delivery.attempts {
      assert BeingSent(t, key);
    }
  }

  lemma CrashLoses(c: Config, s: State, l: Label, t: State, key: string)
    requires Steps(c, s, l, t) && DeliveryOk(s) && LosesReply(c, s, l, key)
    ensures Lost(t, key)
  {
    assert OwnerOk(s.delivery, s.history, s.workers[l.w]);
    forall w | w in t.workers && t.workers[w].Sending? ensures DeliveryKey(t.workers[w].job.id) != key {
      assert DistinctOwners(s.workers[w], s.workers[l.w]);
    }
  }

  /** The worker about to send the reply crashes at some point of the run. */
  ghost predicate EverLosesReply(c: Config, s: State, ls: seq<Label>, key: string)
    requires IsRun(c, s, ls)
    decreases |ls|
  {
    ls != [] && (LosesReply(c, s, ls[0], key) || EverLosesReply(c, Next(c, s, ls[0]), ls[1..], key))
  }

  lemma {:induction false} LostIsCrashed(c: Config, s: State, ls: seq<Label>, key: string)
    requires IsRun(c, s, ls) && DeliveryOk(s)
    ensures Lost(Final(c, s, ls), key) <==> Lost(s, key) || EverLosesReply(c, s, ls, key)
    decreases |ls|
  {
    if ls != [] {
      var t := Next(c, s, ls[0]);
      DeliveryOkStep(c, s, ls[0], t);
      LostIsCrashed(c, t, ls[1..], key);
      if Lost(s, key) {
        LostStays(c, s, ls[0], t, key);
      } else {
        LostStep(c, s, ls[0], t, key);
      }
    }
  }

  /**
   At the end of every run, a reply whose attempt exists and that nobody is sending was sent exactly once, exactly
   if no worker crashed when it was about to send it; otherwise it was never sent, and never will be.
   */
  lemma {:induction false} SentOnceUnlessCrashed(c: Config, ls: seq<Label>, key: string)
    requires IsRun(c, INITIAL, ls) && !BeingSent(Final(c, INITIAL, ls), key)
    ensures var s := Final(c, INITIAL, ls);
            && (Calls(s.history.sends, key) == 1 <==>
                key in s.delivery.attempts && !EverLosesReply(c, INITIAL, ls, key))
            && (Lost(s, key) <==> EverLosesReply(c, INITIAL, ls, key))
            && (Lost(s, key) ==> Calls(s.history.sends, key) == 0)
  {
    var s := Final(c, INITIAL, ls);
    assert Reachable(c, s);
    ReachableInv(c, s);
    InitialInv(c);
    LostIsCrashed(c, INITIAL, ls, key);
    CallsOfDistinct(s.history.sends, key);
  }

  /** In every state a reply that nobody is sending was sent once exactly if its attempt exists and it is not lost. */
  lemma {:induction false} SentUnlessLost(c: Config, s: State, key: string)
    requires Reachable(c, s) && !BeingSent(s, key)
    ensures Calls(s.history.sends, key) == 1 <==> key in s.delivery.attempts && !Lost(s, key)
  {
    ReachableInv(c, s);
    CallsOfDistinct(s.history.sends, key);
  }
}
