/** Why a message failed or was put back: which rows carry a reason in any run, and that it is the provider's own. */
module Reasons {
  import opened Options
  import opened Messages
  import opened Deliveries
  import opened Protocol
  import opened ProtocolInvariants
  import opened ProtocolTheorems

  // ---------- Which rows carry a reason ----------

  /** Failed rows and rows put back carry a reason; new, claimed and completed ones carry none. */
  predicate Reasoned(row: MessageRow) {
    row.Inbound? ==>
      (row.errorCode.Some? <==>
         row.status == ProcessingStatus.Failed || (row.status == ProcessingStatus.Pending && row.attempts > 0))
  }

  ghost predicate ReasonsOk(messages: MessageTable) {
    forall id :: id in messages ==> Reasoned(messages[id])
  }

  lemma ReasonedStep(c: Config, s: State, l: Label, t: State, id: string)
    requires Steps(c, s, l, t) && RowsOk(s) && ReasonsOk(s.messages) && id in t.messages
    ensures Reasoned(t.messages[id])
  {
    if !WritesMessages(l) {
      MessagesUntouched(c, s, l, t);
    }
  }

  // ---------- Results are truthful ----------

  /** The result a worker settles with is the provider's, or the replay of a stored one. */
  ghost predicate ResultsOk(s: State) {
    forall w :: w in s.workers && s.workers[w].Settling? ==> Truthful(s.workers[w].result)
  }

  lemma ResultsOkStep(c: Config, s: State, l: Label, t: State)
    requires Steps(c, s, l, t) && DeliveryOk(s) && ResultsOk(s)
    ensures ResultsOk(t)
  {
    OneWorkerMoves(c, s, l, t);
    if ByWorker(l) && t.workers[l.w].Settling? {
      SettlingComesFrom(c, s, l, t);
      if l.Finalize? {
        assert OwnerOk(s.delivery, s.history, s.workers[l.w]);
      }
    }
  }

  lemma {:induction false} ReasonsAlways(c: Config, s: State, ls: seq<Label>)
    requires IsRun(c, s, ls) && Inv(c, s) && ReasonsOk(s.messages) && ResultsOk(s)
    ensures ReasonsOk(Final(c, s, ls).messages) && ResultsOk(Final(c, s, ls))
    decreases |ls|
  {
    if ls != [] {
      var t := Next(c, s, ls[0]);
      forall id | id in t.messages ensures Reasoned(t.messages[id]) {
        ReasonedStep(c, s, ls[0], t, id);
      }
      ResultsOkStep(c, s, ls[0], t);
      InvStep(c, s, ls[0]);
      ReasonsAlways(c, t, ls[1..]);
    }
  }

  lemma ReachableReasons(c: Config, s: State)
    requires Reachable(c, s)
    ensures ReasonsOk(s.messages) && ResultsOk(s)
  {
    var ls :| IsRun(c, INITIAL, ls) && Final(c, INITIAL, ls) == s;
    InitialInv(c);
    ReasonsAlways(c, INITIAL, ls);
  }

  // ---------- The theorems ----------

  /** In every run exactly the messages that failed, or wait for another try, carry a reason. */
  lemma FailuresHaveReasons(c: Config, s: State, id: string)
    requires Reachable(c, s) && id in s.messages && s.messages[id].Inbound?
    ensures var row := s.messages[id];
            row.errorCode.Some? <==>
              row.status == ProcessingStatus.Failed || (row.status == ProcessingStatus.Pending && row.attempts > 0)
  {
    ReachableReasons(c, s);
    assert Reasoned(s.messages[id]);
  }

  /**
   In every run, settling a message still in processing completes it after a success, and otherwise fails it for the
   very reason of the result: the substitute for a missing reason is never used.
   */
  lemma SettledForItsReason(c: Config, s: State, w: nat)
    requires Reachable(c, s) && Enabled(c, s, Settle(w)) && InProgress(s.messages, s.workers[w].job.id)
    ensures var id, r, t := s.workers[w].job.id, s.workers[w].result, Next(c, s, Settle(w));
            && t.workers[w] == Idle && id in t.messages && t.messages[id].Inbound?
            && t.messages[id].errorCode == r.errorCode
            && (r.status in {Accepted, Sent, Delivered, Read} ==>
                  t.messages[id].status == Completed && r.errorCode == None)
            && (r.status in {Unknown, AttemptState.Failed} ==>
                  t.messages[id].status == ProcessingStatus.Failed && r.errorCode.Some? && r.errorCode.value != "")
  {
    ReachableReasons(c, s);
    assert Truthful(s.workers[w].result);
  }
}
