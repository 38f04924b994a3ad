/** What holds in every run of the protocol, for any number of workers and any interleaving. */
module ProtocolTheorems {
  import opened Options
  import opened Messages
  import opened Deliveries
  import opened Leases
  import opened Protocol
  import opened ProtocolInvariants

  ghost predicate Inv(c: Config, s: State) {
    && RowsOk(s) && SchedulesOk(s.messages) && TokensOk(s) && DeliveryOk(s) && BudgetOk(c, s) && CompletedOk(s)
    && EmissionsOk(s) && TextsOk(s)
  }

  lemma InvStep(c: Config, s: State, l: Label)
    requires Enabled(c, s, l) && Inv(c, s)
    ensures Inv(c, Next(c, s, l))
  {
    RowsOkStep(c, s, l, Next(c, s, l));
    SchedulesOkStep(c, s, l, Next(c, s, l));
    TokensOkStep(c, s, l, Next(c, s, l));
    DeliveryOkStep(c, s, l, Next(c, s, l));
    BudgetOkStep(c, s, l, Next(c, s, l));
    CompletedOkStep(c, s, l, Next(c, s, l));
    EmissionsOkStep(c, s, l, Next(c, s, l));
    TextsOkStep(c, s, l, Next(c, s, l));
  }

  lemma {:induction false} InvAlways(c: Config, s: State, ls: seq<Label>)
    requires IsRun(c, s, ls) && Inv(c, s)
    ensures Inv(c, Final(c, s, ls))
    decreases |ls|
  {
    if ls != [] {
      InvStep(c, s, ls[0]);
      InvAlways(c, Next(c, s, ls[0]), ls[1..]);
    }
  }

  /** A state some run from the empty system ends in. */
  ghost predicate Reachable(c: Config, s: State) {
    exists ls :: IsRun(c, INITIAL, ls) && Final(c, INITIAL, ls) == s
  }

  lemma InitialInv(c: Config)
    ensures Inv(c, INITIAL)
  {
    assert RowsOk(INITIAL) && SchedulesOk(INITIAL.messages) && TokensOk(INITIAL) && DeliveryOk(INITIAL);
    assert BudgetOk(c, INITIAL) && CompletedOk(INITIAL) && TextsOk(INITIAL);
  }

  lemma ReachableInv(c: Config, s: State)
    requires Reachable(c, s)
    ensures Inv(c, s)
  {
    var ls :| IsRun(c, INITIAL, ls) && Final(c, INITIAL, ls) == s;
    InitialInv(c);
    InvAlways(c, INITIAL, ls);
  }

  // ---------- Provider calls ----------

  function Calls(sends: seq<Send>, key: string): nat {
    if sends == [] then 0
    else Calls(sends[..|sends| - 1], key) + (if sends[|sends| - 1].key == key then 1 else 0)
  }

  lemma {:induction false} CallsOfDistinct(sends: seq<Send>, key: string)
    requires forall i, j :: 0 <= i < j < |sends| ==> sends[i].key != sends[j].key
    ensures Calls(sends, key) == (if SentFor(sends, key) then 1 else 0)
  {
    if sends != [] {
      var front := sends[..|sends| - 1];
      CallsOfDistinct(front, key);
      assert sends == front + [sends[|sends| - 1]];
      SentForSnoc(front, sends[|sends| - 1]);
      if SentFor(front, key) {
        var i :| 0 <= i < |front| && front[i].key == key;
        assert sends[i].key == key;
      }
    }
  }

  /** The provider is called at most once per idempotency key, and exactly once when the attempt left pending. */
  lemma {:induction false} ProviderCalledAtMostOnce(c: Config, s: State, key: string)
    requires Reachable(c, s)
    ensures Calls(s.history.sends, key) <= 1
    ensures key in s.delivery.attempts && s.delivery.attempts[key].state != AttemptState.Pending ==>
              Calls(s.history.sends, key) == 1
    ensures key !in s.delivery.attempts ==> Calls(s.history.sends, key) == 0
  {
    ReachableInv(c, s);
    CallsOfDistinct(s.history.sends, key);
  }

  /** Storing the provider's answer always finds the attempt pending: its error branch is never taken. */
  lemma FinalizeFindsPending(c: Config, s: State, w: nat)
    requires Reachable(c, s) && Enabled(c, s, Label.Finalize(w))
    ensures var key := DeliveryKey(s.workers[w].job.id);
            && key in s.delivery.attempts && s.delivery.attempts[key].state == AttemptState.Pending
            && Next(c, s, Label.Finalize(w)).workers[w] == Settling(s.workers[w].job, s.workers[w].result)
  {
    ReachableInv(c, s);
    FinalizeKeepsTables(s.delivery, s.history, DeliveryKey(s.workers[w].job.id), s.workers[w].result);
  }

  /** What it stores is the whole answer, in the attempt and as an event, and nothing else. */
  lemma FinalizeStoresAnswer(c: Config, s: State, w: nat)
    requires Reachable(c, s) && Enabled(c, s, Label.Finalize(w))
    ensures var key, r := DeliveryKey(s.workers[w].job.id), s.workers[w].result;
            var t := Next(c, s, Label.Finalize(w)).delivery;
            && t.attempts == s.delivery.attempts[key := Attempt(r.status, r.providerId, r.errorCode)]
            && t.events == s.delivery.events + {StatusEvent(key, r.providerId, r.status)}
  {
    ReachableInv(c, s);
    FinalizeKeepsTables(s.delivery, s.history, DeliveryKey(s.workers[w].job.id), s.workers[w].result);
  }

  /**
   Every attempt satisfies the delivery truth rule and can be replayed as a result, with its own state unless it is
   still pending.
   */
  lemma ReplayNeverRaises(c: Config, s: State, key: string)
    requires Reachable(c, s) && key in s.delivery.attempts
    ensures var a := s.delivery.attempts[key];
            && (a.state in {AttemptState.Failed, Unknown} ==> a.errorCode.Some? && a.errorCode.value != "")
            && (a.state !in {AttemptState.Failed, Unknown} ==> a.errorCode.None?)
            && (a.state in {Accepted, Sent, Delivered, Read} ==> a.providerId.Some? && a.providerId.value != "")
            && (a.state == AttemptState.Pending ==> a.providerId.None?)
            && ExistingResult(a) == Some(
                 if a.state == AttemptState.Pending
                 then DeliveryResult(Unknown, None, Some("DELIVERY_ALREADY_IN_PROGRESS"))
                 else DeliveryResult(a.state, a.providerId, a.errorCode))
  {
    ReachableInv(c, s);
  }

  /** A callback never finds two attempts, and never finds a pending one. */
  lemma CallbackLookupIsSound(c: Config, s: State, providerId: string)
    requires Reachable(c, s)
    ensures forall j, k :: Matches(s.delivery, j, providerId) && Matches(s.delivery, k, providerId) ==> j == k
    ensures forall k :: Matches(s.delivery, k, providerId) ==> s.delivery.attempts[k].state != AttemptState.Pending
  {
    ReachableInv(c, s);
  }

  // ---------- Message rows ----------

  predicate Terminal(row: MessageRow) {
    row.Inbound? && row.status in {Completed, ProcessingStatus.Failed}
  }

  /** Completed and failed rows never change again, whatever workers and redelivered webhooks do. */
  lemma {:induction false} TerminalRowsStay(c: Config, s: State, ls: seq<Label>, id: string)
    requires IsRun(c, s, ls) && id in s.messages && Terminal(s.messages[id])
    ensures id in Final(c, s, ls).messages && Final(c, s, ls).messages[id] == s.messages[id]
    decreases |ls|
  {
    if ls != [] {
      TerminalRowStep(c, s, ls[0], id);
      TerminalRowsStay(c, Next(c, s, ls[0]), ls[1..], id);
    }
  }

  lemma TerminalRowStep(c: Config, s: State, l: Label, id: string)
    requires Enabled(c, s, l) && id in s.messages && Terminal(s.messages[id])
    ensures id in Next(c, s, l).messages && Next(c, s, l).messages[id] == s.messages[id]
  {
  }

  /** A completed message was sent exactly once, and its attempt has a provider id and a reported state. */
  lemma CompletedWasSentOnce(c: Config, s: State, id: string)
    requires Reachable(c, s)
    requires id in s.messages && s.messages[id].Inbound? && s.messages[id].status == Completed
    ensures var key := DeliveryKey(id);
            && Calls(s.history.sends, key) == 1
            && key in s.delivery.attempts && HasText(s.delivery.attempts[key].providerId)
            && s.delivery.attempts[key].state !in {AttemptState.Pending, Unknown}
  {
    ReachableInv(c, s);
    CallsOfDistinct(s.history.sends, DeliveryKey(id));
  }

  lemma {:induction false} SizeOfBounded(xs: set<nat>, bound: nat)
    requires forall x :: x in xs ==> 1 <= x < bound
    ensures |xs| <= if bound == 0 then 0 else bound - 1
  {
    if bound <= 1 {
      assert xs == {};
    } else {
      SizeOfBounded(xs - {bound - 1}, bound - 1);
      assert xs <= (xs - {bound - 1}) + {bound - 1};
    }
  }

  /** Stale reclaims are the only way past the configured number of attempts. */
  lemma AttemptsAreBounded(c: Config, s: State, id: string)
    requires Reachable(c, s) && WellConfigured(c) && id in s.messages && s.messages[id].Inbound?
    ensures s.messages[id].attempts <= c.maxAttempts + Reclaims(s.history, id)
    ensures |Retried(s.history, id)| < c.maxAttempts
  {
    ReachableInv(c, s);
    SizeOfBounded(Retried(s.history, id), c.maxAttempts);
  }

  // ---------- Callback telemetry ----------

  function Reports(emissions: seq<Emission>, key: string): nat {
    if emissions == [] then 0
    else Reports(emissions[..|emissions| - 1], key) + (if emissions[|emissions| - 1].key == key then 1 else 0)
  }

  lemma {:induction false} ReportsOfDistinct(emissions: seq<Emission>, key: string)
    requires forall i, j :: 0 <= i < j < |emissions| ==> emissions[i].key != emissions[j].key
    ensures Reports(emissions, key) <= 1
    ensures Reports(emissions, key) == 1 <==> exists i :: 0 <= i < |emissions| && emissions[i].key == key
  {
    if emissions != [] {
      var front := emissions[..|emissions| - 1];
      ReportsOfDistinct(front, key);
      if i :| 0 <= i < |front| && front[i].key == key {
        assert emissions[i].key == key;
      }
      if i :| 0 <= i < |emissions| && emissions[i].key == key {
        assert i < |front| ==> front[i].key == key;
      }
    }
  }

  /**
   Callbacks report each attempt at most once, as a success or as a failure, and only what was applied. An attempt that
   is delivered, or failed after it was accepted, was reported exactly if its report is neither still to be made nor
   lost with a crashed process.
   */
  lemma {:induction false} ReportedAtMostOnce(c: Config, s: State, key: string)
    requires Reachable(c, s)
    ensures Reports(s.history.emissions, key) <= 1
    ensures var succeeded, failed := Emission(key, DeliverySucceeded), Emission(key, DeliveryFailed);
            && !(Accounted(s, succeeded) && Accounted(s, failed))
            && (Accounted(s, succeeded) ==>
                key in s.delivery.attempts && s.delivery.attempts[key].state in {Delivered, Read})
            && (Accounted(s, failed) ==>
                 key in s.delivery.attempts && s.delivery.attempts[key].state == AttemptState.Failed)
            && (key in s.delivery.attempts && s.delivery.attempts[key].state == Delivered ==>
                 (Emitted(s.history.emissions, succeeded) <==>
                     succeeded !in s.reporting && succeeded !in s.history.dropped))
            && (key in s.delivery.attempts && s.delivery.attempts[key].state == AttemptState.Failed &&
                s.delivery.attempts[key].providerId.Some? ==>
                 (Emitted(s.history.emissions, failed) <==> failed !in s.reporting && failed !in s.history.dropped))
  {
    ReachableInv(c, s);
    ReportsOfDistinct(s.history.emissions, key);
  }

  // ---------- Reply texts ----------

  /** The text given to the provider is the stored reply exactly when its recording was not overtaken. */
  lemma PostedTextIsStoredUnlessOvertaken(c: Config, s: State, i: nat)
    requires Reachable(c, s) && i < |s.history.sends|
    ensures var x := s.history.sends[i]; StoredAs(s.messages, x.key, x.text) <==> x !in s.history.overtaken
  {
    ReachableInv(c, s);
  }

  /** No lease runs out between its holder's look-up and the recording of its reply. */
  ghost predicate RecordsInTime(c: Config, s: State, ls: seq<Label>)
    requires IsRun(c, s, ls)
    decreases |ls|
  {
    ls == [] || (InTime(s, ls[0]) && RecordsInTime(c, Next(c, s, ls[0]), ls[1..]))
  }

  lemma {:induction false} InTimeNobodyOvertaken(c: Config, s: State, ls: seq<Label>)
    requires IsRun(c, s, ls) && RecordsInTime(c, s, ls)
    requires RowsOk(s) && TokensOk(s) && FirstReply(s)
    ensures Final(c, s, ls).history.overtaken == s.history.overtaken
    decreases |ls|
  {
    if ls != [] {
      RowsOkStep(c, s, ls[0], Next(c, s, ls[0]));
      TokensOkStep(c, s, ls[0], Next(c, s, ls[0]));
      FirstReplyStep(c, s, ls[0], Next(c, s, ls[0]));
      NobodyOvertaken(c, s, ls[0], Next(c, s, ls[0]));
      InTimeNobodyOvertaken(c, Next(c, s, ls[0]), ls[1..]);
    }
  }

  /** In every run whose leases outlast the recording, every text given to the provider is the stored reply. */
  lemma PostedTextIsStored(c: Config, ls: seq<Label>, i: nat) returns (id: string)
    requires IsRun(c, INITIAL, ls) && RecordsInTime(c, INITIAL, ls) && i < |Final(c, INITIAL, ls).history.sends|
    ensures var s := Final(c, INITIAL, ls);
            && s.history.sends[i].key == "reply:" + id && "piki-reply:" + id in s.messages
            && s.messages["piki-reply:" + id].text == s.history.sends[i].text
  {
    var s := Final(c, INITIAL, ls);
    assert Reachable(c, s);
    InTimeNobodyOvertaken(c, INITIAL, ls);
    PostedTextIsStoredUnlessOvertaken(c, s, i);
    id := s.history.sends[i].key[|DELIVERY_PREFIX|..];
    assert s.history.sends[i].key == DELIVERY_PREFIX + id;
  }

  // ---------- Leases ----------

  /** Two workers never hold live leases of one conversation. */
  lemma OneLeaseHolder(c: Config, s: State, v: nat, w: nat)
    requires Reachable(c, s) && v in s.workers && w in s.workers
    requires HoldsLease(s, s.workers[v]) && HoldsLease(s, s.workers[w])
    requires s.workers[v].job.scope == s.workers[w].job.scope
    ensures v == w
  {
    ReachableInv(c, s);
  }

  /** Releasing, however late, leaves every other worker's lease in place. */
  lemma ReleaseSparesOthers(c: Config, s: State, v: nat, w: nat, reachable: bool)
    requires Reachable(c, s) && Enabled(c, s, Label.Release(v, reachable))
    requires w in s.workers && w != v && HoldsLease(s, s.workers[w])
    ensures HoldsLease(Next(c, s, Label.Release(v, reachable)), s.workers[w])
  {
    ReachableInv(c, s);
  }
}
