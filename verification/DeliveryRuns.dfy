/** The closed form of callbacks inside the protocol: what became of an accepted reply while workers went on. */
module DeliveryRuns {
  import opened Options
  import opened Messages
  import opened Deliveries
  import opened Protocol
  import opened ProtocolInvariants
  import opened ProtocolTheorems
  import opened Callbacks

  function ReportedBy(l: Label, p: string): seq<DeliveryStatus> {
    if l.CallbackArrives? && l.callback.providerId == p then [l.callback.status] else []
  }

  /** The statuses that the callbacks of a run report for one provider id, in order. */
  function StatusesOf(ls: seq<Label>, p: string): seq<DeliveryStatus> {
    if ls == [] then [] else ReportedBy(ls[0], p) + StatusesOf(ls[1..], p)
  }

  /** The attempt is where the statuses reported since put it, and its events are those statuses. */
  ghost predicate Tracks(d: DeliveryTables, key: string, p: string, ss: seq<DeliveryStatus>) {
    && Matches(d, key, p) && d.attempts[key].state == Outcome(ss)
    && forall x: DeliveryStatus :: x != Accepted ==> (EventExists(d.events, p, x) <==> x in ss)
  }

  lemma NewAttemptKeepsTrack(d: DeliveryTables, other: string, key: string, p: string, ss: seq<DeliveryStatus>)
    requires Tracks(d, key, p, ss)
    ensures Tracks(ClaimKey(d, other).0, key, p, ss)
  {
  }

  /** Storing another answer keeps the attempt's track: it goes to another attempt, under another provider id. */
  lemma OtherAnswerKeepsTrack(d: DeliveryTables, other: string, r: DeliveryResult, key: string, p: string,
                              ss: seq<DeliveryStatus>)
    requires Tracks(d, key, p, ss) && Deliveries.Finalize(d, other, r).Some? && r.providerId != Some(p)
    ensures Tracks(Deliveries.Finalize(d, other, r).value, key, p, ss)
  {
    var e := Deliveries.Finalize(d, other, r).value;
    assert d.attempts[key].state != AttemptState.Pending;
    assert e.events == d.events + {StatusEvent(other, r.providerId, r.status)};
    assert forall x: DeliveryStatus :: EventExists(e.events, p, x) <==> EventExists(d.events, p, x);
  }

  /** Every label but a callback keeps the track. */
  lemma WorkersKeepTrack(c: Config, s: State, l: Label, t: State, key: string, p: string, ss: seq<DeliveryStatus>)
    requires Steps(c, s, l, t) && DeliveryOk(s) && Tracks(s.delivery, key, p, ss) && !l.CallbackArrives?
    ensures Tracks(t.delivery, key, p, ss)
  {
    if !TouchesDelivery(l) {
      DeliveryUntouched(c, s, l, t);
    } else if l.DeliveryClaim? {
      NewAttemptKeepsTrack(s.delivery, DeliveryKey(s.workers[l.w].job.id), key, p, ss);
    } else if l.Finalize? {
      var w := s.workers[l.w];
      assert OwnerOk(s.delivery, s.history, w) && HasMatch(s.delivery, p);
      FinalizeKeepsTables(s.delivery, s.history, DeliveryKey(w.job.id), w.result);
      OtherAnswerKeepsTrack(s.delivery, DeliveryKey(w.job.id), w.result, key, p, ss);
    }
  }

  /** A callback moves the track by its own status, if it is for this provider id. */
  lemma CallbackMovesTrack(c: Config, s: State, cb: Callback, t: State, key: string, p: string, ss: seq<DeliveryStatus>)
    requires Steps(c, s, CallbackArrives(cb), t) && DeliveryOk(s) && Tracks(s.delivery, key, p, ss)
    ensures Tracks(t.delivery, key, p, if cb.providerId == p then ss + [cb.status] else ss)
  {
    CallbackKeepsProviders(s.delivery, cb);
    if cb.providerId == p {
      OwnCallback(s.delivery, cb, key, ss);
    } else {
      ForeignCallback(s.delivery, cb, key, p);
    }
  }

  lemma StepKeepsTrack(c: Config, s: State, l: Label, t: State, key: string, p: string, ss: seq<DeliveryStatus>)
    requires Steps(c, s, l, t) && DeliveryOk(s) && Tracks(s.delivery, key, p, ss)
    ensures Tracks(t.delivery, key, p, ss + ReportedBy(l, p))
  {
    assert ss + [] == ss;
    if l.CallbackArrives? {
      CallbackMovesTrack(c, s, l.callback, t, key, p, ss);
    } else {
      WorkersKeepTrack(c, s, l, t, key, p, ss);
    }
  }

  lemma {:induction false} StatusesGoOn(ls: seq<Label>, p: string, ss: seq<DeliveryStatus>)
    requires ls != []
    ensures ss + StatusesOf(ls, p) == (ss + ReportedBy(ls[0], p)) + StatusesOf(ls[1..], p)
  {
  }

  lemma {:induction false} RunKeepsTrack(c: Config, s: State, ls: seq<Label>, key: string, p: string,
                                         ss: seq<DeliveryStatus>, all: seq<DeliveryStatus>)
    requires IsRun(c, s, ls) && DeliveryOk(s) && Tracks(s.delivery, key, p, ss) && all == ss + StatusesOf(ls, p)
    ensures Tracks(Final(c, s, ls).delivery, key, p, all)
    decreases |ls|
  {
    if ls == [] {
      assert all == ss;
    } else {
      DeliveryOkStep(c, s, ls[0], Next(c, s, ls[0]));
      StepKeepsTrack(c, s, ls[0], Next(c, s, ls[0]), key, p, ss);
      StatusesGoOn(ls, p, ss);
      RunKeepsTrack(c, Next(c, s, ls[0]), ls[1..], key, p, ss + ReportedBy(ls[0], p), all);
    }
  }

  /** Storing an accepted answer puts its attempt on track, with nothing reported yet. */
  lemma AcceptedStartsTrack(c: Config, s: State, w: nat, t: State)
    requires Steps(c, s, Label.Finalize(w), t) && DeliveryOk(s) && s.workers[w].result.status == Accepted
    ensures var p := s.workers[w].result.providerId;
            p.Some? && Tracks(t.delivery, DeliveryKey(s.workers[w].job.id), p.value, [])
  {
    var pc, key := s.workers[w], DeliveryKey(s.workers[w].job.id);
    FinalizeKeepsTables(s.delivery, s.history, key, pc.result);
    forall e | e in s.delivery.events && e.providerId.Some? ensures HasMatch(s.delivery, e.providerId.value) {
      assert Matches(s.delivery, e.attempt, e.providerId.value);
    }
    AcceptedAnswerStartsHere(s.delivery, key, pc.result);
  }

  lemma {:induction false} StoredFollowsCallbacks(c: Config, s: State, w: nat, t: State, ls: seq<Label>)
    requires Steps(c, s, Label.Finalize(w), t) && DeliveryOk(s) && s.workers[w].result.status == Accepted
    requires IsRun(c, t, ls)
    ensures var key, p := DeliveryKey(s.workers[w].job.id), s.workers[w].result.providerId;
            p.Some? && Tracks(Final(c, t, ls).delivery, key, p.value, StatusesOf(ls, p.value))
  {
    var p := s.workers[w].result.providerId;
    DeliveryOkStep(c, s, Label.Finalize(w), t);
    AcceptedStartsTrack(c, s, w, t);
    RunKeepsTrack(c, t, ls, DeliveryKey(s.workers[w].job.id), p.value, [], StatusesOf(ls, p.value));
  }

  /**
   In every run, an attempt whose accepted answer was stored is afterwards where the callbacks received since put
   it, whatever the workers did in between, and has exactly their events.
   */
  lemma {:induction false} AcceptedFollowsCallbacks(c: Config, s: State, w: nat, ls: seq<Label>)
    requires Reachable(c, s) && Enabled(c, s, Label.Finalize(w)) && s.workers[w].result.status == Accepted
    requires IsRun(c, Next(c, s, Label.Finalize(w)), ls)
    ensures var key, p := DeliveryKey(s.workers[w].job.id), s.workers[w].result.providerId;
            p.Some? && Tracks(Final(c, Next(c, s, Label.Finalize(w)), ls).delivery, key, p.value,
                StatusesOf(ls, p.value))
  {
    ReachableInv(c, s);
    StoredFollowsCallbacks(c, s, w, Next(c, s, Label.Finalize(w)), ls);
  }
}
