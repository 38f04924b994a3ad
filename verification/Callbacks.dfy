/** Delivery callbacks as a fold over arbitrary sequences, for all attempts at once. */
module Callbacks {
  import opened Options
  import opened Deliveries

  /** The tables after a sequence of callbacks, one transaction each. */
  ghost function ApplyAll(t: DeliveryTables, cbs: seq<Callback>): DeliveryTables {
    if cbs == [] then t
    else ApplyCallback(ApplyAll(t, cbs[..|cbs| - 1]), cbs[|cbs| - 1]).0
  }

  lemma {:induction false} ApplyAllSnoc(t: DeliveryTables, cbs: seq<Callback>, cb: Callback)
    ensures ApplyAll(t, cbs + [cb]) == ApplyCallback(ApplyAll(t, cbs), cb).0
  {
    assert (cbs + [cb])[..|cbs|] == cbs;
  }

  /** Two tables with the same attempts as far as provider ids go. */
  ghost predicate SameProviders(t: DeliveryTables, u: DeliveryTables) {
    && t.attempts.Keys == u.attempts.Keys
    && forall k :: k in t.attempts ==> t.attempts[k].providerId == u.attempts[k].providerId
  }

  lemma SameProvidersMatch(t: DeliveryTables, u: DeliveryTables)
    requires SameProviders(t, u)
    ensures forall k, p :: Matches(t, k, p) <==> Matches(u, k, p)
    ensures forall p :: HasMatch(t, p) <==> HasMatch(u, p)
    ensures forall p :: SeveralMatch(t, p) <==> SeveralMatch(u, p)
    ensures UniqueProviders(t) <==> UniqueProviders(u)
  {
    assert forall k, p :: Matches(t, k, p) <==> Matches(u, k, p);
    forall p ensures SeveralMatch(t, p) <==> SeveralMatch(u, p) {
      if j, k :| Matches(t, j, p) && Matches(t, k, p) && j != k { assert Matches(u, j, p) && Matches(u, k, p); }
      if j, k :| Matches(u, j, p) && Matches(u, k, p) && j != k { assert Matches(t, j, p) && Matches(t, k, p); }
    }
  }

  /** Callbacks never change which attempt a provider id belongs to. */
  lemma CallbackKeepsProviders(t: DeliveryTables, cb: Callback)
    ensures SameProviders(t, ApplyCallback(t, cb).0)
  {
  }

  lemma {:induction false} ApplyAllKeepsProviders(t: DeliveryTables, cbs: seq<Callback>)
    ensures SameProviders(t, ApplyAll(t, cbs))
  {
    if cbs != [] {
      ApplyAllKeepsProviders(t, cbs[..|cbs| - 1]);
      CallbackKeepsProviders(ApplyAll(t, cbs[..|cbs| - 1]), cbs[|cbs| - 1]);
    }
  }

  // ---------- The closed form ----------

  /** The statuses reported for one provider id, in order. */
  function StatusesFor(cbs: seq<Callback>, p: string): seq<DeliveryStatus> {
    if cbs == [] then []
    else StatusesFor(cbs[..|cbs| - 1], p) + (if cbs[|cbs| - 1].providerId == p then [cbs[|cbs| - 1].status] else [])
  }

  /** A failure arrives before any delivery or reading. */
  ghost predicate FailsFirst(ss: seq<DeliveryStatus>) {
    exists i :: 0 <= i < |ss| && ss[i] == Failed && forall j :: 0 <= j < i ==> ss[j] !in {Delivered, Read}
  }

  /** The furthest progress reported, from accepted on. */
  function Furthest(ss: seq<DeliveryStatus>): DeliveryStatus {
    if Read in ss then Read
    else if Delivered in ss then Delivered
    else if Sent in ss then Sent
    else Accepted
  }

  ghost function Outcome(ss: seq<DeliveryStatus>): DeliveryStatus {
    if FailsFirst(ss) then Failed else Furthest(ss)
  }

  /** The state machine alone, without events. */
  function Moved(current: AttemptState, target: DeliveryStatus): AttemptState {
    if CanTransition(current, target) then target else current
  }

  lemma FailsFirstSnoc(ss: seq<DeliveryStatus>, x: DeliveryStatus)
    ensures FailsFirst(ss + [x]) <==> FailsFirst(ss) || (x == Failed && Delivered !in ss && Read !in ss)
  {
    var tt := ss + [x];
    if FailsFirst(ss) {
      var i :| 0 <= i < |ss| && ss[i] == Failed && forall j :: 0 <= j < i ==> ss[j] !in {Delivered, Read};
      assert tt[i] == Failed && forall j :: 0 <= j < i ==> tt[j] == ss[j];
    }
    if x == Failed && Delivered !in ss && Read !in ss {
      assert tt[|ss|] == Failed && forall j :: 0 <= j < |ss| ==> tt[j] == ss[j] && ss[j] in ss;
    }
    if FailsFirst(tt) {
      var i :| 0 <= i < |tt| && tt[i] == Failed && forall j :: 0 <= j < i ==> tt[j] !in {Delivered, Read};
      assert forall j :: 0 <= j < i && j < |ss| ==> tt[j] == ss[j];
    }
  }

  /** One more callback moves the outcome as the state machine does, seen before or not. */
  lemma OutcomeSnoc(ss: seq<DeliveryStatus>, x: DeliveryStatus)
    requires x in {Sent, Delivered, Read, Failed}
    ensures Outcome(ss + [x]) == Moved(Outcome(ss), x)
    ensures x in ss ==> Outcome(ss + [x]) == Outcome(ss)
  {
    FailsFirstSnoc(ss, x);
    assert forall y :: y in ss + [x] <==> y in ss || y == x;
    if x in ss && x == Failed && Delivered !in ss && Read !in ss {
      var i :| 0 <= i < |ss| && ss[i] == Failed;
      assert forall j :: 0 <= j < i ==> ss[j] in ss;
      assert FailsFirst(ss);
    }
  }

  /** An attempt as storing an ACCEPTED answer leaves it: its provider id has no callback event yet. */
  ghost predicate JustAccepted(t: DeliveryTables, key: string, p: string) {
    && UniqueProviders(t) && Matches(t, key, p) && t.attempts[key].state == Accepted
    && forall x: DeliveryStatus :: x != Accepted ==> !EventExists(t.events, p, x)
  }

  lemma StatusInSnoc(ss: seq<DeliveryStatus>, y: DeliveryStatus)
    ensures forall x :: x in ss + [y] <==> x in ss || x == y
  {
  }

  /** After any callbacks, the attempt's state is the closed form, and its events are the reported statuses. */
  lemma {:induction false} ClosedForm(t: DeliveryTables, cbs: seq<Callback>, key: string, p: string)
    requires JustAccepted(t, key, p)
    requires forall i :: 0 <= i < |cbs| ==> WellFormed(cbs[i])
    ensures var u := ApplyAll(t, cbs);
            && key in u.attempts && u.attempts[key].state == Outcome(StatusesFor(cbs, p))
            && (forall x: DeliveryStatus :: x != Accepted ==>
                (EventExists(u.events, p, x) <==> x in StatusesFor(cbs, p)))
  {
    if cbs != [] {
      var front, cb := cbs[..|cbs| - 1], cbs[|cbs| - 1];
      ClosedForm(t, front, key, p);
      ApplyAllKeepsProviders(t, front);
      SameProvidersMatch(t, ApplyAll(t, front));
      if cb.providerId == p {
        OwnCallback(ApplyAll(t, front), cb, key, StatusesFor(front, p));
      } else {
        ForeignCallback(ApplyAll(t, front), cb, key, p);
        assert StatusesFor(cbs, p) == StatusesFor(front, p);
      }
    }
  }

  lemma OwnCallback(u: DeliveryTables, cb: Callback, key: string, ss: seq<DeliveryStatus>)
    requires UniqueProviders(u) && Matches(u, key, cb.providerId) && WellFormed(cb)
    requires u.attempts[key].state == Outcome(ss)
    requires forall x: DeliveryStatus :: x != Accepted ==> (EventExists(u.events, cb.providerId, x) <==> x in ss)
    ensures var v := ApplyCallback(u, cb).0;
            && key in v.attempts && v.attempts[key].state == Outcome(ss + [cb.status])
            && (forall x: DeliveryStatus :: x != Accepted ==>
                (EventExists(v.events, cb.providerId, x) <==> x in ss + [cb.status]))
  {
    OutcomeSnoc(ss, cb.status);
    StatusInSnoc(ss, cb.status);
    assert HasMatch(u, cb.providerId) && !SeveralMatch(u, cb.providerId) && MatchOf(u, cb.providerId) == key;
    var v := ApplyCallback(u, cb).0;
    assert v.events == u.events || v.events == u.events + {StatusEvent(key, Some(cb.providerId), cb.status)};
    var e := StatusEvent(key, Some(cb.providerId), cb.status);
    assert cb.status !in ss ==> e in v.events;
  }

  /** A callback for another provider id leaves the attempt, and its events, alone. */
  lemma ForeignCallback(u: DeliveryTables, cb: Callback, key: string, p: string)
    requires UniqueProviders(u) && Matches(u, key, p) && cb.providerId != p
    ensures var v := ApplyCallback(u, cb).0;
            && key in v.attempts && v.attempts[key] == u.attempts[key]
            && (forall x: DeliveryStatus :: EventExists(v.events, p, x) <==> EventExists(u.events, p, x))
  {
    var v := ApplyCallback(u, cb).0;
    assert forall e :: e in v.events && e.providerId == Some(p) ==> e in u.events;
    assert u.events <= v.events;
  }

  // ---------- What follows from it ----------

  lemma SameFurthest(ss: seq<DeliveryStatus>, tt: seq<DeliveryStatus>)
    requires Failed !in ss && forall x :: x in ss <==> x in tt
    ensures Outcome(ss) == Outcome(tt) == Furthest(ss)
  {
    assert Failed !in tt;
    assert !FailsFirst(ss) && !FailsFirst(tt);
  }

  /** Without failures only the reported statuses matter, not their order or number. */
  lemma {:induction false} OrderDoesNotMatter(t: DeliveryTables, cbs: seq<Callback>, dbs: seq<Callback>, key: string,
                                              p: string)
    requires JustAccepted(t, key, p)
    requires forall i :: 0 <= i < |cbs| ==> WellFormed(cbs[i])
    requires forall i :: 0 <= i < |dbs| ==> WellFormed(dbs[i])
    requires Failed !in StatusesFor(cbs, p)
    requires forall x :: x in StatusesFor(cbs, p) <==> x in StatusesFor(dbs, p)
    ensures key in ApplyAll(t, cbs).attempts && key in ApplyAll(t, dbs).attempts
    ensures ApplyAll(t, cbs).attempts[key].state == ApplyAll(t, dbs).attempts[key].state
    ensures ApplyAll(t, cbs).attempts[key].state == Furthest(StatusesFor(cbs, p))
  {
    ClosedForm(t, cbs, key, p);
    ClosedForm(t, dbs, key, p);
    SameFurthest(StatusesFor(cbs, p), StatusesFor(dbs, p));
  }

  /** A sequence without its repetitions: first occurrences only. */
  function Distinct(ss: seq<DeliveryStatus>): seq<DeliveryStatus> {
    if ss == [] then []
    else if ss[|ss| - 1] in ss[..|ss| - 1] then Distinct(ss[..|ss| - 1])
    else Distinct(ss[..|ss| - 1]) + [ss[|ss| - 1]]
  }

  lemma {:induction false} DistinctKeepsOutcome(ss: seq<DeliveryStatus>)
    requires forall x :: x in ss ==> x in {Sent, Delivered, Read, Failed}
    ensures Outcome(Distinct(ss)) == Outcome(ss)
    ensures forall x :: x in Distinct(ss) <==> x in ss
  {
    if ss != [] {
      var front, x := ss[..|ss| - 1], ss[|ss| - 1];
      assert ss == front + [x];
      assert x in ss && forall y :: y in front ==> y in ss;
      DistinctKeepsOutcome(front);
      OutcomeSnoc(front, x);
      OutcomeSnoc(Distinct(front), x);
    }
  }

  lemma {:induction false} StatusesAreReported(cbs: seq<Callback>, p: string)
    requires forall i :: 0 <= i < |cbs| ==> WellFormed(cbs[i])
    ensures forall x :: x in StatusesFor(cbs, p) ==> x in {Sent, Delivered, Read, Failed}
  {
    if cbs != [] {
      StatusesAreReported(cbs[..|cbs| - 1], p);
    }
  }

  /** Callbacks that repeat earlier ones never change the final state. */
  lemma {:induction false} DuplicatesDoNotMatter(t: DeliveryTables, cbs: seq<Callback>, dbs: seq<Callback>,
                                                 key: string, p: string)
    requires JustAccepted(t, key, p)
    requires forall i :: 0 <= i < |cbs| ==> WellFormed(cbs[i])
    requires forall i :: 0 <= i < |dbs| ==> WellFormed(dbs[i])
    requires Distinct(StatusesFor(cbs, p)) == Distinct(StatusesFor(dbs, p))
    ensures key in ApplyAll(t, cbs).attempts && key in ApplyAll(t, dbs).attempts
    ensures ApplyAll(t, cbs).attempts[key].state == ApplyAll(t, dbs).attempts[key].state
  {
    ClosedForm(t, cbs, key, p);
    ClosedForm(t, dbs, key, p);
    StatusesAreReported(cbs, p);
    StatusesAreReported(dbs, p);
    DistinctKeepsOutcome(StatusesFor(cbs, p));
    DistinctKeepsOutcome(StatusesFor(dbs, p));
  }

  // ---------- Error codes ----------

  /** The code of the first failure reported for the provider id. */
  function FailureCode(cbs: seq<Callback>, p: string): Option<string> {
    if cbs == [] then None
    else
      var earlier, last := FailureCode(cbs[..|cbs| - 1], p), cbs[|cbs| - 1];
      if earlier.Some? then earlier
      else if last.providerId == p && last.status == Failed then last.errorCode
      else None
  }

  lemma {:induction false} FailuresHaveCodes(cbs: seq<Callback>, p: string)
    requires forall i :: 0 <= i < |cbs| ==> WellFormed(cbs[i])
    ensures FailureCode(cbs, p).Some? <==> Failed in StatusesFor(cbs, p)
  {
    if cbs != [] {
      FailuresHaveCodes(cbs[..|cbs| - 1], p);
    }
  }

  /** An attempt that can still fail has had no failure reported. */
  lemma NoFailureYet(ss: seq<DeliveryStatus>)
    requires Outcome(ss) in {Accepted, Sent}
    ensures Failed !in ss
  {
    forall i | 0 <= i < |ss| ensures ss[i] != Failed {
      assert forall j :: 0 <= j < i ==> ss[j] in ss;
    }
  }

  /** A failed attempt has the code of the first failure reported, and every other attempt none. */
  lemma {:induction false} FailureKeepsItsCode(t: DeliveryTables, cbs: seq<Callback>, key: string, p: string)
    requires JustAccepted(t, key, p) && t.attempts[key].errorCode == None
    requires forall i :: 0 <= i < |cbs| ==> WellFormed(cbs[i])
    ensures var u := ApplyAll(t, cbs);
            && key in u.attempts && u.attempts[key].providerId == Some(p)
            && u.attempts[key].errorCode == if u.attempts[key].state == Failed then FailureCode(cbs, p) else None
  {
    ClosedForm(t, cbs, key, p);
    ApplyAllKeepsProviders(t, cbs);
    if cbs != [] {
      var front, cb := cbs[..|cbs| - 1], cbs[|cbs| - 1];
      FailureKeepsItsCode(t, front, key, p);
      ClosedForm(t, front, key, p);
      CodeMoves(t, front, cb, key, p);
    }
  }

  lemma {:induction false} CodeMoves(t: DeliveryTables, front: seq<Callback>, cb: Callback, key: string, p: string)
    requires JustAccepted(t, key, p) && WellFormed(cb) && forall i :: 0 <= i < |front| ==> WellFormed(front[i])
    requires var u := ApplyAll(t, front);
             && key in u.attempts && u.attempts[key].state == Outcome(StatusesFor(front, p))
             && u.attempts[key].errorCode == if u.attempts[key].state == Failed then FailureCode(front, p) else None
    ensures var v := ApplyCallback(ApplyAll(t, front), cb).0;
            && key in v.attempts
            && v.attempts[key].errorCode ==
                 if v.attempts[key].state == Failed then FailureCode(front + [cb], p) else None
  {
    var u := ApplyAll(t, front);
    assert (front + [cb])[..|front|] == front;
    ApplyAllKeepsProviders(t, front);
    SameProvidersMatch(t, u);
    FailuresHaveCodes(front, p);
    if cb.providerId == p {
      assert MatchOf(u, p) == key && !SeveralMatch(u, p);
      if CanTransition(u.attempts[key].state, Failed) {
        NoFailureYet(StatusesFor(front, p));
      }
    } else {
      ForeignCallback(u, cb, key, p);
    }
  }

  /** FAILED and READ are final: no further callbacks change the attempt. */
  lemma {:induction false} FinalStatesStay(t: DeliveryTables, cbs: seq<Callback>, key: string)
    requires key in t.attempts && t.attempts[key].state in {Failed, Read}
    ensures key in ApplyAll(t, cbs).attempts && ApplyAll(t, cbs).attempts[key] == t.attempts[key]
  {
    if cbs != [] {
      FinalStatesStay(t, cbs[..|cbs| - 1], key);
    }
  }

  /** Storing an ACCEPTED answer under a new provider id is where the closed form starts. */
  lemma AcceptedAnswerStartsHere(d: DeliveryTables, key: string, r: DeliveryResult)
    requires UniqueProviders(d) && Finalize(d, key, r).Some?
    requires r.status == Accepted && r.providerId.Some? && !HasMatch(d, r.providerId.value)
    requires forall e :: e in d.events && e.providerId.Some? ==> HasMatch(d, e.providerId.value)
    ensures JustAccepted(Finalize(d, key, r).value, key, r.providerId.value)
  {
    var t := Finalize(d, key, r).value;
    assert forall k, p :: Matches(t, k, p) ==> Matches(d, k, p) || (k == key && r.providerId == Some(p));
  }
}
