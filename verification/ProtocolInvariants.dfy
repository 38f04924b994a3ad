/** What every step of the protocol keeps, one group of facts at a time. */
module ProtocolInvariants {
  import opened Options
  import opened Messages
  import opened Deliveries
  import opened Leases
  import opened Protocol

  // ---------- Moves of one worker ----------

  predicate ByWorker(l: Label) {
    !l.Ingest? && !l.CallbackArrives? && !l.EmitReport? && !l.LoseReport? && !l.Tick?
  }

  function Movers(l: Label): set<nat> {
    if ByWorker(l) then {l.w} else {}
  }

  /** Workers outside the set stand where they stood. */
  ghost predicate OthersStay(s: State, t: State, movers: set<nat>) {
    forall w :: w in t.workers && w !in movers ==> w in s.workers && t.workers[w] == s.workers[w]
  }

  /** A label moves at most the worker it names. */
  lemma OneWorkerMoves(c: Config, s: State, l: Label, t: State)
    requires Steps(c, s, l, t)
    ensures ByWorker(l) ==> l.w in t.workers &&
                            t.workers == s.workers[l.w := t.workers[l.w]]
    ensures !ByWorker(l) ==> t.workers == s.workers
    ensures OthersStay(s, t, Movers(l))
  {
    if ByWorker(l) {
      MovesItsWorker(c, s, l, t);
    } else {
      MovesNobody(c, s, l, t);
    }
  }

  lemma MovesItsWorker(c: Config, s: State, l: Label, t: State)
    requires Steps(c, s, l, t) && ByWorker(l)
    ensures l.w in t.workers && t.workers == s.workers[l.w := t.workers[l.w]]
  {
  }

  lemma MovesNobody(c: Config, s: State, l: Label, t: State)
    requires Steps(c, s, l, t) && !ByWorker(l)
    ensures t.workers == s.workers
  {
  }

  // ---------- Rows and jobs ----------

  /** Reply ids name non-empty replies and nothing else; every job is an earlier snapshot of its row. */
  ghost predicate RowsOk(s: State) {
    && (forall id :: id in s.messages ==> (s.messages[id].Outbound? <==> IsReplyId(id)))
    && (forall id :: id in s.messages && IsReplyId(id) ==> s.messages[id].text != "")
    && (forall w :: w in s.workers ==> JobOk(s.messages, s.workers[w]))
  }

  predicate JobOk(messages: MessageTable, pc: Pc) {
    pc.Idle? ||
    (&& pc.job.id in messages && messages[pc.job.id].Inbound?
     && messages[pc.job.id].scope == pc.job.scope
     && 1 <= pc.job.attempts <= messages[pc.job.id].attempts
     && (pc.Composed? ==> pc.text != ""))
  }

  predicate WritesMessages(l: Label) {
    l.Ingest? || l.Claim? || l.Record? || l.Settle? || l.Handle?
  }

  lemma MessagesUntouched(c: Config, s: State, l: Label, t: State)
    requires Steps(c, s, l, t) && !WritesMessages(l)
    ensures t.messages == s.messages
  {
  }

  /** What may become of a row: it keeps its kind, conversation and text, and never loses attempts. */
  predicate RowGrows(before: MessageRow, after: MessageRow) {
    && after.scope == before.scope && after.text == before.text
    && (before.Outbound? ==> after == before)
    && (before.Inbound? ==> after.Inbound? && before.attempts <= after.attempts)
  }

  lemma RowGrowsStep(c: Config, s: State, l: Label, t: State, id: string)
    requires Steps(c, s, l, t) && RowsOk(s) && id in s.messages
    ensures id in t.messages && RowGrows(s.messages[id], t.messages[id])
  {
    if !WritesMessages(l) {
      MessagesUntouched(c, s, l, t);
    }
  }

  lemma NewRowOk(c: Config, s: State, l: Label, t: State, id: string)
    requires Steps(c, s, l, t) && RowsOk(s) && id in t.messages && id !in s.messages
    ensures (t.messages[id].Outbound? <==> IsReplyId(id)) && (IsReplyId(id) ==> t.messages[id].text != "")
  {
    if !WritesMessages(l) {
      MessagesUntouched(c, s, l, t);
    }
  }

  lemma RowsGrow(c: Config, s: State, l: Label, t: State)
    requires Steps(c, s, l, t) && RowsOk(s)
    ensures forall id :: id in s.messages ==> id in t.messages && RowGrows(s.messages[id], t.messages[id])
  {
    forall id | id in s.messages ensures id in t.messages && RowGrows(s.messages[id], t.messages[id]) {
      RowGrowsStep(c, s, l, t, id);
    }
  }

  lemma NewRowsOk(c: Config, s: State, l: Label, t: State)
    requires Steps(c, s, l, t) && RowsOk(s)
    ensures forall id :: id in t.messages && id !in s.messages ==>
              (t.messages[id].Outbound? <==> IsReplyId(id)) && (IsReplyId(id) ==> t.messages[id].text != "")
  {
    forall id | id in t.messages && id !in s.messages
      ensures (t.messages[id].Outbound? <==> IsReplyId(id)) && (IsReplyId(id) ==> t.messages[id].text != "")
    {
      NewRowOk(c, s, l, t, id);
    }
  }

  /** A job is claimed, or the worker had it; what it composed is not empty. */
  lemma JobCameFrom(c: Config, s: State, l: Label, t: State)
    requires Steps(c, s, l, t) && ByWorker(l) && !l.Claim? && !t.workers[l.w].Idle?
    ensures l.w in s.workers && !s.workers[l.w].Idle? && s.workers[l.w].job == t.workers[l.w].job
    ensures t.workers[l.w].Composed? ==> t.workers[l.w].text != ""
  {
  }

  lemma MovedJobOk(c: Config, s: State, l: Label, t: State)
    requires Steps(c, s, l, t) && RowsOk(s) && ByWorker(l)
    ensures JobOk(t.messages, t.workers[l.w])
  {
    RowsGrow(c, s, l, t);
    if !l.Claim? && !t.workers[l.w].Idle? {
      JobCameFrom(c, s, l, t);
      assert JobOk(s.messages, s.workers[l.w]);
    }
  }

  lemma RowsOkStep(c: Config, s: State, l: Label, t: State)
    requires Steps(c, s, l, t) && RowsOk(s)
    ensures RowsOk(t)
  {
    OneWorkerMoves(c, s, l, t);
    RowsGrow(c, s, l, t);
    NewRowsOk(c, s, l, t);
    if ByWorker(l) {
      MovedJobOk(c, s, l, t);
    }
  }

  // ---------- Schedules ----------

  /** Pending work has a due time and claimed work a claim time, so no unfinished row is out of reach. */
  predicate Scheduled(row: MessageRow) {
    row.Inbound? ==>
      && (row.status == ProcessingStatus.Pending ==> row.availableAt.Some?)
      && (row.status == Processing ==> row.claimedAt.Some?)
  }

  ghost predicate SchedulesOk(messages: MessageTable) {
    forall id :: id in messages ==> Scheduled(messages[id])
  }

  lemma SchedulesOkStep(c: Config, s: State, l: Label, t: State)
    requires Steps(c, s, l, t) && SchedulesOk(s.messages)
    ensures SchedulesOk(t.messages)
  {
  }

  // ---------- Lock tokens ----------

  predicate HoldsToken(pc: Pc) {
    pc.Locked? || pc.Composing? || pc.Composed? || pc.Releasing?
  }

  /** Two workers hold different tokens. */
  predicate DistinctTokens(p: Pc, q: Pc) {
    HoldsToken(p) && HoldsToken(q) ==> p.token != q.token
  }

  /** Tokens in the table and in the workers' hands were handed out, each to one worker. */
  ghost predicate TokensOk(s: State) {
    && (forall k :: k in s.locks ==> s.locks[k].token in s.history.tokens)
    && (forall w :: w in s.workers && HoldsToken(s.workers[w]) ==> s.workers[w].token in s.history.tokens)
    && (forall v, w :: v in s.workers && w in s.workers && v != w ==> DistinctTokens(s.workers[v], s.workers[w]))
  }

  /** A worker gains a token only by acquiring the lock with a new one. */
  lemma TokenMoves(c: Config, s: State, l: Label, t: State)
    requires Steps(c, s, l, t)
    ensures && s.history.tokens <= t.history.tokens
            && (forall k :: k in t.locks ==> (k in s.locks && t.locks[k] == s.locks[k]) ||
                                             (l.Acquire? && t.locks[k].token == l.token && l.token in t.history.tokens))
            && (ByWorker(l) && HoldsToken(t.workers[l.w]) ==>
                 || (l.w in s.workers && HoldsToken(s.workers[l.w]) && s.workers[l.w].token == t.workers[l.w].token)
                 || (t.workers[l.w].token !in s.history.tokens && t.workers[l.w].token in t.history.tokens))
  {
  }

  lemma TokensOkStep(c: Config, s: State, l: Label, t: State)
    requires Steps(c, s, l, t) && TokensOk(s)
    ensures TokensOk(t)
  {
    OneWorkerMoves(c, s, l, t);
    TokenMoves(c, s, l, t);
  }

  // ---------- Delivery ----------

  ghost predicate SentFor(sends: seq<Send>, key: string) {
    exists i :: 0 <= i < |sends| && sends[i].key == key
  }

  predicate OwnsAttempt(pc: Pc) {
    pc.Sending? || pc.Finalizing?
  }

  /** A pending attempt has no provider id; any other one satisfies the truth rule. */
  predicate AttemptOk(a: Attempt) {
    if a.state == AttemptState.Pending then a == FRESH_ATTEMPT
    else Truthful(DeliveryResult(a.state, a.providerId, a.errorCode))
  }

  ghost predicate TablesOk(d: DeliveryTables, h: History) {
    && (forall k :: k in d.attempts ==> AttemptOk(d.attempts[k]))
    && (forall k :: k in d.attempts && d.attempts[k].providerId.Some? ==>
        d.attempts[k].providerId.value in h.providerIds)
    && UniqueProviders(d)
    && (forall e :: e in d.events ==>
          && e.attempt in d.attempts && d.attempts[e.attempt].state != AttemptState.Pending
          && d.attempts[e.attempt].providerId == e.providerId)
  }

  /** Every provider call has its attempt, no key is sent twice, and only sent attempts leave pending. */
  ghost predicate SendsOk(d: DeliveryTables, sends: seq<Send>) {
    && (forall k :: k in d.attempts && d.attempts[k].state != AttemptState.Pending ==> SentFor(sends, k))
    && (forall i :: 0 <= i < |sends| ==> sends[i].key in d.attempts)
    && (forall i, j :: 0 <= i < j < |sends| ==> sends[i].key != sends[j].key)
  }

  /** What a worker between creating an attempt and storing the provider's answer knows. */
  ghost predicate OwnerOk(d: DeliveryTables, h: History, pc: Pc) {
    OwnsAttempt(pc) ==>
      var key := DeliveryKey(pc.job.id);
      && key in d.attempts && d.attempts[key] == FRESH_ATTEMPT
      && (SentFor(h.sends, key) <==> pc.Finalizing?)
      && (pc.Finalizing? ==> AnswerOk(d, h, pc.result))
  }

  ghost predicate AnswerOk(d: DeliveryTables, h: History, r: DeliveryResult) {
    && Truthful(r) && r.status in {Accepted, AttemptState.Failed, Unknown}
    && (r.status == Accepted <==> r.providerId.Some?)
    && (r.providerId.Some? ==> r.providerId.value in h.providerIds && !HasMatch(d, r.providerId.value))
  }

  /** Two owners work on different messages and hold different provider ids. */
  predicate DistinctOwners(p: Pc, q: Pc) {
    OwnsAttempt(p) && OwnsAttempt(q) ==>
      && p.job.id != q.job.id
      && (p.Finalizing? && q.Finalizing? && p.result.providerId.Some? ==> p.result.providerId != q.result.providerId)
  }

  ghost predicate OwnersOk(s: State) {
    && (forall w :: w in s.workers ==> OwnerOk(s.delivery, s.history, s.workers[w]))
    && (forall v, w :: v in s.workers && w in s.workers && v != w ==> DistinctOwners(s.workers[v], s.workers[w]))
  }

  ghost predicate DeliveryOk(s: State) {
    TablesOk(s.delivery, s.history) && SendsOk(s.delivery, s.history.sends) && OwnersOk(s)
  }

  /** Labels other than these leave the delivery tables alone and create no owner. */
  predicate TouchesDelivery(l: Label) {
    l.DeliveryClaim? || l.CallProvider? || l.Finalize? || l.CallbackArrives?
  }

  lemma DeliveryUntouched(c: Config, s: State, l: Label, t: State)
    requires Steps(c, s, l, t) && !TouchesDelivery(l)
    ensures && t.delivery == s.delivery && t.history.sends == s.history.sends
            && t.history.providerIds == s.history.providerIds
            && (ByWorker(l) ==> !OwnsAttempt(t.workers[l.w]))
  {
  }

  lemma UntouchedKeepsDelivery(c: Config, s: State, l: Label, t: State)
    requires Steps(c, s, l, t) && !TouchesDelivery(l) && DeliveryOk(s)
    ensures DeliveryOk(t)
  {
    OneWorkerMoves(c, s, l, t);
    DeliveryUntouched(c, s, l, t);
    if ByWorker(l) {
      OwnersMove(s, t, l.w, t.workers[l.w]);
    }
  }

  lemma DeliveryOkStep(c: Config, s: State, l: Label, t: State)
    requires Steps(c, s, l, t) && DeliveryOk(s)
    ensures DeliveryOk(t)
  {
    if !TouchesDelivery(l) {
      UntouchedKeepsDelivery(c, s, l, t);
    } else if l.DeliveryClaim? {
      ClaimKeepsDelivery(c, s, t, l.w);
    } else if l.CallProvider? {
      ProviderCallKeepsDelivery(c, s, t, l.w, l.outcome);
    } else if l.Finalize? {
      FinalizeKeepsDelivery(c, s, t, l.w);
    } else {
      CallbackKeepsDelivery(c, s, t, l.callback);
    }
  }

  /** Owners after worker w moved: the others still own theirs, and w's own state fits. */
  lemma OwnersMove(s: State, t: State, w: nat, pc: Pc)
    requires OwnersOk(s) && t.workers == s.workers[w := pc]
    requires OwnerOk(t.delivery, t.history, pc)
    requires forall v :: v in s.workers && v != w ==>
               OwnerOk(t.delivery, t.history, s.workers[v]) && DistinctOwners(s.workers[v], pc) &&
                   DistinctOwners(pc, s.workers[v])
    ensures OwnersOk(t)
  {
  }

  lemma InsertKeepsTables(d: DeliveryTables, h: History, key: string)
    requires TablesOk(d, h) && SendsOk(d, h.sends) && key !in d.attempts
    ensures var e := ClaimKey(d, key).0;
            && TablesOk(e, h) && SendsOk(e, h.sends) && !SentFor(h.sends, key)
            && (forall p :: HasMatch(e, p) ==> HasMatch(d, p))
  {
    var e := ClaimKey(d, key).0;
    assert forall k, p :: Matches(e, k, p) <==> Matches(d, k, p);
  }

  lemma ClaimKeepsDelivery(c: Config, s: State, t: State, w: nat)
    requires Steps(c, s, DeliveryClaim(w), t) && DeliveryOk(s)
    ensures DeliveryOk(t)
  {
    var key := DeliveryKey(s.workers[w].job.id);
    if key !in s.delivery.attempts {
      InsertKeepsTables(s.delivery, s.history, key);
    }
    OwnersMove(s, t, w, t.workers[w]);
  }

  lemma SentForSnoc(sends: seq<Send>, x: Send)
    ensures forall k :: SentFor(sends + [x], k) <==> SentFor(sends, k) || k == x.key
  {
    assert (sends + [x])[|sends|] == x;
    forall k | SentFor(sends, k) ensures SentFor(sends + [x], k) {
      var i :| 0 <= i < |sends| && sends[i].key == k;
      assert (sends + [x])[i].key == k;
    }
  }

  lemma ProviderCallKeepsDelivery(c: Config, s: State, t: State, w: nat, outcome: ProviderOutcome)
    requires Steps(c, s, CallProvider(w, outcome), t) && DeliveryOk(s)
    ensures DeliveryOk(t)
  {
    SentForSnoc(s.history.sends, Send(DeliveryKey(s.workers[w].job.id), s.workers[w].text));
    OwnersMove(s, t, w, t.workers[w]);
  }

  /** Storing an answer gives one pending attempt its state, and makes only its provider id matchable. */
  lemma FinalizeKeepsTables(d: DeliveryTables, h: History, key: string, r: DeliveryResult)
    requires TablesOk(d, h) && SendsOk(d, h.sends) && AnswerOk(d, h, r)
    requires key in d.attempts && d.attempts[key] == FRESH_ATTEMPT && SentFor(h.sends, key)
    ensures Deliveries.Finalize(d, key, r).Some?
    ensures var e := Deliveries.Finalize(d, key, r).value;
            && TablesOk(e, h) && SendsOk(e, h.sends)
            && (forall p :: HasMatch(e, p) ==> HasMatch(d, p) || r.providerId == Some(p))
  {
    assert !EventConflicts(d.events, r.providerId, r.status) by {
      forall ev | ev in d.events && ev.providerId.Some? ensures ev.providerId != r.providerId {
        assert Matches(d, ev.attempt, ev.providerId.value);
      }
    }
    var e := Deliveries.Finalize(d, key, r).value;
    assert forall k, p :: Matches(e, k, p) ==> Matches(d, k, p) || (k == key && r.providerId == Some(p));
  }

  lemma FinalizeKeepsDelivery(c: Config, s: State, t: State, w: nat)
    requires Steps(c, s, Finalize(w), t) && DeliveryOk(s)
    ensures DeliveryOk(t)
  {
    var key, r := DeliveryKey(s.workers[w].job.id), s.workers[w].result;
    FinalizeKeepsTables(s.delivery, s.history, key, r);
    OwnersMove(s, t, w, t.workers[w]);
  }

  lemma CallbackKeepsTables(d: DeliveryTables, h: History, cb: Callback)
    requires TablesOk(d, h) && SendsOk(d, h.sends) && WellFormed(cb)
    ensures var e := ApplyCallback(d, cb).0;
            && TablesOk(e, h) && SendsOk(e, h.sends)
            && (forall p :: HasMatch(e, p) ==> HasMatch(d, p))
            && (forall k :: k in d.attempts && d.attempts[k].state == AttemptState.Pending ==>
                k in e.attempts && e.attempts[k] == d.attempts[k])
  {
    var e := ApplyCallback(d, cb).0;
    assert forall k, p :: Matches(e, k, p) <==> Matches(d, k, p);
  }

  lemma CallbackKeepsDelivery(c: Config, s: State, t: State, cb: Callback)
    requires Steps(c, s, CallbackArrives(cb), t) && DeliveryOk(s)
    ensures DeliveryOk(t)
  {
    CallbackKeepsTables(s.delivery, s.history, cb);
  }

  // ---------- Attempt budget ----------

  /** Jobs of one message are different snapshots, and none of them has put its message back yet. */
  predicate DistinctJobs(p: Pc, q: Pc) {
    !p.Idle? && !q.Idle? && p.job.id == q.job.id ==> p.job.attempts != q.job.attempts
  }

  /** The attempts of a row: one per retry, one per stale reclaim, and the one in progress or finished. */
  predicate RowBudgetOk(c: Config, row: MessageRow, retried: set<nat>, reclaims: nat)
    requires row.Inbound?
  {
    && row.attempts == |retried| + reclaims + (if row.status == ProcessingStatus.Pending then 0 else 1)
    && (forall a :: a in retried ==> 1 <= a < c.maxAttempts && a <= row.attempts)
  }

  ghost predicate BudgetOk(c: Config, s: State) {
    && (forall id :: id in s.messages && s.messages[id].Inbound? ==>
        RowBudgetOk(c, s.messages[id], Retried(s.history, id), Reclaims(s.history, id)))
    && (forall id :: id !in s.messages ==> Retried(s.history, id) == {} && Reclaims(s.history, id) == 0)
    && (forall v, w :: v in s.workers && w in s.workers && v != w ==> DistinctJobs(s.workers[v], s.workers[w]))
    && (forall w :: w in s.workers && !s.workers[w].Idle? ==>
          s.workers[w].job.attempts !in Retried(s.history, s.workers[w].job.id))
  }

  predicate TouchesBudget(l: Label) {
    l.Ingest? || l.Claim? || l.Settle? || l.Handle?
  }

  /** Other labels leave every inbound row and every counter alone. */
  lemma InboundUntouched(c: Config, s: State, l: Label, t: State)
    requires Steps(c, s, l, t) && !TouchesBudget(l) && RowsOk(s)
    ensures t.history.reclaims == s.history.reclaims && t.history.retried == s.history.retried
    ensures forall id :: id in t.messages && t.messages[id].Inbound? ==>
            id in s.messages && t.messages[id] == s.messages[id]
    ensures s.messages.Keys <= t.messages.Keys
  {
    if !l.Record? {
      MessagesUntouched(c, s, l, t);
    }
  }

  /** Other labels never change the job in a worker's hands. */
  lemma JobUntouched(c: Config, s: State, l: Label, t: State)
    requires Steps(c, s, l, t) && !TouchesBudget(l) && ByWorker(l)
    ensures l.w in s.workers && l.w in t.workers
    ensures !t.workers[l.w].Idle? ==> !s.workers[l.w].Idle? && t.workers[l.w].job == s.workers[l.w].job
  {
  }

  /** A retry adds its snapshot to the set, once. */
  lemma BudgetMove(c: Config, s: State, t: State, w: nat, id: string)
    requires BudgetOk(c, s) && RowsOk(s) && w in t.workers
    requires t.workers == s.workers[w := t.workers[w]]
    requires t.messages.Keys == s.messages.Keys && id in s.messages
    requires forall k :: k != id && k in s.messages ==> t.messages[k] == s.messages[k]
    requires forall k :: k != id ==>
             Retried(t.history, k) == Retried(s.history, k) && Reclaims(t.history, k) == Reclaims(s.history, k)
    requires t.messages[id].Inbound? && RowBudgetOk(c, t.messages[id], Retried(t.history, id), Reclaims(t.history, id))
    requires t.workers[w].Idle? ||
             (t.workers[w].job.id == id && t.workers[w].job.attempts !in Retried(t.history, id) &&
              forall v :: v in s.workers && v != w ==>
                  DistinctJobs(s.workers[v], t.workers[w]) && DistinctJobs(t.workers[w], s.workers[v]))
    requires forall v :: v in s.workers && v != w && !s.workers[v].Idle? && s.workers[v].job.id == id ==>
               s.workers[v].job.attempts !in Retried(t.history, id)
    ensures BudgetOk(c, t)
  {
  }

  lemma ClaimKeepsBudget(c: Config, s: State, t: State, w: nat, id: string)
    requires Steps(c, s, Label.Claim(w, id), t) && RowsOk(s) && BudgetOk(c, s)
    ensures BudgetOk(c, t)
  {
    BudgetMove(c, s, t, w, id);
  }

  /** A new snapshot below the limit pays for the attempt it gives back. */
  lemma RetryFitsBudget(c: Config, row: MessageRow, pending: MessageRow, retried: set<nat>, reclaims: nat, a: nat)
    requires row.Inbound? && pending.Inbound? && pending.attempts == row.attempts
    requires row.status == Processing && pending.status == ProcessingStatus.Pending
    requires RowBudgetOk(c, row, retried, reclaims) && a !in retried && 1 <= a < c.maxAttempts && a <= row.attempts
    ensures RowBudgetOk(c, pending, retried + {a}, reclaims)
  {
  }

  /** The handler's row fits the budget, whether it went back, failed or was lost. */
  lemma HandledRowFits(c: Config, s: State, t: State, w: nat)
    requires Steps(c, s, Handle(w), t) && RowsOk(s) && BudgetOk(c, s)
    ensures var id := s.workers[w].job.id;
            && id in s.messages && id in t.messages && t.messages[id].Inbound?
            && RowBudgetOk(c, t.messages[id], Retried(t.history, id), Reclaims(t.history, id))
  {
    var job := s.workers[w].job;
    assert JobOk(s.messages, s.workers[w]);
    if s.messages[job.id].status == Processing && job.attempts < c.maxAttempts {
      RetryFitsBudget(c, s.messages[job.id], t.messages[job.id], Retried(s.history, job.id),
          Reclaims(s.history, job.id), job.attempts);
    }
  }

  /** The handler touches its own row and counters, and puts no other job back. */
  lemma HandlerTouches(c: Config, s: State, t: State, w: nat)
    requires Steps(c, s, Handle(w), t)
    ensures t.workers == s.workers[w := Idle] && t.messages.Keys == s.messages.Keys
    ensures forall k :: k != s.workers[w].job.id && k in s.messages ==> t.messages[k] == s.messages[k]
    ensures forall k :: Reclaims(t.history, k) == Reclaims(s.history, k)
    ensures forall k :: k != s.workers[w].job.id ==> Retried(t.history, k) == Retried(s.history, k)
    ensures Retried(t.history, s.workers[w].job.id) <=
            Retried(s.history, s.workers[w].job.id) + {s.workers[w].job.attempts}
  {
  }

  lemma HandleKeepsBudget(c: Config, s: State, t: State, w: nat)
    requires Steps(c, s, Handle(w), t) && RowsOk(s) && BudgetOk(c, s)
    ensures BudgetOk(c, t)
  {
    HandledRowFits(c, s, t, w);
    HandlerTouches(c, s, t, w);
    forall v | v in s.workers && v != w && !s.workers[v].Idle? && s.workers[v].job.id == s.workers[w].job.id
      ensures s.workers[v].job.attempts !in Retried(t.history, s.workers[w].job.id)
    {
      assert DistinctJobs(s.workers[v], s.workers[w]);
    }
    BudgetMove(c, s, t, w, s.workers[w].job.id);
  }

  lemma SettleKeepsBudget(c: Config, s: State, t: State, w: nat)
    requires Steps(c, s, Settle(w), t) && RowsOk(s) && BudgetOk(c, s)
    ensures BudgetOk(c, t)
  {
    BudgetMove(c, s, t, w, s.workers[w].job.id);
  }

  ghost predicate SameJobs(s: State, t: State) {
    forall w :: w in t.workers && !t.workers[w].Idle? ==>
      w in s.workers && !s.workers[w].Idle? && s.workers[w].job == t.workers[w].job
  }

  lemma SameCountersKeepBudget(c: Config, s: State, t: State)
    requires BudgetOk(c, s) && SameJobs(s, t)
    requires t.history.reclaims == s.history.reclaims && t.history.retried == s.history.retried
    requires forall id :: id in t.messages && t.messages[id].Inbound? ==>
             id in s.messages && t.messages[id] == s.messages[id]
    requires s.messages.Keys <= t.messages.Keys
    ensures BudgetOk(c, t)
  {
    assert forall id :: Retried(t.history, id) == Retried(s.history, id);
    assert forall id :: Reclaims(t.history, id) == Reclaims(s.history, id);
  }

  lemma UntouchedKeepsBudget(c: Config, s: State, l: Label, t: State)
    requires Steps(c, s, l, t) && !TouchesBudget(l) && RowsOk(s) && BudgetOk(c, s)
    ensures BudgetOk(c, t)
  {
    OneWorkerMoves(c, s, l, t);
    InboundUntouched(c, s, l, t);
    if ByWorker(l) {
      JobUntouched(c, s, l, t);
    }
    assert SameJobs(s, t);
    SameCountersKeepBudget(c, s, t);
  }

  lemma BudgetOkStep(c: Config, s: State, l: Label, t: State)
    requires Steps(c, s, l, t) && RowsOk(s) && BudgetOk(c, s)
    ensures BudgetOk(c, t)
  {
    if !TouchesBudget(l) {
      UntouchedKeepsBudget(c, s, l, t);
    } else if l.Claim? {
      ClaimKeepsBudget(c, s, t, l.w, l.id);
    } else if l.Handle? {
      HandleKeepsBudget(c, s, t, l.w);
    } else if l.Settle? {
      SettleKeepsBudget(c, s, t, l.w);
    }
  }

  // ---------- Completed messages ----------

  /** The reply to the message was sent, and its attempt carries a provider id and a reported state. */
  ghost predicate SuccessBehind(d: DeliveryTables, sends: seq<Send>, id: string) {
    var key := DeliveryKey(id);
    && key in d.attempts && HasText(d.attempts[key].providerId)
    && d.attempts[key].state !in {AttemptState.Pending, Unknown}
    && SentFor(sends, key)
  }

  ghost predicate CompletedOk(s: State) {
    && (forall id :: id in s.messages && s.messages[id].Inbound? && s.messages[id].status == Completed ==>
          SuccessBehind(s.delivery, s.history.sends, id))
    && (forall w :: w in s.workers && s.workers[w].Settling? && IsSuccess(s.workers[w].result.status) ==>
          SuccessBehind(s.delivery, s.history.sends, s.workers[w].job.id))
  }

  /** Attempts that left pending keep their provider id and never go back to pending or unknown. */
  lemma SuccessStays(c: Config, s: State, l: Label, t: State, id: string)
    requires Steps(c, s, l, t) && DeliveryOk(s) && SuccessBehind(s.delivery, s.history.sends, id)
    ensures SuccessBehind(t.delivery, t.history.sends, id)
  {
    if !TouchesDelivery(l) {
      DeliveryUntouched(c, s, l, t);
    } else if l.CallProvider? {
      SentForSnoc(s.history.sends, Send(DeliveryKey(s.workers[l.w].job.id), s.workers[l.w].text));
    }
  }

  /** A worker reaches the settling point by storing an answer or by replaying one. */
  lemma SettlingComesFrom(c: Config, s: State, l: Label, t: State)
    requires Steps(c, s, l, t) && ByWorker(l) && t.workers[l.w].Settling?
    ensures l.Finalize? || l.DeliveryClaim?
  {
  }

  lemma StoredAnswerSucceeded(c: Config, s: State, t: State, w: nat)
    requires Steps(c, s, Finalize(w), t) && DeliveryOk(s) && IsSuccess(s.workers[w].result.status)
    ensures SuccessBehind(t.delivery, t.history.sends, s.workers[w].job.id)
  {
    FinalizeKeepsTables(s.delivery, s.history, DeliveryKey(s.workers[w].job.id), s.workers[w].result);
  }

  lemma ReplayedAnswerSucceeded(c: Config, s: State, t: State, w: nat)
    requires Steps(c, s, DeliveryClaim(w), t) && DeliveryOk(s)
    requires t.workers[w].Settling? && IsSuccess(t.workers[w].result.status)
    ensures SuccessBehind(t.delivery, t.history.sends, s.workers[w].job.id)
  {
  }

  /** A worker that is about to complete its message has a success behind it. */
  lemma SettlingHasSuccess(c: Config, s: State, l: Label, t: State)
    requires Steps(c, s, l, t) && DeliveryOk(s) && ByWorker(l)
    requires t.workers[l.w].Settling? && IsSuccess(t.workers[l.w].result.status)
    ensures SuccessBehind(t.delivery, t.history.sends, t.workers[l.w].job.id)
  {
    SettlingComesFrom(c, s, l, t);
    if l.Finalize? {
      StoredAnswerSucceeded(c, s, t, l.w);
    } else {
      ReplayedAnswerSucceeded(c, s, t, l.w);
    }
  }

  /** Only settling completes a message, and only its own. */
  lemma NewlyCompleted(c: Config, s: State, l: Label, t: State, id: string)
    requires Steps(c, s, l, t)
    requires id in t.messages && t.messages[id].Inbound? && t.messages[id].status == Completed
    ensures (id in s.messages && s.messages[id] == t.messages[id]) ||
            (l.Settle? && s.workers[l.w].job.id == id && IsSuccess(s.workers[l.w].result.status))
  {
  }

  lemma CompletedOkStep(c: Config, s: State, l: Label, t: State)
    requires Steps(c, s, l, t) && DeliveryOk(s) && CompletedOk(s)
    ensures CompletedOk(t)
  {
    OneWorkerMoves(c, s, l, t);
    forall id | SuccessBehind(s.delivery, s.history.sends, id)
      ensures SuccessBehind(t.delivery, t.history.sends, id)
    {
      SuccessStays(c, s, l, t, id);
    }
    forall id | id in t.messages && t.messages[id].Inbound? && t.messages[id].status == Completed
      ensures SuccessBehind(s.delivery, s.history.sends, id)
    {
      NewlyCompleted(c, s, l, t, id);
    }
    if ByWorker(l) && t.workers[l.w].Settling? && IsSuccess(t.workers[l.w].result.status) {
      SettlingHasSuccess(c, s, l, t);
    }
  }

  // ---------- Callback telemetry ----------

  ghost predicate Emitted(emissions: seq<Emission>, e: Emission) {
    exists i :: 0 <= i < |emissions| && emissions[i] == e
  }

  /** The states an attempt can be in once this was reported. */
  function StatesAfter(kind: Telemetry): set<AttemptState> {
    if kind == DeliverySucceeded then {Delivered, Read} else {AttemptState.Failed}
  }

  /** The report was made, is still to be made, or was lost. */
  ghost predicate Accounted(s: State, e: Emission) {
    Emitted(s.history.emissions, e) || e in s.reporting || e in s.history.dropped
  }

  /**
   Each attempt has at most one report, which agrees with the state it has from then on, and is made, owed or lost.
   */
  ghost predicate EmissionsOk(s: State) {
    && (forall e :: Accounted(s, e) ==>
        e.key in s.delivery.attempts && s.delivery.attempts[e.key].state in StatesAfter(e.kind))
    && (forall i, j :: 0 <= i < j < |s.history.emissions| ==> s.history.emissions[i].key != s.history.emissions[j].key)
    && (forall e :: Emitted(s.history.emissions, e) ==> e !in s.reporting && e !in s.history.dropped)
    && s.reporting !! s.history.dropped
    && (forall k :: k in s.delivery.attempts && s.delivery.attempts[k].state == Delivered ==>
        Accounted(s, Emission(k, DeliverySucceeded)))
    && (forall k :: k in s.delivery.attempts && FailedLater(s.delivery.attempts[k]) ==>
        Accounted(s, Emission(k, DeliveryFailed)))
  }

  /** An attempt whose state only a callback can bring about, which is to be reported. */
  predicate Reported(a: Attempt) {
    a.state == Delivered || FailedLater(a)
  }

  /** A failed attempt with a provider id was accepted first: an answer that fails comes without one. */
  predicate FailedLater(a: Attempt) {
    a.state == AttemptState.Failed && a.providerId.Some?
  }

  lemma EmittedSnoc(emissions: seq<Emission>, x: Emission)
    ensures forall e :: Emitted(emissions + [x], e) <==> Emitted(emissions, e) || e == x
  {
    var longer := emissions + [x];
    assert longer[|emissions|] == x;
    forall e ensures Emitted(longer, e) <==> Emitted(emissions, e) || e == x {
      if i :| 0 <= i < |emissions| && emissions[i] == e {
        assert longer[i] == e;
      }
      if i :| 0 <= i < |longer| && longer[i] == e {
        assert i < |emissions| ==> emissions[i] == e;
      }
    }
  }

  /** An attempt that can still take DELIVERED or FAILED has no report yet. */
  lemma UnreportedSoFar(s: State, key: string)
    requires EmissionsOk(s) && key in s.delivery.attempts && s.delivery.attempts[key].state in {Accepted, Sent}
    ensures forall e :: Accounted(s, e) ==> e.key != key
  {
  }

  lemma CallbackKeepsEmissions(s: State, cb: Callback)
    requires EmissionsOk(s)
    ensures EmissionsOk(ReceiveCallback(s, cb))
  {
    var t := ReceiveCallback(s, cb);
    if ApplyCallback(s.delivery, cb).1 == Applied {
      var key := MatchOf(s.delivery, cb.providerId);
      if cb.status in {Delivered, AttemptState.Failed} {
        UnreportedSoFar(s, key);
        assert forall e :: Accounted(t, e) <==> Accounted(s, e) || e == ReportOf(s, cb);
      } else {
        assert forall e :: Accounted(t, e) <==> Accounted(s, e);
        assert forall e :: Accounted(s, e) && e.key == key ==> cb.status == Read && e.kind == DeliverySucceeded;
      }
    } else {
      assert forall e :: Accounted(t, e) <==> Accounted(s, e);
    }
  }

  /** Making or losing a report only changes where it is accounted for. */
  lemma ReportMoves(c: Config, s: State, l: Label, t: State)
    requires Steps(c, s, l, t) && EmissionsOk(s) && (l.EmitReport? || l.LoseReport?)
    ensures EmissionsOk(t)
  {
    if l.EmitReport? {
      EmittedSnoc(s.history.emissions, l.report);
      forall i | 0 <= i < |s.history.emissions| ensures s.history.emissions[i].key != l.report.key {
        assert Emitted(s.history.emissions, s.history.emissions[i]);
        assert Accounted(s, s.history.emissions[i]) && Accounted(s, l.report);
      }
    }
    assert forall e :: Accounted(t, e) <==> Accounted(s, e);
  }

  /** Outside callbacks, attempts only appear as pending or leave pending for an answer. */
  lemma OnlyCallbacksDeliver(c: Config, s: State, l: Label, t: State)
    requires Steps(c, s, l, t) && DeliveryOk(s) && !l.CallbackArrives?
    ensures && (forall k :: k in s.delivery.attempts && s.delivery.attempts[k].state != AttemptState.Pending ==>
                  k in t.delivery.attempts && t.delivery.attempts[k] == s.delivery.attempts[k])
            && (forall k :: k in t.delivery.attempts && Reported(t.delivery.attempts[k]) ==>
                  k in s.delivery.attempts && s.delivery.attempts[k] == t.delivery.attempts[k])
  {
    if !TouchesDelivery(l) {
      DeliveryUntouched(c, s, l, t);
    } else if l.Finalize? {
      assert OwnerOk(s.delivery, s.history, s.workers[l.w]);
    }
  }

  /** Other labels leave the reports alone. */
  lemma ReportsUntouched(c: Config, s: State, l: Label, t: State)
    requires Steps(c, s, l, t) && !l.CallbackArrives? && !l.EmitReport? && !l.LoseReport?
    ensures t.reporting == s.reporting && t.history.emissions == s.history.emissions &&
            t.history.dropped == s.history.dropped
  {
  }

  lemma EmissionsOkStep(c: Config, s: State, l: Label, t: State)
    requires Steps(c, s, l, t) && DeliveryOk(s) && EmissionsOk(s)
    ensures EmissionsOk(t)
  {
    if l.CallbackArrives? {
      CallbackKeepsEmissions(s, l.callback);
    } else if l.EmitReport? || l.LoseReport? {
      ReportMoves(c, s, l, t);
    } else {
      OnlyCallbacksDeliver(c, s, l, t);
      ReportsUntouched(c, s, l, t);
      SameReportsKeepEmissions(s, t);
    }
  }

  /** Reports stay in agreement if they and the reported attempts stay. */
  lemma SameReportsKeepEmissions(s: State, t: State)
    requires EmissionsOk(s)
    requires t.reporting == s.reporting && t.history.emissions == s.history.emissions &&
             t.history.dropped == s.history.dropped
    requires forall k :: k in s.delivery.attempts && s.delivery.attempts[k].state != AttemptState.Pending ==>
               k in t.delivery.attempts && t.delivery.attempts[k] == s.delivery.attempts[k]
    requires forall k :: k in t.delivery.attempts && Reported(t.delivery.attempts[k]) ==>
               k in s.delivery.attempts && s.delivery.attempts[k] == t.delivery.attempts[k]
    ensures EmissionsOk(t)
  {
    assert forall e :: Accounted(t, e) <==> Accounted(s, e);
    assert forall e :: Accounted(s, e) ==> s.delivery.attempts[e.key].state != AttemptState.Pending;
  }

  // ---------- Reply texts ----------

  /** The reply stored for a delivery key has this text. */
  predicate StoredAs(messages: MessageTable, key: string, text: string) {
    && DELIVERY_PREFIX <= key
    && ReplyId(key[|DELIVERY_PREFIX|..]) in messages
    && messages[ReplyId(key[|DELIVERY_PREFIX|..])].text == text
  }

  predicate StoredOtherwise(messages: MessageTable, key: string, text: string) {
    && DELIVERY_PREFIX <= key
    && ReplyId(key[|DELIVERY_PREFIX|..]) in messages
    && messages[ReplyId(key[|DELIVERY_PREFIX|..])].text != text
  }

  /** The text a worker carries towards the provider. */
  predicate Carries(pc: Pc) {
    pc.Replied? || pc.Sending? || (pc.Releasing? && pc.verdict.Reply?)
  }

  function Carried(pc: Pc): Send
    requires Carries(pc)
  {
    Send(DeliveryKey(pc.job.id), if pc.Releasing? then pc.verdict.text else pc.text)
  }

  /** A text on its way, or posted, is the stored one unless its recording was overtaken. */
  predicate TextOk(messages: MessageTable, overtaken: set<Send>, x: Send) {
    StoredAs(messages, x.key, x.text) || x in overtaken
  }

  ghost predicate TextsOk(s: State) {
    && (forall x :: x in s.history.overtaken ==> StoredOtherwise(s.messages, x.key, x.text))
    && (forall w :: w in s.workers && Carries(s.workers[w]) ==>
        TextOk(s.messages, s.history.overtaken, Carried(s.workers[w])))
    && (forall i :: 0 <= i < |s.history.sends| ==> TextOk(s.messages, s.history.overtaken, s.history.sends[i]))
  }

  /** Stored replies are never rewritten. */
  lemma StoredStays(c: Config, s: State, l: Label, t: State)
    requires Steps(c, s, l, t) && RowsOk(s)
    ensures forall id :: id in s.messages && IsReplyId(id) ==> id in t.messages && t.messages[id] == s.messages[id]
  {
    RowsGrow(c, s, l, t);
  }

  /** A worker carries a text that it found or recorded just now, or carried before. */
  lemma CarriedCameFrom(c: Config, s: State, l: Label, t: State)
    requires Steps(c, s, l, t) && ByWorker(l) && Carries(t.workers[l.w]) && !l.Find? && !l.Record?
    ensures l.w in s.workers && Carries(s.workers[l.w]) && Carried(s.workers[l.w]) == Carried(t.workers[l.w])
    ensures t.messages == s.messages && t.history.overtaken == s.history.overtaken
  {
  }

  lemma CarriedMoves(c: Config, s: State, l: Label, t: State)
    requires Steps(c, s, l, t) && RowsOk(s) && TextsOk(s) && ByWorker(l) && Carries(t.workers[l.w])
    ensures TextOk(t.messages, t.history.overtaken, Carried(t.workers[l.w]))
  {
    if !l.Find? && !l.Record? {
      CarriedCameFrom(c, s, l, t);
    }
  }

  /** The texts posted so far, and the overtaken ones, keep their relation to the stored replies. */
  lemma PostedMoves(c: Config, s: State, l: Label, t: State)
    requires Steps(c, s, l, t) && RowsOk(s) && TextsOk(s)
    ensures s.history.overtaken <= t.history.overtaken
    ensures forall x :: x in t.history.overtaken ==> StoredOtherwise(t.messages, x.key, x.text)
    ensures forall i :: 0 <= i < |t.history.sends| ==> TextOk(t.messages, t.history.overtaken, t.history.sends[i])
  {
    StoredStays(c, s, l, t);
    if l.CallProvider? {
      assert Carries(s.workers[l.w]);
    }
  }

  lemma TextsOkStep(c: Config, s: State, l: Label, t: State)
    requires Steps(c, s, l, t) && RowsOk(s) && TextsOk(s)
    ensures TextsOk(t)
  {
    OneWorkerMoves(c, s, l, t);
    StoredStays(c, s, l, t);
    PostedMoves(c, s, l, t);
    if ByWorker(l) && Carries(t.workers[l.w]) {
      CarriedMoves(c, s, l, t);
    }
  }

  // ---------- Leases ----------

  predicate HoldsLease(s: State, pc: Pc) {
    HoldsToken(pc) && HeldBy(s.locks, pc.job.scope, pc.token, s.now)
  }

  /** A reply about to be recorded under a live lease is the first one. */
  ghost predicate FirstReply(s: State) {
    forall w :: w in s.workers && (s.workers[w].Composing? || s.workers[w].Composed?) && HoldsLease(s, s.workers[w]) ==>
      ReplyId(s.workers[w].job.id) !in s.messages
  }

  /** The premise on a label: a worker records its reply while its lease is live. */
  predicate InTime(s: State, l: Label) {
    l.Record? && l.w in s.workers ==> HoldsLease(s, s.workers[l.w])
  }

  /** A lease is only ever gained by acquiring it. */
  lemma LeaseWasHeld(c: Config, s: State, l: Label, t: State, pc: Pc)
    requires Steps(c, s, l, t) && HoldsLease(t, pc) && pc.token in s.history.tokens
    ensures HoldsLease(s, pc)
  {
  }

  /** Only recording stores a reply, and only that of its own job. */
  lemma OnlyRecordStores(c: Config, s: State, l: Label, t: State, id: string)
    requires Steps(c, s, l, t) && RowsOk(s) && ReplyId(id) in t.messages && ReplyId(id) !in s.messages
    ensures l.Record? && s.workers[l.w].job.id == id
  {
  }

  /** A worker starts composing when it finds no reply, and keeps its job and token while it does. */
  lemma ComposingCameFrom(c: Config, s: State, l: Label, t: State)
    requires Steps(c, s, l, t) && RowsOk(s) && ByWorker(l)
    ensures var q := t.workers[l.w];
            q.Composing? || q.Composed? ==>
              && l.w in s.workers && HoldsToken(s.workers[l.w])
              && s.workers[l.w].job == q.job && s.workers[l.w].token == q.token
              && (if l.Find? then ReplyId(q.job.id) !in s.messages else s.workers[l.w].Composing?)
  {
  }

  lemma FirstReplyStep(c: Config, s: State, l: Label, t: State)
    requires Steps(c, s, l, t) && RowsOk(s) && TokensOk(s) && FirstReply(s) && InTime(s, l)
    ensures FirstReply(t)
  {
    OneWorkerMoves(c, s, l, t);
    forall w | w in t.workers
      ensures var q := t.workers[w];
              (q.Composing? || q.Composed?) && HoldsLease(t, q) ==> ReplyId(q.job.id) !in t.messages
    {
      var q := t.workers[w];
      if (q.Composing? || q.Composed?) && HoldsLease(t, q) {
        FirstReplyAfter(c, s, l, t, w, q);
      }
    }
  }

  lemma FirstReplyAfter(c: Config, s: State, l: Label, t: State, w: nat, q: Pc)
    requires Steps(c, s, l, t) && RowsOk(s) && TokensOk(s) && FirstReply(s) && InTime(s, l)
    requires w in t.workers && t.workers[w] == q
    requires (q.Composing? || q.Composed?) && HoldsLease(t, q)
    ensures ReplyId(q.job.id) !in t.messages
  {
    OneWorkerMoves(c, s, l, t);
    if ByWorker(l) && l.w == w {
      ComposingCameFrom(c, s, l, t);
    }
    LeaseWasHeld(c, s, l, t, q);
    assert ReplyId(q.job.id) !in s.messages;
    if ReplyId(q.job.id) in t.messages {
      OnlyRecordStores(c, s, l, t, q.job.id);
    }
  }

  /** Recording the first reply overtakes nobody. */
  lemma NobodyOvertaken(c: Config, s: State, l: Label, t: State)
    requires Steps(c, s, l, t) && RowsOk(s) && FirstReply(s) && InTime(s, l)
    ensures t.history.overtaken == s.history.overtaken
  {
  }
}
