/** Webhook ingestion: one transaction for the batch of messages, then one per delivery callback. */
module Ingress {
  import opened Options
  import opened Messages
  import opened Deliveries
  import opened Callbacks
  import opened Stores
  import Protocol
  import ProtocolInvariants
  import ProtocolTheorems

  /** A normalised inbound message; the phone number id may be missing from its metadata. */
  datatype InboundEvent = InboundEvent(id: string, conversation: string, text: string, phoneNumberId: string)

  datatype Batch = Batch(messages: seq<InboundEvent>, statuses: seq<Callback>)

  datatype IngestResult = IngestResult(
    acceptedMessages: nat, duplicateMessages: nat,
    acceptedStatuses: nat, duplicateStatuses: nat, ignoredStatuses: nat)

  /** How a call ends: with a result, or with the exception it raises. */
  datatype Ending =
    | Done(result: IngestResult)
    | NoPhoneNumber          // a message without phone number id: the batch is rolled back
    | UncacheableIdentity    // the deduplication cache refuses a blank identity
    | MissingDelivery        // a callback came before its attempt
    | AmbiguousDelivery      // a provider id with two attempts
    | Interrupted            // a transaction failed

  /** What Python's `strip` takes off. */
  predicate IsSpace(c: char) {
    || '\t' <= c <= '\r' || '\U{1C}' <= c <= ' ' || c == '\U{85}' || c == '\U{A0}' || c == '\U{1680}'
    || '\U{2000}' <= c <= '\U{200A}' || c == '\U{2028}' || c == '\U{2029}' || c == '\U{202F}' || c == '\U{205F}'
    || c == '\U{3000}'
  }

  predicate IsBlank(s: string) {
    forall c :: c in s ==> IsSpace(c)
  }

  function ScopeOf(e: InboundEvent): Scope {
    Scope(WhatsApp, e.phoneNumberId, e.conversation)
  }

  // ---------- The batch of messages ----------

  function StoreAll(m: MessageTable, es: seq<InboundEvent>, now: nat): MessageTable {
    if es == [] then m
    else
      var e := es[|es| - 1];
      InsertInbound(StoreAll(m, es[..|es| - 1], now), e.id, ScopeOf(e), e.text, now).0
  }

  function Ids(es: seq<InboundEvent>): set<string> {
    set e | e in es :: e.id
  }

  /** The first event of the batch with this id. */
  ghost predicate FirstOf(es: seq<InboundEvent>, i: int, id: string) {
    0 <= i < |es| && es[i].id == id && forall j :: 0 <= j < i ==> es[j].id != id
  }

  /** A new row: the phone number is its account, the sender its conversation, and it is due at once. */
  predicate NewRowOf(row: MessageRow, e: InboundEvent, now: nat) {
    && row.Inbound? && row.scope.channel == WhatsApp
    && row.scope.account == e.phoneNumberId && row.scope.conversation == e.conversation && row.text == e.text
    && row.status == ProcessingStatus.Pending && row.attempts == 0 && row.createdAt == now
    && row.availableAt == Some(now) && row.claimedAt.None? && row.errorCode.None?
  }

  /** The batch added the missing messages, each as its first event has it, and left every other row alone. */
  ghost predicate AddsMissing(before: MessageTable, after: MessageTable, es: seq<InboundEvent>, now: nat) {
    && after.Keys == before.Keys + Ids(es)
    && (forall id :: id in before ==> after[id] == before[id])
    && (forall id :: id in after && id !in before ==> exists i :: FirstOf(es, i, id) && NewRowOf(after[id], es[i], now))
  }

  /** Redelivery adds the missing messages and leaves every stored row, whatever its progress, as it is. */
  lemma {:induction false} StoreAllAddsMissing(m: MessageTable, es: seq<InboundEvent>, now: nat)
    ensures AddsMissing(m, StoreAll(m, es, now), es, now)
  {
    if es != [] {
      var front, e := es[..|es| - 1], es[|es| - 1];
      StoreAllAddsMissing(m, front, now);
      assert es == front + [e];
      assert Ids(es) == Ids(front) + {e.id};
      OneMoreEvent(m, StoreAll(m, front, now), es, now);
    }
  }

  lemma OneMoreEvent(m: MessageTable, n: MessageTable, es: seq<InboundEvent>, now: nat)
    requires es != [] && AddsMissing(m, n, es[..|es| - 1], now)
    ensures var e := es[|es| - 1]; var after := InsertInbound(n, e.id, ScopeOf(e), e.text, now).0;
            forall id :: id in after && id !in m ==> exists i :: FirstOf(es, i, id) && NewRowOf(after[id], es[i], now)
  {
    var e := es[|es| - 1];
    var after := InsertInbound(n, e.id, ScopeOf(e), e.text, now).0;
    forall id | id in after && id !in m ensures exists i :: FirstOf(es, i, id) && NewRowOf(after[id], es[i], now) {
      if id in n {
        FirstStays(es[..|es| - 1], es, n[id], id, now);
      } else {
        LastIsFirst(es, id);
      }
    }
  }

  lemma FirstStays(front: seq<InboundEvent>, es: seq<InboundEvent>, row: MessageRow, id: string, now: nat)
    requires front <= es && exists i :: FirstOf(front, i, id) && NewRowOf(row, front[i], now)
    ensures exists i :: FirstOf(es, i, id) && NewRowOf(row, es[i], now)
  {
    var i :| FirstOf(front, i, id) && NewRowOf(row, front[i], now);
    assert forall j :: 0 <= j < |front| ==> front[j] == es[j];
    assert FirstOf(es, i, id);
  }

  lemma LastIsFirst(es: seq<InboundEvent>, id: string)
    requires es != [] && es[|es| - 1].id == id && id !in Ids(es[..|es| - 1])
    ensures FirstOf(es, |es| - 1, id)
  {
    forall j | 0 <= j < |es| - 1 ensures es[j].id != id {
      assert es[j] == es[..|es| - 1][j] && es[..|es| - 1][j].id in Ids(es[..|es| - 1]);
    }
  }

  lemma {:induction false} StoreAllAgain(m: MessageTable, es: seq<InboundEvent>, now: nat)
    requires Ids(es) <= m.Keys
    ensures StoreAll(m, es, now) == m
  {
    if es != [] {
      assert es[|es| - 1].id in Ids(es);
      assert forall e :: e in es[..|es| - 1] ==> e in es;
      StoreAllAgain(m, es[..|es| - 1], now);
    }
  }

  /** Rows that differ in their times at most. */
  predicate SameButTimes(a: MessageRow, b: MessageRow) {
    match (a, b)
    case (Inbound(_, _, _, _, _, _, _, _), Inbound(_, _, _, _, _, _, _, _)) =>
      a.scope == b.scope && a.text == b.text && a.status == b.status && a.attempts == b.attempts &&
          a.errorCode == b.errorCode
    case _ => a == b
  }

  ghost predicate SameTables(a: MessageTable, b: MessageTable) {
    a.Keys == b.Keys && forall id :: id in a ==> SameButTimes(a[id], b[id])
  }

  lemma {:induction false} StoreAllAtAnyTime(m: MessageTable, es: seq<InboundEvent>, now: nat, later: nat)
    ensures SameTables(StoreAll(m, es, now), StoreAll(m, es, later))
  {
    if es != [] {
      StoreAllAtAnyTime(m, es[..|es| - 1], now, later);
    }
  }

  // ---------- The ingress ----------

  class MetaWebhookIngress {
    const repository: ConversationRepository
    const deliveries: DeliveryStore
    const db: Database

    constructor (db: Database)
      ensures this.db == db && Valid()
    {
      this.db := db;
      repository := new ConversationRepository(db);
      deliveries := new DeliveryStore(db);
    }

    predicate Valid() {
      repository.db == db && deliveries.db == db
    }

    /**
     Stores the batch in one transaction, passes the identities through the cache, then applies the callbacks
     one by one. `survives` transactions succeed before one fails. The ghost results say how far it came.
     */
    method Ingest(batch: Batch, now: nat, survives: nat)
      returns (ending: Ending, ghost stored: bool, ghost applied: nat)
      requires Valid()
      modifies db
      ensures applied <= |batch.statuses|
      ensures db.messages == if stored then StoreAll(old(db.messages), batch.messages, now) else old(db.messages)
      ensures stored ==> AddsMissing(old(db.messages), db.messages, batch.messages, now)
      ensures db.delivery == ApplyAll(old(db.delivery), batch.statuses[..applied])
      ensures forall i :: 0 <= i < applied ==> HasMatch(old(db.delivery), batch.statuses[i].providerId)
      ensures ending.NoPhoneNumber? ==>
              !stored && applied == 0 && exists e :: e in batch.messages && e.phoneNumberId == ""
      ensures (exists e :: e in batch.messages && e.phoneNumberId == "") ==> !stored && ending.NoPhoneNumber?
      ensures ending.UncacheableIdentity? ==> stored && applied == 0
      ensures stored ==>
                (ending.UncacheableIdentity? <==>
                   exists e :: e in batch.messages && (IsBlank(e.phoneNumberId) || IsBlank(e.id)))
      ensures ending.MissingDelivery? ==>
              applied < |batch.statuses| && !HasMatch(old(db.delivery), batch.statuses[applied].providerId)
      ensures ending.AmbiguousDelivery? ==>
              applied < |batch.statuses| && SeveralMatch(old(db.delivery), batch.statuses[applied].providerId)
      ensures ending.Interrupted? ==> survives == (if stored then applied + 1 else 0) && survives <= |batch.statuses|
      ensures ending.Done? ==> survives > |batch.statuses|
      ensures ending.Done? ==>
                var r := ending.result;
                && stored && applied == |batch.statuses|
                && r.acceptedMessages == |db.messages| - |old(db.messages)|
                && r.acceptedMessages + r.duplicateMessages == |batch.messages|
                && r.acceptedStatuses == Moves(old(db.delivery), batch.statuses)
                && r.acceptedStatuses + r.ignoredStatuses == |db.delivery.events| - |old(db.delivery).events|
                && r.acceptedStatuses + r.duplicateStatuses + r.ignoredStatuses == |batch.statuses|
    {
      stored, applied := false, 0;
      var accepted, duplicate;
      ending, accepted, duplicate := StoreBatch(batch.messages, now, survives);
      if !ending.Done? {
        return;
      }
      stored := true;
      var cached := CacheIdentities(batch.messages);
      if !cached {
        return UncacheableIdentity, stored, applied;
      }
      var result;
      ending, result, applied := ApplyStatuses(batch.statuses, survives - 1);
      if ending.Done? {
        ending := Done(result.(acceptedMessages := accepted, duplicateMessages := duplicate));
      }
    }

    /** Passes the identities through the deduplication cache, which refuses blank ones. */
    method CacheIdentities(es: seq<InboundEvent>) returns (cached: bool)
      ensures cached <==> forall e :: e in es ==> !IsBlank(e.phoneNumberId) && !IsBlank(e.id)
    {
      for i := 0 to |es|
        invariant forall j :: 0 <= j < i ==> !IsBlank(es[j].phoneNumberId) && !IsBlank(es[j].id)
      {
        if IsBlank(es[i].phoneNumberId) || IsBlank(es[i].id) {
          return false;
        }
      }
      cached := true;
    }

    /** The first transaction: all messages of the batch, or none. */
    method StoreBatch(es: seq<InboundEvent>, now: nat, survives: nat)
      returns (ending: Ending, accepted: nat, duplicate: nat)
      requires Valid()
      modifies db`messages
      ensures ending.Done? || ending.NoPhoneNumber? || ending.Interrupted?
      ensures ending.Done? ==> survives > 0 && db.messages == StoreAll(old(db.messages), es, now)
      ensures ending.Done? ==> AddsMissing(old(db.messages), db.messages, es, now)
      ensures ending.Done? ==> accepted == |db.messages| - |old(db.messages)| && accepted + duplicate == |es|
      ensures !ending.Done? ==> db.messages == old(db.messages)
      ensures ending.NoPhoneNumber? <==> exists e :: e in es && e.phoneNumberId == ""
      ensures ending.Interrupted? ==> survives == 0
    {
      var before := db.messages;
      accepted, duplicate := 0, 0;
      for i := 0 to |es|
        invariant db.messages == StoreAll(before, es[..i], now)
        invariant forall j :: 0 <= j < i ==> es[j].phoneNumberId != ""
        invariant accepted == |db.messages| - |before| && accepted + duplicate == i
      {
        if es[i].phoneNumberId == "" {
          db.messages := before;
          return NoPhoneNumber, accepted, duplicate;
        }
        assert es[..i + 1][..i] == es[..i];
        var created := repository.RecordInbound(es[i].id, ScopeOf(es[i]), es[i].text, now);
        if created {
          accepted := accepted + 1;
        } else {
          duplicate := duplicate + 1;
        }
      }
      assert es[..|es|] == es;
      if survives == 0 {
        db.messages := before;
        return Interrupted, accepted, duplicate;
      }
      StoreAllAddsMissing(before, es, now);
      ending := Done(IngestResult(accepted, duplicate, 0, 0, 0));
    }

    /** One transaction per callback, until one fails or finds no attempt. */
    method ApplyStatuses(cbs: seq<Callback>, survives: nat) returns (ending: Ending, result: IngestResult, applied: nat)
      requires Valid()
      modifies db`delivery
      ensures applied <= |cbs| && db.delivery == ApplyAll(old(db.delivery), cbs[..applied])
      ensures forall i :: 0 <= i < applied ==> HasMatch(old(db.delivery), cbs[i].providerId)
      ensures !ending.NoPhoneNumber? && !ending.UncacheableIdentity?
      ensures ending.MissingDelivery? ==> applied < |cbs| && !HasMatch(old(db.delivery), cbs[applied].providerId)
      ensures ending.AmbiguousDelivery? ==> applied < |cbs| && SeveralMatch(old(db.delivery), cbs[applied].providerId)
      ensures ending.Interrupted? ==> survives == applied < |cbs|
      ensures ending.Done? ==>
                applied == |cbs| <= survives && Counted(old(db.delivery), db.delivery, cbs, result)
    {
      ghost var before := db.delivery;
      result := IngestResult(0, 0, 0, 0, 0);
      applied := 0;
      assert cbs[..0] == [];
      while applied < |cbs|
        invariant applied <= |cbs| && db.delivery == ApplyAll(before, cbs[..applied])
        invariant forall i :: 0 <= i < applied ==> HasMatch(before, cbs[i].providerId)
        invariant applied <= survives && Counted(before, db.delivery, cbs[..applied], result)
        decreases |cbs| - applied
      {
        if applied >= survives {
          return Interrupted, result, applied;
        }
        var outcome;
        outcome, result := ApplyStatus(cbs, applied, result, before);
        if outcome == MissingAttempt {
          return MissingDelivery, result, applied;
        } else if outcome == AmbiguousAttempt {
          return AmbiguousDelivery, result, applied;
        }
        applied := applied + 1;
      }
      assert cbs[..applied] == cbs;
      ending := Done(result);
    }

    /** Applies the next callback and counts what became of it. */
    method ApplyStatus(cbs: seq<Callback>, i: nat, result: IngestResult, ghost before: DeliveryTables)
      returns (outcome: CallbackOutcome, counted: IngestResult)
      requires Valid() && i < |cbs| && db.delivery == ApplyAll(before, cbs[..i]) &&
               Counted(before, db.delivery, cbs[..i], result)
      modifies db`delivery
      ensures outcome == MissingAttempt <==> !HasMatch(before, cbs[i].providerId)
      ensures outcome == AmbiguousAttempt ==> SeveralMatch(before, cbs[i].providerId)
      ensures outcome in {MissingAttempt, AmbiguousAttempt} ==> db.delivery == old(db.delivery)
      ensures outcome !in {MissingAttempt, AmbiguousAttempt} ==>
                db.delivery == ApplyAll(before, cbs[..i + 1]) && Counted(before, db.delivery, cbs[..i + 1], counted)
    {
      NextStatus(before, cbs, i);
      outcome := deliveries.ApplyCallback(cbs[i]);
      counted := match outcome
        case Duplicate => result.(duplicateStatuses := result.duplicateStatuses + 1)
        case IgnoredRegression => result.(ignoredStatuses := result.ignoredStatuses + 1)
        case Applied => result.(acceptedStatuses := result.acceptedStatuses + 1)
        case _ => result;
    }
  }

  /** How many of the callbacks moved an attempt. */
  ghost function Moves(t: DeliveryTables, cbs: seq<Callback>): nat {
    if cbs == [] then 0
    else
      var front := cbs[..|cbs| - 1];
      Moves(t, front) + (if ApplyAll(t, cbs).attempts != ApplyAll(t, front).attempts then 1 else 0)
  }

  /** The counters add up to the callbacks so far and to the events they added; accepted ones moved an attempt. */
  ghost predicate Counted(before: DeliveryTables, now: DeliveryTables, cbs: seq<Callback>, r: IngestResult) {
    && r.acceptedStatuses == Moves(before, cbs)
    && r.acceptedStatuses + r.ignoredStatuses == |now.events| - |before.events|
    && r.acceptedStatuses + r.duplicateStatuses + r.ignoredStatuses == |cbs|
  }

  lemma AddsOne<T>(s: set<T>, e: T)
    requires e !in s
    ensures |s + {e}| == |s| + 1
  {
  }

  /** Every callback that is neither missing nor a duplicate adds one event. */
  lemma CountsEvent(t: DeliveryTables, cb: Callback)
    ensures var (u, outcome) := Deliveries.ApplyCallback(t, cb);
            |u.events| == |t.events| + (if outcome in {Applied, IgnoredRegression} then 1 else 0)
  {
    if HasMatch(t, cb.providerId) && !EventExists(t.events, cb.providerId, cb.status) {
      var e := StatusEvent(MatchOf(t, cb.providerId), Some(cb.providerId), cb.status);
      AddsOne(t.events, e);
    }
  }

  /** One more callback of a sequence: what it does, whether it finds its attempt, and the events it adds. */
  lemma {:induction false} NextStatus(t: DeliveryTables, cbs: seq<Callback>, i: nat)
    requires i < |cbs|
    ensures var u := ApplyAll(t, cbs[..i]);
            var (v, outcome) := Deliveries.ApplyCallback(u, cbs[i]);
            && v == ApplyAll(t, cbs[..i + 1])
            && (outcome == MissingAttempt <==> !HasMatch(t, cbs[i].providerId))
            && (outcome == AmbiguousAttempt ==> SeveralMatch(t, cbs[i].providerId))
            && Moves(t, cbs[..i + 1]) == Moves(t, cbs[..i]) + (if outcome == Applied then 1 else 0)
            && |v.events| == |u.events| + (if outcome in {Applied, IgnoredRegression} then 1 else 0)
  {
    var u := ApplyAll(t, cbs[..i]);
    ApplyAllKeepsProviders(t, cbs[..i]);
    SameProvidersMatch(t, u);
    CountsEvent(u, cbs[i]);
    assert cbs[..i + 1] == cbs[..i] + [cbs[i]];
    ApplyAllSnoc(t, cbs[..i], cbs[i]);
    assert cbs[..i + 1][..i] == cbs[..i];
    AppliedMoves(u, cbs[i]);
  }

  /** Exactly an applied callback moves an attempt. */
  lemma AppliedMoves(t: DeliveryTables, cb: Callback)
    ensures var (u, outcome) := Deliveries.ApplyCallback(t, cb);
            u.attempts != t.attempts <==> outcome == Applied
  {
    if Deliveries.ApplyCallback(t, cb).1 == Applied {
      assert Deliveries.ApplyCallback(t, cb).0.attempts[MatchOf(t, cb.providerId)].state == cb.status;
    }
  }

  // ---------- Ingestion is part of the protocol ----------

  /** Storing a batch is a run of the protocol: one label per message. */
  lemma {:induction false} BatchIsRun(c: Protocol.Config, s: Protocol.State, es: seq<InboundEvent>)
    returns (ls: seq<Protocol.Label>)
    requires forall i :: 0 <= i < |es| ==> !IsReplyId(es[i].id)
    ensures Protocol.IsRun(c, s, ls)
    ensures Protocol.Final(c, s, ls) == s.(messages := StoreAll(s.messages, es, s.now))
  {
    if es == [] {
      ls := [];
    } else {
      var front, e := es[..|es| - 1], es[|es| - 1];
      var before := BatchIsRun(c, s, front);
      var l := Protocol.Ingest(e.id, ScopeOf(e), e.text);
      Protocol.RunSnoc(c, s, before, l);
      ls := before + [l];
    }
  }

  /** Applying callbacks is one, too: one label per callback, besides the reports they leave to be made. */
  lemma {:induction false} CallbacksAreRun(c: Protocol.Config, s: Protocol.State, cbs: seq<Callback>)
    returns (ls: seq<Protocol.Label>)
    requires forall i :: 0 <= i < |cbs| ==> WellFormed(cbs[i])
    ensures Protocol.IsRun(c, s, ls)
    ensures var t := Protocol.Final(c, s, ls);
            t == s.(delivery := ApplyAll(s.delivery, cbs), reporting := t.reporting)
  {
    if cbs == [] {
      ls := [];
    } else {
      var front, cb := cbs[..|cbs| - 1], cbs[|cbs| - 1];
      var before := CallbacksAreRun(c, s, front);
      Protocol.RunSnoc(c, s, before, Protocol.CallbackArrives(cb));
      ls := before + [Protocol.CallbackArrives(cb)];
    }
  }

  // ---------- Ingested identities ----------

  lemma {:induction false} RowStays(c: Protocol.Config, s: Protocol.State, ls: seq<Protocol.Label>, id: string)
    requires Protocol.IsRun(c, s, ls) && ProtocolInvariants.RowsOk(s) && id in s.messages && s.messages[id].Inbound?
    ensures var u := Protocol.Final(c, s, ls);
            && ProtocolInvariants.RowsOk(u) && id in u.messages && u.messages[id].Inbound?
            && u.messages[id].scope == s.messages[id].scope && u.messages[id].text == s.messages[id].text
    decreases |ls|
  {
    if ls != [] {
      var t := Protocol.Next(c, s, ls[0]);
      ProtocolInvariants.RowsOkStep(c, s, ls[0], t);
      ProtocolInvariants.RowsGrow(c, s, ls[0], t);
      RowStays(c, t, ls[1..], id);
    }
  }

  /**
   Whatever happens to an ingested message, it keeps the identity of its event, and so has every job for it: the
   phone number is the account under which it is locked, answered and delivered.
   */
  lemma IngestedIdentityStays(c: Protocol.Config, s: Protocol.State, m: MessageTable, es: seq<InboundEvent>, now: nat,
                              id: string, ls: seq<Protocol.Label>) returns (i: int)
    requires s.messages == StoreAll(m, es, now) && id in s.messages && id !in m
    requires ProtocolInvariants.RowsOk(s) && Protocol.IsRun(c, s, ls)
    ensures FirstOf(es, i, id)
    ensures var u := Protocol.Final(c, s, ls);
            && id in u.messages && u.messages[id].text == es[i].text
            && u.messages[id].scope == Scope(WhatsApp, es[i].phoneNumberId, es[i].conversation)
            && forall w :: Protocol.Busy(u, w) && u.workers[w].job.id == id ==>
                 u.workers[w].job.scope == Scope(WhatsApp, es[i].phoneNumberId, es[i].conversation)
  {
    StoreAllAddsMissing(m, es, now);
    i :| FirstOf(es, i, id) && NewRowOf(s.messages[id], es[i], now);
    RowStays(c, s, ls, id);
  }

  // ---------- Redelivered batches converge ----------

  /** Between two deliveries of a batch: a failed try of it, or a worker's transaction. */
  datatype Trial =
    | Tried(stored: bool, now: nat, applied: nat)
    | KeyClaimed(key: string)
    | AnswerStored(key: string, result: DeliveryResult)
    | RowClaimed(id: string, now: nat)
    | RowMoved(id: string, status: ProcessingStatus, errorCode: Option<string>, availableAt: Option<nat>)
    | ReplyStored(id: string, scope: Scope, text: string)

  /** What a try can have applied: callbacks up to any point, each with its attempt there. */
  ghost predicate AllMatched(d: DeliveryTables, cbs: seq<Callback>) {
    forall i :: 0 <= i < |cbs| ==> HasMatch(d, cbs[i].providerId)
  }

  ghost predicate CanHappen(d: DeliveryTables, cbs: seq<Callback>, x: Trial) {
    match x
    case Tried(_, _, applied) => applied <= |cbs| && AllMatched(d, cbs[..applied])
    case AnswerStored(key, r) => Finalize(d, key, r).Some? && (r.providerId.Some? ==> !HasMatch(d, r.providerId.value))
    case _ => true
  }

  ghost function After(d: DeliveryTables, cbs: seq<Callback>, x: Trial): DeliveryTables
    requires CanHappen(d, cbs, x)
  {
    match x
    case Tried(_, _, applied) => ApplyAll(d, cbs[..applied])
    case KeyClaimed(key) => ClaimKey(d, key).0
    case AnswerStored(key, r) => Finalize(d, key, r).value
    case _ => d
  }

  ghost predicate Happens(d: DeliveryTables, cbs: seq<Callback>, xs: seq<Trial>)
    decreases |xs|
  {
    xs == [] || (CanHappen(d, cbs, xs[0]) && Happens(After(d, cbs, xs[0]), cbs, xs[1..]))
  }

  ghost function AfterAll(d: DeliveryTables, cbs: seq<Callback>, xs: seq<Trial>): DeliveryTables
    requires Happens(d, cbs, xs)
    decreases |xs|
  {
    if xs == [] then d else AfterAll(After(d, cbs, xs[0]), cbs, xs[1..])
  }

  /** The workers' transactions alone, without the failed tries. */
  function WorkersOnly(xs: seq<Trial>): seq<Trial> {
    if xs == [] then [] else (if xs[0].Tried? then [] else [xs[0]]) + WorkersOnly(xs[1..])
  }

  /** The message table after a try or a worker's transaction. */
  function MessagesNext(m: MessageTable, es: seq<InboundEvent>, x: Trial): MessageTable {
    match x
    case Tried(stored, now, _) => if stored then StoreAll(m, es, now) else m
    case RowClaimed(id, now) => if id in m && m[id].Inbound? then m[id := Messages.Claim(m[id], now)] else m
    case RowMoved(id, status, errorCode, availableAt) =>
      var moved := Transition(m, id, status, errorCode, availableAt);
      if moved.Some? then moved.value else m
    case ReplyStored(id, scope, text) => InsertOutbound(m, ReplyId(id), scope, text).0
    case _ => m
  }

  function MessagesAfter(m: MessageTable, es: seq<InboundEvent>, xs: seq<Trial>): MessageTable
    decreases |xs|
  {
    if xs == [] then m else MessagesAfter(MessagesNext(m, es, xs[0]), es, xs[1..])
  }

  /** A worker's transaction keeps every provider id where it is and adds none that was there. */
  lemma WorkerKeepsMatches(d: DeliveryTables, cbs: seq<Callback>, x: Trial)
    requires CanHappen(d, cbs, x) && !x.Tried? && UniqueProviders(d)
    ensures UniqueProviders(After(d, cbs, x))
    ensures forall k, p :: Matches(d, k, p) ==>
            Matches(After(d, cbs, x), k, p) || d.attempts[k].state == AttemptState.Pending
    ensures forall p :: HasMatch(d, p) && NoPendingMatch(d) ==> HasMatch(After(d, cbs, x), p)
  {
    var e := After(d, cbs, x);
    assert forall k, p :: Matches(e, k, p) ==>
           Matches(d, k, p) || (x.AnswerStored? && k == x.key && x.result.providerId == Some(p));
    forall p | HasMatch(d, p) && NoPendingMatch(d) ensures HasMatch(e, p) {
      var k := MatchOf(d, p);
      assert Matches(e, k, p);
    }
  }

  /** Pending attempts have no provider id, as in every run of the protocol. */
  ghost predicate NoPendingMatch(d: DeliveryTables) {
    forall k, p :: Matches(d, k, p) ==> d.attempts[k].state != AttemptState.Pending
  }

  /** What the tables need to satisfy for callbacks and answers to be independent. */
  ghost predicate Regular(d: DeliveryTables) {
    UniqueProviders(d) && NoPendingMatch(d)
  }

  /** Every state of the protocol is regular. */
  lemma ReachableIsRegular(c: Protocol.Config, s: Protocol.State)
    requires ProtocolTheorems.Reachable(c, s)
    ensures Regular(s.delivery)
  {
    ProtocolTheorems.ReachableInv(c, s);
  }

  lemma WorkerKeepsRegular(d: DeliveryTables, cbs: seq<Callback>, x: Trial)
    requires CanHappen(d, cbs, x) && !x.Tried? && Regular(d)
    ensures Regular(After(d, cbs, x))
  {
    WorkerKeepsMatches(d, cbs, x);
    var e := After(d, cbs, x);
    assert forall k, p :: Matches(e, k, p) ==>
           Matches(d, k, p) || (x.AnswerStored? && k == x.key && x.result.providerId == Some(p));
  }

  lemma {:induction false} CallbacksKeepRegular(d: DeliveryTables, cbs: seq<Callback>)
    requires Regular(d)
    ensures Regular(ApplyAll(d, cbs))
  {
    if cbs != [] {
      var front := cbs[..|cbs| - 1];
      CallbacksKeepRegular(d, front);
      CallbackKeepsProviders(ApplyAll(d, front), cbs[|cbs| - 1]);
      SameProvidersMatch(ApplyAll(d, front), ApplyAll(d, cbs));
    }
  }

  /** A matched callback and a worker's transaction can be swapped. */
  lemma CallbackCommutes(d: DeliveryTables, cb: Callback, cbs: seq<Callback>, x: Trial)
    requires Regular(d) && HasMatch(d, cb.providerId) && !x.Tried?
    requires CanHappen(Deliveries.ApplyCallback(d, cb).0, cbs, x)
    ensures CanHappen(d, cbs, x)
    ensures After(Deliveries.ApplyCallback(d, cb).0, cbs, x) == Deliveries.ApplyCallback(After(d, cbs, x), cb).0
  {
    var u := Deliveries.ApplyCallback(d, cb).0;
    var key := MatchOf(d, cb.providerId);
    CallbackKeepsProviders(d, cb);
    SameProvidersMatch(d, u);
    assert !SeveralMatch(d, cb.providerId);
    if x.AnswerStored? {
      assert x.key != key;
      assert forall e :: e in u.events && e !in d.events ==> e.providerId == Some(cb.providerId);
      assert x.result.providerId != Some(cb.providerId);
    }
    WorkerKeepsRegular(d, cbs, x);
    WorkerKeepsMatches(d, cbs, x);
    var e := After(d, cbs, x);
    assert Matches(e, key, cb.providerId) && MatchOf(e, cb.providerId) == key && !SeveralMatch(e, cb.providerId);
    assert EventExists(e.events, cb.providerId, cb.status) <==> EventExists(d.events, cb.providerId, cb.status);
  }

  /** A whole applied prefix and a worker's transaction can be swapped. */
  lemma {:induction false} PrefixCommutes(d: DeliveryTables, prefix: seq<Callback>, cbs: seq<Callback>, x: Trial)
    requires Regular(d) && AllMatched(d, prefix) && !x.Tried?
    requires CanHappen(ApplyAll(d, prefix), cbs, x)
    ensures CanHappen(d, cbs, x) && AllMatched(After(d, cbs, x), prefix)
    ensures After(ApplyAll(d, prefix), cbs, x) == ApplyAll(After(d, cbs, x), prefix)
  {
    if prefix != [] {
      var front, cb := prefix[..|prefix| - 1], prefix[|prefix| - 1];
      CallbacksKeepRegular(d, front);
      ApplyAllKeepsProviders(d, front);
      SameProvidersMatch(d, ApplyAll(d, front));
      CallbackCommutes(ApplyAll(d, front), cb, cbs, x);
      PrefixCommutes(d, front, cbs, x);
    }
    WorkerKeepsMatches(d, cbs, x);
  }

  /** An applied callback leaves its event behind. */
  lemma {:induction false} EventStays(d: DeliveryTables, cbs: seq<Callback>, i: nat)
    requires Regular(d) && AllMatched(d, cbs) && i < |cbs|
    ensures EventExists(ApplyAll(d, cbs).events, cbs[i].providerId, cbs[i].status)
  {
    var front, cb := cbs[..|cbs| - 1], cbs[|cbs| - 1];
    var u := ApplyAll(d, front);
    CallbacksKeepRegular(d, front);
    ApplyAllKeepsProviders(d, front);
    SameProvidersMatch(d, u);
    assert !SeveralMatch(u, cb.providerId);
    var v := Deliveries.ApplyCallback(u, cb).0;
    assert u.events <= v.events;
    if i < |front| {
      EventStays(d, front, i);
    } else {
      var e := StatusEvent(MatchOf(u, cb.providerId), Some(cb.providerId), cb.status);
      assert EventExists(u.events, cb.providerId, cb.status) || e in v.events;
    }
  }

  function Max(a: nat, b: nat): nat {
    if a <= b then b else a
  }

  /** A callback of the prefix that was applied is a duplicate. */
  lemma {:induction false} PrefixHasIt(d: DeliveryTables, cbs: seq<Callback>, k: nat, i: nat)
    requires Regular(d) && i < k <= |cbs| && AllMatched(d, cbs[..k])
    ensures var u := ApplyAll(d, cbs[..k]); Deliveries.ApplyCallback(u, cbs[i]).0 == u
  {
    EventStays(d, cbs[..k], i);
    AppliedIsDuplicate(ApplyAll(d, cbs[..k]), cbs[i]);
  }

  lemma {:induction false} OneMore(d: DeliveryTables, cbs: seq<Callback>, i: nat)
    requires i < |cbs|
    ensures ApplyAll(d, cbs[..i + 1]) == Deliveries.ApplyCallback(ApplyAll(d, cbs[..i]), cbs[i]).0
  {
    assert cbs[..i + 1] == cbs[..i] + [cbs[i]];
    ApplyAllSnoc(d, cbs[..i], cbs[i]);
  }

  lemma FewerMatched(d: DeliveryTables, cbs: seq<Callback>, i: nat, n: nat)
    requires i <= n <= |cbs| && AllMatched(d, cbs[..n])
    ensures AllMatched(d, cbs[..i])
  {
    assert forall j :: 0 <= j < i ==> cbs[..i][j] == cbs[..n][j];
  }

  /** Applying a prefix again changes nothing, and a longer one adds just its new part. */
  lemma {:induction false} Reapply(d: DeliveryTables, cbs: seq<Callback>, k: nat, j: nat)
    requires Regular(d) && j <= |cbs| && k <= |cbs| && AllMatched(d, cbs[..Max(j, k)])
    ensures ApplyAll(ApplyAll(d, cbs[..k]), cbs[..j]) == ApplyAll(d, cbs[..Max(j, k)])
    decreases j
  {
    if j > 0 {
      FewerMatched(d, cbs, Max(j - 1, k), Max(j, k));
      Reapply(d, cbs, k, j - 1);
      OneMore(ApplyAll(d, cbs[..k]), cbs, j - 1);
      if j <= k {
        PrefixHasIt(d, cbs, k, j - 1);
      } else {
        OneMore(d, cbs, j - 1);
      }
    }
  }

  lemma AppliedIsDuplicate(u: DeliveryTables, cb: Callback)
    requires EventExists(u.events, cb.providerId, cb.status)
    ensures Deliveries.ApplyCallback(u, cb).0 == u
  {
  }

  /** Whatever tries and workers do, the tables are the workers' own with some prefix of the callbacks applied. */
  lemma {:induction false} TriesArePrefixes(d: DeliveryTables, cbs: seq<Callback>, k: nat, xs: seq<Trial>)
    returns (m: nat)
    requires Regular(d) && k <= |cbs| && AllMatched(d, cbs[..k]) && Happens(ApplyAll(d, cbs[..k]), cbs, xs)
    ensures Happens(d, cbs, WorkersOnly(xs)) && m <= |cbs|
    ensures var e := AfterAll(d, cbs, WorkersOnly(xs));
            && Regular(e) && AllMatched(e, cbs[..m])
            && AfterAll(ApplyAll(d, cbs[..k]), cbs, xs) == ApplyAll(e, cbs[..m])
    decreases |xs|
  {
    if xs == [] {
      m := k;
    } else if xs[0].Tried? {
      var j := xs[0].applied;
      ApplyAllKeepsProviders(d, cbs[..k]);
      SameProvidersMatch(d, ApplyAll(d, cbs[..k]));
      assert AllMatched(d, cbs[..Max(j, k)]) by {
        forall i | 0 <= i < Max(j, k) ensures HasMatch(d, cbs[i].providerId) {
          assert i < k ==> cbs[..k][i] == cbs[i];
          assert i < j ==> cbs[..j][i] == cbs[i];
        }
      }
      Reapply(d, cbs, k, j);
      m := TriesArePrefixes(d, cbs, Max(j, k), xs[1..]);
      assert WorkersOnly(xs) == WorkersOnly(xs[1..]);
    } else {
      PrefixCommutes(d, cbs[..k], cbs, xs[0]);
      WorkerKeepsRegular(d, cbs, xs[0]);
      m := TriesArePrefixes(After(d, cbs, xs[0]), cbs, k, xs[1..]);
      assert WorkersOnly(xs) == [xs[0]] + WorkersOnly(xs[1..]);
    }
  }

  /** Rows of the same kind, conversation and text. */
  predicate SameContent(a: MessageRow, b: MessageRow) {
    (a.Inbound? <==> b.Inbound?) && a.scope == b.scope && a.text == b.text
  }

  ghost predicate SameContents(a: MessageTable, b: MessageTable) {
    a.Keys == b.Keys && forall id :: id in a ==> SameContent(a[id], b[id])
  }

  /** The table has these rows, with this content, and other rows only for those replies. */
  ghost predicate Extends(a: MessageTable, b: MessageTable, replies: set<string>) {
    && a.Keys == b.Keys + replies
    && forall id :: id in b ==> SameContent(a[id], b[id])
  }

  function RepliesIn(x: Trial): set<string> {
    if x.ReplyStored? then {ReplyId(x.id)} else {}
  }

  function RepliesOf(xs: seq<Trial>): set<string> {
    if xs == [] then {} else RepliesIn(xs[0]) + RepliesOf(xs[1..])
  }

  lemma {:induction false} StoreAllKeepsContents(m: MessageTable, n: MessageTable, es: seq<InboundEvent>, now: nat)
    requires SameContents(m, n)
    ensures SameContents(StoreAll(m, es, now), StoreAll(n, es, now))
  {
    if es != [] {
      StoreAllKeepsContents(m, n, es[..|es| - 1], now);
    }
  }

  lemma {:induction false} StoreAllBesideReply(m: MessageTable, es: seq<InboundEvent>, now: nat, id: string,
                                               row: MessageRow)
    requires id !in m && id !in Ids(es)
    ensures StoreAll(m[id := row], es, now) == StoreAll(m, es, now)[id := row]
  {
    if es != [] {
      assert es[|es| - 1].id in Ids(es);
      assert forall e :: e in es[..|es| - 1] ==> e in es;
      StoreAllBesideReply(m, es[..|es| - 1], now, id, row);
    }
  }

  /**
   After any one try or transaction, a complete call leaves what it leaves at once, and the reply stored meanwhile.
   */
  lemma {:induction false} TrialKeepsContents(m: MessageTable, es: seq<InboundEvent>, x: Trial, now: nat)
    requires forall id :: id in Ids(es) ==> !IsReplyId(id)
    ensures Extends(StoreAll(MessagesNext(m, es, x), es, now), StoreAll(m, es, now), RepliesIn(x))
  {
    var n := MessagesNext(m, es, x);
    StoreAllAddsMissing(m, es, now);
    if x.Tried? && x.stored {
      StoreAllAddsMissing(m, es, x.now);
      StoreAllAgain(n, es, now);
      StoreAllAtAnyTime(m, es, x.now, now);
    } else if x.ReplyStored? && ReplyId(x.id) !in m {
      StoreAllBesideReply(m, es, now, ReplyId(x.id), Outbound(x.scope, x.text));
    } else {
      assert SameContents(n, m);
      StoreAllKeepsContents(n, m, es, now);
    }
  }

  lemma {:induction false} ContentsConverge(m: MessageTable, es: seq<InboundEvent>, xs: seq<Trial>, now: nat)
    requires forall id :: id in Ids(es) ==> !IsReplyId(id)
    ensures Extends(StoreAll(MessagesAfter(m, es, xs), es, now), StoreAll(m, es, now), RepliesOf(xs))
    decreases |xs|
  {
    if xs != [] {
      TrialKeepsContents(m, es, xs[0], now);
      ContentsConverge(MessagesNext(m, es, xs[0]), es, xs[1..], now);
    }
  }

  /** No worker touches the messages in between. */
  predicate TouchesMessages(x: Trial) {
    x.RowClaimed? || x.RowMoved? || x.ReplyStored?
  }

  /**
   Any number of partly failed tries of a batch, between any transactions of workers, and then a complete one leave
   the same attempts and events as the workers' transactions and one complete call; the same messages, with the
   same conversation and text, as one complete call, and besides them only the replies stored meanwhile; and, if no
   worker touched a message, the very same messages up to their times.
   */
  lemma {:induction false} RedeliveryConverges(m: MessageTable, d: DeliveryTables, batch: Batch, xs: seq<Trial>,
                                               now: nat)
    requires Regular(d) && Happens(d, batch.statuses, xs) && AllMatched(AfterAll(d, batch.statuses, xs), batch.statuses)
    requires forall id :: id in Ids(batch.messages) ==> !IsReplyId(id)
    ensures Happens(d, batch.statuses, WorkersOnly(xs))
    ensures ApplyAll(AfterAll(d, batch.statuses, xs), batch.statuses) ==
            ApplyAll(AfterAll(d, batch.statuses, WorkersOnly(xs)), batch.statuses)
    ensures Extends(StoreAll(MessagesAfter(m, batch.messages, xs), batch.messages, now),
            StoreAll(m, batch.messages, now), RepliesOf(xs))
    ensures (forall x :: x in xs ==> !TouchesMessages(x)) ==>
              SameTables(StoreAll(MessagesAfter(m, batch.messages, xs), batch.messages, now),
                  StoreAll(m, batch.messages, now))
  {
    DeliveriesConverge(d, batch.statuses, xs);
    ContentsConverge(m, batch.messages, xs, now);
    if forall x :: x in xs ==> !TouchesMessages(x) {
      MessagesConverge(m, batch.messages, xs, now);
    }
  }

  lemma {:induction false} DeliveriesConverge(d: DeliveryTables, cbs: seq<Callback>, xs: seq<Trial>)
    requires Regular(d) && Happens(d, cbs, xs) && AllMatched(AfterAll(d, cbs, xs), cbs)
    ensures Happens(d, cbs, WorkersOnly(xs))
    ensures ApplyAll(AfterAll(d, cbs, xs), cbs) == ApplyAll(AfterAll(d, cbs, WorkersOnly(xs)), cbs)
  {
    assert cbs[..0] == [] && cbs[..|cbs|] == cbs;
    var k := TriesArePrefixes(d, cbs, 0, xs);
    var e := AfterAll(d, cbs, WorkersOnly(xs));
    ApplyAllKeepsProviders(e, cbs[..k]);
    SameProvidersMatch(e, ApplyAll(e, cbs[..k]));
    Reapply(e, cbs, k, |cbs|);
  }

  lemma {:induction false} MessagesConverge(m: MessageTable, es: seq<InboundEvent>, xs: seq<Trial>, now: nat)
    requires forall x :: x in xs ==> !TouchesMessages(x)
    ensures SameTables(StoreAll(MessagesAfter(m, es, xs), es, now), StoreAll(m, es, now))
    decreases |xs|
  {
    if xs != [] {
      assert xs[0] in xs && forall x :: x in xs[1..] ==> x in xs;
      MessagesConverge(MessagesNext(m, es, xs[0]), es, xs[1..], now);
      if xs[0].Tried? && xs[0].stored {
        StoreAllAddsMissing(m, es, xs[0].now);
        StoreAllAgain(MessagesNext(m, es, xs[0]), es, now);
        StoreAllAtAnyTime(m, es, xs[0].now, now);
      }
    }
  }
}
