/** The stores over the shared tables: each method is one transaction, specified by the table functions. */
module Stores {
  import opened Options
  import opened Messages
  import opened Deliveries
  import opened Leases

  /** The tables of the database. */
  class Database {
    var messages: MessageTable
    var delivery: DeliveryTables

    constructor ()
      ensures messages == map[] && delivery == DeliveryTables(map[], {})
    {
      messages, delivery := map[], DeliveryTables(map[], {});
    }
  }

  /** The lock entries of the Redis server. */
  class LockServer {
    var locks: map<Scope, Lease>

    constructor ()
      ensures locks == map[]
    {
      locks := map[];
    }
  }

  /** The shared clock. */
  class Clock {
    var now: nat

    constructor ()
      ensures now == 0
    {
      now := 0;
    }

    method Elapse(delta: nat)
      modifies this
      ensures now == old(now) + delta
    {
      now := now + delta;
    }
  }

  // ---------- Claiming and finishing messages ----------

  datatype ClaimedInbound = ClaimedInbound(id: string, scope: Scope, attempts: nat)

  /** The claim order: due time, absent last, then creation time. */
  predicate Precedes(a: MessageRow, b: MessageRow)
    requires a.Inbound? && b.Inbound?
  {
    match (a.availableAt, b.availableAt)
    case (Some(x), Some(y)) => x < y || (x == y && a.createdAt <= b.createdAt)
    case (Some(_), None) => true
    case (None, Some(_)) => false
    case (None, None) => a.createdAt <= b.createdAt
  }

  ghost predicate IsFirst(messages: MessageTable, ids: set<string>, id: string)
    requires forall k :: k in ids ==> k in messages && messages[k].Inbound?
  {
    id in ids && forall k :: k in ids ==> Precedes(messages[id], messages[k])
  }

  lemma {:induction false} FirstExists(messages: MessageTable, ids: set<string>)
    requires ids != {} && forall k :: k in ids ==> k in messages && messages[k].Inbound?
    ensures exists id :: IsFirst(messages, ids, id)
  {
    var k :| k in ids;
    if ids == {k} {
      assert IsFirst(messages, ids, k);
    } else {
      FirstExists(messages, ids - {k});
      var id :| IsFirst(messages, ids - {k}, id);
      assert IsFirst(messages, ids, if Precedes(messages[id], messages[k]) then id else k);
    }
  }

  class MessageProcessingStore {
    const db: Database

    constructor (db: Database)
      ensures this.db == db
    {
      this.db := db;
    }

    /** The rows a claim may take: claimable ones that no other transaction has locked. */
    function Candidates(now: nat, claimTimeout: nat, locked: set<string>): set<string>
      reads db
    {
      set id | id in db.messages && id !in locked && Claimable(db.messages[id], now, claimTimeout)
    }

    /**
     Takes the first row, in claim order, that is due or stale and that nobody has locked, with one more attempt on
     it; nothing if no row is.
     */
    method ClaimNext(now: nat, claimTimeout: nat, locked: set<string>) returns (job: Option<ClaimedInbound>)
      modifies db`messages
      ensures job.None? <==> old(Candidates(now, claimTimeout, locked)) == {}
      ensures job.None? ==>
                && db.messages == old(db.messages)
                && forall k :: k in db.messages && k !in locked && db.messages[k].Inbound? ==>
                     var row := db.messages[k];
                     && (row.status == ProcessingStatus.Pending && row.availableAt.Some? ==>
                           now < row.availableAt.value)
                     && (row.status == Processing && row.claimedAt.Some? ==> now < row.claimedAt.value + claimTimeout)
      ensures job.Some? ==>
                var id, before := job.value.id, old(db.messages);
                && id in before && id !in locked && before[id].Inbound?
                && var row := before[id];
                   && (|| (row.status == ProcessingStatus.Pending && row.availableAt.Some? &&
                           row.availableAt.value <= now)
                       || (row.status == Processing && row.claimedAt.Some? &&
                           row.claimedAt.value + claimTimeout <= now))
                   && job.value == ClaimedInbound(id, row.scope, row.attempts + 1)
                   && db.messages == before[id := row.(status := Processing, attempts := row.attempts + 1,
                                                       claimedAt := Some(now), errorCode := None)]
      ensures job.Some? ==> forall k :: k in old(Candidates(now, claimTimeout, locked)) ==>
                var row, other := old(db.messages)[job.value.id], old(db.messages)[k];
                && row.Inbound? && other.Inbound?
                && (row.availableAt.None? ==> other.availableAt.None?)
                && (row.availableAt.Some? && other.availableAt.Some? ==>
                      row.availableAt.value <= other.availableAt.value)
                && (row.availableAt == other.availableAt ==> row.createdAt <= other.createdAt)
    {
      var candidates := Candidates(now, claimTimeout, locked);
      if candidates == {} {
        assert forall k :: k in db.messages && k !in locked && Claimable(db.messages[k], now, claimTimeout) ==>
            k in candidates;
        return None;
      }
      FirstExists(db.messages, candidates);
      var id :| id in candidates && forall k :: k in candidates ==> Precedes(db.messages[id], db.messages[k]);
      var row := db.messages[id];
      assert forall k :: k in candidates ==> Precedes(row, old(db.messages)[k]);
      job := Some(ClaimedInbound(id, row.scope, row.attempts + 1));
      db.messages := db.messages[id := Messages.Claim(row, now)];
    }

    /** Completes the row while it is being processed; false is the raised error. */
    method Complete(id: string) returns (ok: bool)
      modifies db`messages
      ensures ok <==> InProgress(old(db.messages), id)
      ensures !ok ==> db.messages == old(db.messages)
      ensures ok ==> db.messages == old(db.messages)[id :=
                old(db.messages)[id].(status := Completed, availableAt := None, claimedAt := None, errorCode := None)]
    {
      ok := Move(id, Completed, None, None);
    }

    /** Gives the message up, or puts it back with a delay, with the reason. */
    method Fail(id: string, errorCode: string, retry: bool, now: nat, retryDelay: nat) returns (ok: bool)
      modifies db`messages
      ensures ok <==> InProgress(old(db.messages), id)
      ensures !ok ==> db.messages == old(db.messages)
      ensures ok && retry ==> db.messages == old(db.messages)[id :=
                old(db.messages)[id].(status := ProcessingStatus.Pending, availableAt := Some(now + retryDelay),
                                      claimedAt := None, errorCode := Some(errorCode))]
      ensures ok && !retry ==> db.messages == old(db.messages)[id :=
                old(db.messages)[id].(status := ProcessingStatus.Failed, availableAt := None, claimedAt := None,
                                      errorCode := Some(errorCode))]
    {
      var status := if retry then ProcessingStatus.Pending else ProcessingStatus.Failed;
      var availableAt := if retry then Some(now + retryDelay) else None;
      ok := Move(id, status, Some(errorCode), availableAt);
    }

    /**
     `_transition`: updates the row while it is being processed, whoever claimed it and however often; false is
     the raised error.
     */
    method Move(id: string, status: ProcessingStatus, errorCode: Option<string>,
                availableAt: Option<nat>) returns (ok: bool)
      modifies db`messages
      ensures ok <==> InProgress(old(db.messages), id)
      ensures !ok ==> db.messages == old(db.messages)
      ensures ok ==>
                && db.messages.Keys == old(db.messages).Keys
                && (forall k :: k in db.messages && k != id ==> db.messages[k] == old(db.messages)[k])
                && var before, after := old(db.messages)[id], db.messages[id];
                   && after.Inbound? && after.status == status && after.errorCode == errorCode
                   && after.availableAt == availableAt && after.claimedAt == None
                   && after.attempts == before.attempts && after.scope == before.scope && after.text == before.text
                   && after.createdAt == before.createdAt
    {
      if id !in db.messages || !db.messages[id].Inbound? || db.messages[id].status != Processing {
        return false;
      }
      var row := db.messages[id];
      row := Inbound(row.scope, row.text, row.createdAt, status, row.attempts, availableAt, None, errorCode);
      db.messages := db.messages[id := row];
      ok := true;
    }
  }

  // ---------- Messages ----------

  class ConversationRepository {
    const db: Database

    constructor (db: Database)
      ensures this.db == db
    {
      this.db := db;
    }

    method RecordInbound(id: string, scope: Scope, text: string, now: nat) returns (created: bool)
      modifies db`messages
      ensures created <==> id !in old(db.messages)
      ensures !created ==> db.messages == old(db.messages)
      ensures created ==> db.messages == old(db.messages)[id :=
                Inbound(scope, text, now, ProcessingStatus.Pending, 0, Some(now), None, None)]
    {
      created := id !in db.messages;
      if created {
        db.messages := db.messages[id := Inbound(scope, text, now, ProcessingStatus.Pending, 0, Some(now), None, None)];
      }
    }

    method RecordOutbound(id: string, scope: Scope, text: string) returns (created: bool)
      modifies db`messages
      ensures created <==> id !in old(db.messages)
      ensures db.messages == if created then old(db.messages)[id := Outbound(scope, text)] else old(db.messages)
    {
      created := id !in db.messages;
      if created {
        db.messages := db.messages[id := Outbound(scope, text)];
      }
    }

    method FindMessage(id: string) returns (found: Option<MessageRow>)
      ensures found == if id in db.messages then Some(db.messages[id]) else None
    {
      found := if id in db.messages then Some(db.messages[id]) else None;
    }
  }

  // ---------- Delivery attempts ----------

  class DeliveryStore {
    const db: Database

    constructor (db: Database)
      ensures this.db == db
    {
      this.db := db;
    }

    /** Creates the attempt unless the key has one; returns the attempt either way. */
    method Claim(key: string) returns (created: bool, attempt: Attempt)
      modifies db`delivery
      ensures created <==> key !in old(db.delivery).attempts
      ensures attempt == if created then Attempt(AttemptState.Pending, None, None) else old(db.delivery).attempts[key]
      ensures db.delivery == if created then old(db.delivery).(attempts := old(db.delivery).attempts[key := attempt])
              else old(db.delivery)
    {
      created := key !in db.delivery.attempts;
      if created {
        db.delivery := db.delivery.(attempts := db.delivery.attempts[key := FRESH_ATTEMPT]);
      }
      attempt := db.delivery.attempts[key];
    }

    /** Stores the provider's answer in a pending attempt, with its event; false is a raised error. */
    method Finalize(key: string, result: DeliveryResult) returns (ok: bool)
      modifies db`delivery
      ensures ok <==>
                && key in old(db.delivery).attempts && old(db.delivery).attempts[key].state == AttemptState.Pending
                && (result.providerId.Some? ==> forall e :: e in old(db.delivery).events ==>
                     !(e.providerId == result.providerId && e.status == result.status))
      ensures db.delivery ==
              if ok then DeliveryTables(
                  old(db.delivery).attempts[key := Attempt(result.status, result.providerId, result.errorCode)],
                  old(db.delivery).events + {StatusEvent(key, result.providerId, result.status)})
              else old(db.delivery)
    {
      var t := db.delivery;
      if key !in t.attempts || t.attempts[key].state != AttemptState.Pending {
        return false;
      }
      if EventConflicts(t.events, result.providerId, result.status) {
        return false;
      }
      db.delivery := DeliveryTables(t.attempts[key := Attempt(result.status, result.providerId, result.errorCode)],
                                    t.events + {StatusEvent(key, result.providerId, result.status)});
      return true;
    }

    /** Finds the attempt, deduplicates the event, then moves the attempt if the move is allowed. */
    method ApplyCallback(cb: Callback) returns (outcome: CallbackOutcome)
      modifies db`delivery
      ensures (db.delivery, outcome) == Deliveries.ApplyCallback(old(db.delivery), cb)
    {
      var t := db.delivery;
      var found := set k | k in t.attempts && t.attempts[k].providerId == Some(cb.providerId);
      assert forall k :: k in found <==> Matches(t, k, cb.providerId);
      if found == {} {
        return MissingAttempt;
      }
      var key :| key in found;
      assert HasMatch(t, cb.providerId);
      if found != {key} {
        assert exists k :: k in found && k != key;
        return AmbiguousAttempt;
      }
      assert MatchOf(t, cb.providerId) in found;
      if exists e :: e in t.events && e.providerId == Some(cb.providerId) && e.status == cb.status {
        return Duplicate;
      }
      t := t.(events := t.events + {StatusEvent(key, Some(cb.providerId), cb.status)});
      if CanTransition(t.attempts[key].state, cb.status) {
        var attempt := t.attempts[key].(state := cb.status, errorCode := cb.errorCode);
        t := t.(attempts := t.attempts[key := attempt]);
        outcome := Applied;
      } else {
        outcome := IgnoredRegression;
      }
      db.delivery := t;
    }
  }

  // ---------- The conversation lock ----------

  datatype LockStatus = Acquired | Busy | Unavailable

  class ConversationLock {
    const server: LockServer
    const ttl: nat

    constructor (server: LockServer, ttl: nat)
      ensures this.server == server && this.ttl == ttl
    {
      this.server, this.ttl := server, ttl;
    }

    /** Takes the lock under a new token unless somebody holds it or the server cannot be reached. */
    method Acquire(scope: Scope, token: nat, now: nat, reachable: bool) returns (status: LockStatus)
      modifies server
      ensures status == Unavailable <==> !reachable
      ensures status == Acquired <==> reachable && !Held(old(server.locks), scope, now)
      ensures server.locks == if status == Acquired then old(server.locks)[scope := Lease(token, now + ttl)]
              else old(server.locks)
    {
      if !reachable {
        return Unavailable;
      }
      if Held(server.locks, scope, now) {
        return Busy;
      }
      server.locks := server.locks[scope := Lease(token, now + ttl)];
      return Acquired;
    }

    method Release(scope: Scope, token: nat, now: nat, reachable: bool)
      modifies server
      ensures server.locks == if reachable && HeldBy(old(server.locks), scope, token, now)
              then old(server.locks) - {scope} else old(server.locks)
    {
      if reachable && HeldBy(server.locks, scope, token, now) {
        server.locks := server.locks - {scope};
      }
    }
  }
}
