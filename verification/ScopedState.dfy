/**
 The short-lived state of a conversation in Redis: active picks and pending actions, with the service over the picks.
 */
module ScopedState {
  import opened Options
  import opened Messages
  import opened Texts
  import opened ScopeKeys

  // ---------- Redis ----------

  datatype Entry = Entry(value: string, expires: nat)

  type Entries = map<string, Entry>

  /** GET: an expired entry is as good as none. */
  function Lookup(e: Entries, key: string, now: nat): Option<string> {
    if key in e && now < e[key].expires then Some(e[key].value) else None
  }

  class Redis {
    var entries: Entries

    constructor ()
      ensures entries == map[]
    {
      entries := map[];
    }
  }

  // ---------- Reading what was stored ----------

  /** How values are written to and read from a payload; reading fails on a corrupt one. */
  datatype Codec<!A> = Codec(dump: A -> string, parse: string -> Option<A>)

  ghost predicate Faithful<A(!new)>(codec: Codec<A>) {
    forall a :: codec.parse(codec.dump(a)) == Some(a)
  }

  datatype Read<A> = Found(value: A) | Missing | Unavailable

  datatype Write = Write(success: bool, available: bool)

  function Parsed<A>(codec: Codec<A>, payload: Option<string>): Read<A> {
    if payload.None? then Missing
    else if codec.parse(payload.value).None? then Unavailable
    else Found(codec.parse(payload.value).value)
  }

  /** A corrupt payload. */
  predicate Corrupt<A>(codec: Codec<A>, payload: Option<string>) {
    payload.Some? && codec.parse(payload.value).None?
  }

  /** What a read leaves: a corrupt payload goes, if Redis can be reached to clear it. */
  function AfterGet<A>(codec: Codec<A>, e: Entries, key: string, now: nat, clears: bool): Entries {
    if Corrupt(codec, Lookup(e, key, now)) && clears then AfterClear(e, key) else e
  }

  /** SET EX. */
  function AfterSet(e: Entries, key: string, value: string, now: nat, ttl: nat): Entries {
    e[key := Entry(value, now + ttl)]
  }

  /** DEL, and what GETDEL leaves. */
  function AfterClear(e: Entries, key: string): Entries {
    e - {key}
  }

  // ---------- The two stores ----------

  datatype ActivePickSource = ExplicitReference | UnambiguousResult

  datatype ActivePickReference = ActivePickReference(pickId: string, commerceId: string, selectedAt: nat,
      source: ActivePickSource)

  class RedisActivePickStore {
    const redis: Redis
    const ttl: nat
    const digest: string -> string
    const codec: Codec<ActivePickReference>

    constructor (redis: Redis, ttl: nat, digest: string -> string, codec: Codec<ActivePickReference>)
      requires ttl >= 1
      ensures this.redis == redis && this.ttl == ttl && this.digest == digest && this.codec == codec
    {
      this.redis, this.ttl, this.digest, this.codec := redis, ttl, digest, codec;
    }

    function Key(scope: Scope): string {
      KeyFor(digest, scope, ActivePick)
    }

    method Set(scope: Scope, reference: ActivePickReference, now: nat, reachable: bool) returns (w: Write)
      modifies redis
      ensures w == Write(reachable, reachable)
      ensures redis.entries == if reachable
              then AfterSet(old(redis.entries), Key(scope), codec.dump(reference), now, ttl) else old(redis.entries)
    {
      if !reachable {
        return Write(false, false);
      }
      redis.entries := redis.entries[Key(scope) := Entry(codec.dump(reference), now + ttl)];
      w := Write(true, true);
    }

    method Get(scope: Scope, now: nat, reachable: bool, clears: bool) returns (r: Read<ActivePickReference>)
      modifies redis
      ensures r == if reachable then Parsed(codec, Lookup(old(redis.entries), Key(scope), now)) else Unavailable
      ensures redis.entries == if reachable then AfterGet(codec, old(redis.entries), Key(scope), now, clears)
              else old(redis.entries)
    {
      if !reachable {
        return Unavailable;
      }
      var payload := Lookup(redis.entries, Key(scope), now);
      if payload.None? {
        return Missing;
      }
      var reference := codec.parse(payload.value);
      if reference.None? {
        var _ := Clear(scope, clears);
        return Unavailable;
      }
      r := Found(reference.value);
    }

    method Clear(scope: Scope, reachable: bool) returns (w: Write)
      modifies redis
      ensures w == Write(reachable, reachable)
      ensures redis.entries == if reachable then AfterClear(old(redis.entries), Key(scope)) else old(redis.entries)
    {
      if reachable {
        redis.entries := redis.entries - {Key(scope)};
      }
      w := Write(reachable, reachable);
    }
  }

  datatype PendingActionValue =
    | SelectPick(actionId: string, candidates: seq<string>)
    | ProvideOrderOwnership(actionId: string, subject: string)

  class RedisPendingActionStore {
    const redis: Redis
    const ttl: nat
    const digest: string -> string
    const codec: Codec<PendingActionValue>

    constructor (redis: Redis, ttl: nat, digest: string -> string, codec: Codec<PendingActionValue>)
      requires ttl >= 1
      ensures this.redis == redis && this.ttl == ttl && this.digest == digest && this.codec == codec
    {
      this.redis, this.ttl, this.digest, this.codec := redis, ttl, digest, codec;
    }

    function Key(scope: Scope): string {
      KeyFor(digest, scope, PendingAction)
    }

    method Set(scope: Scope, action: PendingActionValue, now: nat, reachable: bool) returns (w: Write)
      modifies redis
      ensures w == Write(reachable, reachable)
      ensures redis.entries == if reachable then AfterSet(old(redis.entries), Key(scope), codec.dump(action), now, ttl)
              else old(redis.entries)
    {
      if !reachable {
        return Write(false, false);
      }
      redis.entries := redis.entries[Key(scope) := Entry(codec.dump(action), now + ttl)];
      w := Write(true, true);
    }

    method Get(scope: Scope, now: nat, reachable: bool, clears: bool) returns (r: Read<PendingActionValue>)
      modifies redis
      ensures r == if reachable then Parsed(codec, Lookup(old(redis.entries), Key(scope), now)) else Unavailable
      ensures redis.entries == if reachable then AfterGet(codec, old(redis.entries), Key(scope), now, clears)
              else old(redis.entries)
    {
      if !reachable {
        return Unavailable;
      }
      r := Parse(scope, Lookup(redis.entries, Key(scope), now), false, clears);
    }

    /** GETDEL: whatever is there is read once, and gone. */
    method Consume(scope: Scope, now: nat, reachable: bool, clears: bool) returns (r: Read<PendingActionValue>)
      modifies redis
      ensures r == if reachable then Parsed(codec, Lookup(old(redis.entries), Key(scope), now)) else Unavailable
      ensures redis.entries == if reachable then AfterClear(old(redis.entries), Key(scope)) else old(redis.entries)
    {
      if !reachable {
        return Unavailable;
      }
      var payload := Lookup(redis.entries, Key(scope), now);
      redis.entries := redis.entries - {Key(scope)};
      r := Parse(scope, payload, true, clears);
    }

    method Clear(scope: Scope, reachable: bool) returns (w: Write)
      modifies redis
      ensures w == Write(reachable, reachable)
      ensures redis.entries == if reachable then AfterClear(old(redis.entries), Key(scope)) else old(redis.entries)
    {
      if reachable {
        redis.entries := redis.entries - {Key(scope)};
      }
      w := Write(reachable, reachable);
    }

    method Parse(scope: Scope, payload: Option<string>, consumed: bool, clears: bool)
      returns (r: Read<PendingActionValue>)
      modifies redis
      ensures r == Parsed(codec, payload)
      ensures redis.entries == if Corrupt(codec, payload) && !consumed && clears
              then AfterClear(old(redis.entries), Key(scope)) else old(redis.entries)
    {
      if payload.None? {
        return Missing;
      }
      var action := codec.parse(payload.value);
      if action.None? {
        if !consumed {
          var _ := Clear(scope, clears);
        }
        return Unavailable;
      }
      r := Found(action.value);
    }
  }

  // ---------- Resolving the active pick ----------

  datatype Pick = Pick(id: string, commerce: string)

  datatype PickAnswer = Available(pick: Pick) | NotFound | OtherError

  datatype Resolution =
    | Confirmed(pick: Pick, source: ActivePickSource, persisted: bool)
    | NoPick | Stale | StateUnavailable | UpstreamUnavailable

  /** Which Redis calls of a resolution get through: the read, and the clearing or the writing after it. */
  datatype Reach = Reach(gets: bool, clears: bool, writes: bool)

  datatype Service = Service(u: CharTable, digest: string -> string, codec: Codec<ActivePickReference>, ttl: nat,
      client: string -> PickAnswer)

  function Reference(pick: Pick, source: ActivePickSource, now: nat): ActivePickReference {
    ActivePickReference(pick.id, pick.commerce, now, source)
  }

  /** What a resolution answers, and the entries it leaves. */
  function Resolve(s: Service, e: Entries, scope: Scope, explicit: Option<string>, now: nat,
                   reach: Reach): (Resolution, Entries) {
    var key := KeyFor(s.digest, scope, ActivePick);
    if explicit.None? then
      var read := if reach.gets then Parsed(s.codec, Lookup(e, key, now)) else Unavailable;
      var left := if reach.gets then AfterGet(s.codec, e, key, now, reach.clears) else e;
      match read
      case Unavailable => (StateUnavailable, left)
      case Missing => (NoPick, left)
      case Found(reference) =>
        match s.client(reference.pickId)
        case Available(pick) => (Confirmed(pick, reference.source, true), left)
        case NotFound => (Stale, if reach.clears then AfterClear(left, key) else left)
        case OtherError => (UpstreamUnavailable, left)
    else
      var id := Strip(s.u, explicit.value);
      if id == "" then (NoPick, e)
      else
        match s.client(id)
        case Available(pick) =>
          (Confirmed(pick, ExplicitReference, reach.writes),
           if reach.writes then AfterSet(e, key, s.codec.dump(Reference(pick, ExplicitReference, now)), now, s.ttl)
               else e)
        case NotFound => (Stale, e)
        case OtherError => (UpstreamUnavailable, e)
  }

  class ActivePickService {
    const store: RedisActivePickStore
    const client: string -> PickAnswer
    const u: CharTable

    constructor (store: RedisActivePickStore, client: string -> PickAnswer, u: CharTable)
      ensures this.store == store && this.client == client && this.u == u
    {
      this.store, this.client, this.u := store, client, u;
    }

    function Settings(): Service {
      Service(u, store.digest, store.codec, store.ttl, client)
    }

    method Remember(scope: Scope, pick: Pick, source: ActivePickSource, now: nat, reachable: bool) returns (w: Write)
      modifies store.redis
      ensures w == Write(reachable, reachable)
      ensures store.redis.entries == if reachable
        then AfterSet(old(store.redis.entries), store.Key(scope), store.codec.dump(Reference(pick, source, now)), now,
            store.ttl)
        else old(store.redis.entries)
    {
      w := store.Set(scope, Reference(pick, source, now), now, reachable);
    }

    /** Confirms the named or the remembered pick with the catalogue, every time. */
    method ResolvePick(scope: Scope, explicit: Option<string>, now: nat, reach: Reach) returns (r: Resolution)
      modifies store.redis
      ensures (r, store.redis.entries) == Resolve(Settings(), old(store.redis.entries), scope, explicit, now, reach)
    {
      var id, source := "", ExplicitReference;
      if explicit.None? {
        var active := store.Get(scope, now, reach.gets, reach.clears);
        match active {
          case Unavailable => return StateUnavailable;
          case Missing => return NoPick;
          case Found(reference) => id, source := reference.pickId, reference.source;
        }
      } else {
        id := Strip(u, explicit.value);
        if id == "" {
          return NoPick;
        }
      }
      match client(id) {
        case Available(pick) =>
          var persisted := true;
          if explicit.Some? {
            var write := Remember(scope, pick, source, now, reach.writes);
            persisted := write.success;
          }
          return Confirmed(pick, source, persisted);
        case NotFound =>
          if explicit.None? {
            var _ := store.Clear(scope, reach.clears);
          }
          return Stale;
        case OtherError =>
          return UpstreamUnavailable;
      }
    }
  }

  /** The pick id that is asked for can be read: it is named, or remembered and not corrupt, with its source. */
  predicate Named(s: Service, e: Entries, scope: Scope, explicit: Option<string>, now: nat, reach: Reach, id: string,
                  source: ActivePickSource) {
    if explicit.Some? then id == Strip(s.u, explicit.value) && id != "" && source == ExplicitReference
    else
      var key := KeyFor(s.digest, scope, ActivePick);
      && reach.gets && key in e && now < e[key].expires && s.codec.parse(e[key].value).Some?
      && s.codec.parse(e[key].value).value.pickId == id && s.codec.parse(e[key].value).value.source == source
  }

  /** When a resolution has each of its answers. */
  lemma ResolutionExactly(s: Service, e: Entries, scope: Scope, explicit: Option<string>, now: nat, reach: Reach)
    ensures var (r, key) := (Resolve(s, e, scope, explicit, now, reach).0, KeyFor(s.digest, scope, ActivePick));
            && (r == StateUnavailable <==>
                  explicit.None? &&
                  (!reach.gets || (key in e && now < e[key].expires && s.codec.parse(e[key].value).None?)))
            && (r == NoPick <==>
                  || (explicit.None? && reach.gets && !(key in e && now < e[key].expires))
                  || (explicit.Some? && forall x :: x in explicit.value ==> s.u.space(x)))
    ensures forall id, source :: Named(s, e, scope, explicit, now, reach, id, source) ==>
              Resolve(s, e, scope, explicit, now, reach).0 ==
                match s.client(id)
                case Available(pick) => Confirmed(pick, source, explicit.None? || reach.writes)
                case NotFound => Stale
                case OtherError => UpstreamUnavailable
  {
    if explicit.Some? {
      OnlyBlanksVanish(s.u, explicit.value);
    }
  }

  /**
   What a resolution leaves: a pick confirmed by name is written; a remembered one is forgotten when its entry is
   corrupt or the catalogue does not know it any more; nothing else changes, and nothing does without Redis.
   */
  lemma ResolutionLeaves(s: Service, e: Entries, scope: Scope, explicit: Option<string>, now: nat, reach: Reach)
    ensures var ((r, left), key) := (Resolve(s, e, scope, explicit, now, reach), KeyFor(s.digest, scope, ActivePick));
            && (explicit.Some? ==>
                  left == if r.Confirmed? && reach.writes
                          then e[key := Entry(s.codec.dump(ActivePickReference(r.pick.id, r.pick.commerce, now,
                                                                               ExplicitReference)), now + s.ttl)]
                          else e)
            && (explicit.None? ==>
                  left == if reach.gets && reach.clears && key in e && (r == StateUnavailable || r == Stale)
                          then e - {key} else e)
  {
  }

  /** The pick id in question: the one named, or the one remembered under the scope. */
  predicate Asked(s: Service, e: Entries, scope: Scope, explicit: Option<string>, now: nat, id: string) {
    if explicit.Some? then id == Strip(s.u, explicit.value) && id != ""
    else
      var read := Parsed(s.codec, Lookup(e, KeyFor(s.digest, scope, ActivePick), now));
      read.Found? && read.value.pickId == id
  }

  /**
   A confirmed pick is one the catalogue has just answered with, for the id that was named or remembered under this
   scope.
   */
  lemma ConfirmedIsCurrent(s: Service, e: Entries, scope: Scope, explicit: Option<string>, now: nat, reach: Reach)
    requires Resolve(s, e, scope, explicit, now, reach).0.Confirmed?
    ensures var pick := Resolve(s, e, scope, explicit, now, reach).0.pick;
            exists id :: Asked(s, e, scope, explicit, now, id) && s.client(id) == Available(pick)
  {
    var id := if explicit.Some? then Strip(s.u, explicit.value)
              else Parsed(s.codec, Lookup(e, KeyFor(s.digest, scope, ActivePick), now)).value.pickId;
    assert s.client(id) == Available(Resolve(s, e, scope, explicit, now, reach).0.pick);
  }

  /**
   A pick confirmed by name is the one resolved from memory until it expires, and forgotten once the catalogue drops
   it.
   */
  lemma NamedIsRemembered(s: Service, e: Entries, scope: Scope, name: string, now: nat, later: nat, reach: Reach,
                          client: string -> PickAnswer)
    requires Faithful(s.codec) && reach == Reach(true, true, true)
    requires Resolve(s, e, scope, Some(name), now, reach).0.Confirmed?
    ensures var (first, kept) := Resolve(s, e, scope, Some(name), now, reach);
            var (second, left) := Resolve(s.(client := client), kept, scope, None, later, reach);
            && first.persisted
            && (now + s.ttl <= later ==> second == NoPick)
            && (later < now + s.ttl ==>
                 match client(first.pick.id)
                 case Available(pick) => second == Confirmed(pick, ExplicitReference, true) && left == kept
                 case NotFound => second == Stale && Resolve(s, left, scope, None, later, reach).0 == NoPick
                 case OtherError => second == UpstreamUnavailable && left == kept)
  {
    var pick := Resolve(s, e, scope, Some(name), now, reach).0.pick;
    var reference := Reference(pick, ExplicitReference, now);
    assert s.codec.parse(s.codec.dump(reference)) == Some(reference);
  }
}
