/** One Redis under all conversations: any run of lock, active-pick and pending-action commands. */
module SharedRedis {
  import opened Options
  import opened Messages
  import L = Leases
  import opened ScopeKeys
  import opened ScopedState

  datatype Command =
    | SetPick(payload: string) | GetPick | ClearPick
    | SetAction(payload: string) | GetAction | ConsumeAction | ClearAction
    | AcquireLock(token: nat) | ReleaseLock(token: nat)

  /** A command for a conversation, when it runs, and whether it and its clean-up get through. */
  datatype Op = Op(scope: Scope, command: Command, now: nat, reachable: bool, clears: bool)

  datatype Setup = Setup(
    digest: string -> string, tokenText: nat -> string,
    picks: Codec<ActivePickReference>, actions: Codec<PendingActionValue>,
    pickTtl: nat, actionTtl: nat, lockTtl: nat)

  function KindOf(command: Command): Kind {
    match command
    case SetPick(_) => ActivePick
    case GetPick => ActivePick
    case ClearPick => ActivePick
    case SetAction(_) => PendingAction
    case GetAction => PendingAction
    case ConsumeAction => PendingAction
    case ClearAction => PendingAction
    case AcquireLock(_) => ConversationLock
    case ReleaseLock(_) => ConversationLock
  }

  function OpKey(c: Setup, op: Op): string {
    KeyFor(c.digest, op.scope, KindOf(op.command))
  }

  /** The entries after a command. */
  function Apply(c: Setup, e: Entries, op: Op): Entries {
    var key := OpKey(c, op);
    if !op.reachable then e
    else
      match op.command
      case SetPick(payload) => AfterSet(e, key, payload, op.now, c.pickTtl)
      case GetPick => AfterGet(c.picks, e, key, op.now, op.clears)
      case ClearPick => AfterClear(e, key)
      case SetAction(payload) => AfterSet(e, key, payload, op.now, c.actionTtl)
      case GetAction => AfterGet(c.actions, e, key, op.now, op.clears)
      case ConsumeAction => AfterClear(e, key)
      case ClearAction => AfterClear(e, key)
      case AcquireLock(token) =>
        if Lookup(e, key, op.now).Some? then e else AfterSet(e, key, c.tokenText(token), op.now, c.lockTtl)
      case ReleaseLock(token) => if Lookup(e, key, op.now) == Some(c.tokenText(token)) then AfterClear(e, key) else e
  }

  /** The stores use the keys of their commands, and share none: picks and actions of any conversations are apart. */
  lemma StoresUseTheirKeys(c: Setup, picks: RedisActivePickStore, actions: RedisPendingActionStore, op: Op, s: Scope)
    requires c.digest == picks.digest == actions.digest
    ensures op.command.SetPick? || op.command.GetPick? || op.command.ClearPick? ==> OpKey(c, op) == picks.Key(op.scope)
    ensures op.command.SetAction? || op.command.GetAction? || op.command.ConsumeAction? || op.command.ClearAction? ==>
              OpKey(c, op) == actions.Key(op.scope)
    ensures picks.Key(op.scope) != actions.Key(s)
    ensures op.command.AcquireLock? || op.command.ReleaseLock? ==>
              OpKey(c, op) != picks.Key(s) && OpKey(c, op) != actions.Key(s)
  {
    KeysApart(c.digest, op.scope, ActivePick, s, PendingAction);
    KeysApart(c.digest, op.scope, ConversationLock, s, ActivePick);
    KeysApart(c.digest, op.scope, ConversationLock, s, PendingAction);
  }

  function ApplyAll(c: Setup, e: Entries, ops: seq<Op>): Entries
    decreases |ops|
  {
    if ops == [] then e else ApplyAll(c, Apply(c, e, ops[0]), ops[1..])
  }

  // ---------- Isolation ----------

  /** The same entry, or none, under the key. */
  predicate SameAt(e: Entries, f: Entries, key: string) {
    (key in e <==> key in f) && (key in e ==> e[key] == f[key])
  }

  lemma OneKeyTouched(c: Setup, e: Entries, op: Op, key: string)
    requires key != OpKey(c, op)
    ensures SameAt(e, Apply(c, e, op), key)
  {
  }

  ghost predicate Plain(ops: seq<Op>) {
    forall i :: 0 <= i < |ops| ==> PlainAccount(ops[i].scope)
  }

  /** No run of commands for other scopes, or of other kinds, changes what a scope has under a kind. */
  lemma {:induction false} OthersLeaveItAlone(c: Setup, e: Entries, ops: seq<Op>, scope: Scope, kind: Kind)
    requires Injective(c.digest) && PlainAccount(scope) && Plain(ops)
    requires forall i :: 0 <= i < |ops| ==> ops[i].scope != scope || KindOf(ops[i].command) != kind
    ensures SameAt(e, ApplyAll(c, e, ops), KeyFor(c.digest, scope, kind))
    decreases |ops|
  {
    if ops != [] {
      var key := KeyFor(c.digest, scope, kind);
      if key == OpKey(c, ops[0]) {
        KeysAreOwn(c.digest, scope, kind, ops[0].scope, KindOf(ops[0].command));
        assert false;
      }
      OneKeyTouched(c, e, ops[0], key);
      OthersLeaveItAlone(c, Apply(c, e, ops[0]), ops[1..], scope, kind);
    }
  }

  /** With a separator in an account, one conversation can read what was stored for another. */
  lemma SeparatorBreaksIsolation(c: Setup, payload: string) returns (a: Scope, b: Scope)
    requires c.pickTtl >= 1
    ensures a != b
    ensures var e := ApplyAll(c, map[], [Op(a, SetPick(payload), 0, true, true)]);
            Lookup(e, KeyFor(c.digest, b, ActivePick), 0) == Some(payload)
  {
    a := Scope(WhatsApp, "x", ['y', SEPARATOR, 'z']);
    b := Scope(WhatsApp, ['x', SEPARATOR, 'y'], "z");
    assert a.account != b.account;
    assert a.account + [SEPARATOR] + a.conversation == b.account + [SEPARATOR] + b.conversation;
    IdentityParts(a, b);
    KeysApart(c.digest, a, ActivePick, b, ActivePick);
    var op := Op(a, SetPick(payload), 0, true, true);
    assert ApplyAll(c, map[], [op]) == ApplyAll(c, Apply(c, map[], op), [op][1..]);
  }

  // ---------- Reading what was stored ----------

  /**
   What was stored for a conversation is what is read, whatever else happens meanwhile, exactly until its own time has
   passed; then nothing is.
   */
  lemma {:induction false} LastStoredIsRead(c: Setup, e: Entries, store: Op, ops: seq<Op>, payload: string, later: nat)
    requires Injective(c.digest) && PlainAccount(store.scope) && Plain(ops) && store.reachable
    requires store.command == SetPick(payload) || store.command == SetAction(payload)
    requires forall i :: 0 <= i < |ops| ==>
               ops[i].scope != store.scope || KindOf(ops[i].command) != KindOf(store.command)
    ensures var u := ApplyAll(c, Apply(c, e, store), ops);
            Lookup(u, OpKey(c, store), later) ==
              if later < store.now + (if store.command.SetPick? then c.pickTtl else c.actionTtl) then Some(payload)
              else None
  {
    OthersLeaveItAlone(c, Apply(c, e, store), ops, store.scope, KindOf(store.command));
  }

  lemma Removes(c: Setup, e: Entries, op: Op)
    requires op.reachable && (op.command.ConsumeAction? || op.command.ClearAction? || op.command.ClearPick?)
    ensures OpKey(c, op) !in Apply(c, e, op)
  {
  }

  lemma {:induction false} StaysAbsent(c: Setup, e: Entries, ops: seq<Op>, scope: Scope, kind: Kind, key: string,
                                       later: nat)
    requires Injective(c.digest) && PlainAccount(scope) && Plain(ops)
    requires forall i :: 0 <= i < |ops| ==> ops[i].scope != scope || KindOf(ops[i].command) != kind
    requires key == KeyFor(c.digest, scope, kind) && key !in e
    ensures Lookup(ApplyAll(c, e, ops), key, later) == None
  {
    OthersLeaveItAlone(c, e, ops, scope, kind);
  }

  /** A consumed or cleared action, or a cleared pick, is not read again until another one is stored. */
  lemma {:induction false} GoneIsGone(c: Setup, e: Entries, op: Op, ops: seq<Op>, later: nat)
    requires Injective(c.digest) && PlainAccount(op.scope) && Plain(ops) && op.reachable
    requires op.command.ConsumeAction? || op.command.ClearAction? || op.command.ClearPick?
    requires forall i :: 0 <= i < |ops| ==> ops[i].scope != op.scope || KindOf(ops[i].command) != KindOf(op.command)
    ensures Lookup(ApplyAll(c, Apply(c, e, op), ops), OpKey(c, op), later) == None
  {
    Removes(c, e, op);
    StaysAbsent(c, Apply(c, e, op), ops, op.scope, KindOf(op.command), OpKey(c, op), later);
  }

  /** Reading leaves what it reads, but clears a corrupt payload when it can. */
  lemma ReadingClearsCorrupt(c: Setup, e: Entries, op: Op)
    requires op.reachable && (op.command.GetPick? || op.command.GetAction?)
    ensures var key := OpKey(c, op);
            var corrupt := key in e && op.now < e[key].expires &&
                (if op.command.GetPick? then c.picks.parse(e[key].value).None?
                 else c.actions.parse(e[key].value).None?);
            Apply(c, e, op) == if corrupt && op.clears then e - {key} else e
  {
  }

  // ---------- Consuming ----------

  /** The command consumes a readable action of the scope. */
  predicate Consumes(c: Setup, e: Entries, op: Op, scope: Scope) {
    && op.scope == scope && op.command == ConsumeAction && op.reachable
    && Parsed(c.actions, Lookup(e, OpKey(c, op), op.now)).Found?
  }

  predicate Sets(op: Op, scope: Scope) {
    op.scope == scope && op.command.SetAction? && op.reachable
  }

  function Consumed(c: Setup, e: Entries, ops: seq<Op>, scope: Scope): nat
    decreases |ops|
  {
    if ops == [] then 0
    else (if Consumes(c, e, ops[0], scope) then 1 else 0) + Consumed(c, Apply(c, e, ops[0]), ops[1..], scope)
  }

  function Stored(ops: seq<Op>, scope: Scope): nat {
    if ops == [] then 0 else (if Sets(ops[0], scope) then 1 else 0) + Stored(ops[1..], scope)
  }

  function Waiting(c: Setup, e: Entries, scope: Scope): nat {
    if KeyFor(c.digest, scope, PendingAction) in e then 1 else 0
  }

  lemma ConsumedOnceStep(c: Setup, e: Entries, op: Op, scope: Scope)
    requires Injective(c.digest) && PlainAccount(scope) && PlainAccount(op.scope)
    ensures (if Consumes(c, e, op, scope) then 1 else 0) + Waiting(c, Apply(c, e, op), scope)
         <= (if Sets(op, scope) then 1 else 0) + Waiting(c, e, scope)
  {
    var key := KeyFor(c.digest, scope, PendingAction);
    if key == OpKey(c, op) {
      KeysAreOwn(c.digest, scope, PendingAction, op.scope, KindOf(op.command));
    } else {
      OneKeyTouched(c, e, op, key);
    }
  }

  /**
   In every run, a scope's actions are consumed at most as often as they were stored, counting one that was there
   before.
   */
  lemma {:induction false} ConsumedAtMostOnce(c: Setup, e: Entries, ops: seq<Op>, scope: Scope)
    requires Injective(c.digest) && PlainAccount(scope) && Plain(ops)
    ensures Consumed(c, e, ops, scope) + Waiting(c, ApplyAll(c, e, ops), scope) <= Stored(ops, scope) +
            Waiting(c, e, scope)
    decreases |ops|
  {
    if ops != [] {
      ConsumedOnceStep(c, e, ops[0], scope);
      ConsumedAtMostOnce(c, Apply(c, e, ops[0]), ops[1..], scope);
    }
  }

  // ---------- The lock entries are leases ----------

  /** The scope's lock entry is its lease, or there is neither. */
  ghost predicate InStep(c: Setup, e: Entries, locks: map<Scope, L.Lease>, s: Scope) {
    var key := KeyFor(c.digest, s, ConversationLock);
    (s in locks <==> key in e) && (s in locks ==> e[key] == Entry(c.tokenText(locks[s].token), locks[s].expires))
  }

  /** The lock entries are these leases, scope by scope. */
  ghost predicate Represents(c: Setup, e: Entries, locks: map<Scope, L.Lease>) {
    forall s :: PlainAccount(s) ==> InStep(c, e, locks, s)
  }

  /** What a command does to the leases. */
  function ApplyToLeases(c: Setup, locks: map<Scope, L.Lease>, op: Op): map<Scope, L.Lease> {
    if !op.reachable then locks
    else
      match op.command
      case AcquireLock(token) => L.Acquire(locks, op.scope, token, op.now, c.lockTtl).0
      case ReleaseLock(token) => L.Release(locks, op.scope, token, op.now).0
      case _ => locks
  }

  ghost predicate TokensApart(c: Setup) {
    forall x, y :: c.tokenText(x) == c.tokenText(y) ==> x == y
  }

  lemma OwnLockInStep(c: Setup, e: Entries, locks: map<Scope, L.Lease>, op: Op)
    requires TokensApart(c) && KindOf(op.command) == ConversationLock && InStep(c, e, locks, op.scope)
    ensures InStep(c, Apply(c, e, op), ApplyToLeases(c, locks, op), op.scope)
  {
  }

  lemma OtherLockInStep(c: Setup, e: Entries, locks: map<Scope, L.Lease>, op: Op, s: Scope)
    requires KeyFor(c.digest, s, ConversationLock) != OpKey(c, op) && InStep(c, e, locks, s)
    ensures InStep(c, Apply(c, e, op), ApplyToLeases(c, locks, op), s)
  {
    OneKeyTouched(c, e, op, KeyFor(c.digest, s, ConversationLock));
    assert KindOf(op.command) == ConversationLock ==> s != op.scope;
  }

  /** Every command keeps the lock entries in step with the leases: Redis implements the scope-keyed lock table. */
  lemma LocksAreLeases(c: Setup, e: Entries, locks: map<Scope, L.Lease>, op: Op)
    requires Injective(c.digest) && TokensApart(c) && PlainAccount(op.scope) && Represents(c, e, locks)
    ensures Represents(c, Apply(c, e, op), ApplyToLeases(c, locks, op))
  {
    forall s | PlainAccount(s) ensures InStep(c, Apply(c, e, op), ApplyToLeases(c, locks, op), s) {
      if KeyFor(c.digest, s, ConversationLock) == OpKey(c, op) {
        KeysAreOwn(c.digest, s, ConversationLock, op.scope, KindOf(op.command));
        OwnLockInStep(c, e, locks, op);
      } else {
        OtherLockInStep(c, e, locks, op, s);
      }
    }
  }

  function LeasesAfter(c: Setup, locks: map<Scope, L.Lease>, ops: seq<Op>): map<Scope, L.Lease>
    decreases |ops|
  {
    if ops == [] then locks else LeasesAfter(c, ApplyToLeases(c, locks, ops[0]), ops[1..])
  }

  lemma {:induction false} LocksStayLeases(c: Setup, e: Entries, locks: map<Scope, L.Lease>, ops: seq<Op>)
    requires Injective(c.digest) && TokensApart(c) && Plain(ops) && Represents(c, e, locks)
    ensures Represents(c, ApplyAll(c, e, ops), LeasesAfter(c, locks, ops))
    decreases |ops|
  {
    if ops != [] {
      LocksAreLeases(c, e, locks, ops[0]);
      LocksStayLeases(c, Apply(c, e, ops[0]), ApplyToLeases(c, locks, ops[0]), ops[1..]);
    }
  }
}
