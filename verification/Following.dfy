/**
 How code follows the protocol: a worker's steps are labels of its own, and between any two of its transactions
 everybody else may take any number of steps.
 */
module Following {
  import opened Options
  import opened Messages
  import opened Deliveries
  import opened Protocol
  import opened ProtocolInvariants
  import Theorems = ProtocolTheorems
  import opened Stores

  datatype Composition = Composes(text: string) | Fails(code: string)

  /** The transactions of a pass, each of which can fail. */
  datatype Transaction =
    | ClaimingMessage | FindingReply | RecordingReply | ClaimingKey | StoringAnswer | SettlingRow | HandlingFailure

  /**
   What a pass meets: its lock token, its text, its answer, how long the slow calls take, and which transactions fail.
   */
  datatype Environment = Environment(
    token: nat, lockReachable: bool, releaseReachable: bool,
    composition: Composition, composing: nat,
    provider: ProviderOutcome, answering: nat,
    outage: Transaction -> Option<string>)

  /** Composition never yields the empty text. */
  predicate Possible(e: Environment) {
    e.composition.Composes? ==> e.composition.text != ""
  }

  /** The provider's answer is one it can give. */
  predicate AnswerFits(h: History, e: Environment) {
    e.provider.Answered? ==> Answerable(h, e.provider.result)
  }

  predicate Fresh(h: History, e: Environment) {
    e.token !in h.tokens && AnswerFits(h, e)
  }

  function NewProviderIds(e: Environment): set<string> {
    if e.provider.Answered? && e.provider.result.providerId.Some? then {e.provider.result.providerId.value} else {}
  }

  /** The environment's token and provider id are the only new ones. */
  ghost predicate UsesOnly(h: History, k: History, e: Environment) {
    k.tokens <= h.tokens + {e.token} && k.providerIds <= h.providerIds + NewProviderIds(e)
  }

  // ---------- Runs of the protocol ----------

  /** The configuration and the worker, and the tables, lock and clock it shares. */
  datatype Site = Site(c: Config, w: nat, db: Database, server: LockServer, clock: Clock)

  predicate Own(w: nat, l: Label) {
    l.Tick? || (ByWorker(l) && !l.Crash? && l.w == w)
  }

  predicate Foreign(w: nat, l: Label) {
    !ByWorker(l) || l.w != w
  }

  /** Own labels, and those of everybody else unless the worker is alone. */
  predicate Allowed(w: nat, alone: bool, l: Label) {
    Own(w, l) || (!alone && Foreign(w, l))
  }

  /** The worker leads from s to t without crashing; if it is not alone, others take part. */
  ghost predicate Follows(c: Config, w: nat, alone: bool, s: State, t: State) {
    exists ls :: IsRun(c, s, ls) && Final(c, s, ls) == t && forall i :: 0 <= i < |ls| ==> Allowed(w, alone, ls[i])
  }

  lemma Start(c: Config, w: nat, alone: bool, s: State)
    ensures Follows(c, w, alone, s, s)
  {
    assert IsRun(c, s, []);
  }

  lemma Advance(c: Config, w: nat, alone: bool, s: State, t: State, l: Label) returns (u: State)
    requires Follows(c, w, alone, s, t) && Enabled(c, t, l) && Allowed(w, alone, l)
    ensures Follows(c, w, alone, s, u) && u == Next(c, t, l)
  {
    var ls :| IsRun(c, s, ls) && Final(c, s, ls) == t && forall i :: 0 <= i < |ls| ==> Allowed(w, alone, ls[i]);
    RunSnoc(c, s, ls, l);
    u := Next(c, t, l);
    assert forall i :: 0 <= i < |ls + [l]| ==> Allowed(w, alone, (ls + [l])[i]);
  }

  lemma Wait(c: Config, w: nat, alone: bool, s: State, t: State, delta: nat) returns (u: State)
    requires Follows(c, w, alone, s, t)
    ensures Follows(c, w, alone, s, u) && u == t.(now := t.now + delta)
  {
    u := Advance(c, w, alone, s, t, Tick(delta));
  }

  /** A transaction of the worker, or a computation before it, raises. */
  lemma Raises(c: Config, w: nat, alone: bool, s: State, t: State, code: string) returns (u: State)
    requires Follows(c, w, alone, s, t) && w in t.workers && AwaitsDatabase(t.workers[w])
    ensures Follows(c, w, alone, s, u) && u == At(t, w, Thrown(t.workers[w], code))
  {
    u := Advance(c, w, alone, s, t, Raise(w, code));
  }

  lemma {:induction false} RunConcat(c: Config, s: State, ls: seq<Label>, ms: seq<Label>)
    requires IsRun(c, s, ls) && IsRun(c, Final(c, s, ls), ms)
    ensures IsRun(c, s, ls + ms) && Final(c, s, ls + ms) == Final(c, Final(c, s, ls), ms)
    decreases |ls|
  {
    if ls == [] {
      assert ls + ms == ms;
    } else {
      RunConcat(c, Next(c, s, ls[0]), ls[1..], ms);
      assert (ls + ms)[1..] == ls[1..] + ms;
    }
  }

  lemma Chain(c: Config, w: nat, alone: bool, s: State, t: State, u: State)
    requires Follows(c, w, alone, s, t) && Follows(c, w, alone, t, u)
    ensures Follows(c, w, alone, s, u)
  {
    var ls :| IsRun(c, s, ls) && Final(c, s, ls) == t && forall i :: 0 <= i < |ls| ==> Allowed(w, alone, ls[i]);
    var ms :| IsRun(c, t, ms) && Final(c, t, ms) == u && forall i :: 0 <= i < |ms| ==> Allowed(w, alone, ms[i]);
    RunConcat(c, s, ls, ms);
    assert forall i :: 0 <= i < |ls + ms| ==> Allowed(w, alone, (ls + ms)[i]);
  }

  lemma {:induction false} RunKeeps(c: Config, s: State, ls: seq<Label>)
    requires IsRun(c, s, ls)
    ensures DeliveryOk(s) ==> DeliveryOk(Final(c, s, ls))
    ensures TokensOk(s) ==> TokensOk(Final(c, s, ls))
    decreases |ls|
  {
    if ls != [] {
      var t := Next(c, s, ls[0]);
      if DeliveryOk(s) {
        DeliveryOkStep(c, s, ls[0], t);
      }
      if TokensOk(s) {
        TokensOkStep(c, s, ls[0], t);
      }
      RunKeeps(c, t, ls[1..]);
    }
  }

  /** What a worker leads to keeps the invariants of attempts and of tokens. */
  lemma FollowingKeeps(c: Config, w: nat, alone: bool, s: State, t: State)
    requires Follows(c, w, alone, s, t)
    ensures DeliveryOk(s) ==> DeliveryOk(t)
    ensures TokensOk(s) ==> TokensOk(t)
  {
    var ls :| IsRun(c, s, ls) && Final(c, s, ls) == t && forall i :: 0 <= i < |ls| ==> Allowed(w, alone, ls[i]);
    RunKeeps(c, s, ls);
  }

  /** What a worker leads to, alone or among others, is part of the protocol's runs, and all its theorems hold there. */
  lemma WorkersStayReachable(c: Config, w: nat, alone: bool, s: State, t: State)
    requires Theorems.Reachable(c, s) && Follows(c, w, alone, s, t)
    ensures Theorems.Reachable(c, t)
  {
    var ls :| IsRun(c, INITIAL, ls) && Final(c, INITIAL, ls) == s;
    var ms :| IsRun(c, s, ms) && Final(c, s, ms) == t && forall i :: 0 <= i < |ms| ==> Allowed(w, alone, ms[i]);
    RunConcat(c, INITIAL, ls, ms);
  }

  ghost predicate Mirrors(db: Database, server: LockServer, clock: Clock, s: State)
    reads db, server, clock
  {
    db.messages == s.messages && db.delivery == s.delivery && server.locks == s.locks && clock.now == s.now
  }

  /** The shared tables are those of state t, and the worker has led there from s. */
  ghost predicate Along(x: Site, alone: bool, s: State, t: State)
    reads x.db, x.server, x.clock
  {
    Mirrors(x.db, x.server, x.clock, t) && Follows(x.c, x.w, alone, s, t)
  }

  /** The worker stands there. */
  predicate Stands(x: Site, t: State, pc: Pc) {
    x.w in t.workers && t.workers[x.w] == pc
  }

  // ---------- Interference ----------

  /**
   What others may do between two transactions of the worker: any run of labels that are not its own, under tokens
   and provider ids that are not its own. Callers know this contract and no more; with nobody else about, nothing
   happens.
   */
  method Interfere(x: Site, e: Environment, ghost alone: bool, ghost s: State, ghost s': State) returns (ghost t: State)
    requires Along(x, alone, s, s')
    modifies x.db, x.server, x.clock
    ensures Along(x, alone, s, t) && (alone ==> t == s')
    ensures x.w in t.workers <==> x.w in s'.workers
    ensures x.w in s'.workers ==> t.workers[x.w] == s'.workers[x.w]
    ensures e.token !in s'.history.tokens ==> e.token !in t.history.tokens
    ensures AnswerFits(s'.history, e) ==> AnswerFits(t.history, e)
  {
    t := s';
  }

  // ---------- What a pass changes when the worker is alone ----------

  /** The reply to the message may be a new row; nothing else changed. */
  ghost predicate AddsAtMostReply(before: MessageTable, after: MessageTable, id: string) {
    && (forall k :: k in before ==> k in after && after[k] == before[k])
    && (forall k :: k in after && k !in before ==> k == ReplyId(id) && after[k].Outbound?)
  }

  /** The rows of both tables are what they were. */
  predicate Untouched(s: State, t: State) {
    t.messages == s.messages && t.delivery == s.delivery
  }

  /** A step of the pass for message id that leaves the message itself alone. */
  ghost predicate Quiet(alone: bool, id: string, e: Environment, s: State, t: State) {
    alone ==> AddsAtMostReply(s.messages, t.messages, id) && UsesOnly(s.history, t.history, e)
  }

  lemma QuietChain(alone: bool, id: string, e: Environment, s: State, t: State, u: State)
    requires Quiet(alone, id, e, s, t) && Quiet(alone, id, e, t, u)
    ensures Quiet(alone, id, e, s, u)
  {
  }
}
