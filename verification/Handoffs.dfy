/**
 Handoffs to people: the repository's request, its two uniqueness constraints, and what any run of requests leads to.
 */
module Handoffs {
  import opened Options

  datatype HandoffStatus = Requested | Claimed | Resolved

  datatype WorkflowStatus = New | PikiActive | NeedsHuman | HumanActive | Closed

  datatype Handoff = Handoff(conversation: string, key: string, status: HandoffStatus, reason: string, trace: string,
      created: nat)

  /** The two tables, and the database clock. */
  datatype Workflow = Workflow(handoffs: map<nat, Handoff>, conversations: map<string, WorkflowStatus>, clock: nat)

  datatype HandoffRequest = HandoffRequest(conversation: string, key: string, reason: string, trace: string)

  datatype PersistedHandoff = PersistedHandoff(id: nat, handoff: Handoff, created: bool)

  // ---------- The constraints ----------

  predicate Open(h: Handoff) {
    h.status == Requested || h.status == Claimed
  }

  /** The primary key and the two unique indexes admit the row. */
  predicate Admits(t: map<nat, Handoff>, id: nat, h: Handoff) {
    && id !in t
    && (forall j :: j in t ==> !(t[j].conversation == h.conversation && t[j].key == h.key))
    && (Open(h) ==> forall j :: j in t ==> !(t[j].conversation == h.conversation && Open(t[j])))
  }

  // ---------- A request ----------

  function NewRow(r: HandoffRequest, now: nat): Handoff {
    Handoff(r.conversation, r.key, Requested, r.reason, r.trace, now)
  }

  /** The rows the conflict path selects from. */
  predicate Answers(t: map<nat, Handoff>, r: HandoffRequest, id: nat) {
    id in t && t[id].conversation == r.conversation && (t[id].key == r.key || Open(t[id]))
  }

  /** The order of the selection. */
  predicate NotAfter(t: map<nat, Handoff>, i: nat, j: nat)
    requires i in t && j in t
  {
    t[i].created < t[j].created || (t[i].created == t[j].created && i <= j)
  }

  predicate Earliest(t: map<nat, Handoff>, r: HandoffRequest, id: nat) {
    Answers(t, r, id) && forall j :: j in t && Answers(t, r, j) ==> NotAfter(t, id, j)
  }

  lemma {:induction false} SomeEarliest(t: map<nat, Handoff>, r: HandoffRequest, among: set<nat>)
    requires among != {} && forall j :: j in among ==> Answers(t, r, j)
    ensures exists id :: id in among && forall j :: j in among ==> j in t && id in t && NotAfter(t, id, j)
    decreases among
  {
    var a :| a in among;
    var rest := among - {a};
    if rest == {} {
      assert among == {a} && NotAfter(t, a, a);
    } else {
      SomeEarliest(t, r, rest);
      var b :| b in rest && forall j :: j in rest ==> j in t && b in t && NotAfter(t, b, j);
      var id := if NotAfter(t, a, b) then a else b;
      assert forall j :: j in among ==> j == a || j in rest;
      assert id in among && forall j :: j in among ==> NotAfter(t, id, j);
    }
  }

  /** A row that was not admitted under a fresh id clashes with a row that the conflict path selects. */
  lemma ConflictFindsEarliest(t: map<nat, Handoff>, r: HandoffRequest, id: nat, now: nat)
    requires id !in t && !Admits(t, id, NewRow(r, now))
    ensures exists k :: k in t && Earliest(t, r, k)
  {
    var among := set j | j in t && Answers(t, r, j);
    var j :| j in t && t[j].conversation == r.conversation && (t[j].key == r.key || Open(t[j]));
    assert j in among;
    SomeEarliest(t, r, among);
    var k :| k in among && forall j :: j in among ==> j in t && k in t && NotAfter(t, k, j);
    assert Earliest(t, r, k);
  }

  lemma EarliestIsUnique(t: map<nat, Handoff>, r: HandoffRequest, i: nat, j: nat)
    requires Earliest(t, r, i) && Earliest(t, r, j)
    ensures i == j
  {
  }

  /** What a request answers; none when the conversation does not exist and the foreign key refuses the row. */
  ghost function Answer(s: Workflow, r: HandoffRequest, id: nat, now: nat): Option<PersistedHandoff>
    requires id !in s.handoffs
  {
    if r.conversation !in s.conversations then None
    else if Admits(s.handoffs, id, NewRow(r, now)) then Some(PersistedHandoff(id, NewRow(r, now), true))
    else
      ConflictFindsEarliest(s.handoffs, r, id, now);
      var k :| k in s.handoffs && Earliest(s.handoffs, r, k);
      Some(PersistedHandoff(k, s.handoffs[k], false))
  }

  /** What a request leaves behind. */
  function Request(s: Workflow, r: HandoffRequest, id: nat, now: nat): Workflow {
    if r.conversation !in s.conversations then s.(clock := now)
    else
      var row := NewRow(r, now);
      Workflow(if Admits(s.handoffs, id, row) then s.handoffs[id := row] else s.handoffs,
               s.conversations[r.conversation := NeedsHuman], now)
  }

  class HandoffRepository {
    var handoffs: map<nat, Handoff>
    var conversations: map<string, WorkflowStatus>
    var clock: nat

    ghost function State(): Workflow
      reads this
    {
      Workflow(handoffs, conversations, clock)
    }

    constructor ()
      ensures State() == Workflow(map[], map[], 0)
    {
      handoffs, conversations, clock := map[], map[], 0;
    }

    /** Inserts the handoff, or selects the one in the way, and flags the conversation. */
    method RequestHandoff(r: HandoffRequest, id: nat, now: nat) returns (p: Option<PersistedHandoff>)
      requires id !in handoffs
      modifies this
      ensures p == Answer(old(State()), r, id, now)
      ensures State() == Request(old(State()), r, id, now)
    {
      clock := now;
      if r.conversation !in conversations {
        return None;
      }
      var row := NewRow(r, now);
      if Admits(handoffs, id, row) {
        handoffs := handoffs[id := row];
        p := Some(PersistedHandoff(id, row, true));
      } else {
        ConflictFindsEarliest(handoffs, r, id, now);
        var k :| k in handoffs.Keys && Earliest(handoffs, r, k);
        p := Some(PersistedHandoff(k, handoffs[k], false));
        assert forall j :: Earliest(handoffs, r, j) ==> j == k by {
          forall j | Earliest(handoffs, r, j) ensures j == k {
            EarliestIsUnique(handoffs, r, j, k);
          }
        }
      }
      conversations := conversations[r.conversation := NeedsHuman];
    }
  }

  // ---------- Runs ----------

  /** Requests, and what the people's side does: new conversations, claims, resolutions, and status changes. */
  datatype Step =
    | Ask(request: HandoffRequest, id: nat, now: nat)
    | Join(conversation: string)
    | Claim(id: nat)
    | Resolve(id: nat)
    | Mark(conversation: string, status: WorkflowStatus)

  ghost predicate Enabled(s: Workflow, l: Step) {
    match l
    case Ask(_, id, now) => id !in s.handoffs && s.clock <= now
    case Join(c) => c !in s.conversations
    case Claim(id) => id in s.handoffs && s.handoffs[id].status == Requested
    case Resolve(id) => id in s.handoffs && Open(s.handoffs[id])
    case Mark(c, _) => c in s.conversations
  }

  ghost function Next(s: Workflow, l: Step): Workflow
    requires Enabled(s, l)
  {
    match l
    case Ask(r, id, now) => Request(s, r, id, now)
    case Join(c) => s.(conversations := s.conversations[c := PikiActive])
    case Claim(id) => s.(handoffs := s.handoffs[id := s.handoffs[id].(status := Claimed)])
    case Resolve(id) => s.(handoffs := s.handoffs[id := s.handoffs[id].(status := Resolved)])
    case Mark(c, status) => s.(conversations := s.conversations[c := status])
  }

  const EMPTY := Workflow(map[], map[], 0)

  /** The state after a run of steps, each enabled. */
  ghost function After(run: seq<Step>): Option<Workflow> {
    if run == [] then Some(EMPTY)
    else
      var s :- After(run[..|run| - 1]);
      if Enabled(s, run[|run| - 1]) then Some(Next(s, run[|run| - 1])) else None
  }

  ghost predicate Reachable(s: Workflow) {
    exists run :: After(run) == Some(s)
  }

  // ---------- What every run keeps ----------

  ghost predicate OneRowPerKey(t: map<nat, Handoff>) {
    forall i, j :: i in t && j in t && t[i].conversation == t[j].conversation && t[i].key == t[j].key ==> i == j
  }

  ghost predicate OneOpen(t: map<nat, Handoff>) {
    forall i, j :: i in t && j in t && t[i].conversation == t[j].conversation && Open(t[i]) && Open(t[j]) ==> i == j
  }

  ghost predicate OpenIsLatest(t: map<nat, Handoff>) {
    forall i, j :: i in t && j in t && t[i].conversation == t[j].conversation && Open(t[j]) ==>
        t[i].created <= t[j].created
  }

  ghost predicate Inv(s: Workflow) {
    && OneRowPerKey(s.handoffs) && OneOpen(s.handoffs) && OpenIsLatest(s.handoffs)
    && forall i :: i in s.handoffs ==> s.handoffs[i].conversation in s.conversations && s.handoffs[i].created <= s.clock
  }

  lemma InsertKeepsInv(s: Workflow, r: HandoffRequest, id: nat, now: nat)
    requires Inv(s) && Enabled(s, Ask(r, id, now))
    ensures Inv(Request(s, r, id, now))
  {
    var row, t := NewRow(r, now), Request(s, r, id, now).handoffs;
    if r.conversation in s.conversations && Admits(s.handoffs, id, row) {
      forall i, j | i in t && j in t && t[i].conversation == t[j].conversation
        ensures t[i].key == t[j].key ==> i == j
        ensures Open(t[i]) && Open(t[j]) ==> i == j
        ensures Open(t[j]) ==> t[i].created <= t[j].created
      {
        assert t[i] == if i == id then row else s.handoffs[i];
        assert t[j] == if j == id then row else s.handoffs[j];
      }
    }
  }

  lemma StatusKeepsInv(s: Workflow, id: nat, status: HandoffStatus)
    requires Inv(s) && id in s.handoffs && Open(s.handoffs[id])
    ensures Inv(s.(handoffs := s.handoffs[id := s.handoffs[id].(status := status)]))
  {
    var t := s.handoffs[id := s.handoffs[id].(status := status)];
    forall i, j | i in t && j in t && t[i].conversation == t[j].conversation
      ensures t[i].key == t[j].key ==> i == j
      ensures Open(t[i]) && Open(t[j]) ==> i == j
      ensures Open(t[j]) ==> t[i].created <= t[j].created
    {
      assert t[i].conversation == s.handoffs[i].conversation && t[i].created == s.handoffs[i].created &&
             t[i].key == s.handoffs[i].key;
      assert t[j].conversation == s.handoffs[j].conversation && t[j].created == s.handoffs[j].created &&
             t[j].key == s.handoffs[j].key;
      assert (Open(t[i]) ==> Open(s.handoffs[i])) && (Open(t[j]) ==> Open(s.handoffs[j]));
    }
  }

  lemma InvStep(s: Workflow, l: Step)
    requires Inv(s) && Enabled(s, l)
    ensures Inv(Next(s, l))
  {
    match l {
      case Ask(r, id, now) => InsertKeepsInv(s, r, id, now);
      case Join(_) =>
      case Claim(id) => StatusKeepsInv(s, id, Claimed);
      case Resolve(id) => StatusKeepsInv(s, id, Resolved);
      case Mark(_, _) =>
    }
  }

  lemma {:induction false} InvAlways(run: seq<Step>)
    requires After(run).Some?
    ensures Inv(After(run).value)
  {
    if run != [] {
      InvAlways(run[..|run| - 1]);
      InvStep(After(run[..|run| - 1]).value, run[|run| - 1]);
    }
  }

  /** In every run a conversation has at most one open handoff, and one row per key. */
  lemma OneOpenHandoff(s: Workflow, i: nat, j: nat)
    requires Reachable(s) && i in s.handoffs && j in s.handoffs &&
             s.handoffs[i].conversation == s.handoffs[j].conversation
    ensures s.handoffs[i].status != Resolved && s.handoffs[j].status != Resolved ==> i == j
    ensures s.handoffs[i].key == s.handoffs[j].key ==> i == j
  {
    var run :| After(run) == Some(s);
    InvAlways(run);
  }

  // ---------- What a request answers ----------

  ghost predicate KnowsKey(s: Workflow, r: HandoffRequest) {
    exists j :: j in s.handoffs && s.handoffs[j].conversation == r.conversation && s.handoffs[j].key == r.key
  }

  ghost predicate HasOpen(s: Workflow, conversation: string) {
    exists j :: j in s.handoffs && s.handoffs[j].conversation == conversation && s.handoffs[j].status != Resolved
  }

  /**
   A request for an existing conversation is always answered, with a stored row of it that is open or has its key. The
   row is new, requested, with the request's key, reason and trace, exactly if the key is new and nothing was open;
   otherwise it is the earliest such row, and no row is added or changed.
   */
  lemma RequestIsAnswered(s: Workflow, r: HandoffRequest, id: nat, now: nat)
    requires id !in s.handoffs && r.conversation in s.conversations
    ensures var p, t := Answer(s, r, id, now), Request(s, r, id, now).handoffs;
            p.Some? && Answers(t, r, p.value.id) && t[p.value.id] == p.value.handoff
            && (p.value.created <==> p.value.id == id)
            && (p.value.created <==> !KnowsKey(s, r) && !HasOpen(s, r.conversation))
            && (p.value.created ==>
                  && t == s.handoffs[id := p.value.handoff]
                  && p.value.handoff.conversation == r.conversation && p.value.handoff.key == r.key
                  && p.value.handoff.status == Requested && p.value.handoff.reason == r.reason
                  && p.value.handoff.trace == r.trace && p.value.handoff.created == now)
            && (!p.value.created ==> t == s.handoffs)
  {
    if !Admits(s.handoffs, id, NewRow(r, now)) {
      ConflictFindsEarliest(s.handoffs, r, id, now);
    }
  }

  /** An old row in the answer is the earliest that is open or has the key, and of several the one with the least id. */
  lemma OldAnswerIsEarliest(s: Workflow, r: HandoffRequest, id: nat, now: nat, j: nat)
    requires id !in s.handoffs && r.conversation in s.conversations && !Answer(s, r, id, now).value.created
    requires j in s.handoffs && s.handoffs[j].conversation == r.conversation
    requires s.handoffs[j].key == r.key || s.handoffs[j].status != Resolved
    ensures var p := Answer(s, r, id, now).value;
            p.handoff.created < s.handoffs[j].created || (p.handoff.created == s.handoffs[j].created && p.id <= j)
  {
    ConflictFindsEarliest(s.handoffs, r, id, now);
  }

  /** A request touches its own conversation alone, and nothing at all if that does not exist. */
  lemma OtherConversationsStay(s: Workflow, r: HandoffRequest, id: nat, now: nat)
    requires id !in s.handoffs
    ensures var t := Request(s, r, id, now);
            && t.conversations.Keys == s.conversations.Keys
            && (forall k :: k in s.conversations && k != r.conversation ==> t.conversations[k] == s.conversations[k])
            && (forall j :: j in s.handoffs ==> j in t.handoffs && t.handoffs[j] == s.handoffs[j])
            && (r.conversation !in s.conversations ==>
                  Answer(s, r, id, now) == None && t.handoffs == s.handoffs && t.conversations == s.conversations)
  {
  }

  /** In every run, a request with a key new to its conversation converges on the conversation's one open handoff. */
  lemma NewKeyConverges(s: Workflow, r: HandoffRequest, id: nat, now: nat)
    requires Reachable(s) && id !in s.handoffs && s.clock <= now && r.conversation in s.conversations && !KnowsKey(s, r)
    ensures var p, t := Answer(s, r, id, now).value, Request(s, r, id, now).handoffs;
            p.id in t && Open(t[p.id])
            && forall j :: j in t && t[j].conversation == r.conversation && Open(t[j]) ==> j == p.id
  {
    var run :| After(run) == Some(s);
    InvAlways(run);
    InvStep(s, Ask(r, id, now));
    RequestIsAnswered(s, r, id, now);
  }

  /** Two requests in a row with keys new to the conversation get the same handoff. */
  lemma NewKeysAgree(s: Workflow, r: HandoffRequest, q: HandoffRequest, i: nat, j: nat, now: nat, later: nat)
    requires Reachable(s) && i !in s.handoffs && s.clock <= now <= later
    requires r.conversation == q.conversation && r.conversation in s.conversations && !KnowsKey(s, r)
    requires var t := Request(s, r, i, now); j !in t.handoffs && !KnowsKey(t, q)
    ensures Answer(Request(s, r, i, now), q, j, later).value.id == Answer(s, r, i, now).value.id
    ensures !Answer(Request(s, r, i, now), q, j, later).value.created
  {
    var t := Request(s, r, i, now);
    var run :| After(run) == Some(s);
    assert (run + [Ask(r, i, now)])[..|run|] == run;
    assert After(run + [Ask(r, i, now)]) == Some(t);
    NewKeyConverges(s, r, i, now);
    NewKeyConverges(t, q, j, later);
    RequestIsAnswered(t, q, j, later);
  }

  /**
   A repeated key is answered with its own row, resolved or not, unless an open one was created at the same instant.
   */
  lemma RepeatedKeyAnswersItsRow(s: Workflow, r: HandoffRequest, id: nat, now: nat, own: nat)
    requires Reachable(s) && id !in s.handoffs && own in s.handoffs
    requires s.handoffs[own].conversation == r.conversation && s.handoffs[own].key == r.key
    ensures Answer(s, r, id, now).Some?
    ensures var p := Answer(s, r, id, now).value;
            p.id == own || (p.handoff.created == s.handoffs[own].created && Open(p.handoff))
  {
    var run :| After(run) == Some(s);
    InvAlways(run);
    ConflictFindsEarliest(s.handoffs, r, id, now);
  }

  /**
   Every answered request leaves the conversation waiting for a person; there is an open handoff for that person
   exactly unless the key was already used and nothing was open.
   */
  lemma WaitingForSomeone(s: Workflow, r: HandoffRequest, id: nat, now: nat)
    requires id !in s.handoffs && r.conversation in s.conversations
    ensures Request(s, r, id, now).conversations[r.conversation] == NeedsHuman
    ensures HasOpen(Request(s, r, id, now), r.conversation) <==> !(KnowsKey(s, r) && !HasOpen(s, r.conversation))
  {
    var t := Request(s, r, id, now);
    if Admits(s.handoffs, id, NewRow(r, now)) {
      assert t.handoffs[id] == NewRow(r, now);
    } else {
      assert t.handoffs == s.handoffs;
    }
  }

  /** A run that ends waiting for a person with nothing open: a request repeated after its handoff was resolved. */
  lemma RepeatedAfterResolution(r: HandoffRequest)
    ensures exists s :: Reachable(s) && r.conversation in s.conversations
              && s.conversations[r.conversation] == NeedsHuman && !HasOpen(s, r.conversation)
  {
    var a := Next(EMPTY, Join(r.conversation));
    var b := Next(a, Ask(r, 0, 1));
    var c := Next(b, Resolve(0));
    var d := Next(c, Ask(r, 1, 2));
    var first, second, third := [Join(r.conversation)], [Ask(r, 0, 1)], [Resolve(0)];
    RunOf([], EMPTY, Join(r.conversation));
    assert [] + first == first;
    RunOf(first, a, Ask(r, 0, 1));
    RunOf(first + second, b, Resolve(0));
    RunOf(first + second + third, c, Ask(r, 1, 2));
    assert d.handoffs == c.handoffs && c.handoffs.Keys == {0};
  }

  lemma {:induction false} RunOf(run: seq<Step>, s: Workflow, l: Step)
    requires After(run) == Some(s) && Enabled(s, l)
    ensures After(run + [l]) == Some(Next(s, l))
  {
    assert (run + [l])[..|run|] == run;
  }
}
