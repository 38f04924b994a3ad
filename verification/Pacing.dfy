/** When a message can be claimed, over any run: at once when it is new, and after the right delay when it is not. */
module Pacing {
  import opened Options
  import opened Messages
  import opened Protocol
  import opened ProtocolInvariants
  import opened ProtocolTheorems

  /** Nobody claims the message in the run. */
  predicate Unclaimed(ls: seq<Label>, id: string) {
    forall i :: 0 <= i < |ls| ==> !(ls[i].Claim? && ls[i].id == id)
  }

  // ---------- In processing ----------

  /** Claimed at that time, and put back no earlier. */
  predicate Since(c: Config, m: MessageTable, id: string, at: nat) {
    && id in m && m[id].Inbound?
    && (m[id].status == Processing ==> m[id].claimedAt == Some(at))
    && (m[id].status == Pending ==> m[id].availableAt.Some? && at + c.retryDelay <= m[id].availableAt.value)
  }

  lemma SinceStep(c: Config, s: State, l: Label, t: State, id: string, at: nat)
    requires Steps(c, s, l, t) && !(l.Claim? && l.id == id) && at <= s.now && Since(c, s.messages, id, at)
    ensures Since(c, t.messages, id, at)
  {
    if !WritesMessages(l) {
      MessagesUntouched(c, s, l, t);
    }
  }

  lemma {:induction false} SinceOverRun(c: Config, s: State, ls: seq<Label>, id: string, at: nat)
    requires IsRun(c, s, ls) && Unclaimed(ls, id) && at <= s.now && Since(c, s.messages, id, at)
    ensures Since(c, Final(c, s, ls).messages, id, at)
    decreases |ls|
  {
    if ls != [] {
      SinceStep(c, s, ls[0], Next(c, s, ls[0]), id, at);
      SinceOverRun(c, Next(c, s, ls[0]), ls[1..], id, at);
    }
  }

  lemma {:induction false} ClaimedSince(c: Config, s: State, w: nat, id: string, ls: seq<Label>)
    requires Enabled(c, s, Label.Claim(w, id)) && IsRun(c, Next(c, s, Label.Claim(w, id)), ls) && Unclaimed(ls, id)
    ensures Since(c, Final(c, Next(c, s, Label.Claim(w, id)), ls).messages, id, s.now)
  {
    SinceOverRun(c, Next(c, s, Label.Claim(w, id)), ls, id, s.now);
  }

  /**
   A message that is still in processing can be claimed again exactly once the claim timeout has passed, whether or
   not its worker is alive.
   */
  lemma {:induction false} StaleAfterTimeout(c: Config, s: State, w: nat, id: string, ls: seq<Label>, v: nat)
    requires Enabled(c, s, Label.Claim(w, id)) && IsRun(c, Next(c, s, Label.Claim(w, id)), ls) && Unclaimed(ls, id)
    requires var u := Final(c, Next(c, s, Label.Claim(w, id)), ls); InProgress(u.messages, id) && !Busy(u, v)
    ensures var u := Final(c, Next(c, s, Label.Claim(w, id)), ls);
            Enabled(c, u, Label.Claim(v, id)) <==> s.now + c.claimTimeout <= u.now
  {
    ClaimedSince(c, s, w, id, ls);
  }

  /** Two claims of a message in a row are a claim timeout apart if it stayed in processing, else a retry delay. */
  lemma {:induction false} ClaimsAreApart(c: Config, s: State, w: nat, id: string, ls: seq<Label>, v: nat)
    requires Enabled(c, s, Label.Claim(w, id)) && IsRun(c, Next(c, s, Label.Claim(w, id)), ls) && Unclaimed(ls, id)
    requires Enabled(c, Final(c, Next(c, s, Label.Claim(w, id)), ls), Label.Claim(v, id))
    ensures var u := Final(c, Next(c, s, Label.Claim(w, id)), ls);
            s.now + (if InProgress(u.messages, id) then c.claimTimeout else c.retryDelay) <= u.now
  {
    ClaimedSince(c, s, w, id, ls);
  }

  // ---------- Waiting ----------

  /** Until somebody claims it, a pending row stays as it is. */
  lemma {:induction false} PendingStays(c: Config, s: State, ls: seq<Label>, id: string)
    requires IsRun(c, s, ls) && Unclaimed(ls, id)
    requires id in s.messages && s.messages[id].Inbound? && s.messages[id].status == Pending
    ensures id in Final(c, s, ls).messages && Final(c, s, ls).messages[id] == s.messages[id]
    decreases |ls|
  {
    if ls != [] {
      PendingStep(c, s, ls[0], Next(c, s, ls[0]), id);
      PendingStays(c, Next(c, s, ls[0]), ls[1..], id);
    }
  }

  lemma PendingStep(c: Config, s: State, l: Label, t: State, id: string)
    requires Steps(c, s, l, t) && !(l.Claim? && l.id == id)
    requires id in s.messages && s.messages[id].Inbound? && s.messages[id].status == Pending
    ensures id in t.messages && t.messages[id] == s.messages[id]
  {
    if !WritesMessages(l) {
      MessagesUntouched(c, s, l, t);
    }
  }

  /** A new message can be claimed at once, and by any idle worker until one does. */
  lemma {:induction false} NewIsDueAtOnce(c: Config, s: State, id: string, scope: Scope, text: string,
                                          ls: seq<Label>, v: nat)
    requires Enabled(c, s, Ingest(id, scope, text)) && id !in s.messages
    requires IsRun(c, Next(c, s, Ingest(id, scope, text)), ls) && Unclaimed(ls, id)
    ensures var u := Final(c, Next(c, s, Ingest(id, scope, text)), ls);
            Enabled(c, u, Label.Claim(v, id)) <==> !Busy(u, v)
  {
    var t := Next(c, s, Ingest(id, scope, text));
    PendingStays(c, t, ls, id);
    TimeGoesOn(c, t, ls);
  }

  /**
   A message that the handler puts back, with the reason, can be claimed again exactly once the retry delay has passed.
   */
  lemma {:induction false} PutBackWaits(c: Config, s: State, w: nat, ls: seq<Label>, v: nat)
    requires Enabled(c, s, Handle(w)) && s.workers[w].job.attempts < c.maxAttempts
    requires InProgress(s.messages, s.workers[w].job.id)
    requires IsRun(c, Next(c, s, Handle(w)), ls) && Unclaimed(ls, s.workers[w].job.id)
    ensures var id, u := s.workers[w].job.id, Final(c, Next(c, s, Handle(w)), ls);
            && id in u.messages && u.messages[id].Inbound? && u.messages[id].status == Pending
            && u.messages[id].errorCode == Some(s.workers[w].code)
            && (!Busy(u, v) ==> (Enabled(c, u, Label.Claim(v, id)) <==> s.now + c.retryDelay <= u.now))
  {
    PendingStays(c, Next(c, s, Handle(w)), ls, s.workers[w].job.id);
  }

  /** A finished message is never claimed again. */
  lemma {:induction false} FinishedIsNeverClaimed(c: Config, s: State, ls: seq<Label>, id: string, v: nat)
    requires IsRun(c, s, ls) && id in s.messages && s.messages[id].Inbound?
    requires s.messages[id].status == Completed || s.messages[id].status == Failed
    ensures !Enabled(c, Final(c, s, ls), Label.Claim(v, id))
  {
    TerminalRowsStay(c, s, ls, id);
  }
}
