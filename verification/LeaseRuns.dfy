/** How long a lease lasts, over any run: what ends it, and who is behind a live one. */
module LeaseRuns {
  import opened Messages
  import opened Leases
  import opened Protocol
  import opened ProtocolInvariants
  import opened ProtocolTheorems

  // ---------- What ends a lease ----------

  /** The release of the token's holder gets through. */
  predicate Frees(c: Config, s: State, l: Label, scope: Scope, token: nat)
    requires Enabled(c, s, l)
  {
    l.Release? && l.reachable && s.workers[l.w].token == token && s.workers[l.w].job.scope == scope
  }

  ghost predicate EverFrees(c: Config, s: State, ls: seq<Label>, scope: Scope, token: nat)
    requires IsRun(c, s, ls)
    decreases |ls|
  {
    ls != [] && (Frees(c, s, ls[0], scope, token) || EverFrees(c, Next(c, s, ls[0]), ls[1..], scope, token))
  }

  /** A step keeps a live lease exactly unless its time comes or its holder's release gets through. */
  lemma LeaseStep(c: Config, s: State, l: Label, t: State, scope: Scope, token: nat)
    requires Steps(c, s, l, t) && TokensOk(s) && HeldBy(s.locks, scope, token, s.now)
    ensures HeldBy(t.locks, scope, token, t.now) <==>
              t.now < s.locks[scope].expires && !Frees(c, s, l, scope, token)
    ensures HeldBy(t.locks, scope, token, t.now) ==> t.locks[scope] == s.locks[scope]
  {
  }

  /** What a token no longer holds it never holds again. */
  lemma {:induction false} NeverHeldAgain(c: Config, s: State, ls: seq<Label>, scope: Scope, token: nat)
    requires IsRun(c, s, ls) && TokensOk(s) && token in s.history.tokens && !HeldBy(s.locks, scope, token, s.now)
    ensures var u := Final(c, s, ls); !HeldBy(u.locks, scope, token, u.now)
    decreases |ls|
  {
    if ls != [] {
      var t := Next(c, s, ls[0]);
      TokensOkStep(c, s, ls[0], t);
      TokenMoves(c, s, ls[0], t);
      NeverHeldAgain(c, t, ls[1..], scope, token);
    }
  }

  lemma {:induction false} LeaseOverRun(c: Config, s: State, ls: seq<Label>, scope: Scope, token: nat)
    requires IsRun(c, s, ls) && TokensOk(s) && HeldBy(s.locks, scope, token, s.now)
    ensures var u := Final(c, s, ls);
            HeldBy(u.locks, scope, token, u.now) <==>
              u.now < s.locks[scope].expires && !EverFrees(c, s, ls, scope, token)
    decreases |ls|
  {
    if ls != [] {
      var t := Next(c, s, ls[0]);
      LeaseStep(c, s, ls[0], t, scope, token);
      TokensOkStep(c, s, ls[0], t);
      TokenMoves(c, s, ls[0], t);
      if HeldBy(t.locks, scope, token, t.now) {
        LeaseOverRun(c, t, ls[1..], scope, token);
      } else {
        NeverHeldAgain(c, t, ls[1..], scope, token);
        TimeGoesOn(c, t, ls[1..]);
      }
    }
  }

  /**
   Whoever finds no live lease gets one, and holds it exactly until its time comes or a release of its own, after a
   reply or after an exception, gets through.
   */
  lemma {:induction false} LeaseLastsUntilReleased(c: Config, s: State, w: nat, token: nat, ls: seq<Label>)
    requires Reachable(c, s) && WellConfigured(c) && Enabled(c, s, Label.Acquire(w, token))
    requires !Held(s.locks, s.workers[w].job.scope, s.now) && IsRun(c, Next(c, s, Label.Acquire(w, token)), ls)
    ensures var scope, t := s.workers[w].job.scope, Next(c, s, Label.Acquire(w, token));
            var u := Final(c, t, ls);
            && t.workers[w] == Locked(s.workers[w].job, token)
            && (HeldBy(u.locks, scope, token, u.now) <==>
                  u.now < s.now + c.leaseTtl && !EverFrees(c, t, ls, scope, token))
  {
    ReachableInv(c, s);
    var t := Next(c, s, Label.Acquire(w, token));
    TokensOkStep(c, s, Label.Acquire(w, token), t);
    LeaseOverRun(c, t, ls, s.workers[w].job.scope, token);
  }

  /** Who finds a live lease gets none, and leaves it alone. */
  lemma LiveLeaseIsBusy(c: Config, s: State, w: nat, token: nat)
    requires Enabled(c, s, Label.Acquire(w, token)) && Held(s.locks, s.workers[w].job.scope, s.now)
    ensures var t := Next(c, s, Label.Acquire(w, token));
            t.workers[w] == Handling(s.workers[w].job, "conversation_busy") && t.locks == s.locks
  {
  }

  /** Leaving the locked section, with a reply or an exception, frees the conversation if Redis can be reached. */
  lemma ReleaseFrees(c: Config, s: State, w: nat)
    requires Enabled(c, s, Label.Release(w, true))
    ensures var pc, t := s.workers[w], Next(c, s, Label.Release(w, true));
            !HeldBy(t.locks, pc.job.scope, pc.token, t.now) && !HoldsToken(t.workers[w])
  {
  }

  // ---------- Who is behind a live lease ----------

  /** A worker is in the section locked with the token. */
  ghost predicate Inside(s: State, token: nat) {
    exists w :: w in s.workers && HoldsToken(s.workers[w]) && s.workers[w].token == token
  }

  /** The worker inside crashes, or its release does not get through. */
  predicate Abandons(c: Config, s: State, l: Label, token: nat)
    requires Enabled(c, s, l)
  {
    && (l.Crash? || (l.Release? && !l.reachable))
    && HoldsToken(s.workers[l.w]) && s.workers[l.w].token == token
  }

  ghost predicate EverAbandons(c: Config, s: State, ls: seq<Label>, token: nat)
    requires IsRun(c, s, ls)
    decreases |ls|
  {
    ls != [] && (Abandons(c, s, ls[0], token) || EverAbandons(c, Next(c, s, ls[0]), ls[1..], token))
  }

  /** A lock entry and the worker with its token belong to one conversation. */
  ghost predicate ScopesAgree(s: State) {
    forall k, w :: k in s.locks && w in s.workers && HoldsToken(s.workers[w]) ==> Agrees(k, s.locks[k], s.workers[w])
  }

  predicate Agrees(scope: Scope, lease: Lease, pc: Pc)
    requires HoldsToken(pc)
  {
    pc.token == lease.token ==> pc.job.scope == scope
  }

  lemma ScopesAgreeStep(c: Config, s: State, l: Label, t: State)
    requires Steps(c, s, l, t) && TokensOk(s) && ScopesAgree(s)
    ensures ScopesAgree(t)
  {
    OneWorkerMoves(c, s, l, t);
    TokenMoves(c, s, l, t);
    if ByWorker(l) && HoldsToken(t.workers[l.w]) {
      HolderCameFrom(c, s, l, t);
    }
  }

  /** A worker in a locked section took the lock just now, or was there with the same job and token. */
  lemma HolderCameFrom(c: Config, s: State, l: Label, t: State)
    requires Steps(c, s, l, t) && ByWorker(l) && HoldsToken(t.workers[l.w])
    ensures l.w in s.workers && s.workers[l.w].job == t.workers[l.w].job
    ensures || (HoldsToken(s.workers[l.w]) && s.workers[l.w].token == t.workers[l.w].token && t.locks == s.locks)
            || (l.Acquire? && l.token == t.workers[l.w].token &&
                t.locks == s.locks[t.workers[l.w].job.scope := Lease(l.token, s.now + c.leaseTtl)])
  {
  }

  /** The worker inside stays unless it crashes or releases; nobody else comes in with a token that is taken. */
  lemma InsideMoves(c: Config, s: State, l: Label, t: State, token: nat)
    requires Steps(c, s, l, t) && TokensOk(s) && token in s.history.tokens
    ensures Inside(t, token) <==>
              Inside(s, token) && !((l.Crash? || l.Release?) && HoldsToken(s.workers[l.w]) &&
                  s.workers[l.w].token == token)
  {
    OneWorkerMoves(c, s, l, t);
    TokenMoves(c, s, l, t);
    if w :| w in s.workers && HoldsToken(s.workers[w]) && s.workers[w].token == token {
      if l.Crash? || l.Release? {
        OnlyOneInside(c, s, l, t, w);
      } else if ByWorker(l) && l.w == w {
        assert HoldsToken(t.workers[w]) && t.workers[w].token == token;
      } else {
        assert t.workers[w] == s.workers[w];
      }
    }
  }

  lemma OnlyOneInside(c: Config, s: State, l: Label, t: State, w: nat)
    requires Steps(c, s, l, t) && TokensOk(s) && w in s.workers && HoldsToken(s.workers[w]) && (l.Crash? || l.Release?)
    ensures Inside(t, s.workers[w].token) <==> l.w != w
  {
    OneWorkerMoves(c, s, l, t);
    if l.w == w {
      assert forall v :: v in t.workers && v != w && HoldsToken(t.workers[v]) ==>
          DistinctTokens(s.workers[v], s.workers[w]);
    } else {
      assert t.workers[w] == s.workers[w];
    }
  }

  /** Taking a lease means being inside. */
  lemma LeaseMeansInside(c: Config, s: State, l: Label, t: State, scope: Scope, token: nat)
    requires Steps(c, s, l, t) && TokensOk(s) && token !in s.history.tokens && HeldBy(t.locks, scope, token, t.now)
    ensures Inside(t, token)
  {
    TokenMoves(c, s, l, t);
    assert l.Acquire? && l.token == token;
    assert t.workers[l.w] == Locked(s.workers[l.w].job, token);
  }

  lemma {:induction false} InsideOverRun(c: Config, s: State, ls: seq<Label>, scope: Scope, token: nat)
    requires IsRun(c, s, ls) && TokensOk(s) && ScopesAgree(s)
    requires var u := Final(c, s, ls); HeldBy(u.locks, scope, token, u.now)
    ensures Inside(Final(c, s, ls), token) <==>
              !EverAbandons(c, s, ls, token) && (token in s.history.tokens ==> Inside(s, token))
    decreases |ls|
  {
    if ls != [] {
      var l, t := ls[0], Next(c, s, ls[0]);
      TokensOkStep(c, s, l, t);
      ScopesAgreeStep(c, s, l, t);
      TokenMoves(c, s, l, t);
      InsideOverRun(c, t, ls[1..], scope, token);
      if token in t.history.tokens && !HeldBy(t.locks, scope, token, t.now) {
        NeverHeldAgain(c, t, ls[1..], scope, token);
        assert false;
      }
      if token in s.history.tokens {
        InsideMoves(c, s, l, t, token);
        StillHeld(c, s, l, t, scope, token);
      } else if token in t.history.tokens {
        LeaseMeansInside(c, s, l, t, scope, token);
      }
    }
  }

  /** No release of its own got through where the lease is still live. */
  lemma StillHeld(c: Config, s: State, l: Label, t: State, scope: Scope, token: nat)
    requires Steps(c, s, l, t) && TokensOk(s) && ScopesAgree(s) && token in s.history.tokens
    requires HeldBy(t.locks, scope, token, t.now)
    ensures l.Release? && l.reachable ==> s.workers[l.w].token != token
  {
    TokenMoves(c, s, l, t);
    assert l.Release? ==> Agrees(scope, s.locks[scope], s.workers[l.w]);
  }

  /**
   In every run, a worker is inside the section of a live lease exactly unless the worker that took it crashed there
   or its release did not get through: no lease outlives its use otherwise.
   */
  lemma {:induction false} LiveLeaseIsUsedOrAbandoned(c: Config, ls: seq<Label>, scope: Scope, token: nat)
    requires IsRun(c, INITIAL, ls)
    requires var u := Final(c, INITIAL, ls); HeldBy(u.locks, scope, token, u.now)
    ensures Inside(Final(c, INITIAL, ls), token) <==> !EverAbandons(c, INITIAL, ls, token)
  {
    InitialInv(c);
    InsideOverRun(c, INITIAL, ls, scope, token);
  }
}
