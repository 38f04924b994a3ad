/** Runs that show which guarantees the protocol does not give. */
module Counterexamples {
  import opened Options
  import opened Messages
  import opened Deliveries
  import opened Leases
  import opened Protocol
  import opened ProtocolInvariants
  import opened ProtocolTheorems

  const CONFIG := Config(3, 120, 30, 1)
  const SCOPE := Scope(WhatsApp, "phone", "customer")

  /** Takes one more step of a run. */
  lemma Step(s: State, l: Label) returns (t: State)
    requires Reachable(CONFIG, s) && Enabled(CONFIG, s, l)
    ensures Reachable(CONFIG, t) && t == Next(CONFIG, s, l)
  {
    var ls :| IsRun(CONFIG, INITIAL, ls) && Final(CONFIG, INITIAL, ls) == s;
    RunSnoc(CONFIG, INITIAL, ls, l);
    t := Next(CONFIG, s, l);
  }

  const ROW := Inbound(SCOPE, "hola", 0, Processing, 1, Some(0), Some(0), None)
  const KEY := DeliveryKey("m")

  /** The message "m", claimed first by worker 1 and, once that claim is stale, by worker 2. */
  function JobOf(w: nat): Job {
    Job("m", SCOPE, w)
  }

  /** The message is stored and worker 1 has claimed it. */
  lemma Start() returns (s: State)
    ensures Reachable(CONFIG, s)
    ensures s == INITIAL.(messages := map["m" := ROW], workers := map[1 := Claimed(JobOf(1))])
  {
    assert IsRun(CONFIG, INITIAL, []);
    s := Step(INITIAL, Ingest("m", SCOPE, "hola"));
    s := Step(s, Label.Claim(1, "m"));
  }

  /** A worker takes the free lock, finds no reply and composes one. */
  lemma Composes(s: State, w: nat, text: string) returns (t: State)
    requires Reachable(CONFIG, s) && text != ""
    requires w in s.workers && s.workers[w] == Claimed(JobOf(w)) && w !in s.history.tokens
    requires !Held(s.locks, SCOPE, s.now) && ReplyId("m") !in s.messages
    ensures Reachable(CONFIG, t)
    ensures t == s.(workers := s.workers[w := Composed(JobOf(w), w, text)],
                    locks := s.locks[SCOPE := Lease(w, s.now + 30)],
                    history := s.history.(tokens := s.history.tokens + {w}))
  {
    t := Step(s, Label.Acquire(w, w));
    t := Step(t, Find(w));
    t := Step(t, Compose(w, text));
  }

  /** A worker records the first reply and leaves the lock. */
  lemma Records(s: State, w: nat) returns (t: State)
    requires Reachable(CONFIG, s) && ReplyId("m") !in s.messages
    requires w in s.workers && s.workers[w].Composed? && s.workers[w].job == JobOf(w)
    ensures Reachable(CONFIG, t)
    ensures t == s.(messages := s.messages[ReplyId("m") := Outbound(SCOPE, s.workers[w].text)],
                    workers := s.workers[w := Replied(JobOf(w), s.workers[w].text)],
                    locks := Leases.Release(s.locks, SCOPE, s.workers[w].token, s.now).0)
  {
    t := Step(s, Record(w));
    t := Step(t, Label.Release(w, true));
  }

  /** After the claim timeout worker 2 takes the message over. */
  lemma TakesOver(s: State) returns (t: State)
    requires Reachable(CONFIG, s) && s.now == 0 && "m" in s.messages && s.messages["m"] == ROW && !Busy(s, 2)
    ensures Reachable(CONFIG, t)
    ensures t == s.(now := 120,
                    messages := s.messages["m" := ROW.(attempts := 2, claimedAt := Some(120))],
                    workers := s.workers[2 := Claimed(JobOf(2))],
                    history := s.history.(reclaims := s.history.reclaims["m" := Reclaims(s.history, "m") + 1]))
  {
    t := Step(s, Tick(120));
    t := Step(t, Label.Claim(2, "m"));
  }

  /** Worker 2 takes the free lock, finds the stored reply and leaves the lock. */
  lemma FindsStored(s: State) returns (t: State)
    requires Reachable(CONFIG, s) && 2 in s.workers && s.workers[2] == Claimed(JobOf(2)) && 2 !in s.history.tokens
    requires !Held(s.locks, SCOPE, s.now)
    requires ReplyId("m") in s.messages && s.messages[ReplyId("m")].text == "A"
    ensures Reachable(CONFIG, t)
    ensures t.messages == s.messages && t.delivery == s.delivery && t.workers == s.workers[2 := Replied(JobOf(2), "A")]
    ensures t.history.sends == s.history.sends && t.history.providerIds == s.history.providerIds
  {
    t := Step(s, Label.Acquire(2, 2));
    t := Step(t, Find(2));
    t := Step(t, Label.Release(2, true));
  }

  /** Worker 2 sees the delivery in progress and gives the message up. */
  lemma GivesUp(s: State) returns (t: State)
    requires Reachable(CONFIG, s) && "m" in s.messages && s.messages["m"].Inbound? &&
             s.messages["m"].status == Processing
    requires 2 in s.workers && s.workers[2] == Replied(JobOf(2), "A")
    requires KEY in s.delivery.attempts && s.delivery.attempts[KEY] == FRESH_ATTEMPT
    ensures Reachable(CONFIG, t)
    ensures "m" in t.messages && Terminal(t.messages["m"]) && t.messages["m"].status == ProcessingStatus.Failed
    ensures t == s.(messages := t.messages, workers := s.workers[2 := Idle])
  {
    t := Step(s, DeliveryClaim(2));
    t := Step(t, Settle(2));
  }

  /** Worker 1 is about to call the provider when worker 2 takes the message over and reads the reply. */
  lemma TakenOverWhileSending() returns (s: State)
    ensures Reachable(CONFIG, s)
    ensures 1 in s.workers && s.workers[1] == Sending(JobOf(1), "A")
    ensures 2 in s.workers && s.workers[2] == Replied(JobOf(2), "A")
    ensures "m" in s.messages && s.messages["m"].Inbound? && s.messages["m"].status == Processing
    ensures KEY in s.delivery.attempts && s.delivery.attempts[KEY] == FRESH_ATTEMPT && s.delivery.events == {}
    ensures s.history.sends == [] && s.history.providerIds == {}
  {
    s := Start();
    s := Composes(s, 1, "A");
    s := Records(s, 1);
    s := Step(s, DeliveryClaim(1));
    s := TakesOver(s);
    s := FindsStored(s);
  }

  /**
   A worker whose lease ran out while composing still posts its own text, although another worker has
   stored a different reply: the text given to the provider and the stored one differ.
   */
  lemma PostedTextCanDifferFromStored()
    ensures exists s ::
              && Reachable(CONFIG, s)
              && s.history.sends == [Send(KEY, "A")]
              && StoredAs(s.messages, KEY, "B")
  {
    var s := Start();
    s := Composes(s, 1, "A");
    s := TakesOver(s);
    s := Composes(s, 2, "B");
    s := Records(s, 2);
    s := PostsAnyway(s);
  }

  /** Worker 1 records too late, and still delivers what it composed. */
  lemma PostsAnyway(s: State) returns (t: State)
    requires Reachable(CONFIG, s) && s.history.sends == [] && s.delivery == DeliveryTables(map[], {})
    requires 1 in s.workers && s.workers[1] == Composed(JobOf(1), 1, "A")
    requires StoredAs(s.messages, KEY, "B")
    ensures Reachable(CONFIG, t)
    ensures t.history.sends == [Send(KEY, "A")] && t.messages == s.messages
  {
    t := Step(s, Record(1));
    t := Step(t, Label.Release(1, true));
    t := Step(t, DeliveryClaim(1));
    t := Step(t, CallProvider(1, Threw("timeout")));
  }

  /**
   Without an owner fence a message can end as failed although its reply was accepted: a second worker
   reclaims it, sees the delivery in progress and fails the row under the first one's feet.
   */
  lemma FailedMessageCanBeDelivered()
    ensures exists s ::
              && Reachable(CONFIG, s)
              && "m" in s.messages && s.messages["m"].Inbound? && s.messages["m"].status == ProcessingStatus.Failed
              && KEY in s.delivery.attempts && s.delivery.attempts[KEY].state == Accepted
  {
    var s := TakenOverWhileSending();
    s := GivesUp(s);
    s := Step(s, CallProvider(1, Answered(DeliveryResult(Accepted, Some("wamid"), None))));
    s := Step(s, Label.Finalize(1));
  }

  /**
   At most once is not exactly once: after a crash between creating the attempt and calling the provider,
   the attempt stays pending, the message fails, and the reply is never sent.
   */
  lemma CrashCanLoseReply()
    ensures exists s ::
              && Reachable(CONFIG, s)
              && "m" in s.messages && Terminal(s.messages["m"])
              && KEY in s.delivery.attempts && s.history.sends == [] && !Busy(s, 1)
  {
    var s := TakenOverWhileSending();
    s := Step(s, Crash(1));
    s := GivesUp(s);
  }

  /**
   A webhook process that crashes between committing a DELIVERED callback and reporting it leaves a delivered reply
   that is never reported.
   */
  lemma DeliveredCanGoUnreported()
    ensures exists s ::
              && Reachable(CONFIG, s)
              && KEY in s.delivery.attempts && s.delivery.attempts[KEY].state == Delivered
              && s.history.emissions == [] && s.reporting == {}
  {
    var s := Accepts();
    var cb := Callback("wamid", Delivered, None);
    assert Matches(s.delivery, KEY, "wamid") && !SeveralMatch(s.delivery, "wamid") &&
           MatchOf(s.delivery, "wamid") == KEY;
    s := Step(s, CallbackArrives(cb));
    assert s.reporting == {Emission(KEY, DeliverySucceeded)};
    s := Step(s, LoseReport(Emission(KEY, DeliverySucceeded)));
  }

  /** Worker 1 has stored its reply and created the attempt. */
  lemma AboutToSend() returns (s: State)
    ensures Reachable(CONFIG, s)
    ensures 1 in s.workers && s.workers[1] == Sending(JobOf(1), "A")
    ensures s.delivery == DeliveryTables(map[KEY := FRESH_ATTEMPT], {})
    ensures s.reporting == {} && s.history.emissions == [] && s.history.providerIds == {}
  {
    s := Start();
    s := Composes(s, 1, "A");
    s := Records(s, 1);
    s := Step(s, DeliveryClaim(1));
  }

  const ANSWER := DeliveryResult(Accepted, Some("wamid"), None)

  /** Worker 1 has called the provider, which accepted. */
  lemma AboutToStore() returns (s: State)
    ensures Reachable(CONFIG, s)
    ensures 1 in s.workers && s.workers[1] == Finalizing(JobOf(1), ANSWER)
    ensures s.delivery == DeliveryTables(map[KEY := FRESH_ATTEMPT], {})
    ensures s.reporting == {} && s.history.emissions == []
  {
    s := AboutToSend();
    s := Step(s, CallProvider(1, Answered(ANSWER)));
  }

  /** Worker 1 has delivered the reply. */
  lemma Accepts() returns (s: State)
    ensures Reachable(CONFIG, s)
    ensures s.delivery.attempts == map[KEY := Attempt(Accepted, Some("wamid"), None)]
    ensures s.delivery.events == {StatusEvent(KEY, Some("wamid"), Accepted)}
    ensures s.reporting == {} && s.history.emissions == []
  {
    s := AboutToStore();
    s := Step(s, Label.Finalize(1));
  }
}
