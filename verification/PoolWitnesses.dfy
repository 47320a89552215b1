/** Concrete runs showing that the hypotheses of the pool theorems are needed. */
module PoolWitnesses {
  import opened Tables
  import opened PoolSteps
  import opened PoolRuns
  import opened PoolSafety

  ghost predicate Reaches(cfg: Settings, s: Pool, z: Pool, rule: Rule) {
    exists steps :: Legal(cfg, s, steps, rule) && After(cfg, s, steps) == z
  }

  lemma Stay(cfg: Settings, s: Pool, rule: Rule)
    ensures Reaches(cfg, s, s, rule)
  {
    assert Legal(cfg, s, [], rule) && After(cfg, s, []) == s;
  }

  /** One more step of a run. */
  lemma Go(cfg: Settings, s: Pool, mid: Pool, step: Step, rule: Rule) returns (z: Pool)
    requires Reaches(cfg, s, mid, rule) && Enabled(cfg, mid, step) && Obeys(mid, step, rule)
    ensures z == Next(cfg, mid, step) && Reaches(cfg, s, z, rule)
  {
    var steps :| Legal(cfg, s, steps, rule) && After(cfg, s, steps) == mid;
    RunOne(cfg, mid, step, rule);
    RunConcat(cfg, s, steps, [step], rule);
    z := Next(cfg, mid, step);
    assert Legal(cfg, s, steps + [step], rule) && After(cfg, s, steps + [step]) == z;
  }

  function Row(status: Status, retries: nat, at: int): Message {
    Request(Some("chat"), None, "hello", 0).(status := status, retries := retries, updatedAt := at)
  }

  /** Task 0 in some state, with at most its one claim, and gateways 1 and 2. */
  function Scene(task: Message, claims: Claims, now: int, one: Local, two: Local): Pool {
    Pool(Database(map[0 := task], claims, now), map[1 := one, 2 := two], [])
  }

  function Holding(phase: Phase): Local {
    Local(true, {0}, {}, phase)
  }

  const STARTED := Local(true, {}, {}, Idle)

  lemma TwoGateways(cfg: Settings, rule: Rule) returns (s: Pool)
    ensures Reaches(cfg, Fresh(0), s, rule) && s == Scene(Row(Pending, 0, 0), map[], 0, STARTED, STARTED)
  {
    Stay(cfg, Fresh(0), rule);
    var a := Go(cfg, Fresh(0), Fresh(0), Insert(0, Some("chat"), None, "hello"), rule);
    assert a.db.messages == map[0 := Row(Pending, 0, 0)];
    var b := Go(cfg, Fresh(0), a, Start(1), rule);
    s := Go(cfg, Fresh(0), b, Start(2), rule);
    assert s.workers == map[1 := STARTED, 2 := STARTED];
  }

  lemma Waits(cfg: Settings, now: int, s: Pool, w: WorkerId)
    requires s.db == Database(map[0 := Row(Pending, 0, 0)], map[], now) && Live(s, w) && Of(s, w).phase == Idle
    ensures Enabled(cfg, s, Take(w, 0, None))
  {
    assert !ChatBusy(s.db.messages, Some("chat"));
    assert Eligible(cfg, s.db, None, 0);
  }

  /** A gateway without leases claims the only task. */
  lemma TakesIt(cfg: Settings, s: Pool, w: WorkerId, commands: Option<set<string>>)
    requires s.db.messages.Keys == {0} && s.db.claims == map[] && Of(s, w) == STARTED
    ensures var z := Next(cfg, s, Take(w, 0, commands));
            z.db == Database(map[0 := s.db.messages[0].(status := Processing, updatedAt := s.db.now)],
                             map[0 := Claim(w, s.db.now + cfg.timeout)], s.db.now) &&
            z.workers == s.workers[w := Holding(if commands.None? then Taken(0) else Commanding(0))] &&
            z.finished == s.finished
  {
    assert STARTED.leases + {0} == {0};
    assert map[0 := s.db.messages[0]] == s.db.messages;
  }

  lemma OneTaskClaimed(cfg: Settings, rule: Rule) returns (s: Pool)
    ensures Reaches(cfg, Fresh(0), s, rule)
    ensures s == Scene(Row(Processing, 0, 0), map[0 := Claim(1, cfg.timeout)], 0, Holding(Taken(0)), STARTED)
  {
    var a := TwoGateways(cfg, rule);
    Waits(cfg, 0, a, 1);
    s := Go(cfg, Fresh(0), a, Take(1, 0, None), rule);
    TakesIt(cfg, a, 1, None);
    assert a.workers[1 := Holding(Taken(0))] == map[1 := Holding(Taken(0)), 2 := STARTED];
  }

  /** Gateways 1 and 2 up, and gateway 1 has claimed and re-checked task 0. */
  lemma OneTaskTaken(cfg: Settings, rule: Rule) returns (s: Pool)
    ensures Reaches(cfg, Fresh(0), s, rule)
    ensures s == Scene(Row(Processing, 0, 0), map[0 := Claim(1, cfg.timeout)], 0, Holding(Checked(0)), STARTED)
  {
    var b := OneTaskClaimed(cfg, rule);
    s := Go(cfg, Fresh(0), b, Recheck(1), rule);
    assert s.workers == map[1 := Holding(Checked(0)), 2 := STARTED];
  }

  /** A reclaim adds no row and no claim and touches nothing outside the tables. */
  lemma ReclaimKeys(cfg: Settings, s: Pool, v: WorkerId)
    ensures var z := Next(cfg, s, Reclaim(v));
            z == s.(db := z.db) && z.db.now == s.db.now &&
            z.db.messages.Keys <= s.db.messages.Keys && z.db.claims.Keys <= s.db.claims.Keys
  {
    ReclaimHeals(cfg, s, v);
  }

  lemma OneRowLeft(cfg: Settings, s: Pool, step: Step, z: Pool)
    requires s.db.messages.Keys == {0} && IsUser(s.db.messages, 0) && s.db.claims.Keys <= {0}
    requires z.db.messages.Keys <= s.db.messages.Keys && z.db.claims.Keys <= s.db.claims.Keys
    requires RowFollows(cfg, s, step, z, 0)
    ensures z.db.messages == map[0 := UserRow(cfg, s, step, 0)] && (0 !in z.db.claims ==> z.db.claims == map[])
  {
  }

  /** A reclaim leaves exactly what it makes of task 0. */
  lemma ReclaimBy(cfg: Settings, s: Pool, v: WorkerId)
    requires s.db.messages.Keys == {0} && IsUser(s.db.messages, 0) && s.db.claims.Keys <= {0}
    ensures var z := Next(cfg, s, Reclaim(v));
            z == s.(db := z.db) && z.db.now == s.db.now &&
            z.db.messages == map[0 := UserRow(cfg, s, Reclaim(v), 0)] &&
            (0 !in z.db.claims ==> z.db.claims == map[])
  {
    UserRowHealed(cfg, s, v, 0);
    ReclaimKeys(cfg, s, v);
    OneRowLeft(cfg, s, Reclaim(v), Next(cfg, s, Reclaim(v)));
  }

  const ONE_TRY := Settings(10, 60, 1)

  lemma TaskExpired() returns (s: Pool)
    ensures Reaches(ONE_TRY, Fresh(0), s, AnyStep)
    ensures s == Scene(Row(Processing, 0, 0), map[0 := Claim(1, 10)], 11, Holding(Checked(0)), STARTED)
  {
    var a := OneTaskTaken(ONE_TRY, AnyStep);
    s := Go(ONE_TRY, Fresh(0), a, Tick(11), AnyStep);
  }

  lemma ExpiredTaskFailed() returns (s: Pool)
    ensures Reaches(ONE_TRY, Fresh(0), s, AnyStep)
    ensures s.db.messages == map[0 := Row(Failed, 1, 11)] && s.db.now == 11
    ensures Live(s, 1) && Of(s, 1).phase == Checked(0)
  {
    var b := TaskExpired();
    FailsAtLimit(b);
    s := Go(ONE_TRY, Fresh(0), b, Reclaim(2), AnyStep);
  }

  lemma FailsAtLimit(b: Pool)
    requires b == Scene(Row(Processing, 0, 0), map[0 := Claim(1, 10)], 11, Holding(Checked(0)), STARTED)
    ensures var z := Next(ONE_TRY, b, Reclaim(2));
            z.db.messages == map[0 := Row(Failed, 1, 11)] && z.db.now == 11 && z.workers == b.workers
  {
    ReclaimBy(ONE_TRY, b, 2);
    assert Revocable(b.db, 2, {}, 0);
    assert Of(b, 2) == STARTED;
    assert UserRow(ONE_TRY, b, Reclaim(2), 0) == CountFailure(ONE_TRY, 11, b.db.messages[0]);
  }

  /** A stale deferral can put a task back that has used up its retries: gateway 2
      fails it at the limit while gateway 1 is about to defer it. */
  lemma StaleDeferBreaksBound()
    ensures ONE_TRY.maxRetries >= 1
    ensures exists s: Pool :: Reaches(ONE_TRY, Fresh(0), s, AnyStep) && !Bounded(ONE_TRY, s)
  {
    var c := ExpiredTaskFailed();
    DeferKeepsBoundIff(ONE_TRY, c, 1);
    var d := Go(ONE_TRY, Fresh(0), c, Defer(1), AnyStep);
  }

  const THREE_TRIES := Settings(10, 60, 3)

  lemma TaskDeferred() returns (s: Pool)
    ensures Reaches(THREE_TRIES, Fresh(0), s, Disciplined)
    ensures s == Scene(Row(Pending, 0, 0), map[0 := Claim(1, 10)], 0, Holding(Releasing(0)), STARTED)
  {
    var a := OneTaskTaken(THREE_TRIES, Disciplined);
    s := Go(THREE_TRIES, Fresh(0), a, Defer(1), Disciplined);
    assert s.db.messages == map[0 := Row(Pending, 0, 0)];
    assert s.workers == map[1 := Holding(Releasing(0)), 2 := STARTED];
  }

  lemma DeferredAndHealed() returns (s: Pool)
    ensures Reaches(THREE_TRIES, Fresh(0), s, Disciplined)
    ensures s == Scene(Row(Pending, 0, 0), map[], 0, Holding(Releasing(0)), STARTED)
  {
    var b := TaskDeferred();
    assert Of(b, 2) == STARTED && FreshLeases(b, {2});
    DanglingRemoved(THREE_TRIES, b, 2);
    s := Go(THREE_TRIES, Fresh(0), b, Reclaim(2), Disciplined);
  }

  /** A repair pass removes a claim whose task is not processing, and nothing else. */
  lemma DanglingRemoved(cfg: Settings, b: Pool, v: WorkerId)
    requires b.db.messages.Keys == {0} && IsUser(b.db.messages, 0) && b.db.messages[0].status != Processing
    requires b.db.claims.Keys == {0} && Live(b, v) && Of(b, v).leases == {}
    ensures var z := Next(cfg, b, Reclaim(v));
            z == b.(db := z.db) && z.db == Database(b.db.messages, map[], b.db.now)
  {
    ReclaimBy(cfg, b, v);
    ClaimHealed(cfg, b, v, 0);
    assert UserRow(cfg, b, Reclaim(v), 0) == b.db.messages[0];
    assert map[0 := b.db.messages[0]] == b.db.messages;
  }

  /** Even in a disciplined run two live gateways can have one task in `leases`:
      gateway 1 has put it back and not yet deleted its claim when a repair pass
      by gateway 2 removes that claim and gateway 2 takes the task. */
  lemma LeasesOverlapInDeferral()
    ensures exists s: Pool ::
              Reaches(THREE_TRIES, Fresh(0), s, Disciplined) &&
              Live(s, 1) && Live(s, 2) && 0 in Of(s, 1).leases && 0 in Of(s, 2).leases
  {
    var c := DeferredAndHealed();
    Waits(THREE_TRIES, 0, c, 2);
    var d := Go(THREE_TRIES, Fresh(0), c, Take(2, 0, None), Disciplined);
    assert Of(d, 1) == Of(c, 1) && 0 in Of(d, 2).leases;
  }

  // ---- a shutdown in the middle of a deferral -----------------------------------------

  lemma ThirdGateway() returns (s: Pool)
    ensures Reaches(THREE_TRIES, Fresh(0), s, Disciplined)
    ensures s == Pool(Database(map[0 := Row(Pending, 0, 0)], map[], 0),
                      map[1 := Holding(Releasing(0)), 2 := STARTED, 3 := STARTED], [])
  {
    var c := DeferredAndHealed();
    s := Go(THREE_TRIES, Fresh(0), c, Start(3), Disciplined);
  }

  /** Gateway 1 has not yet deleted the claim of its deferral, gateway 2 has taken
      the task meanwhile, gateway 3 is up. */
  lemma TakenMeanwhile() returns (s: Pool)
    ensures Reaches(THREE_TRIES, Fresh(0), s, Disciplined)
    ensures s.db == Database(map[0 := Row(Processing, 0, 0)], map[0 := Claim(2, 10)], 0)
    ensures s.workers == map[1 := Holding(Releasing(0)), 2 := Holding(Taken(0)), 3 := STARTED]
  {
    var d := ThirdGateway();
    Waits(THREE_TRIES, 0, d, 2);
    s := Go(THREE_TRIES, Fresh(0), d, Take(2, 0, None), Disciplined);
    TakesIt(THREE_TRIES, d, 2, None);
    assert s.workers == d.workers[2 := Holding(Taken(0))];
  }

  /** Gateway 1 shuts down: the task goes back to 'pending' under gateway 2's claim. */
  lemma StoppedInBetween(s: Pool) returns (z: Pool)
    requires s.db == Database(map[0 := Row(Processing, 0, 0)], map[0 := Claim(2, 10)], 0)
    requires s.workers == map[1 := Holding(Releasing(0)), 2 := Holding(Taken(0)), 3 := STARTED]
    ensures z == Next(THREE_TRIES, s, Stop(1)) && Enabled(THREE_TRIES, s, Stop(1)) && !StopsClean(s, 1)
    ensures z.db == Database(map[0 := Row(Pending, 0, 0)], map[0 := Claim(2, 10)], 0)
    ensures Of(z, 2) == Holding(Taken(0)) && Of(z, 3) == STARTED
  {
    z := Next(THREE_TRIES, s, Stop(1));
    assert Of(s, 1) == Holding(Releasing(0)) && Of(s, 2) == Holding(Taken(0));
    assert InWork(s, 0) && HeldBy(s, 2, 0);
    assert z.db.messages == map[0 := Row(Pending, 0, 0)];
    assert z.db.claims == map[0 := Claim(2, 10)];
  }

  /** Without clean stops a task gets two owners: the repair by gateway 3 removes the
      claim of gateway 2, gateway 3 takes the task, and both hold it.  Every step but
      the shutdown is disciplined. */
  lemma StopLosesOwner()
    ensures exists mid: Pool, z: Pool ::
              Reaches(THREE_TRIES, Fresh(0), mid, Disciplined) && Enabled(THREE_TRIES, mid, Stop(1)) &&
              Reaches(THREE_TRIES, Next(THREE_TRIES, mid, Stop(1)), z, Disciplined) &&
              HeldBy(z, 2, 0) && HeldBy(z, 3, 0)
  {
    var s := TakenMeanwhile();
    var a := StoppedInBetween(s);
    var c := TakenTwice(a);
  }

  lemma TakenTwice(a: Pool) returns (c: Pool)
    requires a.db == Database(map[0 := Row(Pending, 0, 0)], map[0 := Claim(2, 10)], 0)
    requires Of(a, 2) == Holding(Taken(0)) && Of(a, 3) == STARTED
    ensures Reaches(THREE_TRIES, a, c, Disciplined) && HeldBy(c, 2, 0) && HeldBy(c, 3, 0)
  {
    Stay(THREE_TRIES, a, Disciplined);
    DanglingRemoved(THREE_TRIES, a, 3);
    assert FreshLeases(a, {3});
    var b := Go(THREE_TRIES, a, a, Reclaim(3), Disciplined);
    assert b.workers == a.workers && b.db == Database(map[0 := Row(Pending, 0, 0)], map[], 0);
    c := TakenByThree(a, b);
  }

  lemma TakenByThree(a: Pool, b: Pool) returns (c: Pool)
    requires Reaches(THREE_TRIES, a, b, Disciplined) && b.db == Database(map[0 := Row(Pending, 0, 0)], map[], 0)
    requires Of(b, 2) == Holding(Taken(0)) && Of(b, 3) == STARTED
    ensures Reaches(THREE_TRIES, a, c, Disciplined) && HeldBy(c, 2, 0) && HeldBy(c, 3, 0)
  {
    Waits(THREE_TRIES, 0, b, 3);
    c := Go(THREE_TRIES, a, b, Take(3, 0, None), Disciplined);
    assert Of(c, 2) == Holding(Taken(0));
    assert Of(c, 3).leases == STARTED.leases + {0} && Of(c, 3).alive;
  }

  // ---- claims deleted under a task in work -----------------------------------------------

  lemma WaitsAsCommand(cfg: Settings, s: Pool)
    requires s.db.messages.Keys == {0} && Waiting(cfg, s.db.now, s.db.messages[0]) && s.db.messages[0].content == "hello"
    requires s.db.claims == map[] && Live(s, 1) && Of(s, 1).phase == Idle
    ensures Enabled(cfg, s, Take(1, 0, Some({"hello"})))
  {
    assert !ChatBusy(s.db.messages, s.db.messages[0].chat);
    assert Eligible(cfg, s.db, Some({"hello"}), 0);
  }

  /** Gateway 1 is dispatching task 0 as a command. */
  lemma CommandTaken() returns (s: Pool)
    ensures Reaches(THREE_TRIES, Fresh(0), s, Disciplined)
    ensures s == Scene(Row(Processing, 0, 0), map[0 := Claim(1, 10)], 0, Holding(Commanding(0)), STARTED)
  {
    var a := TwoGateways(THREE_TRIES, Disciplined);
    WaitsAsCommand(THREE_TRIES, a);
    s := Go(THREE_TRIES, Fresh(0), a, Take(1, 0, Some({"hello"})), Disciplined);
    TakesIt(THREE_TRIES, a, 1, Some({"hello"}));
    assert a.workers[1 := Holding(Commanding(0))] == map[1 := Holding(Commanding(0)), 2 := STARTED];
  }

  /** A command in the middle of its dispatch: its end will uncover the task. */
  lemma CommandUncovers()
    ensures exists s: Pool :: Reaches(THREE_TRIES, Fresh(0), s, Disciplined) && Covered(s) &&
                              Enabled(THREE_TRIES, s, EndCommand(1)) && Uncovers(s, EndCommand(1))
  {
    var s := CommandTaken();
    assert InWork(s, 0) && s.db.claims.Keys == {0};
  }

  /** Task 0 has its placeholder and is cancelled. */
  lemma CancelledInWork() returns (s: Pool)
    ensures Reaches(THREE_TRIES, Fresh(0), s, AnyStep)
    ensures s.db.messages.Keys == {0, 5} && s.db.messages[0] == Row(Cancelled, 0, 0) && s.db.messages[5].role == Assistant
    ensures s.db.messages[5].status == Processing && s.db.messages[5].replyTo == Some(0)
    ensures s.db.claims == map[0 := Claim(1, 10)] && s.db.now == 0
    ensures s.workers == map[1 := Holding(Idle), 2 := STARTED] && s.finished == []
  {
    var a := OneTaskTaken(THREE_TRIES, AnyStep);
    var b := PlacedFive(a);
    s := Go(THREE_TRIES, Fresh(0), b, Cancel(0), AnyStep);
  }

  const DROPPING := Local(true, {0}, {0}, Idle)

  lemma FinalSeesCancelled() returns (s: Pool)
    ensures Reaches(THREE_TRIES, Fresh(0), s, AnyStep)
    ensures s.db.messages.Keys == {0, 5} && s.db.messages[0] == Row(Cancelled, 0, 0) && s.db.messages[5].role == Assistant
    ensures s.db.claims == map[0 := Claim(1, 10)] && s.db.now == 0
    ensures s.workers == map[1 := DROPPING, 2 := STARTED] && s.finished == []
  {
    var c := CancelledInWork();
    s := Go(THREE_TRIES, Fresh(0), c, FinishCancelled(1, 0), AnyStep);
    assert Holding(Idle).dropping + {0} == {0};
  }

  /** The cancelled final of task 0: its placeholder is gone, its claim is not. */
  lemma FinalDropped() returns (s: Pool)
    ensures Reaches(THREE_TRIES, Fresh(0), s, AnyStep)
    ensures s == Scene(Row(Cancelled, 0, 0), map[0 := Claim(1, 10)], 0, DROPPING, STARTED)
  {
    var d := FinalSeesCancelled();
    s := Go(THREE_TRIES, Fresh(0), d, Discard(1, 5), AnyStep);
    assert s.db.messages == map[0 := Row(Cancelled, 0, 0)];
  }

  /** A stale failure reported by gateway 2 makes the cancelled task repeatable ... */
  lemma RevivedByFailure() returns (s: Pool)
    ensures Reaches(THREE_TRIES, Fresh(0), s, AnyStep)
    ensures s == Scene(Row(Error, 1, 0), map[0 := Claim(1, 10)], 0, DROPPING, STARTED)
  {
    var a := FinalDropped();
    s := Go(THREE_TRIES, Fresh(0), a, Fail(2, 0, None, "write_error"), AnyStep);
    assert s.db.messages == map[0 := Row(Error, 1, 0)];
    assert STARTED.leases - {0} == {} && Of(a, 2) == STARTED;
    assert s.workers == map[1 := DROPPING, 2 := STARTED];
  }

  /** ... and a repair removes the old claim. */
  lemma RevivedAndHealed() returns (s: Pool)
    ensures Reaches(THREE_TRIES, Fresh(0), s, AnyStep)
    ensures s == Scene(Row(Error, 1, 0), map[], 61, DROPPING, STARTED)
  {
    var b := RevivedByFailure();
    assert Of(b, 2) == STARTED;
    DanglingRemoved(THREE_TRIES, b, 2);
    var c := Go(THREE_TRIES, Fresh(0), b, Reclaim(2), AnyStep);
    s := Go(THREE_TRIES, Fresh(0), c, Tick(61), AnyStep);
  }

  lemma ReclaimedInDrop() returns (s: Pool)
    ensures Reaches(THREE_TRIES, Fresh(0), s, AnyStep)
    ensures s == Scene(Row(Processing, 1, 61), map[0 := Claim(1, 71)], 61, Local(true, {0}, {0}, Taken(0)), STARTED)
  {
    var a := RevivedAndHealed();
    assert !ChatBusy(a.db.messages, Some("chat"));
    assert Eligible(THREE_TRIES, a.db, None, 0);
    s := Go(THREE_TRIES, Fresh(0), a, Take(1, 0, None), AnyStep);
    assert DROPPING.leases + {0} == {0};
    assert s.workers == map[1 := Local(true, {0}, {0}, Taken(0)), 2 := STARTED];
  }

  /** The delayed drop of a cancelled final uncovers its task when the same gateway
      has re-claimed it meanwhile; this state is reachable. */
  lemma DropUncovers()
    ensures exists s: Pool :: Reaches(THREE_TRIES, Fresh(0), s, AnyStep) && Enabled(THREE_TRIES, s, Drop(1, 0)) &&
                              Uncovers(s, Drop(1, 0))
  {
    var s := ReclaimedInDrop();
    assert InWork(s, 0) && 0 in Of(s, 1).dropping;
  }

  // ---- claims left on a task out of work ---------------------------------------------------

  /** A cancellation, and a deferral before its claim is deleted, strand a claim. */
  lemma CancelAndDeferStrand()
    ensures exists s: Pool :: Reaches(THREE_TRIES, Fresh(0), s, Disciplined) && Backing(s) &&
                              Enabled(THREE_TRIES, s, Cancel(0)) && Strands(s, Cancel(0)) &&
                              Enabled(THREE_TRIES, s, Defer(1)) && Strands(s, Defer(1))
  {
    var s := OneTaskTaken(THREE_TRIES, Disciplined);
    assert Backing(s);
  }

  /** So does a shutdown that returns a lease another gateway has claimed meanwhile. */
  lemma StopStrands()
    ensures exists s: Pool :: Reaches(THREE_TRIES, Fresh(0), s, Disciplined) && Backing(s) &&
                              Enabled(THREE_TRIES, s, Stop(1)) && Strands(s, Stop(1))
  {
    var s := TakenMeanwhile();
    assert Backing(s) && 0 in Of(s, 1).leases && ClaimedByOther(s, 1, 0);
  }

  /** Gateway 1 has dispatched task 0 and stopped sending heartbeats. */
  lemma DispatchedAndLate() returns (s: Pool)
    ensures Reaches(THREE_TRIES, Fresh(0), s, AnyStep)
    ensures LateScene(s)
    ensures s.workers == map[1 := Holding(Idle), 2 := STARTED] && s.finished == []
  {
    var a := OneTaskTaken(THREE_TRIES, AnyStep);
    var b := PlacedFive(a);
    s := Go(THREE_TRIES, Fresh(0), b, Tick(11), AnyStep);
  }

  lemma PlacedFive(a: Pool) returns (b: Pool)
    requires Reaches(THREE_TRIES, Fresh(0), a, AnyStep)
    requires a == Scene(Row(Processing, 0, 0), map[0 := Claim(1, 10)], 0, Holding(Checked(0)), STARTED)
    ensures Reaches(THREE_TRIES, Fresh(0), b, AnyStep)
    ensures b.db.messages.Keys == {0, 5} && b.db.messages[0] == Row(Processing, 0, 0)
    ensures b.db.messages[5].role == Assistant && b.db.messages[5].replyTo == Some(0) && b.db.messages[5].status == Processing
    ensures b.db.claims == map[0 := Claim(1, 10)] && b.db.now == 0
    ensures b.workers == map[1 := Holding(Idle), 2 := STARTED] && b.finished == []
  {
    b := Go(THREE_TRIES, Fresh(0), a, Place(1, 5), AnyStep);
    assert b.db == Placed(a.db, 5, LocalChat(a.db.messages[0]), 0);
  }

  ghost predicate LateScene(s: Pool) {
    s.db.messages.Keys == {0, 5} && s.db.messages[0] == Row(Processing, 0, 0) &&
    s.db.messages[5].role == Assistant && s.db.messages[5].replyTo == Some(0) && s.db.messages[5].status == Processing &&
    s.db.claims == map[0 := Claim(1, 10)] && s.db.now == 11 && Of(s, 2) == STARTED
  }

  /** A reclaim by gateway 2 puts task 0 back ... */
  lemma RequeuedRow(s: Pool)
    requires LateScene(s)
    ensures var z := Next(THREE_TRIES, s, Reclaim(2));
            0 in z.db.messages && z.db.messages[0] == Row(Pending, 1, 11) && 0 !in z.db.claims
  {
    assert Revocable(s.db, 2, {}, 0);
    UserRowHealed(THREE_TRIES, s, 2, 0);
    assert UserRow(THREE_TRIES, s, Reclaim(2), 0) == Row(Pending, 1, 11);
    ClaimHealed(THREE_TRIES, s, 2, 0);
  }

  /** ... and deletes its placeholder. */
  lemma DroppedPlaceholder(s: Pool)
    requires LateScene(s)
    ensures 5 !in Next(THREE_TRIES, s, Reclaim(2)).db.messages
  {
    ReclaimHeals(THREE_TRIES, s, 2);
    var ids := Revoked(s.db, 2, {});
    assert 0 in ids && !LastTry(THREE_TRIES, s.db.messages, 0);
    assert 5 !in RevokeAll(THREE_TRIES, 11, s.db.messages, ids);
  }

  lemma RequeuedAndDropped(s: Pool)
    requires LateScene(s)
    ensures var z := Next(THREE_TRIES, s, Reclaim(2));
            z == s.(db := z.db) && z.db == Database(map[0 := Row(Pending, 1, 11)], map[], 11)
  {
    RequeuedRow(s);
    DroppedPlaceholder(s);
    ReclaimKeys(THREE_TRIES, s, 2);
    LeftOver(s.db, Next(THREE_TRIES, s, Reclaim(2)).db);
  }

  lemma LeftOver(before: Database, after: Database)
    requires before.messages.Keys == {0, 5} && before.claims.Keys == {0}
    requires after.messages.Keys <= before.messages.Keys && after.claims.Keys <= before.claims.Keys
    requires 0 in after.messages && 5 !in after.messages && 0 !in after.claims
    ensures after.messages == map[0 := after.messages[0]] && after.claims == map[]
  {
  }

  lemma RequeuedLate() returns (s: Pool)
    ensures Reaches(THREE_TRIES, Fresh(0), s, AnyStep)
    ensures s == Scene(Row(Pending, 1, 11), map[], 11, Holding(Idle), STARTED)
  {
    var a := DispatchedAndLate();
    RequeuedAndDropped(a);
    s := Go(THREE_TRIES, Fresh(0), a, Reclaim(2), AnyStep);
  }

  /** Gateway 2 works on the task that gateway 1 still has a turn for. */
  lemma TakenFromLate() returns (s: Pool)
    ensures Reaches(THREE_TRIES, Fresh(0), s, AnyStep)
    ensures s == Scene(Row(Processing, 1, 11), map[0 := Claim(2, 21)], 11, Holding(Idle), Holding(Taken(0)))
  {
    var b := RequeuedLate();
    WaitsAgain(b);
    s := Go(THREE_TRIES, Fresh(0), b, Take(2, 0, None), AnyStep);
    TakesIt(THREE_TRIES, b, 2, None);
    assert b.workers[2 := Holding(Taken(0))] == map[1 := Holding(Idle), 2 := Holding(Taken(0))];
  }

  lemma WaitsAgain(s: Pool)
    requires s.db == Database(map[0 := Row(Pending, 1, 11)], map[], 11) && Of(s, 2) == STARTED
    ensures Enabled(THREE_TRIES, s, Take(2, 0, None))
  {
    assert !ChatBusy(s.db.messages, Some("chat"));
    assert Eligible(THREE_TRIES, s.db, None, 0);
  }

  /** So does the stale final answer of gateway 1 ... */
  lemma StaleFinalStrands(content: string)
    ensures exists s: Pool :: Reaches(THREE_TRIES, Fresh(0), s, AnyStep) && Backing(s) &&
                              Enabled(THREE_TRIES, s, Finish(1, 0, 5, content, [])) && Strands(s, Finish(1, 0, 5, content, []))
  {
    var s := TakenFromLate();
    TakenIsBacked(s);
  }

  /** ... and its stale failure. */
  lemma StaleFailureStrands(reason: string)
    ensures exists s: Pool :: Reaches(THREE_TRIES, Fresh(0), s, AnyStep) && Backing(s) &&
                              Enabled(THREE_TRIES, s, Fail(1, 0, Some(5), reason)) && Strands(s, Fail(1, 0, Some(5), reason))
  {
    var s := TakenFromLate();
    TakenIsBacked(s);
  }

  lemma TakenIsBacked(s: Pool)
    requires s == Scene(Row(Processing, 1, 11), map[0 := Claim(2, 21)], 11, Holding(Idle), Holding(Taken(0)))
    ensures Backing(s) && ClaimedByOther(s, 1, 0) && Live(s, 1) && IsUser(s.db.messages, 0) && ReplyId(s, 5)
  {
  }
}
