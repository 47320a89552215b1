/** A priority command whose dispatch is over is started again and again, and no
    retry is ever counted. */
module CommandRounds {
  import opened Tables
  import opened PoolSteps
  import opened PoolRuns
  import opened PoolSafety
  import opened PoolWitnesses

  /** How often a run claims a task. */
  function Starts(steps: seq<Step>, id: Id): nat {
    if steps == [] then 0 else (if steps[0].Take? && steps[0].id == id then 1 else 0) + Starts(steps[1..], id)
  }

  lemma {:induction false} StartsConcat(a: seq<Step>, b: seq<Step>, id: Id)
    ensures Starts(a + b, id) == Starts(a, id) + Starts(b, id)
  {
    if a == [] {
      assert a + b == b;
    } else {
      StartsConcat(a[1..], b, id);
      assert (a + b)[0] == a[0] && (a + b)[1..] == a[1..] + b;
    }
  }

  /** A disciplined run from one state to another claims task 0 so many times. */
  ghost predicate Claims(cfg: Settings, s: Pool, z: Pool, n: nat) {
    exists steps :: Legal(cfg, s, steps, Disciplined) && After(cfg, s, steps) == z && Starts(steps, 0) == n
  }

  lemma ClaimsNone(cfg: Settings, s: Pool)
    ensures Claims(cfg, s, s, 0)
  {
    assert Legal(cfg, s, [], Disciplined) && After(cfg, s, []) == s && Starts([], 0) == 0;
  }

  /** One more step. */
  lemma Then(cfg: Settings, s: Pool, mid: Pool, n: nat, step: Step, z: Pool)
    requires Claims(cfg, s, mid, n) && Enabled(cfg, mid, step) && Obeys(mid, step, Disciplined) && z == Next(cfg, mid, step)
    ensures Claims(cfg, s, z, if step.Take? && step.id == 0 then n + 1 else n)
  {
    var steps :| Legal(cfg, s, steps, Disciplined) && After(cfg, s, steps) == mid && Starts(steps, 0) == n;
    RunOne(cfg, mid, step, Disciplined);
    RunConcat(cfg, s, steps, [step], Disciplined);
    StartsConcat(steps, [step], 0);
    assert [step][1..] == [] && Starts([step], 0) == if step.Take? && step.id == 0 then 1 else 0;
    assert Legal(cfg, s, steps + [step], Disciplined) && After(cfg, s, steps + [step]) == z;
  }

  /** Task 0 waits, unclaimed and with no failure counted; gateways 1 and 2 are idle. */
  ghost predicate Ready(cfg: Settings, s: Pool) {
    exists status, at :: At(cfg, s, status, at)
  }

  ghost predicate At(cfg: Settings, s: Pool, status: Status, at: int) {
    s == Scene(Row(status, 0, at), map[], s.db.now, STARTED, STARTED) && Waiting(cfg, s.db.now, s.db.messages[0])
  }

  /** The command is claimed: 'processing', with its claim. */
  lemma Begun(cfg: Settings, s: Pool)
    requires Ready(cfg, s)
    ensures var now := s.db.now;
            Enabled(cfg, s, Take(1, 0, Some({"hello"}))) &&
            Next(cfg, s, Take(1, 0, Some({"hello"}))) ==
              Scene(Row(Processing, 0, now), map[0 := Claim(1, now + cfg.timeout)], now, Holding(Commanding(0)), STARTED)
  {
    var status, at :| At(cfg, s, status, at);
    WaitsAsCommand(cfg, s);
    TakesIt(cfg, s, 1, Some({"hello"}));
    assert s.workers[1 := Holding(Commanding(0))] == map[1 := Holding(Commanding(0)), 2 := STARTED];
  }

  /** Its dispatch is over: the claim is gone, the row stays 'processing'. */
  lemma Ended(cfg: Settings, now: int, until: int)
    ensures var s := Scene(Row(Processing, 0, now), map[0 := Claim(1, until)], now, Holding(Commanding(0)), STARTED);
            Enabled(cfg, s, EndCommand(1)) &&
            Next(cfg, s, EndCommand(1)) == Scene(Row(Processing, 0, now), map[], now, STARTED, STARTED)
  {
    assert Holding(Commanding(0)).leases - {0} == {};
    assert map[0 := Claim(1, until)] - {0} == map[];
  }

  /** A repair pass finds it unclaimed: 'error', without a counted retry. */
  lemma Repeatable(cfg: Settings, now: int)
    ensures var s := Scene(Row(Processing, 0, now), map[], now, STARTED, STARTED);
            Enabled(cfg, s, Reclaim(2)) && Obeys(s, Reclaim(2), Disciplined) &&
            Next(cfg, s, Reclaim(2)) == Scene(Row(Error, 0, now), map[], now, STARTED, STARTED)
  {
    var s := Scene(Row(Processing, 0, now), map[], now, STARTED, STARTED);
    ReclaimBy(cfg, s, 2);
    ClaimHealed(cfg, s, 2, 0);
    assert UserRow(cfg, s, Reclaim(2), 0) == Row(Error, 0, now);
  }

  lemma StartAndEnd(cfg: Settings, s: Pool, mid: Pool, n: nat) returns (z: Pool)
    requires Claims(cfg, s, mid, n) && Ready(cfg, mid)
    ensures Claims(cfg, s, z, n + 1)
    ensures z == Scene(Row(Processing, 0, z.db.now), map[], z.db.now, STARTED, STARTED)
  {
    var now := mid.db.now;
    var a := Scene(Row(Processing, 0, now), map[0 := Claim(1, now + cfg.timeout)], now, Holding(Commanding(0)), STARTED);
    Begun(cfg, mid);
    Then(cfg, s, mid, n, Take(1, 0, Some({"hello"})), a);
    z := Scene(Row(Processing, 0, now), map[], now, STARTED, STARTED);
    Ended(cfg, now, now + cfg.timeout);
    Then(cfg, s, a, n + 1, EndCommand(1), z);
  }

  lemma RepairAndWait(cfg: Settings, s: Pool, mid: Pool, n: nat) returns (z: Pool)
    requires Claims(cfg, s, mid, n)
    requires mid == Scene(Row(Processing, 0, mid.db.now), map[], mid.db.now, STARTED, STARTED)
    ensures Claims(cfg, s, z, n) && Ready(cfg, z)
  {
    var now := mid.db.now;
    var c := Scene(Row(Error, 0, now), map[], now, STARTED, STARTED);
    Repeatable(cfg, now);
    Then(cfg, s, mid, n, Reclaim(2), c);
    var pause: nat := if cfg.errorDelay < 0 then 0 else cfg.errorDelay + 1;
    z := Scene(Row(Error, 0, now), map[], now + pause, STARTED, STARTED);
    Then(cfg, s, c, n, Tick(pause), z);
    assert At(cfg, z, Error, now);
  }

  lemma FirstReady(cfg: Settings) returns (s: Pool)
    ensures Claims(cfg, Fresh(0), s, 0) && Ready(cfg, s)
  {
    var a := Scene(Row(Pending, 0, 0), map[], 0, STARTED, STARTED);
    s := a;
    ClaimsNone(cfg, Fresh(0));
    var x := Fresh(0).(db := Database(map[0 := Row(Pending, 0, 0)], map[], 0));
    Then(cfg, Fresh(0), Fresh(0), 0, Insert(0, Some("chat"), None, "hello"), x);
    var y := x.(workers := map[1 := STARTED]);
    Then(cfg, Fresh(0), x, 0, Start(1), y);
    assert y.workers[2 := STARTED] == a.workers;
    Then(cfg, Fresh(0), y, 0, Start(2), a);
    assert At(cfg, s, Pending, 0);
  }

  /** n rounds: claimed, dispatched, repaired, and waiting again after the back-off. */
  lemma {:induction false} Rounds(cfg: Settings, n: nat) returns (s: Pool)
    ensures Claims(cfg, Fresh(0), s, n) && Ready(cfg, s)
  {
    if n == 0 {
      s := FirstReady(cfg);
    } else {
      var waiting := Rounds(cfg, n - 1);
      var ended := StartAndEnd(cfg, Fresh(0), waiting, n - 1);
      s := RepairAndWait(cfg, Fresh(0), ended, n);
    }
  }

  /** Under every setting, max_stuck_retries included, and for every n there is a
      disciplined run of healthy gateways that starts one command task n times; its
      retry_count is 0 at the end, and with it no failure was ever counted. */
  lemma CommandsRestart(cfg: Settings, n: nat)
    ensures exists steps: seq<Step> ::
              Legal(cfg, Fresh(0), steps, Disciplined) && Starts(steps, 0) == n &&
              IsUser(After(cfg, Fresh(0), steps).db.messages, 0) &&
              After(cfg, Fresh(0), steps).db.messages[0].retries == 0
  {
    var s := Rounds(cfg, n);
    var status, at :| At(cfg, s, status, at);
    var steps :| Legal(cfg, Fresh(0), steps, Disciplined) && After(cfg, Fresh(0), steps) == s && Starts(steps, 0) == n;
  }
}
