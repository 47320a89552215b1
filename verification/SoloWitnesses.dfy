/** Concrete runs of single mode that reach the states in which its promises fail. */
module SoloWitnesses {
  import opened Tables
  import opened PoolSteps
  import opened SingleMode

  ghost predicate Reaches(cfg: Settings, s: Solo, z: Solo) {
    exists steps :: Legal(cfg, s, steps) && After(cfg, s, steps) == z
  }

  lemma Stay(cfg: Settings, s: Solo)
    ensures Reaches(cfg, s, s)
  {
    assert Legal(cfg, s, []) && After(cfg, s, []) == s;
  }

  lemma {:induction false} AppendStep(cfg: Settings, s: Solo, steps: seq<Step>, step: Step)
    requires Legal(cfg, s, steps) && Enabled(cfg, After(cfg, s, steps), step)
    ensures Legal(cfg, s, steps + [step])
    ensures After(cfg, s, steps + [step]) == Next(cfg, After(cfg, s, steps), step)
    decreases |steps|
  {
    if steps == [] {
      assert [] + [step] == [step];
      assert Legal(cfg, Next(cfg, s, step), []);
      assert After(cfg, s, [step]) == After(cfg, Next(cfg, s, step), []);
    } else {
      assert (steps + [step])[1..] == steps[1..] + [step];
      AppendStep(cfg, Next(cfg, s, steps[0]), steps[1..], step);
    }
  }

  /** One more step of a run. */
  lemma Go(cfg: Settings, mid: Solo, step: Step) returns (z: Solo)
    requires Reaches(cfg, Fresh(0), mid) && Enabled(cfg, mid, step)
    ensures z == Next(cfg, mid, step) && Reaches(cfg, Fresh(0), z)
  {
    var steps :| Legal(cfg, Fresh(0), steps) && After(cfg, Fresh(0), steps) == mid;
    AppendStep(cfg, Fresh(0), steps, step);
    z := Next(cfg, mid, step);
    assert Legal(cfg, Fresh(0), steps + [step]);
  }

  function Row(content: string, status: Status, retries: nat, created: int, updated: int): Message {
    Request(Some("chat"), None, content, created).(status := status, retries := retries, updatedAt := updated)
  }

  const THREE_TRIES := Settings(10, 60, 3)
  const ONE_TRY := Settings(10, 60, 1)

  // ---- a command overtakes -----------------------------------------------------------

  lemma TwoMessages() returns (s: Solo)
    ensures Reaches(THREE_TRIES, Fresh(0), s)
    ensures s == Solo(Database(map[0 := Row("hello", Pending, 0, 0, 0), 1 := Row("/stop", Pending, 0, 1, 1)], map[], 1), Idle, {}, {})
  {
    Stay(THREE_TRIES, Fresh(0));
    var a := Go(THREE_TRIES, Fresh(0), Insert(0, Some("chat"), None, "hello"));
    assert a.db.messages == map[0 := Row("hello", Pending, 0, 0, 0)];
    var b := Go(THREE_TRIES, a, Tick(1));
    s := Go(THREE_TRIES, b, Insert(1, Some("chat"), None, "/stop"));
    assert s.db.messages == map[0 := Row("hello", Pending, 0, 0, 0), 1 := Row("/stop", Pending, 0, 1, 1)];
  }

  /** A command starts while an earlier message of its chat is still waiting. */
  lemma CommandOvertakes()
    ensures exists s: Solo :: Reaches(THREE_TRIES, Fresh(0), s) && Earlier(s, 0, 1) &&
                              s.db.messages[1].status == Processing && s.db.messages[0].status == Pending
  {
    var a := TwoMessages();
    assert !ChatBusy(a.db.messages, Some("chat"));
    assert EligibleSingle(THREE_TRIES, a.db, Some({"/stop"}), 1);
    assert !EligibleSingle(THREE_TRIES, a.db, Some({"/stop"}), 0);
    var s := Go(THREE_TRIES, a, Take(1, Some({"/stop"})));
    assert Earlier(s, 0, 1);
  }

  // ---- one message, taken ---------------------------------------------------------------

  lemma OneTaken(cfg: Settings) returns (s: Solo)
    ensures Reaches(cfg, Fresh(0), s)
    ensures s == Solo(Database(map[0 := Row("hello", Processing, 0, 0, 0)], map[], 0), Polling(0), {0}, {})
  {
    Stay(cfg, Fresh(0));
    var a := Go(cfg, Fresh(0), Insert(0, Some("chat"), None, "hello"));
    assert a.db.messages == map[0 := Row("hello", Pending, 0, 0, 0)];
    assert !ChatBusy(a.db.messages, Some("chat"));
    assert EligibleSingle(cfg, a.db, None, 0);
    s := Go(cfg, a, Take(0, None));
    assert s.db.messages == map[0 := Row("hello", Processing, 0, 0, 0)];
  }

  lemma OneFailed() returns (s: Solo)
    ensures Reaches(THREE_TRIES, Fresh(0), s)
    ensures s == Solo(Database(map[0 := Row("hello", Error, 1, 0, 0)], map[], 61), Idle, {0}, {})
  {
    var a := OneTaken(THREE_TRIES);
    var b := Go(THREE_TRIES, a, Place(5));
    assert IsAssistant(b.db.messages, 5);
    var c := Go(THREE_TRIES, b, Fail(0, Some(5), "dispatch_error"));
    assert c.db.messages == map[0 := Row("hello", Error, 1, 0, 0)];
    s := Go(THREE_TRIES, c, Tick(61));
  }

  /** A failed dispatch and its elapsed back-off are enough for the blockade. */
  lemma BlockadeReached()
    ensures exists s: Solo :: Reaches(THREE_TRIES, Fresh(0), s) && Inv(s) && Blocks(THREE_TRIES, s, 0)
  {
    var s := OneFailed();
    assert !ChatBusy(s.db.messages, Some("chat"));
    assert EligibleSingle(THREE_TRIES, s.db, None, 0);
    assert Blocks(THREE_TRIES, s, 0);
  }

  // ---- a deferral after the timeout ---------------------------------------------------------

  lemma OneTimedOut() returns (s: Solo)
    ensures Reaches(ONE_TRY, Fresh(0), s)
    ensures s == Solo(Database(map[0 := Row("hello", Failed, 1, 0, 11)], map[], 11), Polling(0), {0}, {})
  {
    var a := OneTaken(ONE_TRY);
    var b := Go(ONE_TRY, a, Tick(11));
    assert Stuck(ONE_TRY, b.db, 0) && StuckTasks(ONE_TRY, b.db) == {0};
    s := Go(ONE_TRY, b, Unstick);
    UserRowStep(ONE_TRY, b, Unstick, 0);
    assert s.db.messages.Keys == {0};
    assert s.db.messages == map[0 := Row("hello", Failed, 1, 0, 11)];
  }

  /** The unstick timer fails a task at the limit while the poll is about to defer it. */
  lemma StaleDeferBreaksBound()
    ensures exists s: Solo :: Reaches(ONE_TRY, Fresh(0), s) && !Bounded(ONE_TRY, s)
  {
    var a := OneTimedOut();
    DeferKeepsBoundIff(ONE_TRY, a);
    var s := Go(ONE_TRY, a, Defer);
  }
}
