/** The channel's methods as runs of the pool: what a poll, a command, a final and a
    tick of the lease loop do to the tables and to their gateway's memory is what a
    legal run does, with the steps of the other gateways in the places of the awaits. */
module Refinement {
  import opened Tables
  import opened PoolSteps
  import opened PoolRuns
  import PoolSafety
  import Channel
  import Integrity
  import Assembly = Turns

  // ---- steps of others --------------------------------------------------------------------

  /** The gateway whose memory a step reads or writes. */
  function By(step: Step): Option<WorkerId> {
    match step
    case Start(w) => Some(w)
    case Crash(w) => Some(w)
    case Take(w, _, _) => Some(w)
    case Recheck(w) => Some(w)
    case Defer(w) => Some(w)
    case Place(w, _) => Some(w)
    case EndCommand(w) => Some(w)
    case Drop(w, _) => Some(w)
    case Beat(w) => Some(w)
    case Reclaim(w) => Some(w)
    case Stop(w) => Some(w)
    case Finish(w, _, _, _, _) => Some(w)
    case FinishCancelled(w, _) => Some(w)
    case Discard(w, _) => Some(w)
    case Deliver(w, _, _, _) => Some(w)
    case Note(w, _, _) => Some(w)
    case Fail(w, _, _, _) => Some(w)
    case _ => None
  }

  /** The steps of one gateway in a run, in order. */
  function Mine(steps: seq<Step>, w: WorkerId): seq<Step> {
    if steps == [] then [] else (if By(steps[0]) == Some(w) then [steps[0]] else []) + Mine(steps[1..], w)
  }

  lemma {:induction false} MineConcat(a: seq<Step>, b: seq<Step>, w: WorkerId)
    ensures Mine(a + b, w) == Mine(a, w) + Mine(b, w)
  {
    if a == [] {
      assert a + b == b;
    } else {
      MineConcat(a[1..], b, w);
      assert a == [a[0]] + a[1..] && a + b == [a[0]] + (a[1..] + b);
      MineFirst(a[0], a[1..], w);
      MineFirst(a[0], a[1..] + b, w);
    }
  }

  lemma MineFirst(step: Step, rest: seq<Step>, w: WorkerId)
    ensures Mine([step] + rest, w) == (if By(step) == Some(w) then [step] else []) + Mine(rest, w)
  {
    assert ([step] + rest)[1..] == rest;
  }

  /** During one await of gateway w the others, and the world, take these steps, and
      the tables become what `others` says. */
  ghost predicate Meanwhile(cfg: Settings, s: Pool, w: WorkerId, others: Channel.Others, n: nat, steps: seq<Step>) {
    Legal(cfg, s, steps, AnyStep) && Mine(steps, w) == [] && After(cfg, s, steps).db == others(n, s.db)
  }

  lemma {:induction false} OthersKeepMemory(cfg: Settings, s: Pool, w: WorkerId, steps: seq<Step>)
    requires Legal(cfg, s, steps, AnyStep) && Mine(steps, w) == []
    ensures Of(After(cfg, s, steps), w) == Of(s, w)
    decreases |steps|
  {
    if steps != [] {
      assert By(steps[0]) != Some(w);
      StepKeepsMemory(cfg, s, w, steps[0]);
      OthersKeepMemory(cfg, Next(cfg, s, steps[0]), w, steps[1..]);
    }
  }

  lemma StepKeepsMemory(cfg: Settings, s: Pool, w: WorkerId, step: Step)
    requires Enabled(cfg, s, step) && By(step) != Some(w)
    ensures Of(Next(cfg, s, step), w) == Of(s, w)
  {
  }

  lemma StepKeepsRow(cfg: Settings, s: Pool, step: Step, id: Id)
    requires Enabled(cfg, s, step) && IsUser(s.db.messages, id)
    ensures var z := Next(cfg, s, step).db.messages; IsUser(z, id) && LocalChat(z[id]) == LocalChat(s.db.messages[id])
  {
    PoolSafety.UserRowStep(cfg, s, step, id);
    RowKeepsChat(cfg, s, step, Next(cfg, s, step), id);
  }

  lemma RowKeepsChat(cfg: Settings, s: Pool, step: Step, z: Pool, id: Id)
    requires IsUser(s.db.messages, id) && PoolSafety.RowFollows(cfg, s, step, z, id)
    ensures IsUser(z.db.messages, id) && LocalChat(z.db.messages[id]) == LocalChat(s.db.messages[id])
  {
  }

  /** Whatever happens, a user row stays a user row of its chat: the assumption every
      method of the channel makes of its awaits. */
  lemma {:induction false} RunKeepsRow(cfg: Settings, s: Pool, steps: seq<Step>, id: Id)
    requires Legal(cfg, s, steps, AnyStep) && IsUser(s.db.messages, id)
    ensures var z := After(cfg, s, steps).db.messages; IsUser(z, id) && LocalChat(z[id]) == LocalChat(s.db.messages[id])
    decreases |steps|
  {
    if steps != [] {
      StepKeepsRow(cfg, s, steps[0], id);
      RunKeepsRow(cfg, Next(cfg, s, steps[0]), steps[1..], id);
    }
  }

  // ---- runs, piece by piece ----------------------------------------------------------------

  /** A run of the pool in which gateway w has taken exactly the steps `mine`. */
  datatype Trace = Trace(run: seq<Step>, mine: seq<Step>, end: Pool)

  ghost predicate Traces(cfg: Settings, s: Pool, w: WorkerId, t: Trace) {
    Legal(cfg, s, t.run, AnyStep) && After(cfg, s, t.run) == t.end && Mine(t.run, w) == t.mine
  }

  lemma Begin(cfg: Settings, s: Pool, w: WorkerId) returns (t: Trace)
    ensures Traces(cfg, s, w, t) && t.mine == [] && t.end == s
  {
    t := Trace([], [], s);
  }

  /** One step of gateway w. */
  lemma Advance(cfg: Settings, s: Pool, w: WorkerId, t: Trace, step: Step) returns (u: Trace)
    requires Traces(cfg, s, w, t) && Enabled(cfg, t.end, step) && By(step) == Some(w)
    ensures Traces(cfg, s, w, u) && u.mine == t.mine + [step] && u.end == Next(cfg, t.end, step)
  {
    RunOne(cfg, t.end, step, AnyStep);
    RunConcat(cfg, s, t.run, [step], AnyStep);
    MineConcat(t.run, [step], w);
    assert [step][1..] == [] && Mine([step], w) == [step];
    u := Trace(t.run + [step], t.mine + [step], Next(cfg, t.end, step));
  }

  /** One await. */
  lemma Await(cfg: Settings, s: Pool, w: WorkerId, t: Trace, others: Channel.Others, n: nat, steps: seq<Step>) returns (u: Trace)
    requires Traces(cfg, s, w, t) && Meanwhile(cfg, t.end, w, others, n, steps)
    ensures Traces(cfg, s, w, u) && u.mine == t.mine && u.end == After(cfg, t.end, steps)
    ensures u.end.db == others(n, t.end.db) && Of(u.end, w) == Of(t.end, w)
    ensures forall id | IsUser(t.end.db.messages, id) ::
              IsUser(u.end.db.messages, id) && LocalChat(u.end.db.messages[id]) == LocalChat(t.end.db.messages[id])
  {
    RunConcat(cfg, s, t.run, steps, AnyStep);
    MineConcat(t.run, steps, w);
    OthersKeepMemory(cfg, t.end, w, steps);
    u := Trace(t.run + steps, t.mine, After(cfg, t.end, steps));
    forall id | IsUser(t.end.db.messages, id)
      ensures IsUser(u.end.db.messages, id) && LocalChat(u.end.db.messages[id]) == LocalChat(t.end.db.messages[id])
    {
      RunKeepsRow(cfg, t.end, steps, id);
    }
  }

  // ---- a poll ---------------------------------------------------------------------------------

  /** What the others do during the awaits of one call. */
  type Schedule = nat -> seq<Step>

  /** The pool once gateway c has claimed the task. */
  function TakenBy(c: Channel.PostgresChannel, s: Pool, t: Id, commands: Option<set<string>>): Pool {
    Next(c.cfg, s, Take(c.worker, t, commands))
  }

  /** The end of a poll that puts the row back. */
  ghost predicate BackMeanwhile(c: Channel.PostgresChannel, s: Pool, others: Channel.Others, e: Schedule) {
    Meanwhile(c.cfg, Next(c.cfg, s, Defer(c.worker)), c.worker, others, 3, e(3))
  }

  /** The end of a poll that dispatches the turn; the answer's id stays an answer's. */
  ghost predicate DispatchMeanwhile(c: Channel.PostgresChannel, s: Pool, aid: Id, others: Channel.Others, e: Schedule) {
    var placed := Next(c.cfg, s, Place(c.worker, aid));
    Meanwhile(c.cfg, placed, c.worker, others, 2, e(2)) && ReplyId(After(c.cfg, placed, e(2)), aid)
  }

  /** At each await of the poll the others take legal steps, and leave what `others` says. */
  ghost predicate PollMeanwhile(c: Channel.PostgresChannel, s: Pool, t: Id, aid: Id, back: bool,
                                others: Channel.Others, e: Schedule) {
    var taken := TakenBy(c, s, t, None);
    && Meanwhile(c.cfg, taken, c.worker, others, 0, e(0))
    && var seen := After(c.cfg, taken, e(0));
       (!HasStatus(seen.db.messages, t, Cancelled) ==> CheckedMeanwhile(c, seen, aid, back, others, e))
  }

  ghost predicate CheckedMeanwhile(c: Channel.PostgresChannel, seen: Pool, aid: Id, back: bool,
                                   others: Channel.Others, e: Schedule) {
    var checked := Next(c.cfg, seen, Recheck(c.worker));
    && Meanwhile(c.cfg, checked, c.worker, others, 1, e(1))
    && var later := After(c.cfg, checked, e(1));
       (if back then BackMeanwhile(c, later, others, e)
        else aid !in later.db.messages && DispatchMeanwhile(c, later, aid, others, e))
  }

  ghost predicate IdlePoll(c: Channel.PostgresChannel, s: Pool) {
    c.pool && Live(s, c.worker) && Of(s, c.worker).phase == Idle
  }

  /** A claim, and the others up to the re-check. */
  lemma TakeAndSee(c: Channel.PostgresChannel, s: Pool, t: Id, commands: Option<set<string>>, others: Channel.Others, e: seq<Step>)
    returns (u: Trace)
    requires IdlePoll(c, s) && c.MayTake(s.db, commands, t)
    requires Meanwhile(c.cfg, TakenBy(c, s, t, commands), c.worker, others, 0, e)
    ensures Traces(c.cfg, s, c.worker, u) && u.mine == [Take(c.worker, t, commands)]
    ensures u.end == After(c.cfg, TakenBy(c, s, t, commands), e) && u.end.db == others(0, c.AfterTake(s.db, t))
    ensures Of(u.end, c.worker) ==
              Of(s, c.worker).(leases := Of(s, c.worker).leases + {t}, phase := if commands.None? then Taken(t) else Commanding(t))
    ensures IsUser(u.end.db.messages, t) && LocalChat(u.end.db.messages[t]) == LocalChat(s.db.messages[t])
  {
    var w := c.worker;
    var a := Begin(c.cfg, s, w);
    var b := Advance(c.cfg, s, w, a, Take(w, t, commands));
    assert IsUser(b.end.db.messages, t) && LocalChat(b.end.db.messages[t]) == LocalChat(s.db.messages[t]);
    u := Await(c.cfg, s, w, b, others, 0, e);
  }

  /** The exit after a cancellation: one more step, the deletion of the claim. */
  lemma CancelledExit(c: Channel.PostgresChannel, s: Pool, u: Trace, t: Id) returns (z: Trace)
    requires c.pool && Traces(c.cfg, s, c.worker, u) && Live(u.end, c.worker)
    requires Of(u.end, c.worker).phase in {Taken(t), Commanding(t)} && HasStatus(u.end.db.messages, t, Cancelled)
    ensures Traces(c.cfg, s, c.worker, z) && z.mine == u.mine + [Recheck(c.worker), Drop(c.worker, t)]
    ensures z.end.db == c.AfterDrop(u.end.db, t)
    ensures Of(z.end, c.worker).leases == Of(u.end, c.worker).leases - {t} && Of(z.end, c.worker).phase == Idle
  {
    var w := c.worker;
    var a := Advance(c.cfg, s, w, u, Recheck(w));
    assert Of(a.end, w).phase == Releasing(t);
    z := Advance(c.cfg, s, w, a, Drop(w, t));
    assert u.mine + [Recheck(w)] + [Drop(w, t)] == u.mine + [Recheck(w), Drop(w, t)];
  }

  /** The exits that put the row back. */
  lemma BackExit(c: Channel.PostgresChannel, s: Pool, u: Trace, t: Id, others: Channel.Others, e: Schedule) returns (z: Trace)
    requires c.pool && Traces(c.cfg, s, c.worker, u) && Live(u.end, c.worker)
    requires Of(u.end, c.worker).phase == Checked(t) && BackMeanwhile(c, u.end, others, e)
    ensures Traces(c.cfg, s, c.worker, z) && z.mine == u.mine + [Defer(c.worker), Drop(c.worker, t)]
    ensures z.end.db == c.AfterPutBack(others, u.end.db, t)
    ensures Of(z.end, c.worker).leases == Of(u.end, c.worker).leases - {t} && Of(z.end, c.worker).phase == Idle
  {
    var w := c.worker;
    var a := Advance(c.cfg, s, w, u, Defer(w));
    assert Of(a.end, w).phase == Releasing(t);
    var b := Await(c.cfg, s, w, a, others, 3, e(3));
    z := Advance(c.cfg, s, w, b, Drop(w, t));
    assert u.mine + [Defer(w)] + [Drop(w, t)] == u.mine + [Defer(w), Drop(w, t)];
  }

  /** The exits after the placeholder. */
  lemma DispatchExit(c: Channel.PostgresChannel, s: Pool, u: Trace, t: Id, chat: string, aid: Id, fails: bool,
                     others: Channel.Others, e: Schedule) returns (z: Trace)
    requires c.pool && Traces(c.cfg, s, c.worker, u) && Live(u.end, c.worker) && Of(u.end, c.worker).phase == Checked(t)
    requires IsUser(u.end.db.messages, t) && LocalChat(u.end.db.messages[t]) == chat && aid !in u.end.db.messages
    requires DispatchMeanwhile(c, u.end, aid, others, e)
    ensures Traces(c.cfg, s, c.worker, z) && z.end.db == c.AfterDispatch(others, u.end.db, t, chat, aid, fails)
    ensures z.mine == u.mine + [Place(c.worker, aid)] +
              if fails then [Fail(c.worker, t, Some(aid), "dispatch_error")] else []
    ensures Of(z.end, c.worker).leases == (if fails then Of(u.end, c.worker).leases - {t} else Of(u.end, c.worker).leases)
    ensures Of(z.end, c.worker).phase == Idle
  {
    var w := c.worker;
    var a := Advance(c.cfg, s, w, u, Place(w, aid));
    assert a.end.db == Placed(u.end.db, aid, chat, t) && IsUser(a.end.db.messages, t);
    z := Await(c.cfg, s, w, a, others, 2, e(2));
    if fails {
      z := Advance(c.cfg, s, w, z, Fail(w, t, Some(aid), "dispatch_error"));
    }
  }

  /** What a poll is in terms of its own steps. */
  function PollSteps(w: WorkerId, t: Id, aid: Id, cancelled: bool, back: bool, fails: bool): seq<Step> {
    [Take(w, t, None)] + [Recheck(w)] + if cancelled then [Drop(w, t)] else ExitSteps(w, t, aid, back, fails)
  }

  function ExitSteps(w: WorkerId, t: Id, aid: Id, back: bool, fails: bool): seq<Step> {
    if back then [Defer(w), Drop(w, t)]
    else [Place(w, aid)] + if fails then [Fail(w, t, Some(aid), "dispatch_error")] else []
  }

  /** PollOnce in pool mode is a legal run: the tables its contract describes, and the
      leases it leaves, are those after the claim, the re-check, and one of its exits,
      with the steps of the others at the awaits. */
  lemma PollRefines(c: Channel.PostgresChannel, s: Pool, t: Id, chat: string, aid: Id, wasBusy: bool,
                    placeholderFails: bool, dispatchFails: bool, others: Channel.Others, e: Schedule) returns (z: Trace)
    requires IdlePoll(c, s) && c.MayTake(s.db, None, t) && chat == LocalChat(s.db.messages[t])
    requires PollMeanwhile(c, s, t, aid, wasBusy || placeholderFails, others, e)
    ensures var seen := others(0, c.AfterTake(s.db, t));
            var cancelled := HasStatus(seen.messages, t, Cancelled);
            var back := wasBusy || placeholderFails;
            && Traces(c.cfg, s, c.worker, z)
            && z.mine == PollSteps(c.worker, t, aid, cancelled, back, dispatchFails)
            && z.end.db == c.AfterRecheck(others, seen, t, chat, aid, wasBusy, placeholderFails, dispatchFails)
            && Of(z.end, c.worker).phase == Idle
            && Of(z.end, c.worker).leases ==
                 (if cancelled || back || dispatchFails then Of(s, c.worker).leases - {t} else Of(s, c.worker).leases + {t})
  {
    var w := c.worker;
    var u := TakeAndSee(c, s, t, None, others, e(0));
    Channel.Untaken(Of(s, w).leases, t);
    if HasStatus(u.end.db.messages, t, Cancelled) {
      z := CancelledExit(c, s, u, t);
    } else {
      z := PollGoesOn(c, s, u, t, chat, aid, wasBusy, placeholderFails, dispatchFails, others, e);
    }
  }

  /** The same poll from the re-check on, if it is not cancelled. */
  lemma PollGoesOn(c: Channel.PostgresChannel, s: Pool, u: Trace, t: Id, chat: string, aid: Id, wasBusy: bool,
                   placeholderFails: bool, dispatchFails: bool, others: Channel.Others, e: Schedule) returns (z: Trace)
    requires c.pool && Traces(c.cfg, s, c.worker, u) && Live(u.end, c.worker) && Of(u.end, c.worker).phase == Taken(t)
    requires IsUser(u.end.db.messages, t) && LocalChat(u.end.db.messages[t]) == chat
    requires !HasStatus(u.end.db.messages, t, Cancelled)
    requires CheckedMeanwhile(c, u.end, aid, wasBusy || placeholderFails, others, e)
    ensures var back := wasBusy || placeholderFails;
            && Traces(c.cfg, s, c.worker, z)
            && z.mine == u.mine + [Recheck(c.worker)] + ExitSteps(c.worker, t, aid, back, dispatchFails)
            && z.end.db == c.AfterProceed(others, u.end.db, t, chat, aid, wasBusy, placeholderFails, dispatchFails)
            && Of(z.end, c.worker).phase == Idle
            && Of(z.end, c.worker).leases ==
                 (if back || dispatchFails then Of(u.end, c.worker).leases - {t} else Of(u.end, c.worker).leases)
  {
    var w := c.worker;
    var a := Advance(c.cfg, s, w, u, Recheck(w));
    assert Of(a.end, w) == Of(u.end, w).(phase := Checked(t)) && a.end.db == u.end.db;
    var b := Await(c.cfg, s, w, a, others, 1, e(1));
    if wasBusy || placeholderFails {
      z := BackExit(c, s, b, t, others, e);
    } else {
      z := DispatchExit(c, s, b, t, chat, aid, dispatchFails, others, e);
    }
  }

  // ---- a priority command ------------------------------------------------------------------------

  ghost predicate CommandMeanwhile(c: Channel.PostgresChannel, s: Pool, t: Id, commands: set<string>, fails: bool,
                                   others: Channel.Others, e: Schedule) {
    var taken := TakenBy(c, s, t, Some(commands));
    && Meanwhile(c.cfg, taken, c.worker, others, 0, e(0))
    && var seen := After(c.cfg, taken, e(0));
       (!HasStatus(seen.db.messages, t, Cancelled) ==>
          Meanwhile(c.cfg, seen, c.worker, others, 1, e(1)) &&
          (!fails ==> Meanwhile(c.cfg, After(c.cfg, seen, e(1)), c.worker, others, 2, e(2))))
  }

  /** PollPriority in pool mode is a legal run. */
  lemma CommandRefines(c: Channel.PostgresChannel, s: Pool, t: Id, commands: set<string>, fails: bool,
                       others: Channel.Others, e: Schedule) returns (z: Trace)
    requires IdlePoll(c, s) && c.MayTake(s.db, Some(commands), t) && CommandMeanwhile(c, s, t, commands, fails, others, e)
    ensures var seen := others(0, c.AfterTake(s.db, t));
            var cancelled := HasStatus(seen.messages, t, Cancelled);
            && Traces(c.cfg, s, c.worker, z)
            && z.mine == [Take(c.worker, t, Some(commands))] + [Recheck(c.worker)] +
                         [if cancelled then Drop(c.worker, t)
                          else if fails then Fail(c.worker, t, None, "dispatch_error")
                          else EndCommand(c.worker)]
            && z.end.db == (if cancelled then c.AfterDrop(seen, t) else c.AfterCommand(others, seen, t, fails))
            && Of(z.end, c.worker).phase == Idle
            && Of(z.end, c.worker).leases == Of(s, c.worker).leases - {t}
  {
    var w := c.worker;
    var u := TakeAndSee(c, s, t, Some(commands), others, e(0));
    Channel.Untaken(Of(s, w).leases, t);
    if HasStatus(u.end.db.messages, t, Cancelled) {
      z := CancelledExit(c, s, u, t);
    } else {
      z := CommandGoesOn(c, s, u, t, fails, others, e);
    }
  }

  /** The same command from the re-check on, if it is not cancelled. */
  lemma CommandGoesOn(c: Channel.PostgresChannel, s: Pool, u: Trace, t: Id, fails: bool,
                      others: Channel.Others, e: Schedule) returns (z: Trace)
    requires c.pool && Traces(c.cfg, s, c.worker, u) && Live(u.end, c.worker) && Of(u.end, c.worker).phase == Commanding(t)
    requires IsUser(u.end.db.messages, t) && !HasStatus(u.end.db.messages, t, Cancelled)
    requires Meanwhile(c.cfg, u.end, c.worker, others, 1, e(1))
    requires !fails ==> Meanwhile(c.cfg, After(c.cfg, u.end, e(1)), c.worker, others, 2, e(2))
    ensures Traces(c.cfg, s, c.worker, z) && z.end.db == c.AfterCommand(others, u.end.db, t, fails)
    ensures z.mine == u.mine + [Recheck(c.worker)] +
                      [if fails then Fail(c.worker, t, None, "dispatch_error") else EndCommand(c.worker)]
    ensures Of(z.end, c.worker).phase == Idle && Of(z.end, c.worker).leases == Of(u.end, c.worker).leases - {t}
  {
    var w := c.worker;
    var a := Advance(c.cfg, s, w, u, Recheck(w));
    assert a.end == u.end;
    var b := Await(c.cfg, s, w, a, others, 1, e(1));
    if fails {
      z := Advance(c.cfg, s, w, b, Fail(w, t, None, "dispatch_error"));
      FailIsStep(c, b.end, t, None, "dispatch_error");
    } else {
      z := CommandEnds(c, s, b, t, others, e(2));
    }
  }

  lemma CommandEnds(c: Channel.PostgresChannel, s: Pool, u: Trace, t: Id, others: Channel.Others, e: seq<Step>)
    returns (z: Trace)
    requires c.pool && Traces(c.cfg, s, c.worker, u) && Live(u.end, c.worker) && Of(u.end, c.worker).phase == Commanding(t)
    requires Meanwhile(c.cfg, u.end, c.worker, others, 2, e)
    ensures Traces(c.cfg, s, c.worker, z) && z.mine == u.mine + [EndCommand(c.worker)]
    ensures z.end.db == c.AfterDrop(others(2, u.end.db), t)
    ensures Of(z.end, c.worker).phase == Idle && Of(z.end, c.worker).leases == Of(u.end, c.worker).leases - {t}
  {
    var b := Await(c.cfg, s, c.worker, u, others, 2, e);
    z := Advance(c.cfg, s, c.worker, b, EndCommand(c.worker));
  }

  // ---- a final --------------------------------------------------------------------------------------

  /** At each await of the final; the answer's id stays an answer's. */
  ghost predicate FinalMeanwhile(c: Channel.PostgresChannel, s: Pool, t: Id, aid: Id, tail: string, fails: bool,
                                 others: Channel.Others, e: Schedule) {
    if HasStatus(s.db.messages, t, Cancelled) then CancelledMeanwhile(c, s, t, aid, others, e)
    else WrittenMeanwhile(c, s, aid, tail, fails, others, e)
  }

  ghost predicate CancelledMeanwhile(c: Channel.PostgresChannel, s: Pool, t: Id, aid: Id, others: Channel.Others, e: Schedule) {
    var start := Next(c.cfg, s, FinishCancelled(c.worker, t));
    Meanwhile(c.cfg, start, c.worker, others, 0, e(0)) &&
    Meanwhile(c.cfg, Next(c.cfg, After(c.cfg, start, e(0)), Discard(c.worker, aid)), c.worker, others, 1, e(1))
  }

  ghost predicate WrittenMeanwhile(c: Channel.PostgresChannel, s: Pool, aid: Id, tail: string, fails: bool,
                                   others: Channel.Others, e: Schedule) {
    Meanwhile(c.cfg, s, c.worker, others, 0, e(0)) && ReplyId(After(c.cfg, s, e(0)), aid) &&
    var noted := Next(c.cfg, After(c.cfg, s, e(0)), Note(c.worker, aid, tail));
    Meanwhile(c.cfg, noted, c.worker, others, 1, e(1)) && EndMeanwhile(c, After(c.cfg, noted, e(1)), aid, fails, others, e(2))
  }

  ghost predicate EndMeanwhile(c: Channel.PostgresChannel, s: Pool, aid: Id, fails: bool, others: Channel.Others, e: seq<Step>) {
    ReplyId(s, aid) && (fails ==> Meanwhile(c.cfg, s, c.worker, others, 2, e) && ReplyId(After(c.cfg, s, e), aid))
  }

  /** What a final is in terms of its gateway's own steps. */
  function FinalSteps(w: WorkerId, t: Id, aid: Id, tail: string, content: string, media: seq<string>,
                      cancelled: bool, fails: bool): seq<Step> {
    if cancelled then [FinishCancelled(w, t), Discard(w, aid), Drop(w, t)]
    else [Note(w, aid, tail), if fails then Fail(w, t, Some(aid), "write_error") else Finish(w, t, aid, content, media)]
  }

  /** FinalizeTurn in pool mode, and with it the end of a stream, is a legal run. */
  lemma FinalRefines(c: Channel.PostgresChannel, s: Pool, t: Id, aid: Id, tail: string, content: string, media: seq<string>,
                     fails: bool, others: Channel.Others, e: Schedule) returns (z: Trace)
    requires c.pool && Live(s, c.worker) && IsUser(s.db.messages, t) && FinalMeanwhile(c, s, t, aid, tail, fails, others, e)
    ensures && Traces(c.cfg, s, c.worker, z)
            && z.mine == FinalSteps(c.worker, t, aid, tail, content, media, HasStatus(s.db.messages, t, Cancelled), fails)
            && z.end.db == c.AfterFinal(others, s.db, t, aid, tail, content, media, fails)
            && Of(z.end, c.worker).leases == Of(s, c.worker).leases - {t}
  {
    if HasStatus(s.db.messages, t, Cancelled) {
      z := CancelledFinal(c, s, t, aid, others, e);
    } else {
      z := WrittenFinal(c, s, t, aid, tail, content, media, fails, others, e);
    }
  }

  lemma CancelledFinal(c: Channel.PostgresChannel, s: Pool, t: Id, aid: Id, others: Channel.Others, e: Schedule)
    returns (z: Trace)
    requires c.pool && Live(s, c.worker) && HasStatus(s.db.messages, t, Cancelled) && IsUser(s.db.messages, t)
    requires CancelledMeanwhile(c, s, t, aid, others, e)
    ensures Traces(c.cfg, s, c.worker, z) && z.mine == [FinishCancelled(c.worker, t), Discard(c.worker, aid), Drop(c.worker, t)]
    ensures z.end.db == c.AfterCancelled(others, s.db, t, aid)
    ensures Of(z.end, c.worker).leases == Of(s, c.worker).leases - {t}
  {
    var w := c.worker;
    var a := SeenCancelled(c, s, t);
    var b := Await(c.cfg, s, w, a, others, 0, e(0));
    z := Discarded(c, s, b, aid);
    z := Await(c.cfg, s, w, z, others, 1, e(1));
    z := Advance(c.cfg, s, w, z, Drop(w, t));
  }

  lemma SeenCancelled(c: Channel.PostgresChannel, s: Pool, t: Id) returns (z: Trace)
    requires Live(s, c.worker) && HasStatus(s.db.messages, t, Cancelled) && IsUser(s.db.messages, t)
    ensures Traces(c.cfg, s, c.worker, z) && z.mine == [FinishCancelled(c.worker, t)]
    ensures z.end == Next(c.cfg, s, FinishCancelled(c.worker, t)) && z.end.db == s.db && Live(z.end, c.worker)
    ensures Of(z.end, c.worker).leases == Of(s, c.worker).leases && t in Of(z.end, c.worker).dropping
  {
    z := Begin(c.cfg, s, c.worker);
    z := Advance(c.cfg, s, c.worker, z, FinishCancelled(c.worker, t));
  }

  lemma Discarded(c: Channel.PostgresChannel, s: Pool, u: Trace, aid: Id) returns (z: Trace)
    requires Traces(c.cfg, s, c.worker, u) && Live(u.end, c.worker)
    ensures Traces(c.cfg, s, c.worker, z) && z.mine == u.mine + [Discard(c.worker, aid)]
    ensures z.end == Next(c.cfg, u.end, Discard(c.worker, aid)) && Of(z.end, c.worker) == Of(u.end, c.worker)
    ensures z.end.db == WithMessages(u.end.db, DeletePlaceholder(u.end.db.messages, aid))
  {
    z := Advance(c.cfg, s, c.worker, u, Discard(c.worker, aid));
  }

  lemma WrittenFinal(c: Channel.PostgresChannel, s: Pool, t: Id, aid: Id, tail: string, content: string, media: seq<string>,
                     fails: bool, others: Channel.Others, e: Schedule) returns (z: Trace)
    requires c.pool && Live(s, c.worker) && IsUser(s.db.messages, t) && WrittenMeanwhile(c, s, aid, tail, fails, others, e)
    ensures Traces(c.cfg, s, c.worker, z) && z.mine == FinalSteps(c.worker, t, aid, tail, content, media, false, fails)
    ensures z.end.db == c.AfterWritten(others, s.db, t, aid, tail, content, media, fails)
    ensures Of(z.end, c.worker).leases == Of(s, c.worker).leases - {t}
  {
    var w := c.worker;
    var a := Begin(c.cfg, s, w);
    var b := Await(c.cfg, s, w, a, others, 0, e(0));
    z := Noted(c, s, b, t, aid, tail);
    z := Await(c.cfg, s, w, z, others, 1, e(1));
    z := Ended(c, s, z, t, aid, content, media, fails, others, e(2));
  }

  /** The end of it: the answer is written, or the failure is counted. */
  lemma Ended(c: Channel.PostgresChannel, s: Pool, u: Trace, t: Id, aid: Id, content: string, media: seq<string>,
              fails: bool, others: Channel.Others, e: seq<Step>) returns (z: Trace)
    requires c.pool && Traces(c.cfg, s, c.worker, u) && Live(u.end, c.worker) && IsUser(u.end.db.messages, t)
    requires EndMeanwhile(c, u.end, aid, fails, others, e)
    ensures Traces(c.cfg, s, c.worker, z)
    ensures z.mine == u.mine +
                      [if fails then Fail(c.worker, t, Some(aid), "write_error") else Finish(c.worker, t, aid, content, media)]
    ensures z.end.db == c.AfterEnd(others, u.end.db, t, aid, content, media, fails)
    ensures Of(z.end, c.worker).leases == Of(u.end, c.worker).leases - {t}
  {
    var w := c.worker;
    if fails {
      var a := Await(c.cfg, s, w, u, others, 2, e);
      z := Advance(c.cfg, s, w, a, Fail(w, t, Some(aid), "write_error"));
      FailIsStep(c, a.end, t, Some(aid), "write_error");
    } else {
      z := Advance(c.cfg, s, w, u, Finish(w, t, aid, content, media));
    }
  }

  lemma Noted(c: Channel.PostgresChannel, s: Pool, u: Trace, t: Id, aid: Id, tail: string) returns (z: Trace)
    requires Traces(c.cfg, s, c.worker, u) && Live(u.end, c.worker) && ReplyId(u.end, aid) && IsUser(u.end.db.messages, t)
    ensures Traces(c.cfg, s, c.worker, z) && z.mine == u.mine + [Note(c.worker, aid, tail)]
    ensures z.end == Next(c.cfg, u.end, Note(c.worker, aid, tail)) && Of(z.end, c.worker) == Of(u.end, c.worker)
    ensures z.end.db == WithMessages(u.end.db, Reasoned(u.end.db, aid, tail)) && IsUser(z.end.db.messages, t)
  {
    z := Advance(c.cfg, s, c.worker, u, Note(c.worker, aid, tail));
    StepKeepsRow(c.cfg, u.end, Note(c.worker, aid, tail), t);
  }

  // ---- the lease loop ----------------------------------------------------------------------------------

  ghost predicate TickMeanwhile(c: Channel.PostgresChannel, s: Pool, others: Channel.Others, e: Schedule) {
    var beaten := Next(c.cfg, s, Beat(c.worker));
    && Meanwhile(c.cfg, beaten, c.worker, others, 0, e(0))
    && var seen := After(c.cfg, beaten, e(0));
       (ReclaimNeeded(seen.db) ==> Meanwhile(c.cfg, seen, c.worker, others, 1, e(1)))
  }

  /** A tick of the lease loop is a heartbeat and a reclaim, whatever its gate says. */
  lemma TickRefines(c: Channel.PostgresChannel, s: Pool, others: Channel.Others, e: Schedule) returns (z: Trace)
    requires c.pool && Live(s, c.worker) && TickMeanwhile(c, s, others, e)
    ensures Traces(c.cfg, s, c.worker, z) && z.mine == [Beat(c.worker), Reclaim(c.worker)]
    ensures var held := Of(s, c.worker).leases;
            var seen := others(0, c.Beaten(s.db, held));
            z.end.db == ReclaimAndHeal(c.cfg, if ReclaimNeeded(seen) then others(1, seen) else seen, c.worker, held)
    ensures Of(z.end, c.worker) == Of(s, c.worker)
  {
    var w := c.worker;
    z := Begin(c.cfg, s, w);
    z := Advance(c.cfg, s, w, z, Beat(w));
    assert z.end.db == c.Beaten(s.db, Of(s, w).leases) && Of(z.end, w) == Of(s, w);
    z := Await(c.cfg, s, w, z, others, 0, e(0));
    if ReclaimNeeded(z.end.db) {
      z := Await(c.cfg, s, w, z, others, 1, e(1));
    }
    if !ReclaimNeeded(z.end.db) {
      Integrity.GateSkipsNothing(c.cfg, z.end.db, w, Of(s, w).leases);
    }
    z := Advance(c.cfg, s, w, z, Reclaim(w));
  }

  // ---- calls of one step -------------------------------------------------------------------------------

  /** MarkFailed, ReleaseAllLeases and MergeToolDelivery are single steps. */
  lemma FailIsStep(c: Channel.PostgresChannel, s: Pool, t: Id, reply: Option<Id>, reason: string)
    requires c.pool
    ensures Next(c.cfg, s, Fail(c.worker, t, reply, reason)).db == c.AfterFail(s.db, t, reply, reason)
  {
  }

  lemma StopIsStep(c: Channel.PostgresChannel, s: Pool)
    requires c.pool
    ensures Next(c.cfg, s, Stop(c.worker)).db == c.AfterRelease(s.db, ReleaseAll(s.db, c.worker, Of(s, c.worker).leases))
  {
  }

  lemma DeliverIsStep(c: Channel.PostgresChannel, s: Pool, aid: Id, content: string, media: seq<string>)
    requires aid in s.db.messages
    ensures Next(c.cfg, s, Deliver(c.worker, aid, content, media)).db ==
              WithMessages(s.db, s.db.messages[aid := Assembly.Delivered(s.db.messages[aid], s.db.now, content, media)])
  {
  }
}
