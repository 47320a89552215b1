/** The channel's methods in single mode as runs of that mode's state machine: what a
    poll, a command, a final and a round of the timer do to the table is what a legal
    run does, with the steps of everything else in the places of the awaits. */
module SoloRefinement {
  import opened Tables
  import opened PoolSteps
  import opened SingleMode
  import Channel
  import Assembly = Turns

  // ---- what happens during an await ---------------------------------------------------------

  /** A step of the poll coroutine; the gateway has one, and a shutdown ends it. */
  predicate OfPoll(step: Step) {
    step.Take? || step.Defer? || step.Forget? || step.Place? || step.Shutdown?
  }

  ghost predicate Aside(steps: seq<Step>) {
    forall i | 0 <= i < |steps| :: !OfPoll(steps[i])
  }

  /** During one await these steps are taken, and the table becomes what `others` says. */
  ghost predicate Meanwhile(cfg: Settings, s: Solo, others: Channel.Others, n: nat, steps: seq<Step>) {
    Legal(cfg, s, steps) && After(cfg, s, steps).db == others(n, s.db)
  }

  /** The same during an await of the poll: no other poll runs. */
  ghost predicate PollAwait(cfg: Settings, s: Solo, others: Channel.Others, n: nat, steps: seq<Step>) {
    Meanwhile(cfg, s, others, n, steps) && Aside(steps)
  }

  lemma StepKeeps(cfg: Settings, s: Solo, step: Step, t: Id)
    requires Enabled(cfg, s, step)
    ensures !OfPoll(step) ==> Next(cfg, s, step).poll == s.poll
    ensures t in s.started ==> t in Next(cfg, s, step).started
  {
  }

  lemma StepKeepsRow(cfg: Settings, s: Solo, step: Step, id: Id)
    requires Enabled(cfg, s, step) && IsUser(s.db.messages, id)
    ensures var z := Next(cfg, s, step).db.messages; IsUser(z, id) && LocalChat(z[id]) == LocalChat(s.db.messages[id])
  {
    UserRowStep(cfg, s, step, id);
    RowKeepsChat(cfg, s, step, id);
  }

  lemma RowKeepsChat(cfg: Settings, s: Solo, step: Step, id: Id)
    requires IsUser(s.db.messages, id)
    ensures LocalChat(UserRow(cfg, s, step, id)) == LocalChat(s.db.messages[id])
  {
  }

  /** Whatever happens, a user row stays a user row of its chat, and a started task
      stays started: the assumption every method of the channel makes of its awaits. */
  lemma {:induction false} RunKeeps(cfg: Settings, s: Solo, steps: seq<Step>, id: Id)
    requires Legal(cfg, s, steps)
    ensures var z := After(cfg, s, steps);
            (IsUser(s.db.messages, id) ==> IsUser(z.db.messages, id) && LocalChat(z.db.messages[id]) == LocalChat(s.db.messages[id])) &&
            (id in s.started ==> id in z.started) && (Aside(steps) ==> z.poll == s.poll)
    decreases |steps|
  {
    if steps != [] {
      StepKeeps(cfg, s, steps[0], id);
      if IsUser(s.db.messages, id) { StepKeepsRow(cfg, s, steps[0], id); }
      RunKeeps(cfg, Next(cfg, s, steps[0]), steps[1..], id);
    }
  }

  // ---- runs, piece by piece -----------------------------------------------------------------

  /** A legal run and where it ends. */
  ghost predicate Leads(cfg: Settings, s: Solo, steps: seq<Step>, z: Solo) {
    Legal(cfg, s, steps) && After(cfg, s, steps) == z
  }

  lemma {:induction false} Join(cfg: Settings, s: Solo, a: seq<Step>, mid: Solo, b: seq<Step>, z: Solo)
    requires Leads(cfg, s, a, mid) && Leads(cfg, mid, b, z)
    ensures Leads(cfg, s, a + b, z)
    decreases |a|
  {
    if a == [] {
      assert a + b == b;
    } else {
      Join(cfg, Next(cfg, s, a[0]), a[1..], mid, b, z);
      assert a + b == [a[0]] + (a[1..] + b);
      Then(cfg, s, a[0], a[1..] + b, z);
    }
  }

  /** A step, and a run from where it leads. */
  lemma Then(cfg: Settings, s: Solo, step: Step, rest: seq<Step>, z: Solo)
    requires Enabled(cfg, s, step) && Leads(cfg, Next(cfg, s, step), rest, z)
    ensures Leads(cfg, s, [step] + rest, z)
  {
    assert ([step] + rest)[1..] == rest;
  }

  lemma One(cfg: Settings, s: Solo, step: Step)
    requires Enabled(cfg, s, step)
    ensures Leads(cfg, s, [step], Next(cfg, s, step))
  {
    assert Leads(cfg, Next(cfg, s, step), [], Next(cfg, s, step));
    assert [step] + [] == [step];
    Then(cfg, s, step, [], Next(cfg, s, step));
  }

  // ---- a poll -------------------------------------------------------------------------------

  /** What happens during the awaits of one call. */
  type Schedule = nat -> seq<Step>

  /** The exits of a poll, as runs. */
  function BackRun(e: Schedule): seq<Step> {
    [Defer] + e(3)
  }

  function DispatchRun(t: Id, aid: Id, fails: bool, e: Schedule): seq<Step> {
    [Place(aid)] + (e(2) + if fails then [Fail(t, Some(aid), "dispatch_error")] else [])
  }

  /** A poll, from its claim to one of its exits. */
  function PollRun(t: Id, aid: Id, cancelled: bool, back: bool, fails: bool, e: Schedule): seq<Step> {
    [Take(t, None)] + (e(0) +
    if cancelled then [Forget]
    else e(1) + if back then BackRun(e) else DispatchRun(t, aid, fails, e))
  }

  ghost predicate BackMeanwhile(c: Channel.PostgresChannel, s: Solo, others: Channel.Others, e: Schedule) {
    Meanwhile(c.cfg, Next(c.cfg, s, Defer), others, 3, e(3))
  }

  /** The answer's id is new, and stays an answer's. */
  ghost predicate DispatchMeanwhile(c: Channel.PostgresChannel, s: Solo, aid: Id, others: Channel.Others, e: Schedule) {
    var placed := Next(c.cfg, s, Place(aid));
    aid !in s.db.messages && Meanwhile(c.cfg, placed, others, 2, e(2)) && ReplyId(After(c.cfg, placed, e(2)), aid)
  }

  ghost predicate CheckedMeanwhile(c: Channel.PostgresChannel, s: Solo, aid: Id, back: bool, others: Channel.Others, e: Schedule) {
    PollAwait(c.cfg, s, others, 1, e(1)) &&
    if back then BackMeanwhile(c, After(c.cfg, s, e(1)), others, e)
    else DispatchMeanwhile(c, After(c.cfg, s, e(1)), aid, others, e)
  }

  ghost predicate PollMeanwhile(c: Channel.PostgresChannel, s: Solo, t: Id, aid: Id, back: bool,
                                others: Channel.Others, e: Schedule) {
    var taken := Next(c.cfg, s, Take(t, None));
    PollAwait(c.cfg, taken, others, 0, e(0)) &&
    (!HasStatus(After(c.cfg, taken, e(0)).db.messages, t, Cancelled) ==>
       CheckedMeanwhile(c, After(c.cfg, taken, e(0)), aid, back, others, e))
  }

  /** The poll is on task t, a user row of this chat. */
  predicate Working(s: Solo, t: Id, chat: string) {
    s.poll == Polling(t) && t in s.started && IsUser(s.db.messages, t) && LocalChat(s.db.messages[t]) == chat
  }

  lemma AwaitKeeps(cfg: Settings, s: Solo, t: Id, chat: string, others: Channel.Others, n: nat, steps: seq<Step>)
    requires Working(s, t, chat) && PollAwait(cfg, s, others, n, steps)
    ensures Working(After(cfg, s, steps), t, chat)
  {
    RunKeeps(cfg, s, steps, t);
  }

  lemma TakeWorks(c: Channel.PostgresChannel, s: Solo, t: Id, commands: Option<set<string>>)
    requires !c.pool && s.poll.Idle? && c.MayTake(s.db, commands, t)
    ensures Enabled(c.cfg, s, Take(t, commands))
    ensures var z := Next(c.cfg, s, Take(t, commands)); z.db == c.AfterTake(s.db, t) && Working(z, t, LocalChat(s.db.messages[t]))
  {
  }

  /** The exits that put the row back. */
  lemma BackExit(c: Channel.PostgresChannel, s: Solo, t: Id, chat: string, others: Channel.Others, e: Schedule) returns (z: Solo)
    requires !c.pool && Working(s, t, chat) && BackMeanwhile(c, s, others, e)
    ensures Leads(c.cfg, s, BackRun(e), z) && z.db == c.AfterPutBack(others, s.db, t)
  {
    z := After(c.cfg, Next(c.cfg, s, Defer), e(3));
    Then(c.cfg, s, Defer, e(3), z);
  }

  /** The exits after the placeholder. */
  lemma DispatchExit(c: Channel.PostgresChannel, s: Solo, t: Id, chat: string, aid: Id, fails: bool,
                     others: Channel.Others, e: Schedule) returns (z: Solo)
    requires !c.pool && Working(s, t, chat) && DispatchMeanwhile(c, s, aid, others, e)
    ensures Leads(c.cfg, s, DispatchRun(t, aid, fails, e), z) && z.db == c.AfterDispatch(others, s.db, t, chat, aid, fails)
  {
    var placed := Next(c.cfg, s, Place(aid));
    var b := After(c.cfg, placed, e(2));
    assert placed.db == Placed(s.db, aid, chat, t) && t in placed.started;
    RunKeeps(c.cfg, placed, e(2), t);
    z := b;
    if fails {
      var last := Fail(t, Some(aid), "dispatch_error");
      One(c.cfg, b, last);
      z := Next(c.cfg, b, last);
      Join(c.cfg, placed, e(2), b, [last], z);
    } else {
      assert e(2) + [] == e(2);
    }
    Then(c.cfg, s, Place(aid), e(2) + if fails then [Fail(t, Some(aid), "dispatch_error")] else [], z);
  }

  /** A poll that is not cancelled, from the re-check on. */
  lemma PollGoesOn(c: Channel.PostgresChannel, s: Solo, t: Id, chat: string, aid: Id, wasBusy: bool, placeholderFails: bool,
                   dispatchFails: bool, others: Channel.Others, e: Schedule) returns (z: Solo)
    requires !c.pool && Working(s, t, chat) && CheckedMeanwhile(c, s, aid, wasBusy || placeholderFails, others, e)
    ensures Leads(c.cfg, s, e(1) + if wasBusy || placeholderFails then BackRun(e) else DispatchRun(t, aid, dispatchFails, e), z)
    ensures z.db == c.AfterProceed(others, s.db, t, chat, aid, wasBusy, placeholderFails, dispatchFails)
  {
    var b := After(c.cfg, s, e(1));
    AwaitKeeps(c.cfg, s, t, chat, others, 1, e(1));
    if wasBusy || placeholderFails {
      z := BackExit(c, b, t, chat, others, e);
      Join(c.cfg, s, e(1), b, BackRun(e), z);
    } else {
      z := DispatchExit(c, b, t, chat, aid, dispatchFails, others, e);
      Join(c.cfg, s, e(1), b, DispatchRun(t, aid, dispatchFails, e), z);
    }
  }

  /** PollOnce in single mode is a legal run: the table its contract describes is the
      one after the claim, the re-check and one of its exits, with everything else at
      the awaits. */
  lemma PollRefines(c: Channel.PostgresChannel, s: Solo, t: Id, chat: string, aid: Id, wasBusy: bool, placeholderFails: bool,
                    dispatchFails: bool, others: Channel.Others, e: Schedule) returns (z: Solo)
    requires !c.pool && s.poll.Idle? && c.MayTake(s.db, None, t) && chat == LocalChat(s.db.messages[t])
    requires PollMeanwhile(c, s, t, aid, wasBusy || placeholderFails, others, e)
    ensures var seen := others(0, c.AfterTake(s.db, t));
            && Leads(c.cfg, s, PollRun(t, aid, HasStatus(seen.messages, t, Cancelled), wasBusy || placeholderFails, dispatchFails, e), z)
            && z.db == c.AfterRecheck(others, seen, t, chat, aid, wasBusy, placeholderFails, dispatchFails)
  {
    TakeWorks(c, s, t, None);
    var taken := Next(c.cfg, s, Take(t, None));
    var seen := After(c.cfg, taken, e(0));
    AwaitKeeps(c.cfg, taken, t, chat, others, 0, e(0));
    if HasStatus(seen.db.messages, t, Cancelled) {
      z := Next(c.cfg, seen, Forget);
      One(c.cfg, seen, Forget);
      Join(c.cfg, taken, e(0), seen, [Forget], z);
      Then(c.cfg, s, Take(t, None), e(0) + [Forget], z);
    } else {
      z := PollGoesOn(c, seen, t, chat, aid, wasBusy, placeholderFails, dispatchFails, others, e);
      var rest := e(1) + if wasBusy || placeholderFails then BackRun(e) else DispatchRun(t, aid, dispatchFails, e);
      Join(c.cfg, taken, e(0), seen, rest, z);
      Then(c.cfg, s, Take(t, None), e(0) + rest, z);
    }
  }

  // ---- a priority command ---------------------------------------------------------------------

  function CommandEnd(t: Id, fails: bool, e: Schedule): seq<Step> {
    if fails then [Fail(t, None, "dispatch_error"), Forget] else e(2) + [Forget]
  }

  function CommandRun(t: Id, commands: set<string>, cancelled: bool, fails: bool, e: Schedule): seq<Step> {
    [Take(t, Some(commands))] + (e(0) + if cancelled then [Forget] else e(1) + CommandEnd(t, fails, e))
  }

  ghost predicate CommandMeanwhile(c: Channel.PostgresChannel, s: Solo, t: Id, commands: set<string>, fails: bool,
                                   others: Channel.Others, e: Schedule) {
    var taken := Next(c.cfg, s, Take(t, Some(commands)));
    PollAwait(c.cfg, taken, others, 0, e(0)) &&
    var seen := After(c.cfg, taken, e(0));
    (!HasStatus(seen.db.messages, t, Cancelled) ==>
       PollAwait(c.cfg, seen, others, 1, e(1)) && (!fails ==> PollAwait(c.cfg, After(c.cfg, seen, e(1)), others, 2, e(2))))
  }

  lemma CommandEnds(c: Channel.PostgresChannel, s: Solo, t: Id, chat: string, fails: bool, others: Channel.Others, e: Schedule)
    returns (z: Solo)
    requires !c.pool && Working(s, t, chat) && (!fails ==> PollAwait(c.cfg, s, others, 2, e(2)))
    ensures Leads(c.cfg, s, CommandEnd(t, fails, e), z)
    ensures z.db == if fails then c.AfterFail(s.db, t, None, "dispatch_error") else others(2, s.db)
  {
    var b := s;
    if fails {
      b := Next(c.cfg, s, Fail(t, None, "dispatch_error"));
      One(c.cfg, b, Forget);
      Then(c.cfg, s, Fail(t, None, "dispatch_error"), [Forget], Next(c.cfg, b, Forget));
      assert [Fail(t, None, "dispatch_error")] + [Forget] == [Fail(t, None, "dispatch_error"), Forget];
    } else {
      AwaitKeeps(c.cfg, s, t, chat, others, 2, e(2));
      b := After(c.cfg, s, e(2));
      One(c.cfg, b, Forget);
      Join(c.cfg, s, e(2), b, [Forget], Next(c.cfg, b, Forget));
    }
    z := Next(c.cfg, b, Forget);
  }

  /** PollPriority in single mode is a legal run. */
  lemma CommandRefines(c: Channel.PostgresChannel, s: Solo, t: Id, commands: set<string>, fails: bool,
                       others: Channel.Others, e: Schedule) returns (z: Solo)
    requires !c.pool && s.poll.Idle? && c.MayTake(s.db, Some(commands), t)
    requires CommandMeanwhile(c, s, t, commands, fails, others, e)
    ensures var seen := others(0, c.AfterTake(s.db, t));
            var cancelled := HasStatus(seen.messages, t, Cancelled);
            && Leads(c.cfg, s, CommandRun(t, commands, cancelled, fails, e), z)
            && z.db == if cancelled then c.AfterDrop(seen, t) else c.AfterCommand(others, seen, t, fails)
  {
    var chat := LocalChat(s.db.messages[t]);
    TakeWorks(c, s, t, Some(commands));
    var taken := Next(c.cfg, s, Take(t, Some(commands)));
    var seen := After(c.cfg, taken, e(0));
    AwaitKeeps(c.cfg, taken, t, chat, others, 0, e(0));
    var rest;
    if HasStatus(seen.db.messages, t, Cancelled) {
      rest := [Forget];
      z := Next(c.cfg, seen, Forget);
      One(c.cfg, seen, Forget);
    } else {
      var later := After(c.cfg, seen, e(1));
      AwaitKeeps(c.cfg, seen, t, chat, others, 1, e(1));
      z := CommandEnds(c, later, t, chat, fails, others, e);
      rest := e(1) + CommandEnd(t, fails, e);
      Join(c.cfg, seen, e(1), later, CommandEnd(t, fails, e), z);
    }
    Join(c.cfg, taken, e(0), seen, rest, z);
    Then(c.cfg, s, Take(t, Some(commands)), e(0) + rest, z);
  }

  // ---- a final --------------------------------------------------------------------------------------

  /** The end of a final that finds its task not cancelled. */
  function AnswerRun(t: Id, aid: Id, content: string, media: seq<string>, fails: bool, e: Schedule): seq<Step> {
    if fails then e(2) + [Fail(t, Some(aid), "write_error")] else [Finish(t, aid, content, media)]
  }

  function FinalRun(t: Id, aid: Id, tail: string, content: string, media: seq<string>, cancelled: bool, fails: bool, e: Schedule)
    : seq<Step> {
    e(0) + if cancelled then [FinishCancelled(aid)] + e(1)
           else [Note(aid, tail)] + (e(1) + AnswerRun(t, aid, content, media, fails, e))
  }

  /** At each await of the final anything may happen, polls included; the answer's id
      stays an answer's. */
  ghost predicate FinalMeanwhile(c: Channel.PostgresChannel, s: Solo, t: Id, aid: Id, tail: string, fails: bool,
                                 others: Channel.Others, e: Schedule) {
    Meanwhile(c.cfg, s, others, 0, e(0)) &&
    var seen := After(c.cfg, s, e(0));
    if HasStatus(s.db.messages, t, Cancelled) then Meanwhile(c.cfg, Next(c.cfg, seen, FinishCancelled(aid)), others, 1, e(1))
    else
      ReplyId(seen, aid) && Meanwhile(c.cfg, Next(c.cfg, seen, Note(aid, tail)), others, 1, e(1)) &&
      AnswerMeanwhile(c, After(c.cfg, Next(c.cfg, seen, Note(aid, tail)), e(1)), aid, fails, others, e)
  }

  ghost predicate AnswerMeanwhile(c: Channel.PostgresChannel, s: Solo, aid: Id, fails: bool, others: Channel.Others, e: Schedule) {
    ReplyId(s, aid) && (fails ==> Meanwhile(c.cfg, s, others, 2, e(2)) && ReplyId(After(c.cfg, s, e(2)), aid))
  }

  lemma AnswerExit(c: Channel.PostgresChannel, s: Solo, t: Id, aid: Id, content: string, media: seq<string>, fails: bool,
                   others: Channel.Others, e: Schedule) returns (z: Solo)
    requires !c.pool && t in s.started && AnswerMeanwhile(c, s, aid, fails, others, e)
    ensures Leads(c.cfg, s, AnswerRun(t, aid, content, media, fails, e), z)
    ensures z.db == c.AfterEnd(others, s.db, t, aid, content, media, fails)
  {
    if fails {
      var b, last := After(c.cfg, s, e(2)), Fail(t, Some(aid), "write_error");
      RunKeeps(c.cfg, s, e(2), t);
      z := Next(c.cfg, b, last);
      One(c.cfg, b, last);
      Join(c.cfg, s, e(2), b, [last], z);
    } else {
      z := Next(c.cfg, s, Finish(t, aid, content, media));
      One(c.cfg, s, Finish(t, aid, content, media));
    }
  }

  lemma WrittenExit(c: Channel.PostgresChannel, s: Solo, t: Id, aid: Id, tail: string, content: string, media: seq<string>,
                    fails: bool, others: Channel.Others, e: Schedule) returns (z: Solo)
    requires !c.pool && t in s.started && ReplyId(s, aid)
    requires Meanwhile(c.cfg, Next(c.cfg, s, Note(aid, tail)), others, 1, e(1))
    requires AnswerMeanwhile(c, After(c.cfg, Next(c.cfg, s, Note(aid, tail)), e(1)), aid, fails, others, e)
    ensures Leads(c.cfg, s, [Note(aid, tail)] + (e(1) + AnswerRun(t, aid, content, media, fails, e)), z)
    ensures z.db == c.AfterEnd(others, others(1, WithMessages(s.db, Reasoned(s.db, aid, tail))), t, aid, content, media, fails)
  {
    var noted := Next(c.cfg, s, Note(aid, tail));
    var b := After(c.cfg, noted, e(1));
    RunKeeps(c.cfg, noted, e(1), t);
    z := AnswerExit(c, b, t, aid, content, media, fails, others, e);
    Join(c.cfg, noted, e(1), b, AnswerRun(t, aid, content, media, fails, e), z);
    Then(c.cfg, s, Note(aid, tail), e(1) + AnswerRun(t, aid, content, media, fails, e), z);
  }

  /** FinalizeTurn in single mode, and with it the end of a stream, is a legal run. */
  lemma FinalRefines(c: Channel.PostgresChannel, s: Solo, t: Id, aid: Id, tail: string, content: string, media: seq<string>,
                     fails: bool, others: Channel.Others, e: Schedule) returns (z: Solo)
    requires !c.pool && t in s.started && FinalMeanwhile(c, s, t, aid, tail, fails, others, e)
    ensures Leads(c.cfg, s, FinalRun(t, aid, tail, content, media, HasStatus(s.db.messages, t, Cancelled), fails, e), z)
    ensures z.db == c.AfterFinal(others, s.db, t, aid, tail, content, media, fails)
  {
    var seen := After(c.cfg, s, e(0));
    RunKeeps(c.cfg, s, e(0), t);
    if HasStatus(s.db.messages, t, Cancelled) {
      var gone := Next(c.cfg, seen, FinishCancelled(aid));
      z := After(c.cfg, gone, e(1));
      Then(c.cfg, seen, FinishCancelled(aid), e(1), z);
      Join(c.cfg, s, e(0), seen, [FinishCancelled(aid)] + e(1), z);
    } else {
      z := WrittenExit(c, seen, t, aid, tail, content, media, fails, others, e);
      Join(c.cfg, s, e(0), seen, [Note(aid, tail)] + (e(1) + AnswerRun(t, aid, content, media, fails, e)), z);
    }
  }

  // ---- calls of one step ------------------------------------------------------------------------------

  /** MarkFailed, ReleaseAllLeases and MergeToolDelivery are single steps. */
  lemma FailIsStep(c: Channel.PostgresChannel, s: Solo, t: Id, reply: Option<Id>, reason: string)
    requires !c.pool
    ensures Next(c.cfg, s, Fail(t, reply, reason)).db == c.AfterFail(s.db, t, reply, reason)
  {
  }

  lemma ShutdownIsStep(c: Channel.PostgresChannel, s: Solo, held: set<Id>)
    requires !c.pool
    ensures Next(c.cfg, s, Shutdown(held)).db == c.AfterRelease(s.db, ReleaseAll(s.db, c.worker, held))
  {
    assert ReleaseAll(s.db, 0, held).messages == ReleaseAll(s.db, c.worker, held).messages;
  }

  lemma DeliverIsStep(c: Channel.PostgresChannel, s: Solo, aid: Id, content: string, media: seq<string>)
    requires aid in s.db.messages
    ensures Next(c.cfg, s, Deliver(aid, content, media)).db ==
              WithMessages(s.db, s.db.messages[aid := Assembly.Delivered(s.db.messages[aid], s.db.now, content, media)])
  {
  }
}
