/** One owner per task: as long as no gateway lets a claim of another live one be
    reclaimed, and finals come only for turns that are held, a task is held by one
    gateway at a time and answered at most once. */
module SingleOwner {
  import opened Tables
  import opened PoolSteps
  import opened PoolRuns
  import opened PoolSafety

  ghost predicate Unheld(s: Pool, t: Id) {
    forall w: WorkerId :: !HeldBy(s, w, t)
  }

  /** A held task is processing under its holder's claim, or was cancelled. */
  ghost predicate Backed(s: Pool) {
    forall w: WorkerId, t: Id | HeldBy(s, w, t) ::
      IsUser(s.db.messages, t) && s.db.messages[t].status in {Processing, Cancelled} &&
      (s.db.messages[t].status == Processing ==> t in s.db.claims && s.db.claims[t].worker == w)
  }

  ghost predicate Exclusive(s: Pool) {
    forall v: WorkerId, w: WorkerId, t: Id | HeldBy(s, v, t) && HeldBy(s, w, t) :: v == w
  }

  /** The task the poll coroutine works on is held. */
  ghost predicate PhaseHeld(s: Pool) {
    forall w: WorkerId | Live(s, w) && !Of(s, w).phase.Idle? && !Of(s, w).phase.Releasing? :: HeldBy(s, w, Of(s, w).phase.task)
  }

  predicate Dropping(s: Pool, w: WorkerId, t: Id) {
    Live(s, w) && t in Of(s, w).dropping
  }

  /** A task being dropped after a cancelled final stays cancelled, and unheld. */
  ghost predicate DropsSettled(s: Pool) {
    forall w: WorkerId, t: Id | Dropping(s, w, t) :: IsUser(s.db.messages, t) && s.db.messages[t].status == Cancelled && Unheld(s, t)
  }

  /** An answered task stays answered, unless it is cancelled later, and unheld. */
  ghost predicate AnswersSettled(s: Pool) {
    forall i | 0 <= i < |s.finished| ::
      IsUser(s.db.messages, s.finished[i].1) &&
      s.db.messages[s.finished[i].1].status in {Completed, Cancelled} && Unheld(s, s.finished[i].1)
  }

  /** No two finals, of one gateway or of two, answer the same task. */
  ghost predicate AnsweredOnce(s: Pool) {
    forall i, j | 0 <= i < j < |s.finished| :: s.finished[i].1 != s.finished[j].1
  }

  ghost predicate Owned(s: Pool) {
    UserClaims(s) && Backed(s) && Exclusive(s) && PhaseHeld(s) && DropsSettled(s) && AnswersSettled(s) && AnsweredOnce(s)
  }

  // ---- preservation -----------------------------------------------------------

  /** The memory of gateway w after the step. */
  lemma HeldAfter(cfg: Settings, s: Pool, step: Step, z: Pool, w: WorkerId, t: Id)
    requires LocalsFollow(s, step, z)
    ensures HeldBy(z, w, t) <==> LocalAfter(s, step, w).alive && t in Held(LocalAfter(s, step, w))
  {
    assert LocalFollows(s, step, z, w);
  }

  /** The only way to come to hold a task is to claim it. */
  lemma HoldingStarts(cfg: Settings, s: Pool, step: Step, z: Pool, w: WorkerId, t: Id)
    requires Enabled(cfg, s, step) && Obeys(s, step, Disciplined) && Owned(s) && Follows(cfg, s, step, z)
    requires HeldBy(z, w, t)
    ensures HeldBy(s, w, t) || (step.Take? && step.w == w && step.id == t && Unheld(s, t))
  {
    HeldAfter(cfg, s, step, z, w, t);
    if step.Take? && step.id == t {
      assert Eligible(cfg, s.db, step.commands, t);
      assert forall v: WorkerId :: !HeldBy(s, v, t);
    }
  }

  /** A step of another gateway leaves a held task alone ... */
  lemma HeldRow(cfg: Settings, s: Pool, step: Step, w: WorkerId, t: Id)
    requires Enabled(cfg, s, step) && Obeys(s, step, Disciplined) && Backed(s) && Exclusive(s) && PhaseHeld(s)
    requires HeldBy(s, w, t) && LocalAfter(s, step, w).alive && t in Held(LocalAfter(s, step, w))
    ensures UserRow(cfg, s, step, t).status in {s.db.messages[t].status, Cancelled}
  {
    match step
    case Take(_, _, commands) => assert step.id == t ==> Eligible(cfg, s.db, commands, t);
    case Defer(v) => assert !Of(s, v).phase.Idle? ==> HeldBy(s, v, Of(s, v).phase.task);
    case Finish(v, id, _, _, _) => assert HeldBy(s, v, id);
    case Fail(v, id, _, _) => assert HeldBy(s, v, id);
    case Stop(v) => assert t in Of(s, v).leases && t !in Tail(Of(s, v)) ==> HeldBy(s, v, t);
    case _ =>
  }

  /** ... and the claim under which it is processing. */
  lemma HeldClaim(cfg: Settings, s: Pool, step: Step, w: WorkerId, t: Id)
    requires Enabled(cfg, s, step) && Obeys(s, step, Disciplined) && Backed(s) && PhaseHeld(s)
    requires HeldBy(s, w, t) && LocalAfter(s, step, w).alive && t in Held(LocalAfter(s, step, w))
    requires s.db.messages[t].status == Processing
    ensures UserRow(cfg, s, step, t).status == Processing ==> KeepsClaim(cfg, s, step, t)
  {
    match step
    case EndCommand(v) => assert HeldBy(s, v, Of(s, v).phase.task);
    case Finish(v, id, _, _, _) => assert HeldBy(s, v, id);
    case Fail(v, id, _, _) => assert HeldBy(s, v, id);
    case _ =>
  }

  /** A row nobody holds or begins to hold: what the last two invariants need. */
  lemma UnheldRow(cfg: Settings, s: Pool, step: Step, z: Pool, t: Id)
    requires Enabled(cfg, s, step) && Obeys(s, step, Disciplined) && Owned(s) && Follows(cfg, s, step, z)
    requires Unheld(s, t) && IsUser(s.db.messages, t) && s.db.messages[t].status in {Completed, Cancelled}
    ensures Unheld(z, t) && IsUser(z.db.messages, t) && z.db.messages[t].status in {s.db.messages[t].status, Cancelled}
  {
    assert RowFollows(cfg, s, step, z, t);
    UnheldStatus(cfg, s, step, t);
    assert step.Take? ==> Eligible(cfg, s.db, step.commands, step.id);
    forall w: WorkerId
      ensures !HeldBy(z, w, t)
    {
      if HeldBy(z, w, t) { HoldingStarts(cfg, s, step, z, w, t); }
    }
  }

  lemma UnheldStatus(cfg: Settings, s: Pool, step: Step, t: Id)
    requires Enabled(cfg, s, step) && Obeys(s, step, Disciplined) && PhaseHeld(s)
    requires Unheld(s, t) && IsUser(s.db.messages, t) && s.db.messages[t].status in {Completed, Cancelled}
    ensures UserRow(cfg, s, step, t).status in {s.db.messages[t].status, Cancelled}
  {
    match step
    case Take(_, id, commands) => assert Eligible(cfg, s.db, commands, id);
    case Defer(v) => assert HeldBy(s, v, Of(s, v).phase.task);
    case Finish(v, id, _, _, _) => assert HeldBy(s, v, id);
    case Fail(v, id, _, _) => assert HeldBy(s, v, id);
    case _ =>
  }

  lemma HoldersFollow(cfg: Settings, s: Pool, step: Step, z: Pool)
    requires Enabled(cfg, s, step) && Obeys(s, step, Disciplined) && Owned(s) && Follows(cfg, s, step, z)
    ensures Backed(z) && Exclusive(z)
  {
    forall w: WorkerId, t: Id | HeldBy(z, w, t)
      ensures IsUser(z.db.messages, t) && z.db.messages[t].status in {Processing, Cancelled}
      ensures z.db.messages[t].status == Processing ==> t in z.db.claims && z.db.claims[t].worker == w
    {
      BackedAt(cfg, s, step, z, w, t);
    }
    forall v: WorkerId, w: WorkerId, t: Id | HeldBy(z, v, t) && HeldBy(z, w, t)
      ensures v == w
    {
      HoldingStarts(cfg, s, step, z, v, t);
      HoldingStarts(cfg, s, step, z, w, t);
    }
  }

  lemma BackedAt(cfg: Settings, s: Pool, step: Step, z: Pool, w: WorkerId, t: Id)
    requires Enabled(cfg, s, step) && Obeys(s, step, Disciplined) && Owned(s) && Follows(cfg, s, step, z) && HeldBy(z, w, t)
    ensures IsUser(z.db.messages, t) && z.db.messages[t].status in {Processing, Cancelled}
    ensures z.db.messages[t].status == Processing ==> t in z.db.claims && z.db.claims[t].worker == w
  {
    HoldingStarts(cfg, s, step, z, w, t);
    HeldAfter(cfg, s, step, z, w, t);
    assert RowFollows(cfg, s, step, z, t) && ClaimFollows(cfg, s, step, z, t);
    if HeldBy(s, w, t) {
      HeldRow(cfg, s, step, w, t);
      if s.db.messages[t].status == Processing {
        HeldClaim(cfg, s, step, w, t);
      }
    } else {
      assert Eligible(cfg, s.db, step.commands, t);
    }
  }

  lemma PhaseFollows(cfg: Settings, s: Pool, step: Step, z: Pool)
    requires Enabled(cfg, s, step) && Obeys(s, step, Disciplined) && Owned(s) && Follows(cfg, s, step, z)
    ensures PhaseHeld(z)
  {
    forall w: WorkerId | Live(z, w) && !Of(z, w).phase.Idle? && !Of(z, w).phase.Releasing?
      ensures HeldBy(z, w, Of(z, w).phase.task)
    {
      assert LocalFollows(s, step, z, w);
      PhaseAt(cfg, s, step, w);
    }
  }

  lemma PhaseAt(cfg: Settings, s: Pool, step: Step, w: WorkerId)
    requires Enabled(cfg, s, step) && Obeys(s, step, Disciplined) && Owned(s)
    requires var l := LocalAfter(s, step, w); l.alive && !l.phase.Idle? && !l.phase.Releasing?
    ensures LocalAfter(s, step, w).phase.task in Held(LocalAfter(s, step, w))
  {
    if step.Take? && step.w == w {
      assert Eligible(cfg, s.db, step.commands, step.id);
      assert !Dropping(s, w, step.id);
    } else {
      assert HeldBy(s, w, Of(s, w).phase.task);
    }
  }

  lemma DropsFollow(cfg: Settings, s: Pool, step: Step, z: Pool)
    requires Enabled(cfg, s, step) && Obeys(s, step, Disciplined) && Owned(s) && Follows(cfg, s, step, z)
    ensures DropsSettled(z)
  {
    forall w: WorkerId, t: Id | Dropping(z, w, t)
      ensures IsUser(z.db.messages, t) && z.db.messages[t].status == Cancelled && Unheld(z, t)
    {
      assert LocalFollows(s, step, z, w);
      if Dropping(s, w, t) {
        UnheldRow(cfg, s, step, z, t);
      } else {
        NewDrop(cfg, s, step, z, w, t);
      }
    }
  }

  /** A task whose cancelled final has just begun to drop it. */
  lemma NewDrop(cfg: Settings, s: Pool, step: Step, z: Pool, w: WorkerId, t: Id)
    requires Enabled(cfg, s, step) && Obeys(s, step, Disciplined) && Owned(s) && Follows(cfg, s, step, z)
    requires Dropping(z, w, t) && !Dropping(s, w, t)
    ensures IsUser(z.db.messages, t) && z.db.messages[t].status == Cancelled && Unheld(z, t)
  {
    assert LocalFollows(s, step, z, w);
    assert step == FinishCancelled(w, t);
    assert RowFollows(cfg, s, step, z, t);
    HolderGone(cfg, s, step, z, w, t);
  }

  /** Once its only holder lets a task go, nobody holds it. */
  lemma HolderGone(cfg: Settings, s: Pool, step: Step, z: Pool, w: WorkerId, t: Id)
    requires Enabled(cfg, s, step) && Obeys(s, step, Disciplined) && Owned(s) && Follows(cfg, s, step, z)
    requires HeldBy(s, w, t) && !HeldBy(z, w, t) && !step.Take?
    ensures Unheld(z, t)
  {
    forall v: WorkerId
      ensures !HeldBy(z, v, t)
    {
      if HeldBy(z, v, t) { HoldingStarts(cfg, s, step, z, v, t); }
    }
  }

  lemma AnswersFollow(cfg: Settings, s: Pool, step: Step, z: Pool)
    requires Enabled(cfg, s, step) && Obeys(s, step, Disciplined) && Owned(s) && Follows(cfg, s, step, z)
    ensures AnswersSettled(z) && AnsweredOnce(z)
  {
    forall i | 0 <= i < |z.finished|
      ensures IsUser(z.db.messages, z.finished[i].1)
      ensures z.db.messages[z.finished[i].1].status in {Completed, Cancelled} && Unheld(z, z.finished[i].1)
    {
      if i < |s.finished| {
        UnheldRow(cfg, s, step, z, s.finished[i].1);
      } else {
        NewAnswer(cfg, s, step, z);
      }
    }
    if step.Finish? {
      assert HeldBy(s, step.w, step.id);
    }
  }

  /** The task a final has just answered. */
  lemma NewAnswer(cfg: Settings, s: Pool, step: Step, z: Pool)
    requires Enabled(cfg, s, step) && Obeys(s, step, Disciplined) && Owned(s) && Follows(cfg, s, step, z) && step.Finish?
    ensures IsUser(z.db.messages, step.id) && z.db.messages[step.id].status == Completed && Unheld(z, step.id)
  {
    assert HeldBy(s, step.w, step.id);
    assert RowFollows(cfg, s, step, z, step.id);
    HeldAfter(cfg, s, step, z, step.w, step.id);
    HolderGone(cfg, s, step, z, step.w, step.id);
  }

  /** Exactly when a shutdown keeps the ownership invariant: the leases it returns
      without another look, those of tasks on their way out, must not be tasks
      another gateway has claimed since. */
  lemma StopKeepsOwnedIff(cfg: Settings, s: Pool, w: WorkerId)
    requires Owned(s) && Live(s, w)
    ensures Owned(Next(cfg, s, Stop(w))) <==> StopsClean(s, w)
  {
    if StopsClean(s, w) {
      OwnedStep(cfg, s, Stop(w));
    } else {
      var v: WorkerId, t: Id :| t in Of(s, w).leases && t in Tail(Of(s, w)) && InWork(s, t) && v != w && HeldBy(s, v, t);
      var after := Next(cfg, s, Stop(w));
      UserRowStep(cfg, s, Stop(w), t);
      assert HeldBy(after, v, t) && after.db.messages[t].status == Pending;
    }
  }

  lemma OwnedStep(cfg: Settings, s: Pool, step: Step)
    requires Owned(s) && Enabled(cfg, s, step) && Obeys(s, step, Disciplined)
    ensures Owned(Next(cfg, s, step))
  {
    StepFollows(cfg, s, step);
    OwnedFollows(cfg, s, step, Next(cfg, s, step));
  }

  lemma OwnedFollows(cfg: Settings, s: Pool, step: Step, z: Pool)
    requires Owned(s) && Enabled(cfg, s, step) && Obeys(s, step, Disciplined) && Follows(cfg, s, step, z)
    ensures Owned(z)
  {
    UserClaimsFollow(cfg, s, step, z);
    HoldersFollow(cfg, s, step, z);
    PhaseFollows(cfg, s, step, z);
    DropsFollow(cfg, s, step, z);
    AnswersFollow(cfg, s, step, z);
  }

  // ---- leases in memory ------------------------------------------------------------

  predicate Lists(s: Pool, w: WorkerId, t: Id) {
    Live(s, w) && t in Of(s, w).leases
  }

  ghost predicate NoOverlap(s: Pool) {
    forall v: WorkerId, w: WorkerId, t: Id | Lists(s, v, t) && Lists(s, w, t) :: v == w
  }

  ghost predicate StillListed(s: Pool, step: Step) {
    step.Take? && exists v: WorkerId :: v != step.w && Lists(s, v, step.id)
  }

  /** Exactly how two live gateways come to have one task in `_leases`: one claims a
      task the other still lists. */
  lemma OverlapStartsIff(cfg: Settings, s: Pool, step: Step)
    requires NoOverlap(s) && Enabled(cfg, s, step)
    ensures NoOverlap(Next(cfg, s, step)) <==> !StillListed(s, step)
  {
    LocalsStep(cfg, s, step);
    OverlapFollowsIff(cfg, s, step, Next(cfg, s, step));
  }

  lemma OverlapFollowsIff(cfg: Settings, s: Pool, step: Step, z: Pool)
    requires NoOverlap(s) && Enabled(cfg, s, step) && LocalsFollow(s, step, z)
    ensures NoOverlap(z) <==> !StillListed(s, step)
  {
    forall w: WorkerId, t: Id
      ensures Lists(z, w, t) ==> Lists(s, w, t) || (step.Take? && step.w == w && step.id == t)
    {
      assert LocalFollows(s, step, z, w);
    }
    if StillListed(s, step) {
      var v: WorkerId :| v != step.w && Lists(s, v, step.id);
      assert LocalFollows(s, step, z, v) && LocalFollows(s, step, z, step.w);
      assert Lists(z, v, step.id) && Lists(z, step.w, step.id);
    }
  }

  /** And where ownership holds, the task it still lists is on its way out there: it
      was put back or dropped, and only the deletion of the old claim is to come. */
  lemma OverlapIsOnItsWayOut(cfg: Settings, s: Pool, step: Step, v: WorkerId)
    requires Owned(s) && Enabled(cfg, s, step) && step.Take? && Lists(s, v, step.id)
    ensures step.id in Tail(Of(s, v))
  {
    assert Eligible(cfg, s.db, step.commands, step.id);
    assert !HeldBy(s, v, step.id);
  }

  // ---- whole runs ---------------------------------------------------------------

  lemma {:induction false} OwnedRun(cfg: Settings, s: Pool, steps: seq<Step>)
    requires Owned(s) && Legal(cfg, s, steps, Disciplined)
    ensures Owned(After(cfg, s, steps))
    decreases |steps|
  {
    if steps != [] {
      OwnedStep(cfg, s, steps[0]);
      OwnedRun(cfg, Next(cfg, s, steps[0]), steps[1..]);
    }
  }

  /** From an empty pool, over any disciplined run: one holder per task, every held
      task claimed by its holder unless it was cancelled, one answer per task. */
  lemma OneOwner(cfg: Settings, now: int, steps: seq<Step>)
    requires Legal(cfg, Fresh(now), steps, Disciplined)
    ensures var s := After(cfg, Fresh(now), steps);
            (forall v: WorkerId, w: WorkerId, t: Id :: HeldBy(s, v, t) && HeldBy(s, w, t) ==> v == w) &&
            (forall w: WorkerId, t: Id :: HeldBy(s, w, t) ==>
               HasStatus(s.db.messages, t, Cancelled) || (t in s.db.claims && s.db.claims[t].worker == w)) &&
            (forall i, j :: 0 <= i < j < |s.finished| ==> s.finished[i].1 != s.finished[j].1)
  {
    OwnedRun(cfg, Fresh(now), steps);
  }
}
