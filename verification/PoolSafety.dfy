/** What every run of the worker pool keeps, for any number of gateways and any
    interleaving, stale gateways included. */
module PoolSafety {
  import opened Tables
  import opened PoolSteps
  import opened PoolRuns
  import Integrity

  // ---- the invariants -----------------------------------------------------------

  /** Claims exist for user rows only. */
  ghost predicate UserClaims(s: Pool) {
    forall id | id in s.db.claims :: IsUser(s.db.messages, id)
  }

  /** At most one user row of a non-NULL chat is processing. */
  ghost predicate OnePerChat(s: Pool) {
    forall i, j | InWork(s, i) && InWork(s, j) && s.db.messages[i].chat == s.db.messages[j].chat ::
      i == j || s.db.messages[i].chat == None
  }

  /** A live gateway remembers every task it has a claim row for. */
  ghost predicate Remembered(s: Pool) {
    forall id | id in s.db.claims ::
      s.db.claims[id].worker in s.workers &&
      (Live(s, s.db.claims[id].worker) ==> id in Of(s, s.db.claims[id].worker).leases)
  }

  /** processing => claim. */
  ghost predicate Covered(s: Pool) {
    forall id | InWork(s, id) :: id in s.db.claims
  }

  /** A claim its own gateway is about to delete does not cover a processing row. */
  ghost predicate TailSettled(s: Pool) {
    forall id | id in s.db.claims :: id in Tail(Of(s, s.db.claims[id].worker)) ==> !HasStatus(s.db.messages, id, Processing)
  }

  /** An unfinished user row has retries left. */
  predicate WithinLimit(cfg: Settings, m: Message) {
    m.retries == 0 || m.retries < cfg.maxRetries
  }

  ghost predicate Bounded(cfg: Settings, s: Pool) {
    forall id | IsUser(s.db.messages, id) ::
      s.db.messages[id].status in {Pending, Processing, Error} ==> WithinLimit(cfg, s.db.messages[id])
  }

  // ---- one step, seen from one user row ----------------------------------------------

  /** What a step makes of the user row `id`. */
  ghost function UserRow(cfg: Settings, s: Pool, step: Step, id: Id): Message
    requires IsUser(s.db.messages, id)
  {
    var m, now := s.db.messages[id], s.db.now;
    match step
    case Cancel(t) => if t == id then m.(status := Cancelled, updatedAt := now) else m
    case Repair =>
      if Integrity.ExpiredAt(s.db, id) then m.(status := Pending, updatedAt := now)
      else if Integrity.UnclaimedAt(s.db, id) then m.(status := Error, updatedAt := now)
      else m
    case Take(_, t, _) => if t == id then m.(status := Processing, updatedAt := now) else m
    case Defer(w) =>
      if !Of(s, w).phase.Idle? && Of(s, w).phase.task == id then m.(status := Pending, updatedAt := now) else m
    case Reclaim(w) =>
      if Revocable(s.db, w, Of(s, w).leases, id) && m.status == Processing then CountFailure(cfg, now, m)
      else if Integrity.UnclaimedAt(s.db, id) then m.(status := Error, updatedAt := now)
      else m
    case Stop(w) => if id in Of(s, w).leases && m.status == Processing then m.(status := Pending, updatedAt := now) else m
    case Finish(_, t, _, _, _) => if t == id then m.(status := Completed, updatedAt := now) else m
    case Fail(_, t, _, _) =>
      if t == id
      then m.(status := if m.retries + 1 < cfg.maxRetries then Error else Failed, retries := m.retries + 1, updatedAt := now)
      else m
    case _ => m
  }

  /** What a step makes of one user row, as a relation. */
  ghost predicate RowFollows(cfg: Settings, s: Pool, step: Step, z: Pool, id: Id) {
    if IsUser(s.db.messages, id)
    then IsUser(z.db.messages, id) && z.db.messages[id] == UserRow(cfg, s, step, id)
    else IsUser(z.db.messages, id) ==> step.Insert? && step.id == id
  }

  predicate Moves(step: Step) {
    step.Cancel? || step.Take? || step.Defer? || step.Stop? || step.Finish? || step.Fail?
  }

  lemma UserRowFixed(cfg: Settings, s: Pool, id: Id)
    ensures RowFollows(cfg, s, Repair, Next(cfg, s, Repair), id)
  {
    Integrity.FixAt(s.db, id);
  }

  lemma UserRowHealed(cfg: Settings, s: Pool, w: WorkerId, id: Id)
    ensures RowFollows(cfg, s, Reclaim(w), Next(cfg, s, Reclaim(w)), id)
  {
    ReclaimHeals(cfg, s, w);
    Integrity.HealUserRow(cfg, s.db, w, Of(s, w).leases, id);
    RowFromHeal(cfg, s, w, Next(cfg, s, Reclaim(w)), id);
  }

  lemma RowFromHeal(cfg: Settings, s: Pool, w: WorkerId, z: Pool, id: Id)
    requires IsUser(z.db.messages, id) <==> IsUser(s.db.messages, id)
    requires IsUser(s.db.messages, id) ==>
               var m := s.db.messages[id];
               z.db.messages[id] ==
                 if Revocable(s.db, w, Of(s, w).leases, id) && m.status == Processing then CountFailure(cfg, s.db.now, m)
                 else if Integrity.UnclaimedAt(s.db, id) then m.(status := Error, updatedAt := s.db.now)
                 else m
    ensures RowFollows(cfg, s, Reclaim(w), z, id)
  {
  }

  lemma UserRowStopped(cfg: Settings, s: Pool, w: WorkerId, id: Id)
    ensures RowFollows(cfg, s, Stop(w), Next(cfg, s, Stop(w)), id)
  {
  }

  lemma UserRowFailed(cfg: Settings, s: Pool, w: WorkerId, t: Id, reply: Option<Id>, reason: string, id: Id)
    requires Enabled(cfg, s, Fail(w, t, reply, reason))
    ensures RowFollows(cfg, s, Fail(w, t, reply, reason), Next(cfg, s, Fail(w, t, reply, reason)), id)
  {
  }

  lemma UserRowFinished(cfg: Settings, s: Pool, w: WorkerId, t: Id, aid: Id, content: string, media: seq<string>, id: Id)
    requires Enabled(cfg, s, Finish(w, t, aid, content, media))
    ensures RowFollows(cfg, s, Finish(w, t, aid, content, media), Next(cfg, s, Finish(w, t, aid, content, media)), id)
  {
  }

  lemma UserRowMoved(cfg: Settings, s: Pool, step: Step, id: Id)
    requires Enabled(cfg, s, step) && (step.Cancel? || step.Take? || step.Defer?)
    ensures RowFollows(cfg, s, step, Next(cfg, s, step), id)
  {
  }

  lemma UserRowKept(cfg: Settings, s: Pool, step: Step, id: Id)
    requires Enabled(cfg, s, step) && !Moves(step) && !step.Repair? && !step.Reclaim?
    ensures RowFollows(cfg, s, step, Next(cfg, s, step), id)
  {
  }

  lemma UserRowStep(cfg: Settings, s: Pool, step: Step, id: Id)
    requires Enabled(cfg, s, step)
    ensures RowFollows(cfg, s, step, Next(cfg, s, step), id)
  {
    if step.Repair? {
      UserRowFixed(cfg, s, id);
    } else if step.Reclaim? {
      UserRowHealed(cfg, s, step.w, id);
    } else if Moves(step) {
      match step
      case Stop(w) => UserRowStopped(cfg, s, w, id);
      case Fail(w, t, reply, reason) => UserRowFailed(cfg, s, w, t, reply, reason, id);
      case Finish(w, t, aid, content, media) => UserRowFinished(cfg, s, w, t, aid, content, media, id);
      case _ => UserRowMoved(cfg, s, step, id);
    } else {
      UserRowKept(cfg, s, step, id);
    }
  }

  // ---- one step, seen from one claim --------------------------------------------------

  /** The claim on `id` is still there after the step. */
  ghost predicate KeepsClaim(cfg: Settings, s: Pool, step: Step, id: Id)
    requires id in s.db.claims
  {
    var c := s.db.claims[id];
    match step
    case Repair => c.leaseUntil >= s.db.now && HasStatus(s.db.messages, id, Processing)
    case Reclaim(w) => !Revocable(s.db, w, Of(s, w).leases, id) && HasStatus(s.db.messages, id, Processing)
    case Stop(w) => !(id in Of(s, w).leases && c.worker == w)
    case Drop(w, t) => !(t == id && c.worker == w)
    case EndCommand(w) => !(!Of(s, w).phase.Idle? && Of(s, w).phase.task == id && c.worker == w)
    case Finish(w, t, _, _, _) => !(t == id && c.worker == w)
    case Fail(w, t, _, _) => !(t == id && c.worker == w)
    case _ => true
  }

  /** What a step makes of one claim, as a relation. */
  ghost predicate ClaimFollows(cfg: Settings, s: Pool, step: Step, z: Pool, id: Id) {
    if id in s.db.claims
    then (id in z.db.claims <==> KeepsClaim(cfg, s, step, id)) &&
         (id in z.db.claims ==> z.db.claims[id].worker == s.db.claims[id].worker)
    else if step.Take? && step.id == id then id in z.db.claims && z.db.claims[id].worker == step.w
    else id !in z.db.claims
  }

  /** Claims appear by `Take` alone, never change hands, and go as `KeepsClaim` says. */
  lemma ClaimStep(cfg: Settings, s: Pool, step: Step, id: Id)
    requires Enabled(cfg, s, step) && UserClaims(s)
    ensures ClaimFollows(cfg, s, step, Next(cfg, s, step), id)
  {
    if step.Repair? {
      ClaimFixed(cfg, s, id);
    } else if step.Reclaim? {
      ClaimHealed(cfg, s, step.w, id);
    } else if step.Stop? {
      ClaimStopped(cfg, s, step.w, id);
    } else if step.Finish? || step.Fail? || step.Drop? || step.EndCommand? {
      ClaimEnded(cfg, s, step, id);
    } else {
      ClaimMoved(cfg, s, step, id);
    }
  }

  lemma ClaimStopped(cfg: Settings, s: Pool, w: WorkerId, id: Id)
    ensures ClaimFollows(cfg, s, Stop(w), Next(cfg, s, Stop(w)), id)
  {
  }

  lemma ClaimEnded(cfg: Settings, s: Pool, step: Step, id: Id)
    requires Enabled(cfg, s, step) && (step.Finish? || step.Fail? || step.Drop? || step.EndCommand?)
    ensures ClaimFollows(cfg, s, step, Next(cfg, s, step), id)
  {
  }

  lemma ClaimMoved(cfg: Settings, s: Pool, step: Step, id: Id)
    requires Enabled(cfg, s, step) && !step.Repair? && !step.Reclaim? && !step.Stop?
    requires !(step.Finish? || step.Fail? || step.Drop? || step.EndCommand?)
    ensures ClaimFollows(cfg, s, step, Next(cfg, s, step), id)
  {
  }

  lemma ClaimFixed(cfg: Settings, s: Pool, id: Id)
    ensures ClaimFollows(cfg, s, Repair, Next(cfg, s, Repair), id)
  {
    Integrity.FixAt(s.db, id);
  }

  lemma ClaimHealed(cfg: Settings, s: Pool, w: WorkerId, id: Id)
    requires UserClaims(s)
    ensures ClaimFollows(cfg, s, Reclaim(w), Next(cfg, s, Reclaim(w)), id)
  {
    ReclaimHeals(cfg, s, w);
    if id in s.db.claims {
      assert IsUser(s.db.messages, id);
      Integrity.HealClaim(cfg, s.db, w, Of(s, w).leases, id);
    } else {
      Integrity.HealAddsNoClaim(cfg, s.db, w, Of(s, w).leases, id);
    }
    ClaimFromHeal(cfg, s, w, Next(cfg, s, Reclaim(w)), id);
  }

  /** The gate of a reclaim makes no difference. */
  lemma ReclaimHeals(cfg: Settings, s: Pool, w: WorkerId)
    ensures Next(cfg, s, Reclaim(w)).db == ReclaimAndHeal(cfg, s.db, w, Of(s, w).leases)
  {
    if !ReclaimNeeded(s.db) {
      Integrity.GateSkipsNothing(cfg, s.db, w, Of(s, w).leases);
    }
  }

  lemma ClaimFromHeal(cfg: Settings, s: Pool, w: WorkerId, z: Pool, id: Id)
    requires id in z.db.claims <==>
               id in s.db.claims && !Revocable(s.db, w, Of(s, w).leases, id) && HasStatus(s.db.messages, id, Processing)
    requires id in z.db.claims ==> z.db.claims[id] == s.db.claims[id]
    ensures ClaimFollows(cfg, s, Reclaim(w), z, id)
  {
  }

  // ---- one step, seen from one gateway ---------------------------------------------------

  /** What a step makes of the memory of gateway w. */
  function LocalAfter(s: Pool, step: Step, w: WorkerId): Local {
    var l := Of(s, w);
    match step
    case Start(v) => if v == w then Local(true, {}, {}, Idle) else l
    case Crash(v) => if v == w then NO_WORKER else l
    case Stop(v) => if v == w then NO_WORKER else l
    case Take(v, id, commands) =>
      if v == w then l.(leases := l.leases + {id}, phase := if commands.None? then Taken(id) else Commanding(id)) else l
    case Recheck(v) =>
      if v != w || l.phase.Idle? then l
      else if HasStatus(s.db.messages, l.phase.task, Cancelled) then l.(phase := Releasing(l.phase.task))
      else if l.phase.Taken? then l.(phase := Checked(l.phase.task))
      else l
    case Defer(v) => if v == w && !l.phase.Idle? then l.(phase := Releasing(l.phase.task)) else l
    case Place(v, _) => if v == w then l.(phase := Idle) else l
    case EndCommand(v) =>
      if v == w && !l.phase.Idle? then l.(leases := l.leases - {l.phase.task}, phase := Idle) else l
    case Drop(v, id) =>
      if v == w
      then l.(leases := l.leases - {id}, dropping := l.dropping - {id}, phase := if l.phase == Releasing(id) then Idle else l.phase)
      else l
    case Finish(v, id, _, _, _) => if v == w then l.(leases := l.leases - {id}) else l
    case FinishCancelled(v, id) => if v == w then l.(dropping := l.dropping + {id}) else l
    case Fail(v, id, _, _) =>
      if v == w then l.(leases := l.leases - {id}, phase := if l.phase == Commanding(id) then Idle else l.phase) else l
    case _ => l
  }

  lemma LocalStep(cfg: Settings, s: Pool, step: Step, w: WorkerId)
    requires Enabled(cfg, s, step)
    ensures Of(Next(cfg, s, step), w) == LocalAfter(s, step, w)
    ensures w in s.workers ==> w in Next(cfg, s, step).workers
    ensures step.Take? ==> step.w in Next(cfg, s, step).workers
  {
  }

  // ---- one step, seen from everywhere -------------------------------------------------------

  ghost predicate RowsFollow(cfg: Settings, s: Pool, step: Step, z: Pool) {
    forall id: Id :: RowFollows(cfg, s, step, z, id)
  }

  ghost predicate ClaimsFollow(cfg: Settings, s: Pool, step: Step, z: Pool) {
    forall id: Id :: ClaimFollows(cfg, s, step, z, id)
  }

  ghost predicate LocalFollows(s: Pool, step: Step, z: Pool, w: WorkerId) {
    Of(z, w) == LocalAfter(s, step, w) && (w in s.workers || (step.Take? && step.w == w) ==> w in z.workers)
  }

  ghost predicate LocalsFollow(s: Pool, step: Step, z: Pool) {
    forall w: WorkerId :: LocalFollows(s, step, z, w)
  }

  lemma RowsStep(cfg: Settings, s: Pool, step: Step)
    requires Enabled(cfg, s, step)
    ensures RowsFollow(cfg, s, step, Next(cfg, s, step))
  {
    forall id: Id
      ensures RowFollows(cfg, s, step, Next(cfg, s, step), id)
    {
      UserRowStep(cfg, s, step, id);
    }
  }

  lemma ClaimsStep(cfg: Settings, s: Pool, step: Step)
    requires Enabled(cfg, s, step) && UserClaims(s)
    ensures ClaimsFollow(cfg, s, step, Next(cfg, s, step))
  {
    forall id: Id
      ensures ClaimFollows(cfg, s, step, Next(cfg, s, step), id)
    {
      ClaimStep(cfg, s, step, id);
    }
  }

  lemma LocalsStep(cfg: Settings, s: Pool, step: Step)
    requires Enabled(cfg, s, step)
    ensures LocalsFollow(s, step, Next(cfg, s, step))
  {
    forall w: WorkerId
      ensures LocalFollows(s, step, Next(cfg, s, step), w)
    {
      LocalStep(cfg, s, step, w);
    }
  }

  /** All that follows from a step, of which the invariants are proved. */
  ghost predicate Follows(cfg: Settings, s: Pool, step: Step, z: Pool) {
    RowsFollow(cfg, s, step, z) && ClaimsFollow(cfg, s, step, z) && LocalsFollow(s, step, z) &&
    z.finished == if step.Finish? then s.finished + [(step.w, step.id)] else s.finished
  }

  lemma StepFollows(cfg: Settings, s: Pool, step: Step)
    requires Enabled(cfg, s, step) && UserClaims(s)
    ensures Follows(cfg, s, step, Next(cfg, s, step))
  {
    RowsStep(cfg, s, step);
    ClaimsStep(cfg, s, step);
    LocalsStep(cfg, s, step);
  }

  // ---- preservation, invariant by invariant ---------------------------------------------

  lemma UserClaimsStep(cfg: Settings, s: Pool, step: Step)
    requires Enabled(cfg, s, step) && UserClaims(s)
    ensures UserClaims(Next(cfg, s, step))
  {
    RowsStep(cfg, s, step);
    ClaimsStep(cfg, s, step);
    UserClaimsFollow(cfg, s, step, Next(cfg, s, step));
  }

  lemma UserClaimsFollow(cfg: Settings, s: Pool, step: Step, z: Pool)
    requires Enabled(cfg, s, step) && UserClaims(s) && RowsFollow(cfg, s, step, z) && ClaimsFollow(cfg, s, step, z)
    ensures UserClaims(z)
  {
    forall id | id in z.db.claims
      ensures IsUser(z.db.messages, id)
    {
      assert RowFollows(cfg, s, step, z, id) && ClaimFollows(cfg, s, step, z, id);
    }
  }

  /** A task comes into work by its claim alone. */
  lemma WorkStarts(cfg: Settings, s: Pool, step: Step, z: Pool, id: Id)
    requires RowFollows(cfg, s, step, z, id) && InWork(z, id)
    ensures InWork(s, id) || (step.Take? && step.id == id) || (step.Insert? && step.id == id && !IsUser(s.db.messages, id))
    ensures IsUser(s.db.messages, id) ==> z.db.messages[id].chat == s.db.messages[id].chat
  {
  }

  lemma InsertWaits(cfg: Settings, s: Pool, step: Step)
    requires Enabled(cfg, s, step) && step.Insert?
    ensures !InWork(Next(cfg, s, step), step.id)
  {
  }

  lemma OnePerChatStep(cfg: Settings, s: Pool, step: Step)
    requires Enabled(cfg, s, step) && OnePerChat(s)
    ensures OnePerChat(Next(cfg, s, step))
  {
    RowsStep(cfg, s, step);
    if step.Insert? { InsertWaits(cfg, s, step); }
    OnePerChatFollows(cfg, s, step, Next(cfg, s, step));
  }

  lemma OnePerChatFollows(cfg: Settings, s: Pool, step: Step, z: Pool)
    requires Enabled(cfg, s, step) && OnePerChat(s) && RowsFollow(cfg, s, step, z)
    requires step.Insert? ==> !InWork(z, step.id)
    ensures OnePerChat(z)
  {
    forall i, j | InWork(z, i) && InWork(z, j) && z.db.messages[i].chat == z.db.messages[j].chat
      ensures i == j || z.db.messages[i].chat == None
    {
      assert RowFollows(cfg, s, step, z, i) && RowFollows(cfg, s, step, z, j);
      WorkStarts(cfg, s, step, z, i);
      WorkStarts(cfg, s, step, z, j);
    }
  }

  lemma RememberedStep(cfg: Settings, s: Pool, step: Step)
    requires Enabled(cfg, s, step) && UserClaims(s) && Remembered(s)
    ensures Remembered(Next(cfg, s, step))
  {
    ClaimsStep(cfg, s, step);
    LocalsStep(cfg, s, step);
    RememberedFollows(cfg, s, step, Next(cfg, s, step));
  }

  lemma RememberedFollows(cfg: Settings, s: Pool, step: Step, z: Pool)
    requires Enabled(cfg, s, step) && Remembered(s) && ClaimsFollow(cfg, s, step, z) && LocalsFollow(s, step, z)
    ensures Remembered(z)
  {
    forall id | id in z.db.claims
      ensures z.db.claims[id].worker in z.workers
      ensures Live(z, z.db.claims[id].worker) ==> id in Of(z, z.db.claims[id].worker).leases
    {
      assert ClaimFollows(cfg, s, step, z, id);
      assert LocalFollows(s, step, z, z.db.claims[id].worker);
    }
  }

  /** How a task comes to be on its way out. */
  lemma TailGrows(s: Pool, step: Step, w: WorkerId, id: Id)
    requires id in Tail(LocalAfter(s, step, w)) && id !in Tail(Of(s, w))
    ensures || (step.Recheck? && step.w == w && HasStatus(s.db.messages, id, Cancelled))
            || (step.Defer? && step.w == w && !Of(s, w).phase.Idle? && Of(s, w).phase.task == id)
            || (step.FinishCancelled? && step.w == w && step.id == id)
  {
  }

  lemma CoveredStep(cfg: Settings, s: Pool, step: Step)
    requires Enabled(cfg, s, step) && Obeys(s, step, NoCommands)
    requires UserClaims(s) && Covered(s) && TailSettled(s)
    ensures Covered(Next(cfg, s, step)) && TailSettled(Next(cfg, s, step))
  {
    NoneUncovers(cfg, s, step);
    CoveredIff(cfg, s, step);
    RowsStep(cfg, s, step);
    ClaimsStep(cfg, s, step);
    LocalsStep(cfg, s, step);
    TailSettledFollows(cfg, s, step, Next(cfg, s, step));
  }

  lemma NoneUncovers(cfg: Settings, s: Pool, step: Step)
    requires Enabled(cfg, s, step) && Obeys(s, step, NoCommands) && TailSettled(s)
    ensures !Uncovers(s, step)
  {
  }

  lemma TailSettledFollows(cfg: Settings, s: Pool, step: Step, z: Pool)
    requires Enabled(cfg, s, step) && Obeys(s, step, NoCommands) && UserClaims(s) && TailSettled(s)
    requires RowsFollow(cfg, s, step, z) && ClaimsFollow(cfg, s, step, z) && LocalsFollow(s, step, z)
    ensures TailSettled(z)
  {
    forall id | id in z.db.claims && id in Tail(Of(z, z.db.claims[id].worker))
      ensures !HasStatus(z.db.messages, id, Processing)
    {
      assert RowFollows(cfg, s, step, z, id) && ClaimFollows(cfg, s, step, z, id);
      var w := z.db.claims[id].worker;
      assert LocalFollows(s, step, z, w);
      TailSettledAt(cfg, s, step, z, id, w);
    }
  }

  lemma TailSettledAt(cfg: Settings, s: Pool, step: Step, z: Pool, id: Id, w: WorkerId)
    requires Enabled(cfg, s, step) && Obeys(s, step, NoCommands) && UserClaims(s) && TailSettled(s)
    requires RowFollows(cfg, s, step, z, id) && ClaimFollows(cfg, s, step, z, id)
    requires id in z.db.claims && z.db.claims[id].worker == w && id in Tail(LocalAfter(s, step, w))
    ensures !HasStatus(z.db.messages, id, Processing)
  {
    if id !in Tail(Of(s, w)) {
      TailGrows(s, step, w, id);
    } else {
      TailKept(cfg, s, step, id, w);
    }
  }

  /** A claim already on its way out is of a task that is not taken again. */
  lemma TailKept(cfg: Settings, s: Pool, step: Step, id: Id, w: WorkerId)
    requires Enabled(cfg, s, step) && Obeys(s, step, NoCommands) && TailSettled(s) && id in Tail(Of(s, w))
    requires id in s.db.claims ==> s.db.claims[id].worker == w
    ensures id in s.db.claims ==> !HasStatus(s.db.messages, id, Processing)
    ensures step.Take? && step.id == id ==> step.w != w && id !in s.db.claims
  {
  }

  lemma BoundedStep(cfg: Settings, s: Pool, step: Step)
    requires Enabled(cfg, s, step) && Obeys(s, step, GuardedDefers) && Bounded(cfg, s)
    ensures Bounded(cfg, Next(cfg, s, step))
  {
    RowsStep(cfg, s, step);
    if step.Insert? { InsertBounded(cfg, s, step); }
    BoundedFollows(cfg, s, step, Next(cfg, s, step));
  }

  lemma InsertBounded(cfg: Settings, s: Pool, step: Step)
    requires Enabled(cfg, s, step) && step.Insert?
    ensures IsUser(Next(cfg, s, step).db.messages, step.id) && Next(cfg, s, step).db.messages[step.id].retries == 0
  {
  }

  lemma BoundedFollows(cfg: Settings, s: Pool, step: Step, z: Pool)
    requires Enabled(cfg, s, step) && Obeys(s, step, GuardedDefers) && Bounded(cfg, s) && RowsFollow(cfg, s, step, z)
    requires step.Insert? ==> IsUser(z.db.messages, step.id) && z.db.messages[step.id].retries == 0
    ensures Bounded(cfg, z)
  {
    forall id | IsUser(z.db.messages, id)
      ensures z.db.messages[id].status in {Pending, Processing, Error} ==> WithinLimit(cfg, z.db.messages[id])
    {
      assert RowFollows(cfg, s, step, z, id);
    }
  }

  // ---- whole runs -----------------------------------------------------------------------

  /** Whatever the interleaving, and whatever stale gateways do. */
  lemma {:induction false} SafeRun(cfg: Settings, s: Pool, steps: seq<Step>, rule: Rule)
    requires UserClaims(s) && OnePerChat(s) && Remembered(s) && Legal(cfg, s, steps, rule)
    ensures var z := After(cfg, s, steps); UserClaims(z) && OnePerChat(z) && Remembered(z)
    decreases |steps|
  {
    if steps != [] {
      UserClaimsStep(cfg, s, steps[0]);
      OnePerChatStep(cfg, s, steps[0]);
      RememberedStep(cfg, s, steps[0]);
      SafeRun(cfg, Next(cfg, s, steps[0]), steps[1..], rule);
    }
  }

  /** In every reachable state a chat has at most one task in work and a live
      gateway remembers every claim it has. */
  lemma PoolIsSafe(cfg: Settings, now: int, steps: seq<Step>, rule: Rule)
    requires Legal(cfg, Fresh(now), steps, rule)
    ensures var s := After(cfg, Fresh(now), steps); UserClaims(s) && OnePerChat(s) && Remembered(s)
  {
    SafeRun(cfg, Fresh(now), steps, rule);
  }

  /** A gateway with no lease in memory has no claim row, so the heartbeat it
      skips would have changed nothing. */
  lemma SkippedHeartbeat(cfg: Settings, s: Pool, w: WorkerId)
    requires Remembered(s) && Live(s, w) && Of(s, w).leases == {}
    ensures Heartbeat(cfg, s.db, w) == s.db
  {
    assert forall id | id in s.db.claims :: s.db.claims[id].worker != w;
    assert Heartbeat(cfg, s.db, w).claims == s.db.claims;
  }

  /** A gateway that shuts down leaves no claim behind. */
  lemma StopLeavesNoClaim(cfg: Settings, s: Pool, w: WorkerId, id: Id)
    requires Remembered(s) && Live(s, w) && id in Next(cfg, s, Stop(w)).db.claims
    ensures Next(cfg, s, Stop(w)).db.claims[id].worker != w
  {
    assert id in s.db.claims;
  }

  /** Without priority commands, processing => claim holds after every run, even
      if stale gateways finish, fail, defer or release tasks others now hold. */
  lemma {:induction false} CoveredRun(cfg: Settings, s: Pool, steps: seq<Step>)
    requires UserClaims(s) && Covered(s) && TailSettled(s) && Legal(cfg, s, steps, NoCommands)
    ensures var z := After(cfg, s, steps); Covered(z) && TailSettled(z)
    decreases |steps|
  {
    if steps != [] {
      UserClaimsStep(cfg, s, steps[0]);
      CoveredStep(cfg, s, steps[0]);
      CoveredRun(cfg, Next(cfg, s, steps[0]), steps[1..]);
    }
  }

  lemma ProcessingImpliesClaim(cfg: Settings, now: int, steps: seq<Step>)
    requires Legal(cfg, Fresh(now), steps, NoCommands)
    ensures Covered(After(cfg, Fresh(now), steps))
  {
    CoveredRun(cfg, Fresh(now), steps);
  }

  /** The step deletes its gateway's own claim on a task that is in work. */
  predicate Uncovers(s: Pool, step: Step) {
    match step
    case EndCommand(w) =>
      Of(s, w).phase.Commanding? &&
      InWork(s, Of(s, w).phase.task) && Of(s, w).phase.task in s.db.claims && s.db.claims[Of(s, w).phase.task].worker == w
    case Drop(w, t) => InWork(s, t) && t in s.db.claims && s.db.claims[t].worker == w
    case _ => false
  }

  /** Exactly which steps break processing => claim, of all steps of any gateway. */
  lemma CoveredIff(cfg: Settings, s: Pool, step: Step)
    requires Enabled(cfg, s, step) && UserClaims(s) && Covered(s)
    ensures Covered(Next(cfg, s, step)) <==> !Uncovers(s, step)
  {
    RowsStep(cfg, s, step);
    ClaimsStep(cfg, s, step);
    if step.Insert? { InsertWaits(cfg, s, step); }
    CoveredFollowsIff(cfg, s, step, Next(cfg, s, step));
  }

  lemma CoveredFollowsIff(cfg: Settings, s: Pool, step: Step, z: Pool)
    requires Enabled(cfg, s, step) && Covered(s) && RowsFollow(cfg, s, step, z) && ClaimsFollow(cfg, s, step, z)
    requires step.Insert? ==> !InWork(z, step.id)
    ensures Covered(z) <==> !Uncovers(s, step)
  {
    if Uncovers(s, step) {
      var t := if step.Drop? then step.id else Of(s, step.w).phase.task;
      assert RowFollows(cfg, s, step, z, t) && ClaimFollows(cfg, s, step, z, t);
      assert InWork(z, t) && t !in z.db.claims;
    } else {
      forall id | InWork(z, id)
        ensures id in z.db.claims
      {
        assert RowFollows(cfg, s, step, z, id) && ClaimFollows(cfg, s, step, z, id);
        WorkStarts(cfg, s, step, z, id);
        CoveredAt(cfg, s, step, z, id);
      }
    }
  }

  lemma CoveredAt(cfg: Settings, s: Pool, step: Step, z: Pool, id: Id)
    requires Covered(s) && RowFollows(cfg, s, step, z, id) && ClaimFollows(cfg, s, step, z, id) && InWork(z, id)
    requires !Uncovers(s, step) && Enabled(cfg, s, step) && (InWork(s, id) || (step.Take? && step.id == id))
    ensures id in z.db.claims
  {
  }

  ghost predicate AlwaysCovered(cfg: Settings, s: Pool, steps: seq<Step>)
    decreases |steps|
  {
    Covered(s) && (steps == [] || AlwaysCovered(cfg, Next(cfg, s, steps[0]), steps[1..]))
  }

  ghost predicate NeverUncovers(cfg: Settings, s: Pool, steps: seq<Step>)
    decreases |steps|
  {
    steps == [] || (!Uncovers(s, steps[0]) && NeverUncovers(cfg, Next(cfg, s, steps[0]), steps[1..]))
  }

  /** Over every run of any steps: processing => claim holds throughout exactly when
      no gateway deletes its own claim on a task in work. */
  lemma {:induction false} CoveredThroughoutIff(cfg: Settings, s: Pool, steps: seq<Step>, rule: Rule)
    requires UserClaims(s) && Covered(s) && Legal(cfg, s, steps, rule)
    ensures AlwaysCovered(cfg, s, steps) <==> NeverUncovers(cfg, s, steps)
    decreases |steps|
  {
    if steps != [] {
      var next := Next(cfg, s, steps[0]);
      CoveredIff(cfg, s, steps[0]);
      UserClaimsStep(cfg, s, steps[0]);
      if Covered(next) {
        CoveredThroughoutIff(cfg, next, steps[1..], rule);
      } else {
        assert !AlwaysCovered(cfg, next, steps[1..]);
      }
    }
  }

  /** What the next repair pass, by whichever gateway, makes of an uncovered task: a
      repeatable 'error' without a counted retry. */
  lemma CommandsUncover(cfg: Settings, s: Pool, w: WorkerId, v: WorkerId)
    requires Live(s, w) && Live(s, v) && Uncovers(s, EndCommand(w))
    ensures var t, mid := Of(s, w).phase.task, Next(cfg, s, EndCommand(w));
            InWork(mid, t) && !Covered(mid) &&
            Next(cfg, mid, Reclaim(v)).db.messages[t] ==
              s.db.messages[t].(status := Error, updatedAt := s.db.now)
  {
    var t, mid := Of(s, w).phase.task, Next(cfg, s, EndCommand(w));
    assert mid.db.messages[t] == s.db.messages[t] && t !in mid.db.claims;
    UserRowStep(cfg, mid, Reclaim(v), t);
  }

  // ---- claim => processing ----------------------------------------------------------------

  /** claim => processing. */
  ghost predicate Backing(s: Pool) {
    forall id | id in s.db.claims :: HasStatus(s.db.messages, id, Processing)
  }

  predicate ClaimedByOther(s: Pool, w: WorkerId, t: Id) {
    t in s.db.claims && s.db.claims[t].worker != w
  }

  /** The step takes a claimed task out of work and leaves the claim. */
  predicate Strands(s: Pool, step: Step) {
    match step
    case Cancel(t) => t in s.db.claims
    case Defer(w) => !Of(s, w).phase.Idle? && Of(s, w).phase.task in s.db.claims
    case Finish(w, t, _, _, _) => ClaimedByOther(s, w, t)
    case Fail(w, t, _, _) => ClaimedByOther(s, w, t)
    case Stop(w) => exists t | t in Of(s, w).leases :: ClaimedByOther(s, w, t)
    case _ => false
  }

  /** The tasks it strands. */
  predicate StrandedBy(s: Pool, step: Step, t: Id) {
    match step
    case Cancel(u) => t == u && t in s.db.claims
    case Defer(w) => !Of(s, w).phase.Idle? && Of(s, w).phase.task == t && t in s.db.claims
    case Finish(w, u, _, _, _) => t == u && ClaimedByOther(s, w, t)
    case Fail(w, u, _, _) => t == u && ClaimedByOther(s, w, t)
    case Stop(w) => t in Of(s, w).leases && ClaimedByOther(s, w, t)
    case _ => false
  }

  /** Exactly which steps break claim => processing, of all steps of any gateway. */
  lemma BackingIff(cfg: Settings, s: Pool, step: Step)
    requires Enabled(cfg, s, step) && UserClaims(s) && Backing(s)
    ensures Backing(Next(cfg, s, step)) <==> !Strands(s, step)
    ensures forall t: Id :: StrandedAt(Next(cfg, s, step), t) <==> StrandedBy(s, step, t)
  {
    RowsStep(cfg, s, step);
    ClaimsStep(cfg, s, step);
    BackingFollowsIff(cfg, s, step, Next(cfg, s, step));
  }

  /** A claim whose task is not processing. */
  predicate StrandedAt(s: Pool, t: Id) {
    t in s.db.claims && !HasStatus(s.db.messages, t, Processing)
  }

  lemma BackingFollowsIff(cfg: Settings, s: Pool, step: Step, z: Pool)
    requires Enabled(cfg, s, step) && UserClaims(s) && Backing(s)
    requires RowsFollow(cfg, s, step, z) && ClaimsFollow(cfg, s, step, z)
    ensures Backing(z) <==> !Strands(s, step)
    ensures forall t: Id :: StrandedAt(z, t) <==> StrandedBy(s, step, t)
  {
    forall t: Id
      ensures StrandedAt(z, t) <==> StrandedBy(s, step, t)
    {
      assert RowFollows(cfg, s, step, z, t) && ClaimFollows(cfg, s, step, z, t);
      StrandedIff(cfg, s, step, z, t);
    }
    StrandsSome(s, step);
    if t: Id :| StrandedBy(s, step, t) {
      assert StrandedAt(z, t);
    }
    forall t | t in z.db.claims && !Strands(s, step)
      ensures HasStatus(z.db.messages, t, Processing)
    {
      assert !StrandedAt(z, t);
    }
  }

  lemma StrandedIff(cfg: Settings, s: Pool, step: Step, z: Pool, t: Id)
    requires Enabled(cfg, s, step) && UserClaims(s) && Backing(s)
    requires RowFollows(cfg, s, step, z, t) && ClaimFollows(cfg, s, step, z, t)
    ensures StrandedAt(z, t) <==> StrandedBy(s, step, t)
  {
    if t in s.db.claims {
      assert InWork(s, t);
      StrandedRowIff(cfg, s, step, t);
    }
  }

  /** A claimed task in work, its claim kept: the row alone decides. */
  lemma StrandedRowIff(cfg: Settings, s: Pool, step: Step, t: Id)
    requires Enabled(cfg, s, step) && InWork(s, t) && t in s.db.claims
    ensures KeepsClaim(cfg, s, step, t) && UserRow(cfg, s, step, t).status != Processing <==> StrandedBy(s, step, t)
  {
  }

  lemma StrandsSome(s: Pool, step: Step)
    ensures Strands(s, step) <==> exists t: Id :: StrandedBy(s, step, t)
  {
    match step
    case Cancel(t) => assert StrandedBy(s, step, t) <==> Strands(s, step);
    case Defer(w) => if !Of(s, w).phase.Idle? { assert StrandedBy(s, step, Of(s, w).phase.task) <==> Strands(s, step); }
    case Finish(w, t, _, _, _) => assert StrandedBy(s, step, t) <==> Strands(s, step);
    case Fail(w, t, _, _) => assert StrandedBy(s, step, t) <==> Strands(s, step);
    case Stop(w) =>
      if t :| t in Of(s, w).leases && ClaimedByOther(s, w, t) { assert StrandedBy(s, step, t); }
    case _ =>
  }

  ghost predicate AlwaysBacking(cfg: Settings, s: Pool, steps: seq<Step>)
    decreases |steps|
  {
    Backing(s) && (steps == [] || AlwaysBacking(cfg, Next(cfg, s, steps[0]), steps[1..]))
  }

  ghost predicate NeverStrands(cfg: Settings, s: Pool, steps: seq<Step>)
    decreases |steps|
  {
    steps == [] || (!Strands(s, steps[0]) && NeverStrands(cfg, Next(cfg, s, steps[0]), steps[1..]))
  }

  /** Over every run of any steps: claim => processing holds throughout exactly when no
      step takes a claimed task out of work and leaves the claim. */
  lemma {:induction false} BackingThroughoutIff(cfg: Settings, s: Pool, steps: seq<Step>, rule: Rule)
    requires UserClaims(s) && Backing(s) && Legal(cfg, s, steps, rule)
    ensures AlwaysBacking(cfg, s, steps) <==> NeverStrands(cfg, s, steps)
    decreases |steps|
  {
    if steps != [] {
      var next := Next(cfg, s, steps[0]);
      BackingIff(cfg, s, steps[0]);
      UserClaimsStep(cfg, s, steps[0]);
      if Backing(next) {
        BackingThroughoutIff(cfg, next, steps[1..], rule);
      } else {
        assert !AlwaysBacking(cfg, next, steps[1..]);
      }
    }
  }

  /** The next repair pass, by whichever gateway, removes exactly the stranded claims
      and those it revokes. */
  lemma ReclaimRemovesStranded(cfg: Settings, s: Pool, v: WorkerId, t: Id)
    requires UserClaims(s) && Live(s, v) && t in s.db.claims
    ensures t !in Next(cfg, s, Reclaim(v)).db.claims <==> StrandedAt(s, t) || Revocable(s.db, v, Of(s, v).leases, t)
  {
    ClaimHealed(cfg, s, v, t);
  }

  /** What a step strands is gone after the next repair pass, and claim => processing
      holds again. */
  lemma StrandedUntilReclaim(cfg: Settings, s: Pool, step: Step, v: WorkerId)
    requires Enabled(cfg, s, step) && UserClaims(s) && Backing(s) && Strands(s, step) && Live(Next(cfg, s, step), v)
    ensures !Backing(Next(cfg, s, step)) && Backing(Next(cfg, Next(cfg, s, step), Reclaim(v)))
  {
    var mid := Next(cfg, s, step);
    BackingIff(cfg, s, step);
    UserClaimsStep(cfg, s, step);
    ReclaimBacks(cfg, mid, v);
  }

  lemma ReclaimBacks(cfg: Settings, s: Pool, v: WorkerId)
    requires UserClaims(s)
    ensures Backing(Next(cfg, s, Reclaim(v)))
  {
    ReclaimHeals(cfg, s, v);
    Integrity.HealRepairs(cfg, s.db, v, Of(s, v).leases);
  }

  // ---- retries -----------------------------------------------------------------------------

  /** The step counts a failure against the user row `id`. */
  ghost predicate Counts(s: Pool, step: Step, id: Id) {
    match step
    case Reclaim(w) => InWork(s, id) && Revocable(s.db, w, Of(s, w).leases, id)
    case Fail(_, t, _, _) => t == id
    case _ => false
  }

  ghost function Failures(cfg: Settings, s: Pool, steps: seq<Step>, id: Id): nat
    decreases |steps|
  {
    if steps == [] then 0
    else (if Counts(s, steps[0], id) then 1 else 0) + Failures(cfg, Next(cfg, s, steps[0]), steps[1..], id)
  }

  /** retry_count is exactly the number of failures counted, on every run; the
      count that reaches the limit makes the row 'failed'. */
  lemma {:induction false} RetriesCountFailures(cfg: Settings, s: Pool, steps: seq<Step>, rule: Rule, id: Id)
    requires IsUser(s.db.messages, id) && Legal(cfg, s, steps, rule)
    ensures var z := After(cfg, s, steps).db.messages;
            IsUser(z, id) && z[id].retries == s.db.messages[id].retries + Failures(cfg, s, steps, id)
    ensures steps != [] && Counts(s, steps[0], id) ==>
              (s.db.messages[id].retries + 1 >= cfg.maxRetries <==>
               HasStatus(Next(cfg, s, steps[0]).db.messages, id, Failed))
    decreases |steps|
  {
    if steps != [] {
      UserRowStep(cfg, s, steps[0], id);
      RetriesCountFailures(cfg, Next(cfg, s, steps[0]), steps[1..], rule, id);
    }
  }

  /** An unfinished task always has retries left, as long as a deferral finds its
      task still processing. */
  lemma {:induction false} BoundedRun(cfg: Settings, s: Pool, steps: seq<Step>)
    requires Bounded(cfg, s) && Legal(cfg, s, steps, GuardedDefers)
    ensures Bounded(cfg, After(cfg, s, steps))
    decreases |steps|
  {
    if steps != [] {
      BoundedStep(cfg, s, steps[0]);
      BoundedRun(cfg, Next(cfg, s, steps[0]), steps[1..]);
    }
  }

  lemma RetriesBounded(cfg: Settings, now: int, steps: seq<Step>, id: Id)
    requires cfg.maxRetries >= 1 && Legal(cfg, Fresh(now), steps, GuardedDefers)
    ensures var msgs := After(cfg, Fresh(now), steps).db.messages;
            IsUser(msgs, id) && msgs[id].status in {Pending, Processing, Error} ==> msgs[id].retries < cfg.maxRetries
  {
    BoundedRun(cfg, Fresh(now), steps);
  }

  /** Exactly when a deferral keeps the bound: the row it puts back, whatever its
      status by now, must not have used up its retries. */
  lemma DeferKeepsBoundIff(cfg: Settings, s: Pool, w: WorkerId)
    requires Bounded(cfg, s) && Enabled(cfg, s, Defer(w))
    ensures var t := Of(s, w).phase.task;
            Bounded(cfg, Next(cfg, s, Defer(w))) <==>
              (IsUser(s.db.messages, t) ==> WithinLimit(cfg, s.db.messages[t]))
  {
    var t, after := Of(s, w).phase.task, Next(cfg, s, Defer(w));
    UserRowStep(cfg, s, Defer(w), t);
    forall id: Id | id != t
      ensures IsUser(after.db.messages, id) <==> IsUser(s.db.messages, id)
      ensures IsUser(s.db.messages, id) ==> after.db.messages[id] == s.db.messages[id]
    {
      UserRowStep(cfg, s, Defer(w), id);
    }
  }

  // ---- finished rows ------------------------------------------------------------------------

  predicate RecoveryStep(step: Step) {
    step.Tick? || step.Take? || step.Beat? || step.Reclaim? || step.Stop? || step.Repair? || step.Drop? || step.Recheck?
  }

  /** Claims, heartbeats, reclaims, repairs and shutdowns, by any gateways in any
      order, never touch a user row that is completed, failed or cancelled. */
  lemma {:induction false} FinishedRowsUntouched(cfg: Settings, s: Pool, steps: seq<Step>, rule: Rule, id: Id)
    requires IsUser(s.db.messages, id) && s.db.messages[id].status in {Completed, Failed, Cancelled}
    requires Legal(cfg, s, steps, rule) && forall i | 0 <= i < |steps| :: RecoveryStep(steps[i])
    ensures var z := After(cfg, s, steps).db.messages; id in z && z[id] == s.db.messages[id]
    decreases |steps|
  {
    if steps != [] {
      UserRowStep(cfg, s, steps[0], id);
      FinishedRowsUntouched(cfg, Next(cfg, s, steps[0]), steps[1..], rule, id);
    }
  }
}
