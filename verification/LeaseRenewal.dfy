/** Heartbeats: what one renews, and that gateways whose heartbeat comes at least once
    per timeout are never taken a lease from, which is the hypothesis of
    `SingleOwner.OneOwner`. */
module LeaseRenewal {
  import opened Tables
  import opened PoolSteps
  import opened PoolRuns
  import opened PoolSafety
  import opened PoolWitnesses
  import SingleOwner
  import Integrity

  // ---- one heartbeat ----------------------------------------------------------------------

  /** A heartbeat gives every claim of its gateway a whole timeout from now, and leaves
      the claims of others and all rows as they are. */
  lemma BeatRenews(cfg: Settings, s: Pool, w: WorkerId)
    requires Of(s, w).leases != {}
    ensures var z := Next(cfg, s, Beat(w));
            && z.db.messages == s.db.messages && z.db.claims.Keys == s.db.claims.Keys && z.workers == s.workers
            && (forall id | id in s.db.claims && s.db.claims[id].worker == w ::
                  z.db.claims[id].worker == w && z.db.claims[id].leaseUntil == s.db.now + cfg.timeout)
            && (forall id | id in s.db.claims && s.db.claims[id].worker != w :: z.db.claims[id] == s.db.claims[id])
  {
  }

  // ---- one step, seen from one lease ----------------------------------------------------------

  /** A lease is set by the claim, renewed by a heartbeat, and not changed otherwise. */
  ghost predicate LeaseFollows(cfg: Settings, s: Pool, step: Step, z: Pool, id: Id) {
    id in z.db.claims ==>
      if id !in s.db.claims then step.Take? && step.id == id && z.db.claims[id] == Claim(step.w, s.db.now + cfg.timeout)
      else if step.Beat? && s.db.claims[id].worker == step.w then z.db.claims[id] == Claim(step.w, s.db.now + cfg.timeout)
      else z.db.claims[id] == s.db.claims[id]
  }

  lemma LeaseStep(cfg: Settings, s: Pool, step: Step, id: Id)
    requires Enabled(cfg, s, step) && UserClaims(s) && Remembered(s)
    ensures LeaseFollows(cfg, s, step, Next(cfg, s, step), id)
  {
    if step.Reclaim? {
      LeaseHealed(cfg, s, step.w, id);
    } else if step.Repair? {
      Integrity.FixAt(s.db, id);
    } else if step.Beat? {
      LeaseBeaten(cfg, s, step.w, id);
    } else if step.Stop? {
      LeaseStopped(cfg, s, step.w, id);
    } else if step.Finish? || step.Fail? {
      LeaseEnded(cfg, s, step, id);
    } else if step.Drop? || step.EndCommand? {
      LeaseDropped(cfg, s, step, id);
    } else {
      LeaseMoved(cfg, s, step, id);
    }
  }

  lemma LeaseHealed(cfg: Settings, s: Pool, w: WorkerId, id: Id)
    requires UserClaims(s)
    ensures LeaseFollows(cfg, s, Reclaim(w), Next(cfg, s, Reclaim(w)), id)
  {
    ReclaimHeals(cfg, s, w);
    if id in s.db.claims {
      assert IsUser(s.db.messages, id);
      Integrity.HealClaim(cfg, s.db, w, Of(s, w).leases, id);
    } else {
      Integrity.HealAddsNoClaim(cfg, s.db, w, Of(s, w).leases, id);
    }
  }

  lemma LeaseBeaten(cfg: Settings, s: Pool, w: WorkerId, id: Id)
    requires Live(s, w) && Remembered(s)
    ensures LeaseFollows(cfg, s, Beat(w), Next(cfg, s, Beat(w)), id)
  {
    if Of(s, w).leases != {} {
      BeatRenews(cfg, s, w);
    }
  }

  lemma LeaseEnded(cfg: Settings, s: Pool, step: Step, id: Id)
    requires step.Finish? || step.Fail?
    ensures LeaseFollows(cfg, s, step, Next(cfg, s, step), id)
  {
  }

  lemma LeaseDropped(cfg: Settings, s: Pool, step: Step, id: Id)
    requires step.Drop? || step.EndCommand?
    ensures LeaseFollows(cfg, s, step, Next(cfg, s, step), id)
  {
  }

  lemma LeaseStopped(cfg: Settings, s: Pool, w: WorkerId, id: Id)
    ensures LeaseFollows(cfg, s, Stop(w), Next(cfg, s, Stop(w)), id)
  {
  }

  lemma LeaseMoved(cfg: Settings, s: Pool, step: Step, id: Id)
    requires Enabled(cfg, s, step) && !step.Reclaim? && !step.Repair? && !step.Beat?
    requires !(step.Stop? || step.Finish? || step.Fail? || step.Drop? || step.EndCommand?)
    ensures LeaseFollows(cfg, s, step, Next(cfg, s, step), id)
  {
  }

  // ---- punctual runs ------------------------------------------------------------------------------

  /** When each gateway last started or sent a heartbeat. */
  type Beats = map<WorkerId, int>

  function Beaten(s: Pool, beats: Beats, step: Step): Beats {
    match step
    case Start(w) => beats[w := s.db.now]
    case Beat(w) => beats[w := s.db.now]
    case _ => beats
  }

  /** Every live gateway has started or sent a heartbeat within the last timeout. */
  ghost predicate OnTime(cfg: Settings, s: Pool, beats: Beats) {
    forall w | Live(s, w) && w in s.workers :: w in beats && s.db.now <= beats[w] + cfg.timeout
  }

  ghost predicate Punctual(cfg: Settings, s: Pool, beats: Beats, steps: seq<Step>)
    decreases |steps|
  {
    OnTime(cfg, s, beats) &&
    (steps == [] || Punctual(cfg, Next(cfg, s, steps[0]), Beaten(s, beats, steps[0]), steps[1..]))
  }

  /** A claim of a live gateway runs at least a timeout beyond its last heartbeat. */
  ghost predicate Renewed(cfg: Settings, s: Pool, beats: Beats) {
    (forall w | w in s.workers && Live(s, w) :: w in beats && beats[w] <= s.db.now) &&
    (forall id | id in s.db.claims :: RenewedAt(cfg, s, beats, id))
  }

  predicate RenewedAt(cfg: Settings, s: Pool, beats: Beats, id: Id)
    requires id in s.db.claims
  {
    var c := s.db.claims[id];
    Live(s, c.worker) ==> c.worker in beats && beats[c.worker] + cfg.timeout <= c.leaseUntil
  }

  lemma ClockStep(cfg: Settings, s: Pool, step: Step)
    ensures s.db.now <= Next(cfg, s, step).db.now
  {
    if step.Reclaim? {
      ReclaimHeals(cfg, s, step.w);
    } else if step.Repair? {
      Integrity.FixAt(s.db, 0);
    } else {
      ClockMoves(cfg, s, step);
    }
  }

  lemma ClockMoves(cfg: Settings, s: Pool, step: Step)
    requires !step.Reclaim? && !step.Repair?
    ensures s.db.now <= Next(cfg, s, step).db.now
  {
  }

  lemma RenewedStep(cfg: Settings, s: Pool, beats: Beats, step: Step)
    requires Enabled(cfg, s, step) && UserClaims(s) && Remembered(s) && Renewed(cfg, s, beats)
    ensures Renewed(cfg, Next(cfg, s, step), Beaten(s, beats, step))
  {
    var z := Next(cfg, s, step);
    ClockStep(cfg, s, step);
    LocalsStep(cfg, s, step);
    forall id | id in z.db.claims
      ensures RenewedAt(cfg, z, Beaten(s, beats, step), id)
    {
      LeaseStep(cfg, s, step, id);
      RenewedFollows(cfg, s, beats, step, z, id);
    }
    GatewaysFollow(cfg, s, beats, step, z);
  }

  lemma RenewedFollows(cfg: Settings, s: Pool, beats: Beats, step: Step, z: Pool, id: Id)
    requires Enabled(cfg, s, step) && Remembered(s) && Renewed(cfg, s, beats) && LocalsFollow(s, step, z)
    requires id in z.db.claims && LeaseFollows(cfg, s, step, z, id)
    ensures RenewedAt(cfg, z, Beaten(s, beats, step), id)
  {
    var w := z.db.claims[id].worker;
    assert LocalFollows(s, step, z, w);
    if id in s.db.claims {
      assert RenewedAt(cfg, s, beats, id);
    }
  }

  lemma GatewaysFollow(cfg: Settings, s: Pool, beats: Beats, step: Step, z: Pool)
    requires Enabled(cfg, s, step) && Renewed(cfg, s, beats) && LocalsFollow(s, step, z) && s.db.now <= z.db.now
    ensures forall w | w in z.workers && Live(z, w) :: w in Beaten(s, beats, step) && Beaten(s, beats, step)[w] <= z.db.now
  {
    forall w | w in z.workers && Live(z, w)
      ensures w in Beaten(s, beats, step) && Beaten(s, beats, step)[w] <= z.db.now
    {
      assert LocalFollows(s, step, z, w);
    }
  }

  /** Gateways on time have no expired lease. */
  lemma OnTimeIsFresh(cfg: Settings, s: Pool, beats: Beats, except: set<WorkerId>)
    requires OnTime(cfg, s, beats) && Renewed(cfg, s, beats)
    ensures FreshLeases(s, except)
  {
    forall id | id in s.db.claims && Live(s, s.db.claims[id].worker)
      ensures s.db.claims[id].leaseUntil >= s.db.now
    {
      assert RenewedAt(cfg, s, beats, id);
    }
  }

  ghost predicate AllOrderly(cfg: Settings, s: Pool, steps: seq<Step>)
    decreases |steps|
  {
    steps == [] || (Orderly(s, steps[0]) && AllOrderly(cfg, Next(cfg, s, steps[0]), steps[1..]))
  }

  /** In a punctual run every reclaim and every repair finds the leases of live gateways
      fresh: the run is disciplined if its finals and shutdowns are orderly. */
  lemma {:induction false} PunctualIsDisciplined(cfg: Settings, s: Pool, beats: Beats, steps: seq<Step>)
    requires UserClaims(s) && Remembered(s) && Renewed(cfg, s, beats)
    requires Legal(cfg, s, steps, AnyStep) && Punctual(cfg, s, beats, steps)
    ensures FreshLeases(After(cfg, s, steps), {})
    ensures AllOrderly(cfg, s, steps) ==> Legal(cfg, s, steps, Disciplined)
    decreases |steps|
  {
    OnTimeIsFresh(cfg, s, beats, {});
    if steps != [] {
      UserClaimsStep(cfg, s, steps[0]);
      RememberedStep(cfg, s, steps[0]);
      RenewedStep(cfg, s, beats, steps[0]);
      PunctualIsDisciplined(cfg, Next(cfg, s, steps[0]), Beaten(s, beats, steps[0]), steps[1..]);
      if steps[0].Reclaim? {
        OnTimeIsFresh(cfg, s, beats, {steps[0].w});
      }
    }
  }

  /** Every run in which the heartbeats are punctual, and finals and shutdowns orderly,
      crashes included: a live gateway keeps what it holds, alone, and no task is
      answered twice. */
  lemma PunctualGatewaysOwn(cfg: Settings, now: int, steps: seq<Step>)
    requires Legal(cfg, Fresh(now), steps, AnyStep)
    requires Punctual(cfg, Fresh(now), map[], steps) && AllOrderly(cfg, Fresh(now), steps)
    ensures var s := After(cfg, Fresh(now), steps);
            (forall v: WorkerId, w: WorkerId, t: Id :: HeldBy(s, v, t) && HeldBy(s, w, t) ==> v == w) &&
            (forall w: WorkerId, t: Id :: HeldBy(s, w, t) ==>
               HasStatus(s.db.messages, t, Cancelled) || (t in s.db.claims && s.db.claims[t].worker == w)) &&
            (forall i, j :: 0 <= i < j < |s.finished| ==> s.finished[i].1 != s.finished[j].1)
  {
    PunctualIsDisciplined(cfg, Fresh(now), map[], steps);
    SingleOwner.OneOwner(cfg, now, steps);
  }

  /** The bound is sharp: a heartbeat that is one second late, with a timeout of ten,
      is enough for two gateways to hold one task. */
  lemma LateLosesTask()
    ensures exists s: Pool :: Reaches(THREE_TRIES, Fresh(0), s, AnyStep) && HeldBy(s, 1, 0) && HeldBy(s, 2, 0)
  {
    var s := TakenFromLate();
    assert 0 in Held(Of(s, 1)) && 0 in Held(Of(s, 2));
  }
}
