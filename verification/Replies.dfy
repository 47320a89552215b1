/** What becomes of the answer rows: each statement that takes a task back, ends it or
    times it out, seen from one assistant row and column by column. */
module Replies {
  import opened Tables
  import opened PoolSteps
  import opened PoolRuns
  import opened PoolSafety
  import opened PoolWitnesses
  import Integrity
  import Assembly = Turns

  predicate IsReply(msgs: Messages, r: Id) {
    r in msgs && msgs[r].role == Assistant
  }

  /** The next failure of the task is its last. */
  predicate Spent(cfg: Settings, msgs: Messages, t: Id) {
    (if t in msgs then msgs[t].retries else 0) + 1 >= cfg.maxRetries
  }

  /** The row answers one of these tasks. */
  predicate Answers(m: Message, tasks: set<Id>) {
    m.replyTo.Some? && m.replyTo.value in tasks
  }

  // ---- a task that is taken back ---------------------------------------------------------------

  /** A reply of a task whose failure is counted: deleted while tries are left, if it is
      processing or failed; failed with its task at the last try, if it is processing;
      any other stays. */
  ghost predicate TakenBack(cfg: Settings, before: Messages, now: int, after: Messages, r: Id)
    requires IsReply(before, r) && before[r].replyTo.Some?
  {
    var m := before[r];
    if !Spent(cfg, before, m.replyTo.value) then
      (r in after <==> m.status != Processing && m.status != Failed) && (r in after ==> after[r] == m)
    else
      r in after && after[r] == if m.status == Processing then m.(status := Failed, updatedAt := now) else m
  }

  /** A pass revokes the claims that have expired, but for its gateway's own. */
  predicate Expires(db: Database, w: WorkerId, own: set<Id>, t: Id) {
    t in db.claims && db.claims[t].leaseUntil < db.now && (t !in own || db.claims[t].worker != w)
  }

  /** Some user row is what it answers. */
  predicate HasTask(msgs: Messages, m: Message) {
    m.replyTo.Some? && m.replyTo.value in msgs && msgs[m.replyTo.value].role == User
  }

  lemma RevokedReply(cfg: Settings, db: Database, w: WorkerId, own: set<Id>, r: Id)
    requires ClaimsOnUsers(db) && IsReply(db.messages, r)
    ensures var m, after := db.messages[r], Revoke(cfg, db, w, own).messages;
            if m.replyTo.Some? && Expires(db, w, own, m.replyTo.value) then TakenBack(cfg, db.messages, db.now, after, r)
            else r in after && after[r] == m
  {
    var ids := Revoked(db, w, own);
    assert r !in ids;
    assert forall t: Id :: t in ids <==> Expires(db, w, own, t);
    assert forall t: Id :: LastTry(cfg, db.messages, t) <==> Spent(cfg, db.messages, t);
  }

  lemma RevokeKeepsTasks(cfg: Settings, db: Database, w: WorkerId, own: set<Id>, t: Id)
    ensures IsUser(Revoke(cfg, db, w, own).messages, t) <==> IsUser(db.messages, t)
  {
  }

  lemma HealedReply(db: Database, r: Id)
    ensures var after := Heal(db).messages;
            IsReply(db.messages, r) ==>
              r in after &&
              after[r] == (if db.messages[r].status == Processing && !HasTask(db.messages, db.messages[r])
                           then db.messages[r].(status := Failed, updatedAt := db.now) else db.messages[r])
    ensures r !in db.messages ==> r !in Heal(db).messages
  {
    var a := MarkUnclaimed(db);
    assert forall t: Id :: IsUser(a.messages, t) <==> IsUser(db.messages, t);
  }

  /** One whole pass of the channel's repair: the replies of the tasks it revokes are
      taken back, a processing reply without a user row fails, and all others stay. */
  lemma ReclaimedReply(cfg: Settings, db: Database, w: WorkerId, own: set<Id>, r: Id)
    requires ClaimsOnUsers(db) && IsReply(db.messages, r)
    ensures var m, after := db.messages[r], ReclaimAndHeal(cfg, db, w, own).messages;
            if HasTask(db.messages, m) then
              if Expires(db, w, own, m.replyTo.value) then TakenBack(cfg, db.messages, db.now, after, r)
              else r in after && after[r] == m
            else r in after ==> after[r].status != Processing
  {
    var mid := Revoke(cfg, db, w, own);
    RevokedReply(cfg, db, w, own, r);
    HealedReply(mid, r);
    if db.messages[r].replyTo.Some? {
      RevokeKeepsTasks(cfg, db, w, own, db.messages[r].replyTo.value);
    }
  }

  /** No client waits for a task that was revoked: none of its replies is left processing. */
  lemma NoReplyWaits(cfg: Settings, db: Database, w: WorkerId, own: set<Id>, t: Id, r: Id)
    requires ClaimsOnUsers(db) && Expires(db, w, own, t)
    requires IsReply(db.messages, r) && db.messages[r].replyTo == Some(t)
    ensures var after := ReclaimAndHeal(cfg, db, w, own).messages; r in after ==> after[r].status != Processing
  {
    ReclaimedReply(cfg, db, w, own, r);
  }

  // ---- the timer of single mode -------------------------------------------------------------------

  /** Processing for longer than the timeout. */
  predicate Overdue(cfg: Settings, now: int, m: Message) {
    m.status == Processing && m.updatedAt + cfg.timeout < now
  }

  /** A user row is taken back exactly when it is overdue. */
  lemma UnstuckTask(cfg: Settings, db: Database, t: Id)
    requires IsUser(db.messages, t)
    ensures var m, after := db.messages[t], Unstuck(cfg, db).messages;
            t in after &&
            after[t] == if Overdue(cfg, db.now, m)
                        then m.(status := if m.retries + 1 >= cfg.maxRetries then Failed else Pending,
                                retries := m.retries + 1, updatedAt := db.now)
                        else m
  {
    var ids := StuckTasks(cfg, db);
    assert t in ids <==> Overdue(cfg, db.now, db.messages[t]);
    assert RevokedRow(cfg, db.now, db.messages, ids, t).role == User;
  }

  /** A reply of an overdue task is taken back with it, any other fails when it is
      overdue itself. */
  lemma UnstuckReply(cfg: Settings, db: Database, r: Id)
    requires IsReply(db.messages, r)
    ensures var m, after := db.messages[r], Unstuck(cfg, db).messages;
            var late := m.replyTo.Some? && IsUser(db.messages, m.replyTo.value) && Overdue(cfg, db.now, db.messages[m.replyTo.value]);
            if late then
              if !Spent(cfg, db.messages, m.replyTo.value) && m.status in {Processing, Failed} then r !in after
              else r in after && after[r] == if m.status == Processing then m.(status := Failed, updatedAt := db.now) else m
            else r in after && after[r] == if Overdue(cfg, db.now, m) then m.(status := Failed, updatedAt := db.now) else m
  {
    var ids := StuckTasks(cfg, db);
    var mid := RevokeAll(cfg, db.now, db.messages, ids);
    assert r !in ids;
    RevokedBy(cfg, db.now, db.messages, ids, r);
    if db.messages[r].replyTo.Some? {
      var t := db.messages[r].replyTo.value;
      assert t in ids <==> IsUser(db.messages, t) && Overdue(cfg, db.now, db.messages[t]);
    }
    FailedWhenOld(cfg, db.(messages := mid), r);
  }

  lemma RevokedBy(cfg: Settings, now: int, msgs: Messages, ids: set<Id>, r: Id)
    requires IsReply(msgs, r) && r !in ids
    ensures var m, after := msgs[r], RevokeAll(cfg, now, msgs, ids);
            if Answers(m, ids) then TakenBack(cfg, msgs, now, after, r) else r in after && after[r] == m
  {
    assert forall t: Id :: LastTry(cfg, msgs, t) <==> Spent(cfg, msgs, t);
  }

  lemma FailedWhenOld(cfg: Settings, db: Database, r: Id)
    ensures var after := FailOldPlaceholders(cfg, db).messages;
            (r in after <==> r in db.messages) &&
            (IsReply(db.messages, r) ==>
               after[r] == if Overdue(cfg, db.now, db.messages[r]) then db.messages[r].(status := Failed, updatedAt := db.now)
                           else db.messages[r])
  {
  }

  /** Every delivery and every reasoning stored gives the placeholder a whole timeout
      more, so a turn that keeps talking is never failed by the timer. */
  lemma TalkingTurnIsNotOverdue(cfg: Settings, m: Message, now: int, content: string, media: seq<string>, tail: string, later: int)
    requires later <= now + cfg.timeout
    ensures !Overdue(cfg, later, Assembly.Delivered(m, now, content, media))
    ensures tail != "" ==>
              forall db: Database, r: Id | r in db.messages && db.messages[r] == m && db.now == now ::
                !Overdue(cfg, later, Reasoned(db, r, tail)[r])
  {
  }

  // ---- a turn that begins ---------------------------------------------------------------------------

  /** Exactly one row is new: an empty answer in work, in the chat of its task; no row
      that was there changes. */
  lemma PlacedReply(db: Database, aid: Id, chat: string, task: Id)
    requires aid !in db.messages
    ensures var after := Placed(db, aid, chat, task);
            && after.claims == db.claims && after.messages.Keys == db.messages.Keys + {aid}
            && (forall k | k in db.messages :: after.messages[k] == db.messages[k])
            && IsReply(after.messages, aid) && after.messages[aid].replyTo == Some(task)
            && after.messages[aid].status == Processing && after.messages[aid].chat == Some(chat)
            && after.messages[aid].content == "" && after.messages[aid].media == [] && after.messages[aid].reasoning == ""
            && after.messages[aid].createdAt == after.messages[aid].updatedAt == db.now
  {
  }

  // ---- a lease that is returned ----------------------------------------------------------------------

  /** A shutdown deletes the processing replies of the tasks it returns, and no other row. */
  lemma ReleasedReplyIff(db: Database, w: WorkerId, tasks: set<Id>, r: Id)
    requires IsReply(db.messages, r) && r !in tasks
    ensures var m, after := db.messages[r], ReleaseAll(db, w, tasks).messages;
            (r in after <==> !(m.status == Processing && Answers(m, tasks))) && (r in after ==> after[r] == m)
  {
  }

  // ---- a turn that fails --------------------------------------------------------------------------------

  /** A failed turn: while tries are left its placeholder goes and the task is in error;
      at the last try the placeholder tells the client, and the task fails.  No other
      row changes. */
  lemma FailedTurn(cfg: Settings, msgs: Messages, now: int, t: Id, r: Id, reason: string)
    requires IsUser(msgs, t) && IsReply(msgs, r)
    ensures var after := FailRows(cfg, msgs, now, t, Some(r), reason);
            && t in after && after[t].retries == msgs[t].retries + 1 && after[t].updatedAt == now
            && (if msgs[t].retries + 1 < cfg.maxRetries then after[t].status == Error && r !in after
                else after[t].status == Failed && r in after && after[r].status == Failed &&
                     after[r].content == "Internal error: " + reason && after[r].replyTo == msgs[r].replyTo)
    ensures var after := FailRows(cfg, msgs, now, t, Some(r), reason);
            forall k: Id | k != t && k != r :: (k in after <==> k in msgs) && (k in after ==> after[k] == msgs[k])
  {
  }

  /** Without a placeholder, as for a command: the task alone. */
  lemma FailedCommand(cfg: Settings, msgs: Messages, now: int, t: Id, reason: string)
    requires IsUser(msgs, t)
    ensures FailRows(cfg, msgs, now, t, None, reason) ==
            msgs[t := msgs[t].(status := if msgs[t].retries + 1 < cfg.maxRetries then Error else Failed,
                               retries := msgs[t].retries + 1, updatedAt := now)]
  {
  }

  // ---- over runs ------------------------------------------------------------------------------------------

  /** Every answer row is the answer to some user row. */
  ghost predicate RepliesHaveTasks(s: Pool) {
    forall r | IsReply(s.db.messages, r) :: HasTask(s.db.messages, s.db.messages[r])
  }

  /** An answer row that is there after a step was there before, with the same task, or
      is the placeholder of a task. */
  ghost predicate ReplyFollows(s: Pool, step: Step, z: Pool, r: Id) {
    IsReply(z.db.messages, r) ==>
      if IsReply(s.db.messages, r) then z.db.messages[r].replyTo == s.db.messages[r].replyTo
      else step.Place? && step.aid == r && !Of(s, step.w).phase.Idle? && Of(s, step.w).phase.task in s.db.messages &&
           z.db.messages[r].replyTo == Some(Of(s, step.w).phase.task)
  }

  lemma ReplyStep(cfg: Settings, s: Pool, step: Step, r: Id)
    requires Enabled(cfg, s, step)
    ensures ReplyFollows(s, step, Next(cfg, s, step), r)
  {
    if step.Repair? {
      Integrity.FixAt(s.db, r);
    } else if step.Reclaim? {
      ReclaimHeals(cfg, s, step.w);
      ReclaimKeepsLink(cfg, s.db, step.w, Of(s, step.w).leases, r);
    } else if step.Finish? || step.Fail? {
      EndKeepsLink(cfg, s, step, r);
    } else if step.Stop? {
      StopKeepsLink(cfg, s, step.w, r);
    } else if step.Place? {
      PlaceLinks(cfg, s, step.w, step.aid, r);
    } else if step.Deliver? || step.Note? || step.Discard? {
      TalkKeepsLink(cfg, s, step, r);
    } else {
      MoveKeepsLink(cfg, s, step, r);
    }
  }

  lemma ReclaimKeepsLink(cfg: Settings, db: Database, w: WorkerId, own: set<Id>, r: Id)
    ensures var after := ReclaimAndHeal(cfg, db, w, own).messages;
            r in after ==> r in db.messages && after[r].role == db.messages[r].role && after[r].replyTo == db.messages[r].replyTo
  {
  }

  lemma EndKeepsLink(cfg: Settings, s: Pool, step: Step, r: Id)
    requires Enabled(cfg, s, step) && (step.Finish? || step.Fail?)
    ensures ReplyFollows(s, step, Next(cfg, s, step), r)
  {
  }

  lemma StopKeepsLink(cfg: Settings, s: Pool, w: WorkerId, r: Id)
    ensures ReplyFollows(s, Stop(w), Next(cfg, s, Stop(w)), r)
  {
  }

  lemma PlaceLinks(cfg: Settings, s: Pool, w: WorkerId, aid: Id, r: Id)
    requires Enabled(cfg, s, Place(w, aid))
    ensures ReplyFollows(s, Place(w, aid), Next(cfg, s, Place(w, aid)), r)
  {
  }

  lemma TalkKeepsLink(cfg: Settings, s: Pool, step: Step, r: Id)
    requires Enabled(cfg, s, step) && (step.Deliver? || step.Note? || step.Discard?)
    ensures ReplyFollows(s, step, Next(cfg, s, step), r)
  {
  }

  lemma MoveKeepsLink(cfg: Settings, s: Pool, step: Step, r: Id)
    requires Enabled(cfg, s, step) && !step.Repair? && !step.Reclaim?
    requires !(step.Finish? || step.Fail? || step.Stop? || step.Place? || step.Deliver? || step.Note? || step.Discard?)
    ensures ReplyFollows(s, step, Next(cfg, s, step), r)
  {
  }

  /** The task a poll works on is a user row. */
  ghost predicate PhasesOnTasks(s: Pool) {
    forall w | w in s.workers && !Of(s, w).phase.Idle? :: IsUser(s.db.messages, Of(s, w).phase.task)
  }

  lemma LinksStep(cfg: Settings, s: Pool, step: Step)
    requires Enabled(cfg, s, step) && RepliesHaveTasks(s) && PhasesOnTasks(s)
    ensures RepliesHaveTasks(Next(cfg, s, step)) && PhasesOnTasks(Next(cfg, s, step))
  {
    var z := Next(cfg, s, step);
    RowsStep(cfg, s, step);
    LocalsStep(cfg, s, step);
    forall r | IsReply(z.db.messages, r)
      ensures HasTask(z.db.messages, z.db.messages[r])
    {
      ReplyStep(cfg, s, step, r);
      LinkFollows(cfg, s, step, z, r);
    }
    forall w | w in z.workers && !Of(z, w).phase.Idle?
      ensures IsUser(z.db.messages, Of(z, w).phase.task)
    {
      PhaseFollows(cfg, s, step, z, w);
    }
  }

  lemma LinkFollows(cfg: Settings, s: Pool, step: Step, z: Pool, r: Id)
    requires RepliesHaveTasks(s) && PhasesOnTasks(s) && RowsFollow(cfg, s, step, z) && Enabled(cfg, s, step)
    requires IsReply(z.db.messages, r) && ReplyFollows(s, step, z, r)
    ensures HasTask(z.db.messages, z.db.messages[r])
  {
    var t := z.db.messages[r].replyTo;
    if IsReply(s.db.messages, r) {
      assert HasTask(s.db.messages, s.db.messages[r]);
    } else {
      assert step.w in s.workers;
    }
    assert t.Some? && IsUser(s.db.messages, t.value);
    assert RowFollows(cfg, s, step, z, t.value);
  }

  lemma PhaseFollows(cfg: Settings, s: Pool, step: Step, z: Pool, w: WorkerId)
    requires PhasesOnTasks(s) && RowsFollow(cfg, s, step, z) && LocalsFollow(s, step, z) && Enabled(cfg, s, step)
    requires !Of(z, w).phase.Idle?
    ensures IsUser(z.db.messages, Of(z, w).phase.task)
  {
    assert LocalFollows(s, step, z, w);
    var t := Of(z, w).phase.task;
    assert IsUser(s.db.messages, t);
    assert RowFollows(cfg, s, step, z, t);
  }

  lemma {:induction false} LinksRun(cfg: Settings, s: Pool, steps: seq<Step>, rule: Rule)
    requires RepliesHaveTasks(s) && PhasesOnTasks(s) && Legal(cfg, s, steps, rule)
    ensures RepliesHaveTasks(After(cfg, s, steps))
    decreases |steps|
  {
    if steps != [] {
      LinksStep(cfg, s, steps[0]);
      LinksRun(cfg, Next(cfg, s, steps[0]), steps[1..], rule);
    }
  }

  /** Over every run of any gateways no answer is ever without its user row: the repair
      of orphans has nothing to do but for rows from elsewhere. */
  lemma NoOrphans(cfg: Settings, now: int, steps: seq<Step>, rule: Rule, r: Id)
    requires Legal(cfg, Fresh(now), steps, rule)
    ensures !Orphan(After(cfg, Fresh(now), steps).db.messages, r)
  {
    LinksRun(cfg, Fresh(now), steps, rule);
  }

  // ---- a placeholder nobody closes --------------------------------------------------------------------------

  /** The reply is processing; its task has ended, is unclaimed, and no gateway lists it. */
  ghost predicate Abandoned(s: Pool, t: Id, r: Id) {
    IsReply(s.db.messages, r) && s.db.messages[r].status == Processing && s.db.messages[r].replyTo == Some(t) &&
    IsUser(s.db.messages, t) && s.db.messages[t].status in {Completed, Failed, Cancelled} &&
    t !in s.db.claims && forall w | w in s.workers :: t !in Of(s, w).leases && r !in Of(s, w).leases
  }

  lemma AbandonedRow(cfg: Settings, s: Pool, step: Step, t: Id, r: Id)
    requires Enabled(cfg, s, step) && UserClaims(s) && Abandoned(s, t, r) && RecoveryStep(step)
    ensures var z := Next(cfg, s, step).db.messages; r in z && z[r] == s.db.messages[r]
  {
    if step.Reclaim? {
      ReclaimHeals(cfg, s, step.w);
      ReclaimedReply(cfg, s.db, step.w, Of(s, step.w).leases, r);
    } else if step.Repair? {
      Integrity.FixAt(s.db, r);
    } else if step.Stop? {
      AbandonedAtStop(cfg, s, step.w, t, r);
    } else {
      AbandonedOtherwise(cfg, s, step, r);
    }
  }

  lemma AbandonedAtStop(cfg: Settings, s: Pool, w: WorkerId, t: Id, r: Id)
    requires Live(s, w) && Abandoned(s, t, r)
    ensures var z := Next(cfg, s, Stop(w)).db.messages; r in z && z[r] == s.db.messages[r]
  {
    ReleasedReplyIff(s.db, w, Of(s, w).leases, r);
  }

  lemma AbandonedOtherwise(cfg: Settings, s: Pool, step: Step, r: Id)
    requires Enabled(cfg, s, step) && IsReply(s.db.messages, r)
    requires step.Tick? || step.Take? || step.Beat? || step.Drop? || step.Recheck?
    ensures var z := Next(cfg, s, step).db.messages; r in z && z[r] == s.db.messages[r]
  {
  }

  lemma AbandonedStep(cfg: Settings, s: Pool, step: Step, t: Id, r: Id)
    requires Enabled(cfg, s, step) && UserClaims(s) && Abandoned(s, t, r) && RecoveryStep(step)
    ensures Abandoned(Next(cfg, s, step), t, r)
  {
    var z := Next(cfg, s, step);
    AbandonedRow(cfg, s, step, t, r);
    UserRowStep(cfg, s, step, t);
    ClaimStep(cfg, s, step, t);
    LocalsStep(cfg, s, step);
    forall w | w in z.workers
      ensures t !in Of(z, w).leases && r !in Of(z, w).leases
    {
      assert LocalFollows(s, step, z, w);
    }
  }

  /** Claims, heartbeats, reclaims, shutdowns and repairs, by any gateways and over any
      time, leave it processing: the client waits for good. */
  lemma {:induction false} AbandonedForGood(cfg: Settings, s: Pool, steps: seq<Step>, rule: Rule, t: Id, r: Id)
    requires UserClaims(s) && Abandoned(s, t, r) && Legal(cfg, s, steps, rule)
    requires forall i | 0 <= i < |steps| :: RecoveryStep(steps[i])
    ensures Abandoned(After(cfg, s, steps), t, r)
    decreases |steps|
  {
    if steps != [] {
      UserClaimsStep(cfg, s, steps[0]);
      AbandonedStep(cfg, s, steps[0], t, r);
      AbandonedForGood(cfg, Next(cfg, s, steps[0]), steps[1..], rule, t, r);
    }
  }

  lemma CrashedAfterCancel() returns (s: Pool)
    ensures Reaches(THREE_TRIES, Fresh(0), s, AnyStep)
    ensures s.db.messages.Keys == {0, 5} && s.db.messages[0] == Row(Cancelled, 0, 0)
    ensures s.db.messages[5].role == Assistant && s.db.messages[5].status == Processing && s.db.messages[5].replyTo == Some(0)
    ensures s.db.claims == map[0 := Claim(1, 10)] && s.db.now == 0 && s.workers == map[1 := NO_WORKER, 2 := STARTED]
  {
    var c := CancelledInWork();
    s := Go(THREE_TRIES, Fresh(0), c, Crash(1), AnyStep);
  }

  lemma RepairAbandons(a: Pool)
    requires a.db.messages.Keys == {0, 5} && a.db.messages[0] == Row(Cancelled, 0, 0) && a.db.now == 0
    requires a.db.messages[5].role == Assistant && a.db.messages[5].status == Processing && a.db.messages[5].replyTo == Some(0)
    requires a.db.claims == map[0 := Claim(1, 10)] && Of(a, 2) == STARTED
    ensures var z := Next(THREE_TRIES, a, Reclaim(2));
            && IsUser(z.db.messages, 0) && z.db.messages[0].status == Cancelled && 0 !in z.db.claims
            && 5 in z.db.messages && z.db.messages[5] == a.db.messages[5] && z.workers == a.workers
  {
    UserRowHealed(THREE_TRIES, a, 2, 0);
    ClaimHealed(THREE_TRIES, a, 2, 0);
    ReclaimHeals(THREE_TRIES, a, 2);
    ReclaimKeys(THREE_TRIES, a, 2);
    ReclaimedReply(THREE_TRIES, a.db, 2, {}, 5);
  }

  /** Such a state is reached: a task is cancelled, its gateway crashes, and the next
      repair by another drops the claim before it expires. */
  lemma AbandonedReached()
    ensures exists s: Pool :: Reaches(THREE_TRIES, Fresh(0), s, AnyStep) && UserClaims(s) && Abandoned(s, 0, 5)
  {
    var a := CrashedAfterCancel();
    assert UserClaims(a);
    RepairAbandons(a);
    UserClaimsStep(THREE_TRIES, a, Reclaim(2));
    var s := Go(THREE_TRIES, Fresh(0), a, Reclaim(2), AnyStep);
    AbandonedNow(s);
  }

  lemma AbandonedNow(s: Pool)
    requires IsUser(s.db.messages, 0) && s.db.messages[0].status == Cancelled && 0 !in s.db.claims
    requires IsReply(s.db.messages, 5) && s.db.messages[5].status == Processing && s.db.messages[5].replyTo == Some(0)
    requires s.workers == map[1 := NO_WORKER, 2 := STARTED]
    ensures Abandoned(s, 0, 5)
  {
  }
}
