/** Whole runs of one gateway in single mode: no claims table, stuck tasks are put
    back by a timer, and finals may come late. */
module SingleMode {
  import opened Tables
  import opened PoolSteps
  import Turns

  datatype Poll = Idle | Polling(task: Id)

  /** `started`: every task ever claimed; `jumped`: those ever claimed as a command. */
  datatype Solo = Solo(db: Database, poll: Poll, started: set<Id>, jumped: set<Id>)

  datatype Step =
    | Tick(elapsed: nat)
    | Insert(id: Id, chat: Option<string>, user: Option<string>, content: string)
    | Cancel(id: Id)
    | Take(id: Id, commands: Option<set<string>>)
    | Defer
    | Forget                      // re-check saw a cancellation, or a command ended
    | Place(aid: Id)
    | Finish(id: Id, aid: Id, content: string, media: seq<string>)
    | FinishCancelled(aid: Id)
    | Deliver(aid: Id, content: string, media: seq<string>)
    | Note(aid: Id, reasoning: string)
    | Fail(id: Id, reply: Option<Id>, reason: string)
    | Unstick
    | Shutdown(ids: set<Id>)

  predicate ReplyId(s: Solo, aid: Id) {
    aid in s.db.messages ==> s.db.messages[aid].role == Assistant
  }

  function Request(chat: Option<string>, user: Option<string>, content: string, now: int): Message {
    Message(User, chat, user, content, [], "", None, Pending, 0, now, now)
  }

  /** Finals and failures come, however late, for tasks that were once started. */
  predicate Enabled(cfg: Settings, s: Solo, step: Step) {
    match step
    case Insert(id, _, _, _) => id !in s.db.messages
    case Cancel(id) => IsUser(s.db.messages, id)
    case Take(id, commands) => s.poll.Idle? && OldestSingle(cfg, s.db, commands, id)
    case Defer => s.poll.Polling?
    case Forget => s.poll.Polling?
    case Place(aid) => s.poll.Polling? && aid !in s.db.messages && s.poll.task in s.db.messages
    case Finish(id, aid, _, _) => id in s.started && ReplyId(s, aid)
    case Deliver(aid, _, _) => ReplyId(s, aid)
    case Note(aid, _) => ReplyId(s, aid)
    case Fail(id, reply, _) => id in s.started && (reply.Some? ==> ReplyId(s, reply.value))
    case _ => true
  }

  function Next(cfg: Settings, s: Solo, step: Step): Solo {
    var db := s.db;
    match step
    case Tick(elapsed) => s.(db := db.(now := db.now + elapsed))
    case Insert(id, chat, user, content) =>
      s.(db := WithMessages(db, db.messages[id := Request(chat, user, content, db.now)]))
    case Cancel(id) => s.(db := WithMessages(db, SetStatus(db.messages, db.now, id, Cancelled)))
    case Take(id, commands) =>
      if HasStatus(db.messages, id, Pending)
      then Solo(ClaimedSingle(db, id), Polling(id), s.started + {id}, if commands.Some? then s.jumped + {id} else s.jumped)
      else s
    case Defer => if s.poll.Idle? then s else s.(db := Deferred(db, s.poll.task), poll := Idle)
    case Forget => s.(poll := Idle)
    case Place(aid) =>
      if s.poll.Idle? || s.poll.task !in db.messages then s.(poll := Idle)
      else s.(db := Placed(db, aid, LocalChat(db.messages[s.poll.task]), s.poll.task), poll := Idle)
    case Finish(id, aid, content, media) =>
      s.(db := WithMessages(db, FinalRows(db.messages, db.now, id, aid, content, media)))
    case FinishCancelled(aid) => s.(db := WithMessages(db, DeletePlaceholder(db.messages, aid)))
    case Deliver(aid, content, media) =>
      if aid in db.messages
      then s.(db := WithMessages(db, db.messages[aid := Turns.Delivered(db.messages[aid], db.now, content, media)]))
      else s
    case Note(aid, reasoning) => s.(db := WithMessages(db, Reasoned(db, aid, reasoning)))
    case Fail(id, reply, reason) =>
      s.(db := WithMessages(db, FailRows(cfg, db.messages, db.now, id, reply, reason)))
    case Unstick => s.(db := Unstuck(cfg, db))
    case Shutdown(ids) =>
      s.(db := WithMessages(db, ReleaseAll(db, 0, ids).messages), poll := Idle)
  }

  ghost predicate Legal(cfg: Settings, s: Solo, steps: seq<Step>)
    decreases |steps|
  {
    steps == [] || (Enabled(cfg, s, steps[0]) && Legal(cfg, Next(cfg, s, steps[0]), steps[1..]))
  }

  ghost function After(cfg: Settings, s: Solo, steps: seq<Step>): Solo
    decreases |steps|
  {
    if steps == [] then s else After(cfg, Next(cfg, s, steps[0]), steps[1..])
  }

  function Fresh(now: int): Solo {
    Solo(Database(map[], map[], now), Idle, {}, {})
  }

  // ---- one step, seen from one user row -------------------------------------------

  ghost function UserRow(cfg: Settings, s: Solo, step: Step, id: Id): Message
    requires IsUser(s.db.messages, id)
  {
    var m, now := s.db.messages[id], s.db.now;
    match step
    case Cancel(t) => if t == id then m.(status := Cancelled, updatedAt := now) else m
    case Take(t, _) => if t == id && m.status == Pending then m.(status := Processing, updatedAt := now) else m
    case Defer => if s.poll == Polling(id) then m.(status := Pending, updatedAt := now) else m
    case Finish(t, _, _, _) => if t == id then m.(status := Completed, updatedAt := now) else m
    case Fail(t, _, _) =>
      if t == id
      then m.(status := if m.retries + 1 < cfg.maxRetries then Error else Failed, retries := m.retries + 1, updatedAt := now)
      else m
    case Unstick => if Stuck(cfg, s.db, id) then CountFailure(cfg, now, m) else m
    case Shutdown(ids) => if id in ids && m.status == Processing then m.(status := Pending, updatedAt := now) else m
    case _ => m
  }

  /** What a step makes of one user row, as a relation. */
  ghost predicate RowFollows(cfg: Settings, s: Solo, step: Step, z: Solo, id: Id) {
    var after := z.db.messages;
    if IsUser(s.db.messages, id) then IsUser(after, id) && after[id] == UserRow(cfg, s, step, id)
    else IsUser(after, id) ==> step.Insert? && step.id == id && after[id].createdAt == s.db.now && after[id].status == Pending
  }

  lemma UserRowUnstuck(cfg: Settings, s: Solo, id: Id)
    ensures RowFollows(cfg, s, Unstick, Next(cfg, s, Unstick), id)
  {
    assert id in StuckTasks(cfg, s.db) <==> Stuck(cfg, s.db, id);
  }

  lemma UserRowEnded(cfg: Settings, s: Solo, step: Step, id: Id)
    requires Enabled(cfg, s, step) && (step.Finish? || step.Fail? || step.FinishCancelled? || step.Shutdown?)
    ensures RowFollows(cfg, s, step, Next(cfg, s, step), id)
  {
  }

  lemma UserRowMoved(cfg: Settings, s: Solo, step: Step, id: Id)
    requires Enabled(cfg, s, step)
    requires !(step.Finish? || step.Fail? || step.FinishCancelled? || step.Shutdown? || step.Unstick?)
    ensures RowFollows(cfg, s, step, Next(cfg, s, step), id)
  {
  }

  lemma UserRowStep(cfg: Settings, s: Solo, step: Step, id: Id)
    requires Enabled(cfg, s, step)
    ensures RowFollows(cfg, s, step, Next(cfg, s, step), id)
  {
    if step.Unstick? {
      UserRowUnstuck(cfg, s, id);
    } else if step.Finish? || step.Fail? || step.FinishCancelled? || step.Shutdown? {
      UserRowEnded(cfg, s, step, id);
    } else {
      UserRowMoved(cfg, s, step, id);
    }
  }

  // ---- order within a chat -----------------------------------------------------------

  /** i was written before j in the same chat. */
  predicate Earlier(s: Solo, i: Id, j: Id) {
    IsUser(s.db.messages, i) && IsUser(s.db.messages, j) && s.db.messages[i].chat.Some? &&
    s.db.messages[i].chat == s.db.messages[j].chat && s.db.messages[i].createdAt < s.db.messages[j].createdAt
  }

  predicate Open(m: Message) {
    m.status in {Pending, Processing}
  }

  /** An ordinary start of j leaves nothing earlier of its chat open. */
  ghost predicate Inv(s: Solo) {
    (forall id | IsUser(s.db.messages, id) :: s.db.messages[id].createdAt <= s.db.now) &&
    (forall id | IsUser(s.db.messages, id) && s.db.messages[id].status !in {Pending, Cancelled} :: id in s.started) &&
    (forall id | id in s.started :: IsUser(s.db.messages, id)) &&
    (forall i, j | Earlier(s, i, j) && j in s.started && j !in s.jumped :: !Open(s.db.messages[i])) &&
    (s.poll.Polling? ==>
       s.poll.task in s.started && forall k | Earlier(s, s.poll.task, k) && k in s.started :: k in s.jumped)
  }

  lemma OrderStep(cfg: Settings, s: Solo, step: Step, i: Id, j: Id)
    requires Inv(s) && Enabled(cfg, s, step)
    requires var z := Next(cfg, s, step); Earlier(z, i, j) && j in z.started && j !in z.jumped
    ensures !Open(Next(cfg, s, step).db.messages[i])
  {
    UserRowStep(cfg, s, step, i);
    UserRowStep(cfg, s, step, j);
    if step.Take? && step.id == j && j !in s.started {
      assert EligibleSingle(cfg, s.db, None, j) && !EligibleSingle(cfg, s.db, None, i);
    } else {
      assert Earlier(s, i, j);
    }
  }

  lemma PollStep(cfg: Settings, s: Solo, step: Step, k: Id)
    requires Inv(s) && Enabled(cfg, s, step)
    requires var z := Next(cfg, s, step); z.poll.Polling? && Earlier(z, z.poll.task, k) && k in z.started
    ensures k in Next(cfg, s, step).jumped
  {
    var task := Next(cfg, s, step).poll.task;
    UserRowStep(cfg, s, step, k);
    UserRowStep(cfg, s, step, task);
    assert k in s.started ==> Earlier(s, task, k);
  }

  lemma InvStep(cfg: Settings, s: Solo, step: Step)
    requires Inv(s) && Enabled(cfg, s, step)
    ensures Inv(Next(cfg, s, step))
  {
    var z := Next(cfg, s, step);
    forall id: Id
      ensures IsUser(z.db.messages, id) ==>
                z.db.messages[id].createdAt <= z.db.now && (z.db.messages[id].status !in {Pending, Cancelled} ==> id in z.started)
      ensures id in z.started ==> IsUser(z.db.messages, id)
    {
      UserRowStep(cfg, s, step, id);
    }
    forall i, j | Earlier(z, i, j) && j in z.started && j !in z.jumped
      ensures !Open(z.db.messages[i])
    {
      OrderStep(cfg, s, step, i, j);
    }
    if z.poll.Polling? {
      forall k | Earlier(z, z.poll.task, k) && k in z.started
        ensures k in z.jumped
      {
        PollStep(cfg, s, step, k);
      }
    }
  }

  lemma {:induction false} InvRun(cfg: Settings, s: Solo, steps: seq<Step>)
    requires Inv(s) && Legal(cfg, s, steps)
    ensures Inv(After(cfg, s, steps))
    decreases |steps|
  {
    if steps != [] {
      InvStep(cfg, s, steps[0]);
      InvRun(cfg, Next(cfg, s, steps[0]), steps[1..]);
    }
  }

  /** First in, first out per chat, on every run: once a message is being processed or
      has ended in any way but cancellation, every earlier message of its chat has
      ended, unless the later one was claimed as a priority command. */
  lemma FirstInFirstOut(cfg: Settings, now: int, steps: seq<Step>, i: Id, j: Id)
    requires Legal(cfg, Fresh(now), steps)
    requires Earlier(After(cfg, Fresh(now), steps), i, j)
    ensures var s := After(cfg, Fresh(now), steps);
            s.db.messages[j].status in {Processing, Completed, Failed, Error} && j !in s.jumped ==>
              s.db.messages[i].status in {Completed, Failed, Error, Cancelled}
  {
    InvRun(cfg, Fresh(now), steps);
    var s := After(cfg, Fresh(now), steps);
    if s.db.messages[j].status in {Processing, Completed, Failed, Error} && j !in s.jumped {
      assert IsUser(s.db.messages, j) && j in s.started;
      assert !Open(s.db.messages[i]);
      var before := s.db.messages[i].status;
      assert before.Completed? || before.Failed? || before.Error? || before.Cancelled?;
    }
  }

  /** No message of a chat was started while an earlier one is open. */
  ghost predicate InOrder(s: Solo) {
    forall i, j | Earlier(s, i, j) && j in s.started :: !Open(s.db.messages[i])
  }

  ghost predicate EarlierOpen(s: Solo, j: Id) {
    exists i :: Earlier(s, i, j) && Open(s.db.messages[i])
  }

  /** Exactly when a claim, ordinary or not, breaks the order: it starts a message
      while an earlier one of its chat is open. */
  lemma TakeKeepsOrderIff(cfg: Settings, s: Solo, j: Id, commands: Option<set<string>>)
    requires InOrder(s) && Enabled(cfg, s, Take(j, commands))
    ensures InOrder(Next(cfg, s, Take(j, commands))) <==> !(s.db.messages[j].status == Pending && EarlierOpen(s, j))
  {
    var z := Next(cfg, s, Take(j, commands));
    forall i, k
      ensures Earlier(z, i, k) <==> Earlier(s, i, k)
      ensures IsUser(s.db.messages, i) ==> (Open(z.db.messages[i]) <==> Open(s.db.messages[i]))
    {
      UserRowStep(cfg, s, Take(j, commands), i);
      UserRowStep(cfg, s, Take(j, commands), k);
    }
    if s.db.messages[j].status == Pending && EarlierOpen(s, j) {
      var i :| Earlier(s, i, j) && Open(s.db.messages[i]);
      assert Earlier(z, i, j) && j in z.started && Open(z.db.messages[i]);
    }
  }

  /** An ordinary claim never does. */
  lemma OrdinaryTakeKeepsOrder(cfg: Settings, s: Solo, j: Id)
    requires InOrder(s) && Enabled(cfg, s, Take(j, None))
    ensures InOrder(Next(cfg, s, Take(j, None)))
  {
    TakeKeepsOrderIff(cfg, s, j, None);
    forall i | Earlier(s, i, j)
      ensures !Open(s.db.messages[i])
    {
      assert !EligibleSingle(cfg, s.db, None, i);
    }
  }

  // ---- starvation behind an 'error' row --------------------------------------------------

  /** e failed before and its back-off is over; no other row is as old to the tick. */
  ghost predicate Blocks(cfg: Settings, s: Solo, e: Id) {
    EligibleSingle(cfg, s.db, None, e) && s.db.messages[e].status == Error && s.db.messages[e].createdAt < s.db.now &&
    (s.poll.Polling? ==> s.poll.task != e) &&
    forall k | IsUser(s.db.messages, k) && s.db.messages[k].createdAt == s.db.messages[e].createdAt :: k == e
  }

  /** The claim of the selected row starts it exactly when it is 'pending'; an 'error'
      row is refused and nothing changes. */
  lemma HeadStartsIff(cfg: Settings, s: Solo, id: Id, commands: Option<set<string>>)
    requires Enabled(cfg, s, Take(id, commands))
    ensures var z := Next(cfg, s, Take(id, commands));
            (HasStatus(z.db.messages, id, Processing) <==> s.db.messages[id].status == Pending) &&
            (s.db.messages[id].status == Error ==> z == s)
  {
  }

  /** What may end the blockade: the row itself changes, or a message of its chat is
      taken that only a command, or the row's own start as one, lets out of order. */
  predicate Touches(s: Solo, step: Step, e: Id) {
    (step.Cancel? && step.id == e) || (step.Finish? && step.id == e) || (step.Fail? && step.id == e) ||
    (step.Take? && step.id != e && (step.commands.Some? || e in s.jumped) && step.id in s.db.messages && e in s.db.messages &&
     s.db.messages[e].chat.Some? && s.db.messages[step.id].chat == s.db.messages[e].chat)
  }

  ghost predicate Untouched(cfg: Settings, s: Solo, steps: seq<Step>, e: Id)
    decreases |steps|
  {
    steps == [] || (!Touches(s, steps[0], e) && Untouched(cfg, Next(cfg, s, steps[0]), steps[1..], e))
  }

  lemma BlocksStep(cfg: Settings, s: Solo, step: Step, e: Id)
    requires Inv(s) && Blocks(cfg, s, e) && Enabled(cfg, s, step) && !Touches(s, step, e)
    ensures Blocks(cfg, Next(cfg, s, step), e)
    ensures forall y | y in Next(cfg, s, step).started && y !in s.started ::
              y in Next(cfg, s, step).jumped || s.db.messages[y].createdAt < s.db.messages[e].createdAt
  {
    var z := Next(cfg, s, step);
    UserRowStep(cfg, s, step, e);
    if step.Take? && step.commands.None? {
      assert s.db.messages[step.id].createdAt <= s.db.messages[e].createdAt;
      assert step.id == e || s.db.messages[step.id].createdAt < s.db.messages[e].createdAt;
    }
    forall k | IsUser(z.db.messages, k)
      ensures z.db.messages[k].createdAt == s.db.messages[e].createdAt ==> k == e
      ensures s.db.messages[e].chat.Some? && z.db.messages[k].chat == s.db.messages[e].chat ==> z.db.messages[k].status != Processing
    {
      BlockedRow(cfg, s, step, e, k);
    }
  }

  lemma BlockedRow(cfg: Settings, s: Solo, step: Step, e: Id, k: Id)
    requires Inv(s) && Blocks(cfg, s, e) && Enabled(cfg, s, step) && !Touches(s, step, e)
    requires IsUser(Next(cfg, s, step).db.messages, k)
    ensures var m := Next(cfg, s, step).db.messages[k];
            (m.createdAt == s.db.messages[e].createdAt ==> k == e) &&
            (s.db.messages[e].chat.Some? && m.chat == s.db.messages[e].chat ==> m.status != Processing)
  {
    UserRowStep(cfg, s, step, k);
    if step.Take? && step.id == k && step.commands.None? && e !in s.jumped {
      assert Earlier(s, k, e) || k == e || s.db.messages[k].chat != s.db.messages[e].chat || s.db.messages[e].chat.None?;
    }
  }

  /** An 'error' row whose back-off is over is selected and then refused, so while
      it stays, no message of any chat that is younger than it is ever claimed, unless
      as a priority command. */
  lemma {:induction false} NothingYoungerIsClaimed(cfg: Settings, s: Solo, steps: seq<Step>, e: Id, y: Id)
    requires Inv(s) && Blocks(cfg, s, e) && Legal(cfg, s, steps) && Untouched(cfg, s, steps, e)
    requires y !in s.started
    ensures var z := After(cfg, s, steps);
            y in z.started ==>
              y in z.jumped || (IsUser(z.db.messages, y) && z.db.messages[y].createdAt < s.db.messages[e].createdAt)
    decreases |steps|
  {
    if steps != [] {
      var z := Next(cfg, s, steps[0]);
      InvStep(cfg, s, steps[0]);
      BlocksStep(cfg, s, steps[0], e);
      UserRowStep(cfg, s, steps[0], e);
      if y in z.started {
        UserRowStep(cfg, s, steps[0], y);
        CreatedAtKept(cfg, z, steps[1..], y);
        if y in z.jumped { JumpedKept(cfg, z, steps[1..], y); }
      } else {
        NothingYoungerIsClaimed(cfg, z, steps[1..], e, y);
      }
    }
  }

  lemma {:induction false} JumpedKept(cfg: Settings, s: Solo, steps: seq<Step>, y: Id)
    requires Legal(cfg, s, steps) && y in s.jumped
    ensures y in After(cfg, s, steps).jumped
    decreases |steps|
  {
    if steps != [] {
      JumpedKept(cfg, Next(cfg, s, steps[0]), steps[1..], y);
    }
  }

  lemma {:induction false} CreatedAtKept(cfg: Settings, s: Solo, steps: seq<Step>, y: Id)
    requires IsUser(s.db.messages, y) && Legal(cfg, s, steps)
    ensures var z := After(cfg, s, steps); IsUser(z.db.messages, y) && z.db.messages[y].createdAt == s.db.messages[y].createdAt
    decreases |steps|
  {
    if steps != [] {
      UserRowStep(cfg, s, steps[0], y);
      CreatedAtKept(cfg, Next(cfg, s, steps[0]), steps[1..], y);
    }
  }

  // ---- what has ended stays ended -----------------------------------------------------------

  /** Exactly which step puts back to work a row that is not: a deferral of the poll
      that had claimed it. */
  lemma ReopensIff(cfg: Settings, s: Solo, step: Step, id: Id)
    requires Enabled(cfg, s, step) && IsUser(s.db.messages, id) && !Open(s.db.messages[id])
    ensures IsUser(Next(cfg, s, step).db.messages, id)
    ensures Open(Next(cfg, s, step).db.messages[id]) <==> step.Defer? && s.poll == Polling(id)
  {
    UserRowStep(cfg, s, step, id);
    ReopenedRow(cfg, s, step, id);
  }

  lemma ReopenedRow(cfg: Settings, s: Solo, step: Step, id: Id)
    requires IsUser(s.db.messages, id) && !Open(s.db.messages[id])
    ensures Open(UserRow(cfg, s, step, id)) <==> step.Defer? && s.poll == Polling(id)
  {
  }

  /** A poll claims only rows that are open. */
  lemma PollFollows(cfg: Settings, s: Solo, step: Step, id: Id)
    requires IsUser(s.db.messages, id) && !Open(s.db.messages[id]) && s.poll != Polling(id)
    ensures Next(cfg, s, step).poll != Polling(id)
  {
  }

  /** Over every run, commands, late finals and failures, time-outs and shutdowns
      included: a task that has failed, even where it is marked as repeatable, has been
      answered or was cancelled is never pending or processing again, unless the poll
      that claimed it is still on its way to a deferral. */
  lemma {:induction false} NeverReopened(cfg: Settings, s: Solo, steps: seq<Step>, id: Id)
    requires IsUser(s.db.messages, id) && !Open(s.db.messages[id]) && s.poll != Polling(id) && Legal(cfg, s, steps)
    ensures var z := After(cfg, s, steps);
            IsUser(z.db.messages, id) && !Open(z.db.messages[id]) && z.poll != Polling(id)
    decreases |steps|
  {
    if steps != [] {
      ReopensIff(cfg, s, steps[0], id);
      PollFollows(cfg, s, steps[0], id);
      NeverReopened(cfg, Next(cfg, s, steps[0]), steps[1..], id);
    }
  }

  // ---- one task per chat, bounded retries ---------------------------------------------------

  predicate InWork(s: Solo, id: Id) {
    IsUser(s.db.messages, id) && s.db.messages[id].status == Processing
  }

  ghost predicate OnePerChat(s: Solo) {
    forall i, j | InWork(s, i) && InWork(s, j) && s.db.messages[i].chat == s.db.messages[j].chat ::
      i == j || s.db.messages[i].chat == None
  }

  /** An unfinished task has retries left. */
  ghost predicate Bounded(cfg: Settings, s: Solo) {
    forall id | IsUser(s.db.messages, id) && s.db.messages[id].status in {Pending, Processing, Error} ::
      s.db.messages[id].retries == 0 || s.db.messages[id].retries < cfg.maxRetries
  }

  /** A deferral finds its task still processing. */
  predicate Guarded(s: Solo, step: Step) {
    step.Defer? && s.poll.Polling? ==> HasStatus(s.db.messages, s.poll.task, Processing)
  }

  ghost predicate AllGuarded(cfg: Settings, s: Solo, steps: seq<Step>)
    decreases |steps|
  {
    steps == [] || (Guarded(s, steps[0]) && AllGuarded(cfg, Next(cfg, s, steps[0]), steps[1..]))
  }

  lemma OnePerChatStep(cfg: Settings, s: Solo, step: Step)
    requires OnePerChat(s) && Enabled(cfg, s, step)
    ensures OnePerChat(Next(cfg, s, step))
  {
    var z := Next(cfg, s, step);
    forall i, j | InWork(z, i) && InWork(z, j) && z.db.messages[i].chat == z.db.messages[j].chat
      ensures i == j || z.db.messages[i].chat == None
    {
      UserRowStep(cfg, s, step, i);
      UserRowStep(cfg, s, step, j);
      assert InWork(s, i) || (step.Take? && step.id == i);
      assert InWork(s, j) || (step.Take? && step.id == j);
    }
  }

  lemma BoundedStep(cfg: Settings, s: Solo, step: Step)
    requires Bounded(cfg, s) && Enabled(cfg, s, step) && Guarded(s, step)
    ensures Bounded(cfg, Next(cfg, s, step))
  {
    var z := Next(cfg, s, step);
    forall id | IsUser(z.db.messages, id) && z.db.messages[id].status in {Pending, Processing, Error}
      ensures z.db.messages[id].retries == 0 || z.db.messages[id].retries < cfg.maxRetries
    {
      UserRowStep(cfg, s, step, id);
    }
  }

  /** At most one task per chat, commands and late finals included; and, when
      deferrals are guarded, retries left on every unfinished task. */
  lemma {:induction false} SoloIsSafe(cfg: Settings, s: Solo, steps: seq<Step>)
    requires OnePerChat(s) && Legal(cfg, s, steps)
    ensures OnePerChat(After(cfg, s, steps))
    ensures Bounded(cfg, s) && AllGuarded(cfg, s, steps) ==> Bounded(cfg, After(cfg, s, steps))
    decreases |steps|
  {
    if steps != [] {
      OnePerChatStep(cfg, s, steps[0]);
      if Bounded(cfg, s) && Guarded(s, steps[0]) {
        BoundedStep(cfg, s, steps[0]);
      }
      SoloIsSafe(cfg, Next(cfg, s, steps[0]), steps[1..]);
    }
  }

  /** Exactly when a deferral keeps the retry bound: the row it puts back, whatever
      its status by now, must not have used up its retries. */
  lemma DeferKeepsBoundIff(cfg: Settings, s: Solo)
    requires Bounded(cfg, s) && Enabled(cfg, s, Defer)
    ensures var t := s.poll.task;
            Bounded(cfg, Next(cfg, s, Defer)) <==>
              (IsUser(s.db.messages, t) ==> s.db.messages[t].retries == 0 || s.db.messages[t].retries < cfg.maxRetries)
  {
    var t, after := s.poll.task, Next(cfg, s, Defer);
    UserRowStep(cfg, s, Defer, t);
    forall id: Id | id != t
      ensures IsUser(after.db.messages, id) <==> IsUser(s.db.messages, id)
      ensures IsUser(s.db.messages, id) ==> after.db.messages[id] == s.db.messages[id]
    {
      UserRowStep(cfg, s, Defer, id);
    }
  }

  // ---- retries counted, finished rows kept ---------------------------------------------------

  /** The step counts a failure against the user row `id`. */
  predicate Counts(cfg: Settings, s: Solo, step: Step, id: Id) {
    match step
    case Unstick => Stuck(cfg, s.db, id)
    case Fail(t, _, _) => t == id
    case _ => false
  }

  ghost function Failures(cfg: Settings, s: Solo, steps: seq<Step>, id: Id): nat
    decreases |steps|
  {
    if steps == [] then 0
    else (if Counts(cfg, s, steps[0], id) then 1 else 0) + Failures(cfg, Next(cfg, s, steps[0]), steps[1..], id)
  }

  /** retry_count is exactly the number of timeouts and failures counted, on every
      run; the count that reaches the limit makes the row 'failed'. */
  lemma {:induction false} RetriesCountFailures(cfg: Settings, s: Solo, steps: seq<Step>, id: Id)
    requires IsUser(s.db.messages, id) && Legal(cfg, s, steps)
    ensures var z := After(cfg, s, steps).db.messages;
            IsUser(z, id) && z[id].retries == s.db.messages[id].retries + Failures(cfg, s, steps, id)
    ensures steps != [] && Counts(cfg, s, steps[0], id) ==>
              (s.db.messages[id].retries + 1 >= cfg.maxRetries <==>
               HasStatus(Next(cfg, s, steps[0]).db.messages, id, Failed))
    decreases |steps|
  {
    if steps != [] {
      UserRowStep(cfg, s, steps[0], id);
      RetriesCountFailures(cfg, Next(cfg, s, steps[0]), steps[1..], id);
    }
  }

  predicate RecoveryStep(step: Step) {
    step.Tick? || step.Take? || step.Unstick? || step.Shutdown?
  }

  /** Claims, the unstick timer and shutdowns never touch a user row that is
      completed, failed or cancelled. */
  lemma {:induction false} FinishedRowsUntouched(cfg: Settings, s: Solo, steps: seq<Step>, id: Id)
    requires IsUser(s.db.messages, id) && s.db.messages[id].status in {Completed, Failed, Cancelled}
    requires Legal(cfg, s, steps) && forall i | 0 <= i < |steps| :: RecoveryStep(steps[i])
    ensures var z := After(cfg, s, steps).db.messages; id in z && z[id] == s.db.messages[id]
    decreases |steps|
  {
    if steps != [] {
      UserRowStep(cfg, s, steps[0], id);
      FinishedRowsUntouched(cfg, Next(cfg, s, steps[0]), steps[1..], id);
    }
  }
}
