/** Whole runs of the worker pool: any number of gateways over one database,
    interleaved at every transaction and every statement outside one, with
    crashes, shutdowns, cancellations and the integrity tool in between. */
module PoolRuns {
  import opened Tables
  import opened PoolSteps
  import Assembly = Turns
  import Integrity

  /** Where a gateway's poll coroutine stands between two statements. */
  datatype Phase =
    | Idle
    | Taken(task: Id)        // claimed; cancellation not yet re-checked
    | Checked(task: Id)      // re-checked; not yet deferred or given a placeholder
    | Commanding(task: Id)   // a priority command, claimed and being dispatched
    | Releasing(task: Id)    // will delete its claim next, and forget the task

  /** A gateway's memory.  `dropping`: tasks whose cancelled final is about to
      delete the claim. */
  datatype Local = Local(alive: bool, leases: set<Id>, dropping: set<Id>, phase: Phase)

  /** `finished` records, in order, who wrote which final answer. */
  datatype Pool = Pool(db: Database, workers: map<WorkerId, Local>, finished: seq<(WorkerId, Id)>)

  datatype Step =
    // the outside world
    | Tick(elapsed: nat)
    | Insert(id: Id, chat: Option<string>, user: Option<string>, content: string)
    | Cancel(id: Id)
    | Repair
    | Start(w: WorkerId)
    | Crash(w: WorkerId)
    // the poll coroutine
    | Take(w: WorkerId, id: Id, commands: Option<set<string>>)
    | Recheck(w: WorkerId)
    | Defer(w: WorkerId)
    | Place(w: WorkerId, aid: Id)
    | EndCommand(w: WorkerId)
    | Drop(w: WorkerId, id: Id)
    // the lease loop and shutdown
    | Beat(w: WorkerId)
    | Reclaim(w: WorkerId)
    | Stop(w: WorkerId)
    // outbound messages
    | Finish(w: WorkerId, id: Id, aid: Id, content: string, media: seq<string>)
    | FinishCancelled(w: WorkerId, id: Id)  // a final finds its task cancelled
    | Discard(w: WorkerId, aid: Id)         // and deletes the placeholder, then the claim (Drop)
    | Deliver(w: WorkerId, aid: Id, content: string, media: seq<string>)
    | Note(w: WorkerId, aid: Id, reasoning: string)
    | Fail(w: WorkerId, id: Id, reply: Option<Id>, reason: string)

  const NO_WORKER := Local(false, {}, {}, Idle)

  function Of(s: Pool, w: WorkerId): Local {
    if w in s.workers then s.workers[w] else NO_WORKER
  }

  predicate Live(s: Pool, w: WorkerId) {
    Of(s, w).alive
  }

  function With(s: Pool, db: Database, w: WorkerId, l: Local): Pool {
    s.(db := db, workers := s.workers[w := l])
  }

  /** Tasks whose claim the gateway is about to delete without looking again. */
  function Tail(l: Local): set<Id> {
    l.dropping + if l.phase.Releasing? then {l.phase.task} else {}
  }

  /** An id that may stand for a placeholder: not that of a user row. */
  predicate ReplyId(s: Pool, aid: Id) {
    aid in s.db.messages ==> s.db.messages[aid].role == Assistant
  }

  /** A row a web client inserts. */
  function Request(chat: Option<string>, user: Option<string>, content: string, now: int): Message {
    Message(User, chat, user, content, [], "", None, Pending, 0, now, now)
  }

  predicate Enabled(cfg: Settings, s: Pool, step: Step) {
    match step
    case Tick(_) => true
    case Insert(id, _, _, _) => id !in s.db.messages
    case Cancel(id) => IsUser(s.db.messages, id)
    case Repair => true
    case Start(w) => w !in s.workers
    case Crash(w) => Live(s, w)
    case Take(w, id, commands) => Live(s, w) && Of(s, w).phase == Idle && OldestEligible(cfg, s.db, commands, id)
    case Recheck(w) => Live(s, w) && (Of(s, w).phase.Taken? || Of(s, w).phase.Commanding?)
    case Defer(w) => Live(s, w) && Of(s, w).phase.Checked?
    case Place(w, aid) => Live(s, w) && Of(s, w).phase.Checked? && aid !in s.db.messages
    case EndCommand(w) => Live(s, w) && Of(s, w).phase.Commanding?
    case Drop(w, id) => Live(s, w) && id in Tail(Of(s, w))
    case Beat(w) => Live(s, w)
    case Reclaim(w) => Live(s, w)
    case Stop(w) => Live(s, w)
    case Finish(w, id, aid, _, _) => Live(s, w) && IsUser(s.db.messages, id) && ReplyId(s, aid)
    case FinishCancelled(w, id) => Live(s, w) && IsUser(s.db.messages, id) && s.db.messages[id].status == Cancelled
    case Discard(w, aid) => Live(s, w)
    case Deliver(w, aid, _, _) => Live(s, w) && ReplyId(s, aid)
    case Note(w, aid, _) => Live(s, w) && ReplyId(s, aid)
    case Fail(w, id, reply, _) =>
      Live(s, w) && IsUser(s.db.messages, id) && (reply.Some? ==> ReplyId(s, reply.value))
  }

  function Next(cfg: Settings, s: Pool, step: Step): Pool {
    var db := s.db;
    match step
    case Tick(elapsed) => s.(db := db.(now := db.now + elapsed))
    case Insert(id, chat, user, content) =>
      s.(db := WithMessages(db, db.messages[id := Request(chat, user, content, db.now)]))
    case Cancel(id) => s.(db := WithMessages(db, SetStatus(db.messages, db.now, id, Cancelled)))
    case Repair => s.(db := Integrity.Fixed(db))
    case Start(w) => With(s, db, w, Local(true, {}, {}, Idle))
    case Crash(w) => With(s, db, w, NO_WORKER)
    case Take(w, id, commands) =>
      var l := Of(s, w);
      With(s, Claimed(cfg, db, w, id), w,
           l.(leases := l.leases + {id}, phase := if commands.None? then Taken(id) else Commanding(id)))
    case Recheck(w) =>
      var l := Of(s, w);
      if l.phase.Idle? then s
      else if HasStatus(db.messages, l.phase.task, Cancelled) then With(s, db, w, l.(phase := Releasing(l.phase.task)))
      else if l.phase.Taken? then With(s, db, w, l.(phase := Checked(l.phase.task)))
      else s
    case Defer(w) =>
      var l := Of(s, w);
      if l.phase.Idle? then s else With(s, Deferred(db, l.phase.task), w, l.(phase := Releasing(l.phase.task)))
    case Place(w, aid) =>
      var l := Of(s, w);
      if l.phase.Idle? || l.phase.task !in db.messages then With(s, db, w, l.(phase := Idle))
      else With(s, Placed(db, aid, LocalChat(db.messages[l.phase.task]), l.phase.task), w, l.(phase := Idle))
    case EndCommand(w) =>
      var l := Of(s, w);
      if l.phase.Idle? then s
      else With(s, WithoutClaim(db, w, l.phase.task), w, l.(leases := l.leases - {l.phase.task}, phase := Idle))
    case Drop(w, id) =>
      var l := Of(s, w);
      With(s, WithoutClaim(db, w, id), w,
           l.(leases := l.leases - {id}, dropping := l.dropping - {id},
              phase := if l.phase == Releasing(id) then Idle else l.phase))
    case Beat(w) => if Of(s, w).leases == {} then s else s.(db := Heartbeat(cfg, db, w))
    case Reclaim(w) =>
      if ReclaimNeeded(db) then s.(db := ReclaimAndHeal(cfg, db, w, Of(s, w).leases)) else s
    case Stop(w) => With(s, ReleaseAll(db, w, Of(s, w).leases), w, NO_WORKER)
    case Finish(w, id, aid, content, media) =>
      var l := Of(s, w);
      With(s, Finalized(db, w, id, aid, content, media), w, l.(leases := l.leases - {id}))
        .(finished := s.finished + [(w, id)])
    case FinishCancelled(w, id) =>
      var l := Of(s, w);
      With(s, db, w, l.(dropping := l.dropping + {id}))
    case Discard(w, aid) => s.(db := WithMessages(db, DeletePlaceholder(db.messages, aid)))
    case Deliver(w, aid, content, media) =>
      if aid in db.messages
      then s.(db := WithMessages(db, db.messages[aid := Assembly.Delivered(db.messages[aid], db.now, content, media)]))
      else s
    case Note(w, aid, reasoning) => s.(db := WithMessages(db, Reasoned(db, aid, reasoning)))
    case Fail(w, id, reply, reason) =>
      var l := Of(s, w);
      With(s, MarkedFailed(cfg, db, w, id, reply, reason), w,
           l.(leases := l.leases - {id}, phase := if l.phase == Commanding(id) then Idle else l.phase))
  }

  // ---- runs -----------------------------------------------------------------

  /** The hypothesis a theorem puts on every step of a run. */
  datatype Rule =
    | AnyStep        // none
    | NoCommands     // no priority command; no task re-claimed inside its own drop
    | GuardedDefers  // a deferral finds its task still 'processing'
    | Disciplined    // leases of live gateways are kept fresh; finals only for turns held; clean stops

  /** Tasks a gateway holds and will not give up without a look at the database. */
  function Held(l: Local): set<Id> {
    l.leases - Tail(l)
  }

  /** Tasks a gateway has dispatched to the agent and still holds. */
  function Turns(l: Local): set<Id> {
    Held(l) - if l.phase.Idle? then {} else {l.phase.task}
  }

  /** No other live gateway holds an expired claim. */
  ghost predicate FreshLeases(s: Pool, except: set<WorkerId>) {
    forall id | id in s.db.claims ::
      Live(s, s.db.claims[id].worker) && s.db.claims[id].worker !in except ==> s.db.claims[id].leaseUntil >= s.db.now
  }

  predicate InWork(s: Pool, id: Id) {
    IsUser(s.db.messages, id) && s.db.messages[id].status == Processing
  }

  predicate HeldBy(s: Pool, w: WorkerId, t: Id) {
    Live(s, w) && t in Held(Of(s, w))
  }

  /** No task the gateway is still letting go of is being worked on by another. */
  ghost predicate StopsClean(s: Pool, w: WorkerId) {
    forall v: WorkerId, t: Id | t in Of(s, w).leases && t in Tail(Of(s, w)) && InWork(s, t) && v != w :: !HeldBy(s, v, t)
  }

  ghost predicate Obeys(s: Pool, step: Step, rule: Rule) {
    match rule
    case AnyStep => true
    case NoCommands =>
      !step.EndCommand? && (step.Take? ==> step.commands.None? && step.id !in Of(s, step.w).dropping)
    case GuardedDefers =>
      step.Defer? && Of(s, step.w).phase.Checked? ==> HasStatus(s.db.messages, Of(s, step.w).phase.task, Processing)
    case Disciplined =>
      (step.Reclaim? ==> FreshLeases(s, {step.w})) &&
      (step.Repair? ==> FreshLeases(s, {})) &&
      Orderly(s, step)
  }

  /** Finals only for turns held, and clean stops. */
  ghost predicate Orderly(s: Pool, step: Step) {
    (step.Finish? ==> step.id in Turns(Of(s, step.w))) &&
    (step.FinishCancelled? ==> step.id in Turns(Of(s, step.w))) &&
    (step.Fail? ==> step.id in Turns(Of(s, step.w)) || Of(s, step.w).phase == Commanding(step.id)) &&
    (step.Stop? ==> StopsClean(s, step.w))
  }

  ghost predicate Legal(cfg: Settings, s: Pool, steps: seq<Step>, rule: Rule)
    decreases |steps|
  {
    steps == [] ||
    (Enabled(cfg, s, steps[0]) && Obeys(s, steps[0], rule) && Legal(cfg, Next(cfg, s, steps[0]), steps[1..], rule))
  }

  ghost function After(cfg: Settings, s: Pool, steps: seq<Step>): Pool
    decreases |steps|
  {
    if steps == [] then s else After(cfg, Next(cfg, s, steps[0]), steps[1..])
  }

  /** An empty pool: no rows, no claims, no gateways. */
  function Fresh(now: int): Pool {
    Pool(Database(map[], map[], now), map[], [])
  }

  /** One run after another. */
  lemma {:induction false} RunConcat(cfg: Settings, s: Pool, a: seq<Step>, b: seq<Step>, rule: Rule)
    requires Legal(cfg, s, a, rule) && Legal(cfg, After(cfg, s, a), b, rule)
    ensures Legal(cfg, s, a + b, rule) && After(cfg, s, a + b) == After(cfg, After(cfg, s, a), b)
    decreases |a|
  {
    if a == [] {
      assert a + b == b;
    } else {
      RunConcat(cfg, Next(cfg, s, a[0]), a[1..], b, rule);
      assert (a + b)[0] == a[0] && (a + b)[1..] == a[1..] + b;
    }
  }

  lemma RunOne(cfg: Settings, s: Pool, step: Step, rule: Rule)
    requires Enabled(cfg, s, step) && Obeys(s, step, rule)
    ensures Legal(cfg, s, [step], rule) && After(cfg, s, [step]) == Next(cfg, s, step)
  {
    assert [step][1..] == [];
    assert Legal(cfg, Next(cfg, s, step), [], rule);
    assert After(cfg, Next(cfg, s, step), []) == Next(cfg, s, step);
  }
}
