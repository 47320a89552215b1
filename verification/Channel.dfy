/** lib/channels/postgres_channel.py: the channel as an object over the shared
    tables.  Each method runs the statements of one transaction, or of one stretch
    between two awaits, in the order of the source.  Refinement.dfy shows that they
    are runs of the pool the theorems are about. */
module Channel {
  import opened Tables
  import opened PoolSteps
  import opened Exchange
  import Integrity
  import Turns

  /** The database server: one mutable cell shared by all gateways. */
  class Store {
    var state: Database

    constructor (now: int)
      ensures state == Database(map[], map[], now)
    {
      state := Database(map[], map[], now);
    }
  }

  /** _msg_ctx of one task. */
  datatype Context = Context(assistant: Option<Id>, early: seq<string>)

  lemma {:induction false} OldestExists(ids: set<Id>, msgs: Messages)
    requires ids != {} && ids <= msgs.Keys
    ensures exists id | id in ids :: forall j | j in ids :: msgs[id].createdAt <= msgs[j].createdAt
    decreases |ids|
  {
    var x :| x in ids;
    if ids != {x} {
      var rest := ids - {x};
      assert rest != {};
      OldestExists(rest, msgs);
      var y :| y in rest && forall j | j in rest :: msgs[y].createdAt <= msgs[j].createdAt;
      var best := if msgs[x].createdAt <= msgs[y].createdAt then x else y;
      forall j | j in ids
        ensures msgs[best].createdAt <= msgs[j].createdAt
      {
        if j != x { assert j in rest; }
      }
    }
  }

  ghost predicate ChatsNamed(msgs: Messages, chats: map<Id, string>) {
    forall id | id in chats :: IsUser(msgs, id) && chats[id] == LocalChat(msgs[id])
  }

  /** What every step of every gateway keeps of the user rows. */
  ghost predicate RowsKept(a: Messages, b: Messages) {
    forall id | IsUser(a, id) :: IsUser(b, id) && LocalChat(b[id]) == LocalChat(a[id])
  }

  /** What the other gateways make of the tables during the n-th await of a call. */
  type Others = (nat, Database) -> Database

  ghost predicate KeepsRows(others: Others) {
    forall n: nat, db: Database :: RowsKept(db.messages, others(n, db).messages)
  }

  lemma NamesKept(a: Messages, b: Messages, chats: map<Id, string>)
    requires ChatsNamed(a, chats) && RowsKept(a, b)
    ensures ChatsNamed(b, chats)
  {
  }

  lemma ClaimKeepsNames(cfg: Settings, db: Database, w: WorkerId, task: Id, chats: map<Id, string>)
    requires ChatsNamed(db.messages, chats) && IsUser(db.messages, task)
    ensures ChatsNamed(Claimed(cfg, db, w, task).messages, chats) && ChatsNamed(ClaimedSingle(db, task).messages, chats)
    ensures IsUser(Claimed(cfg, db, w, task).messages, task) && IsUser(ClaimedSingle(db, task).messages, task)
  {
  }

  /** The placeholder and the books of one admitted turn, together. */
  lemma BegunStaysValid(db: Database, l: Ledger, task: Id, chat: string, aid: Id)
    requires QuietBooks(l) && ChatsNamed(db.messages, l.chats) && |l.inflight| < l.max && chat !in l.busy
    requires IsUser(db.messages, task) && LocalChat(db.messages[task]) == chat && aid !in db.messages
    ensures l.permits > 0 && task !in l.inflight && QuietBooks(Begun(l, task, chat))
    ensures ChatsNamed(Placed(db, aid, chat, task).messages, Begun(l, task, chat).chats)
  {
    FreeSlot(l, task, chat);
    PlacingKeepsNames(db, l.chats, aid, chat, task);
  }

  lemma PlacingKeepsNames(db: Database, chats: map<Id, string>, aid: Id, chat: string, task: Id)
    requires ChatsNamed(db.messages, chats) && aid !in db.messages
    requires IsUser(db.messages, task) && LocalChat(db.messages[task]) == chat
    ensures ChatsNamed(Placed(db, aid, chat, task).messages, chats[task := chat])
  {
  }

  /** A primary key no row has (gen_random_uuid). */
  method FreshId(msgs: Messages) returns (id: Id)
    ensures id !in msgs
  {
    id := 0;
    var left := msgs.Keys;
    while id in left
      invariant forall j | j in msgs :: j < id || j in left
      invariant left <= msgs.Keys
      decreases |left|
    {
      left := left - {id};
      id := id + 1;
    }
  }

  function Joined(parts: seq<string>): string {
    if parts == [] then "" else if |parts| == 1 then parts[0] else parts[0] + " " + Joined(parts[1..])
  }

  /** What a final appends to metadata.reasoning. */
  function ReasoningTail(early: seq<string>, buffer: string): string {
    if early == [] then buffer else Joined(early) + (if buffer != "" then " " else "") + buffer
  }

  /** The books after a dispatch. */
  function TurnBooks(l: Ledger, task: Id, chat: string, fails: bool): Ledger
    requires l.permits > 0
  {
    if fails then Released(Begun(l, task, chat), task) else Begun(l, task, chat)
  }

  /** An admitted poll of a chat that is not busy gets its permit, and the books stay
      kept whatever becomes of the dispatch. */
  lemma TurnKeepsQuiet(msgs: Messages, l: Ledger, task: Id, chat: string, fails: bool)
    requires QuietBooks(l) && ChatsNamed(msgs, l.chats) && |l.inflight| < l.max && chat !in l.busy
    requires IsUser(msgs, task) && LocalChat(msgs[task]) == chat
    ensures l.permits > 0 && task !in l.inflight && QuietBooks(TurnBooks(l, task, chat, fails))
  {
    FreeSlot(l, task, chat);
    ReleaseKeepsQuiet(Begun(l, task, chat), task);
  }

  function TurnSteps(task: Id, fails: bool): seq<SlotStep> {
    [Admit] + ([Choose(task)] + ([SlotStep.Begin] + if fails then [Release(task)] else []))
  }

  /** The books of one admitted turn are those of a legal run of the slots, to which
      `SlotsConserved` applies whatever else releases its slot in between. */
  lemma TurnIsSlotRun(l: Ledger, task: Id, chatOf: Id -> string, fails: bool)
    requires QuietBooks(l) && |l.inflight| < l.max && chatOf(task) !in l.busy
    requires task in l.chats ==> l.chats[task] == chatOf(task)
    ensures l.permits > 0
    ensures SlotLegal(SlotState(l, Idle), TurnSteps(task, fails), chatOf)
    ensures SlotAfter(SlotState(l, Idle), TurnSteps(task, fails), chatOf) ==
              SlotState(TurnBooks(l, task, chatOf(task), fails), Idle)
  {
    FreeSlot(l, task, chatOf(task));
    var last := if fails then [Release(task)] else [];
    LastSlotStep(Begun(l, task, chatOf(task)), task, chatOf, fails);
    SlotThen(SlotState(l, Ready(task)), SlotStep.Begin, last, chatOf);
    SlotThen(SlotState(l, Admitted), Choose(task), [SlotStep.Begin] + last, chatOf);
    SlotThen(SlotState(l, Idle), Admit, [Choose(task)] + ([SlotStep.Begin] + last), chatOf);
  }

  lemma LastSlotStep(l: Ledger, task: Id, chatOf: Id -> string, fails: bool)
    requires task in l.inflight
    ensures var last := if fails then [Release(task)] else [];
            SlotLegal(SlotState(l, Idle), last, chatOf) &&
            SlotAfter(SlotState(l, Idle), last, chatOf) == SlotState(if fails then Released(l, task) else l, Idle)
  {
    if fails {
      SlotThen(SlotState(l, Idle), Release(task), [], chatOf);
      assert [Release(task)] + [] == [Release(task)];
    }
  }

  class PostgresChannel {
    const store: Store
    const exchange: MessageExchange<Id>
    const cfg: Settings
    const worker: WorkerId
    const pool: bool                       // claim_strategy == "worker_pool"

    var leases: set<Id>
    var context: map<Id, Context>
    var chats: map<Id, string>             // _msg_chat
    var busy: set<string>                  // _chat_inflight
    var streams: map<string, string>       // _stream_buffers
    var buffers: map<Id, string>           // _reasoning_buffers

    constructor (store: Store, cfg: Settings, worker: WorkerId, pool: bool, max: nat)
      ensures this.store == store && this.cfg == cfg && this.worker == worker && this.pool == pool
      ensures fresh(exchange) && exchange.max == max && Valid()
      ensures leases == {} && context == map[] && Books() == Ledger(max, Capacity(max), {}, map[], {})
    {
      this.store, this.cfg, this.worker, this.pool := store, cfg, worker, pool;
      exchange := new MessageExchange<Id>(max);
      leases, context, chats, busy, streams, buffers := {}, map[], map[], {}, map[], map[];
    }

    function Books(): Ledger
      reads this`chats, this`busy, exchange
    {
      Ledger(exchange.max, exchange.permits, exchange.inflight, chats, busy)
    }

    /** The books are kept, no command is mid-dispatch, and the chat noted for a
        task is the one its row names. */
    ghost predicate Valid()
      reads this`chats, this`busy, exchange, store
    {
      QuietBooks(Books()) && ChatsNamed(store.state.messages, chats)
    }

    // ---- claiming ---------------------------------------------------------------

    method ClaimOne(commands: Option<set<string>>) returns (row: Option<Id>)
      modifies store
      ensures pool && row.Some? ==>
                OldestEligible(cfg, old(store.state), commands, row.value) &&
                store.state == Claimed(cfg, old(store.state), worker, row.value)
      ensures pool && row.None? ==>
                store.state == old(store.state) && forall id: Id :: !Eligible(cfg, old(store.state), commands, id)
      ensures !pool && row.Some? ==>
                OldestSingle(cfg, old(store.state), commands, row.value) &&
                old(store.state).messages[row.value].status == Pending &&
                store.state == ClaimedSingle(old(store.state), row.value)
      ensures !pool && row.None? ==>
                store.state == old(store.state) &&
                ((forall id: Id :: !EligibleSingle(cfg, old(store.state), commands, id)) ||
                 (exists id: Id :: OldestSingle(cfg, old(store.state), commands, id) &&
                    old(store.state).messages[id].status == Error))
    {
      if !pool {
        row := ClaimOneSingle(commands);
        return;
      }
      var conn := store.state;
      var candidates := set id | id in conn.messages && Eligible(cfg, conn, commands, id);
      if candidates == {} {
        assert forall id: Id :: Eligible(cfg, conn, commands, id) ==> id in candidates;
        return None;
      }
      OldestExists(candidates, conn.messages);
      var task :| task in candidates && forall j | j in candidates :: conn.messages[task].createdAt <= conn.messages[j].createdAt;
      conn := conn.(claims := conn.claims[task := Claim(worker, conn.now + cfg.timeout)]);
      conn := conn.(messages := SetStatus(conn.messages, conn.now, task, Processing));
      store.state := conn;
      return Some(task);
    }

    method ClaimOneSingle(commands: Option<set<string>>) returns (row: Option<Id>)
      modifies store
      ensures row.Some? ==>
                OldestSingle(cfg, old(store.state), commands, row.value) &&
                old(store.state).messages[row.value].status == Pending &&
                store.state == ClaimedSingle(old(store.state), row.value)
      ensures row.None? ==>
                store.state == old(store.state) &&
                ((forall id: Id :: !EligibleSingle(cfg, old(store.state), commands, id)) ||
                 (exists id: Id :: OldestSingle(cfg, old(store.state), commands, id) &&
                    old(store.state).messages[id].status == Error))
    {
      var db := store.state;
      var candidates := set id | id in db.messages && EligibleSingle(cfg, db, commands, id);
      if candidates == {} {
        assert forall id: Id :: EligibleSingle(cfg, db, commands, id) ==> id in candidates;
        return None;
      }
      OldestExists(candidates, db.messages);
      var task :| task in candidates && forall j | j in candidates :: db.messages[task].createdAt <= db.messages[j].createdAt;
      assert OldestSingle(cfg, db, commands, task);
      if db.messages[task].status != Pending {
        return None;                       // the outer WHERE status = 'pending'
      }
      store.state := db.(messages := SetStatus(db.messages, db.now, task, Processing));
      return Some(task);
    }

    // ---- lease loop ---------------------------------------------------------------

    function Beaten(db: Database, held: set<Id>): Database {
      if held == {} then db else Heartbeat(cfg, db, worker)
    }

    /** One tick of the lease loop: heartbeat first, then the gate, then the repair,
        with an await between any two. */
    method LeaseTick(others: Others)
      requires KeepsRows(others)
      modifies store
      ensures !pool ==> store.state == old(store.state)
      ensures var seen := others(0, Beaten(old(store.state), leases));
              var later := others(1, seen);
              pool && ClaimsOnUsers(later) ==>
                store.state == if ReclaimNeeded(seen) then ReclaimAndHeal(cfg, later, worker, leases)
                               else ReclaimAndHeal(cfg, seen, worker, leases)
    {
      if !pool { return; }
      if leases != {} {
        store.state := Heartbeat(cfg, store.state, worker);
      }
      Yield(0, others);
      if ReclaimNeeded(store.state) {
        Yield(1, others);
        ReclaimPass();
      } else {
        Integrity.GateSkipsNothing(cfg, store.state, worker, leases);
      }
    }

    /** Count a failure against one task: the body of the reclaim loop, and, without
        the status guard, of the unstick loop. */
    method RevokeTask(msgs: Messages, now: int, id: Id, guarded: bool) returns (after: Messages)
      ensures guarded || HasStatus(msgs, id, Processing) ==> after == RevokeOne(cfg, now, msgs, id)
    {
      after := msgs;
      var retries := (if id in msgs then msgs[id].retries else 0) + 1;
      var hit := id in msgs && (!guarded || msgs[id].status == Processing);
      if retries >= cfg.maxRetries {
        if hit {
          after := after[id := after[id].(status := Failed, retries := retries, updatedAt := now)];
        }
        after := map j | j in after ::
          if RepliesTo(after[j], id) && after[j].status == Processing then after[j].(status := Failed, updatedAt := now)
          else after[j];
      } else {
        if hit {
          after := after[id := after[id].(status := Pending, retries := retries, updatedAt := now)];
        }
        after := map j | j in after && !(RepliesTo(after[j], id) && after[j].status in {Processing, Failed}) :: after[j];
      }
    }

    /** _reclaim_and_heal.  The revoked rows come in any order. */
    method ReclaimPass()
      modifies store
      ensures !pool ==> store.state == old(store.state)
      ensures pool && ClaimsOnUsers(old(store.state)) ==>
                store.state == ReclaimAndHeal(cfg, old(store.state), worker, leases)
      ensures pool ==> Integrity.Consistent(store.state) && Revoked(store.state, worker, leases) == {}
    {
      if !pool { return; }
      var conn := store.state;
      var rows := Revoked(conn, worker, leases);
      conn := conn.(claims := conn.claims - rows);
      var todo := rows;
      RevokeNone(cfg, conn.now, conn.messages);
      while todo != {}
        invariant todo <= rows
        invariant conn.now == old(store.state).now && conn.claims == old(store.state).claims - rows
        invariant ClaimsOnUsers(old(store.state)) ==>
                    conn.messages == RevokeAll(cfg, conn.now, old(store.state).messages, rows - todo)
        decreases |todo|
      {
        var id :| id in todo;
        if ClaimsOnUsers(old(store.state)) {
          RevokeNext(cfg, conn.now, old(store.state).messages, rows, todo, id);
        }
        var msgs := RevokeTask(conn.messages, conn.now, id, true);
        conn := conn.(messages := msgs);
        todo := todo - {id};
      }
      assert rows - todo == rows;
      Integrity.HealSettles(conn);
      assert forall id | id in conn.claims :: id in old(store.state).claims && conn.claims[id] == old(store.state).claims[id] && id !in rows;
      conn := MarkUnclaimed(conn);
      conn := FailOrphans(conn);
      conn := DropDangling(conn);
      store.state := conn;
    }

    /** _delete_claim: nothing to do in single mode. */
    method DropClaim(task: Id)
      modifies store
      ensures store.state == AfterDrop(old(store.state), task)
    {
      if pool {
        store.state := store.state.(claims := DeleteClaim(store.state.claims, worker, task));
      }
    }

    function AfterDrop(db: Database, task: Id): Database {
      if pool then WithoutClaim(db, worker, task) else db
    }

    /** One lease goes back: the body of the shutdown loop. */
    method ReleaseTask(db: Database, task: Id) returns (after: Database)
      ensures after == AfterRelease(db, ReleaseOne(db, worker, task))
    {
      after := db;
      if HasStatus(after.messages, task, Processing) {
        after := after.(messages := SetStatus(after.messages, after.now, task, Pending));
      }
      if pool {
        after := after.(claims := DeleteClaim(after.claims, worker, task));
      }
      after := after.(messages := map j | j in after.messages &&
        !(RepliesTo(after.messages[j], task) && after.messages[j].status == Processing) :: after.messages[j]);
    }

    /** In single mode there is no claim to delete. */
    function AfterRelease(before: Database, released: Database): Database {
      if pool then released else released.(claims := before.claims)
    }

    /** _release_all_leases, on shutdown.  The leases come in any order. */
    method ReleaseAllLeases()
      modifies store, this`leases
      ensures leases == {}
      ensures (forall t | t in old(leases) :: !IsAssistant(old(store.state).messages, t)) ==>
                store.state == AfterRelease(old(store.state), ReleaseAll(old(store.state), worker, old(leases)))
    {
      var conn := store.state;
      var todo := leases;
      ghost var users := forall t | t in leases :: !IsAssistant(conn.messages, t);
      ReleaseNone(conn, worker);
      while todo != {}
        invariant todo <= leases && leases == old(leases) && store.state == old(store.state)
        invariant users ==> conn == AfterRelease(store.state, ReleaseAll(store.state, worker, leases - todo))
        decreases |todo|
      {
        var task :| task in todo;
        if users {
          NextRelease(store.state, conn, leases, todo, task);
        }
        conn := ReleaseTask(conn, task);
        todo := todo - {task};
      }
      assert leases - todo == leases;
      store.state := conn;
      leases := {};
    }

    lemma NextRelease(db: Database, conn: Database, all: set<Id>, todo: set<Id>, task: Id)
      requires task in todo && todo <= all && forall t | t in all :: !IsAssistant(db.messages, t)
      requires conn == AfterRelease(db, ReleaseAll(db, worker, all - todo))
      ensures AfterRelease(conn, ReleaseOne(conn, worker, task)) == AfterRelease(db, ReleaseAll(db, worker, all - (todo - {task})))
    {
      assert all - (todo - {task}) == all - todo + {task};
      ReleaseStep(db, worker, all - todo, task);
      ReleaseIgnoresClaims(conn, ReleaseAll(db, worker, all - todo), worker, task);
    }

    // ---- single-mode timer ------------------------------------------------------------

    /** _unstick_processing.  The stuck rows come in any order. */
    method UnstickProcessing() returns (recovered: set<Id>)
      modifies store
      ensures store.state == Unstuck(cfg, old(store.state)) && recovered == StuckTasks(cfg, old(store.state))
    {
      var conn := store.state;
      recovered := StuckTasks(cfg, conn);
      var todo := recovered;
      RevokeNone(cfg, conn.now, conn.messages);
      while todo != {}
        invariant todo <= recovered == StuckTasks(cfg, old(store.state))
        invariant conn == old(store.state).(messages := RevokeAll(cfg, conn.now, old(store.state).messages, recovered - todo))
        decreases |todo|
      {
        var id :| id in todo;
        StuckIsUntouched(cfg, old(store.state), recovered - todo, id);
        RevokeNext(cfg, conn.now, old(store.state).messages, recovered, todo, id);
        var msgs := RevokeTask(conn.messages, conn.now, id, false);
        conn := conn.(messages := msgs);
        todo := todo - {id};
      }
      assert recovered - todo == recovered;
      store.state := FailOldPlaceholders(cfg, conn);
    }

    // ---- slots ---------------------------------------------------------------------------

    /** _release_slot: idempotent. */
    method ReleaseSlot(task: Id)
      modifies this`leases, this`chats, this`busy, exchange
      ensures Books() == Released(old(Books()), task) && leases == old(leases) - {task}
    {
      exchange.ReleaseSlot(Some(task));
      leases := leases - {task};
      FreeChat(task);
    }

    method FreeChat(task: Id)
      modifies this`chats, this`busy
      ensures chats == old(chats) - {task}
      ensures busy == if task in old(chats) && old(chats)[task] != "" then old(busy) - {old(chats)[task]} else old(busy)
    {
      if task in chats {
        var chat := chats[task];
        chats := chats - {task};
        if chat != "" { busy := busy - {chat}; }
      } else {
        assert chats == chats - {task};
      }
    }

    /** No command is mid-dispatch, and the books are kept. */
    ghost predicate Quiet()
      reads this`chats, this`busy, exchange
    {
      QuietBooks(Books())
    }

    /** Forget a task whose row was put back, if this worker still knows it. */
    method Forget(task: Id)
      requires Quiet()
      modifies this`leases, this`context, this`chats, this`busy, exchange
      ensures Quiet() && exchange.inflight == old(exchange.inflight) - {task} && context == old(context) - {task}
      ensures leases == if task in old(context) || task in old(exchange.inflight) then old(leases) - {task} else old(leases)
    {
      if task in context || task in exchange.inflight {
        ForgetKnown(task);
      } else {
        assert context == context - {task} && exchange.inflight == exchange.inflight - {task};
      }
    }

    method ForgetKnown(task: Id)
      modifies this`leases, this`context, this`chats, this`busy, exchange
      ensures Books() == Released(old(Books()), task)
      ensures old(Quiet()) ==> Quiet()
      ensures context == old(context) - {task} && leases == old(leases) - {task}
    {
      if Quiet() {
        ReleaseKeepsQuiet(Books(), task);
      }
      context := context - {task};
      leases := leases - {task};
      ReleaseSlot(task);
    }

    /** One round of the unstick loop: repair the rows, then forget the tasks this
        worker still holds a slot or a context for. */
    method UnstickTick()
      requires Quiet()
      modifies store, this`leases, this`context, this`chats, this`busy, exchange
      ensures store.state == Unstuck(cfg, old(store.state)) && Quiet()
      ensures var gone := StuckTasks(cfg, old(store.state));
              exchange.inflight == old(exchange.inflight) - gone && context == old(context) - gone &&
              leases == old(leases) - gone * (old(context).Keys + old(exchange.inflight))
    {
      var recovered := UnstickProcessing();
      ForgetAll(recovered);
    }

    method ForgetAll(gone: set<Id>)
      requires Quiet()
      modifies this`leases, this`context, this`chats, this`busy, exchange
      ensures Quiet() && exchange.inflight == old(exchange.inflight) - gone && context == old(context) - gone
      ensures leases == old(leases) - gone * (old(context).Keys + old(exchange.inflight))
    {
      var todo := gone;
      while todo != {}
        invariant todo <= gone && Quiet()
        invariant exchange.inflight == old(exchange.inflight) - (gone - todo)
        invariant context == old(context) - (gone - todo)
        invariant leases == old(leases) - (gone - todo) * (old(context).Keys + old(exchange.inflight))
        decreases |todo|
      {
        var task :| task in todo;
        ghost var known := old(context).Keys + old(exchange.inflight);
        OneLess(old(leases), old(exchange.inflight), old(context), known, gone, todo, task);
        assert task in known <==> task in context || task in exchange.inflight;
        Forget(task);
        todo := todo - {task};
      }
      assert gone - todo == gone;
    }

    /** A task found cancelled right after its claim. */
    method SkipCancelled(task: Id)
      modifies store, this`leases, this`context
      ensures store.state == AfterDrop(old(store.state), task)
      ensures leases == old(leases) - {task} && context == old(context) - {task}
    {
      DropClaim(task);
      leases := leases - {task};
      context := context - {task};
    }

    // ---- one poll -----------------------------------------------------------------------

    /** An await: the other gateways have their turn. */
    method Yield(n: nat, others: Others)
      requires KeepsRows(others)
      modifies store
      ensures store.state == others(n, old(store.state)) && RowsKept(old(store.state).messages, store.state.messages)
    {
      store.state := others(n, store.state);
    }

    function AfterPutBack(others: Others, db: Database, task: Id): Database {
      AfterDrop(others(3, Deferred(db, task)), task)
    }

    /** Both early exits of a poll: put the row back, later drop the claim. */
    method PutBack(task: Id, others: Others)
      requires KeepsRows(others)
      modifies store, this`leases
      ensures store.state == AfterPutBack(others, old(store.state), task) && leases == old(leases) - {task}
    {
      store.state := Deferred(store.state, task);
      Yield(3, others);
      DropClaim(task);
      leases := leases - {task};
    }

    /** The placeholder, then the slot: an admitted poll never waits for it. */
    method BeginTurn(task: Id, chat: string) returns (aid: Id)
      requires exchange.permits > 0
      modifies store, this`context, this`chats, this`busy, exchange
      ensures aid !in old(store.state).messages && store.state == Placed(old(store.state), aid, chat, task)
      ensures Books() == Begun(old(Books()), task, chat) && context == old(context)[task := Context(Some(aid), [])]
    {
      aid := FreshId(store.state.messages);
      store.state := Placed(store.state, aid, chat, task);
      context := context[task := Context(Some(aid), [])];
      TakeSlot(task, chat);
    }

    method TakeSlot(task: Id, chat: string)
      requires exchange.permits > 0
      modifies this`chats, this`busy, exchange
      ensures Books() == Begun(old(Books()), task, chat)
    {
      var granted := exchange.AcquireSlot();
      assert granted;
      exchange.AddInflight(task);
      busy := busy + {chat};
      chats := chats[task := chat];
    }

    function AfterDispatch(others: Others, db: Database, task: Id, chat: string, aid: Id, fails: bool): Database {
      var placed := others(2, Placed(db, aid, chat, task));
      if fails then AfterFail(placed, task, Some(aid), "dispatch_error") else placed
    }

    /** The last stretch of a poll: placeholder, slot, dispatch. */
    method Dispatch(task: Id, chat: string, placeholderFails: bool, dispatchFails: bool, others: Others)
      returns (handled: bool, aid: Id)
      requires Valid() && exchange.IsSlotFree() && chat !in busy && KeepsRows(others)
      requires IsUser(store.state.messages, task) && LocalChat(store.state.messages[task]) == chat
      modifies store, this`leases, this`context, this`chats, this`busy, this`buffers, exchange
      ensures handled == !placeholderFails
      ensures store.state == if handled then AfterDispatch(others, old(store.state), task, chat, aid, dispatchFails)
                             else AfterPutBack(others, old(store.state), task)
      ensures handled ==> aid !in old(store.state).messages
      ensures !handled ==> Books() == old(Books()) && leases == old(leases) - {task} && buffers == old(buffers)
      ensures handled ==> task !in old(exchange.inflight) && old(exchange.permits) > 0 &&
                          Books() == TurnBooks(old(Books()), task, chat, dispatchFails)
      ensures handled ==> leases == (if dispatchFails then old(leases) - {task} else old(leases))
      ensures handled && !dispatchFails ==> context == old(context)[task := Context(Some(aid), [])]
      ensures Quiet()
    {
      if placeholderFails {
        PutBack(task, others);
        return false, 0;
      }
      TurnKeepsQuiet(store.state.messages, Books(), task, chat, dispatchFails);
      aid := PlaceAndDispatch(task, chat, dispatchFails, others);
      handled := true;
    }

    /** Its exits once the placeholder is there. */
    method PlaceAndDispatch(task: Id, chat: string, dispatchFails: bool, others: Others) returns (aid: Id)
      requires exchange.permits > 0 && KeepsRows(others)
      modifies store, this`leases, this`context, this`chats, this`busy, this`buffers, exchange
      ensures aid !in old(store.state).messages
      ensures store.state == AfterDispatch(others, old(store.state), task, chat, aid, dispatchFails)
      ensures Books() == TurnBooks(old(Books()), task, chat, dispatchFails)
      ensures leases == if dispatchFails then old(leases) - {task} else old(leases)
      ensures !dispatchFails ==> context == old(context)[task := Context(Some(aid), [])]
    {
      aid := BeginTurn(task, chat);
      Yield(2, others);
      if dispatchFails {
        MarkFailed(task, Some(aid), "dispatch_error");
      }
    }

    /** The task a claim may take, and the tables after it. */
    ghost predicate MayTake(db: Database, commands: Option<set<string>>, task: Id) {
      if pool then OldestEligible(cfg, db, commands, task)
      else OldestSingle(cfg, db, commands, task) && db.messages[task].status == Pending
    }

    /** No task is eligible; in single mode also: the oldest one is in 'error'. */
    ghost predicate NothingToTake(db: Database, commands: Option<set<string>>) {
      if pool then forall id: Id :: !Eligible(cfg, db, commands, id)
      else
        (forall id: Id :: !EligibleSingle(cfg, db, commands, id)) ||
        (exists id: Id :: OldestSingle(cfg, db, commands, id) && db.messages[id].status == Error)
    }

    function AfterTake(db: Database, task: Id): Database {
      if pool then Claimed(cfg, db, worker, task) else ClaimedSingle(db, task)
    }

    /** The first stretch of a poll: claim, remember the lease, note the chat. */
    method TakeTask(commands: Option<set<string>>) returns (row: Option<Id>, chat: string)
      requires ChatsNamed(store.state.messages, chats)
      modifies store, this`leases
      ensures ChatsNamed(store.state.messages, chats)
      ensures leases == if row.Some? then old(leases) + {row.value} else old(leases)
      ensures row.None? ==> store.state == old(store.state) && NothingToTake(old(store.state), commands)
      ensures row.Some? ==> MayTake(old(store.state), commands, row.value) && store.state == AfterTake(old(store.state), row.value)
      ensures row.Some? ==> IsUser(store.state.messages, row.value) && chat == LocalChat(store.state.messages[row.value])
      ensures row.Some? ==> chat == LocalChat(old(store.state).messages[row.value])
    {
      chat := "";
      row := ClaimOne(commands);
      if row.Some? {
        ClaimKeepsNames(cfg, old(store.state), worker, row.value, chats);
        leases := leases + {row.value};
        chat := LocalChat(store.state.messages[row.value]);
      }
    }

    function AfterProceed(others: Others, db: Database, task: Id, chat: string, aid: Id, wasBusy: bool,
                          placeholderFails: bool, dispatchFails: bool): Database {
      var seen := others(1, db);
      if wasBusy || placeholderFails then AfterPutBack(others, seen, task)
      else AfterDispatch(others, seen, task, chat, aid, dispatchFails)
    }

    /** From the test for a busy chat to the dispatch. */
    method Proceed(task: Id, chat: string, placeholderFails: bool, dispatchFails: bool, others: Others)
      returns (handled: bool, aid: Id)
      requires Valid() && exchange.IsSlotFree() && KeepsRows(others)
      requires IsUser(store.state.messages, task) && LocalChat(store.state.messages[task]) == chat
      modifies store, this`leases, this`context, this`chats, this`busy, this`buffers, exchange
      ensures Quiet()
      ensures handled == (chat !in old(busy) && !placeholderFails)
      ensures store.state ==
                AfterProceed(others, old(store.state), task, chat, aid, chat in old(busy), placeholderFails, dispatchFails)
      ensures handled ==> aid !in others(1, old(store.state)).messages
      ensures !handled ==> Books() == old(Books()) && leases == old(leases) - {task} && buffers == old(buffers)
      ensures handled ==> task !in old(exchange.inflight) && old(exchange.permits) > 0 &&
                          Books() == TurnBooks(old(Books()), task, chat, dispatchFails)
      ensures handled ==> leases == (if dispatchFails then old(leases) - {task} else old(leases))
      ensures handled && !dispatchFails ==> context == old(context)[task := Context(Some(aid), [])]
    {
      ghost var before := store.state.messages;
      Yield(1, others);
      NamesKept(before, store.state.messages, chats);
      if chat in busy {
        PutBack(task, others);
        return false, 0;
      }
      handled, aid := Dispatch(task, chat, placeholderFails, dispatchFails, others);
    }

    /** The tables after the await that follows a claim: the re-check, and the rest. */
    function AfterRecheck(others: Others, seen: Database, task: Id, chat: string, aid: Id, wasBusy: bool,
                          placeholderFails: bool, dispatchFails: bool): Database {
      if HasStatus(seen.messages, task, Cancelled) then AfterDrop(seen, task)
      else AfterProceed(others, seen, task, chat, aid, wasBusy, placeholderFails, dispatchFails)
    }

    /** From the re-check to the dispatch. */
    method RecheckAndProceed(task: Id, chat: string, placeholderFails: bool, dispatchFails: bool, others: Others)
      returns (handled: bool, aid: Id)
      requires Valid() && exchange.IsSlotFree() && KeepsRows(others)
      requires IsUser(store.state.messages, task) && LocalChat(store.state.messages[task]) == chat
      modifies store, this`leases, this`context, this`chats, this`busy, this`buffers, exchange
      ensures Quiet()
      ensures handled == (!HasStatus(others(0, old(store.state)).messages, task, Cancelled) && chat !in old(busy) && !placeholderFails)
      ensures store.state == AfterRecheck(others, others(0, old(store.state)), task, chat, aid, chat in old(busy),
                                          placeholderFails, dispatchFails)
      ensures handled ==> aid !in others(1, others(0, old(store.state))).messages
      ensures !handled ==> Books() == old(Books()) && buffers == old(buffers)
      ensures leases == if handled && !dispatchFails then old(leases) else old(leases) - {task}
      ensures handled ==> task !in old(exchange.inflight) && old(exchange.permits) > 0 &&
                          Books() == TurnBooks(old(Books()), task, chat, dispatchFails)
      ensures handled && !dispatchFails ==> context == old(context)[task := Context(Some(aid), [])]
    {
      ghost var before := store.state.messages;
      Yield(0, others);
      NamesKept(before, store.state.messages, chats);
      if HasStatus(store.state.messages, task, Cancelled) {
        SkipCancelled(task);
        return false, 0;
      }
      handled, aid := Proceed(task, chat, placeholderFails, dispatchFails, others);
    }

    /** _poll_once, from an admitted poll to a dispatched turn: either nothing is
        left behind, or exactly one task of a chat that was not busy has a slot, a
        lease and a context.  `placeholderFails` and `dispatchFails` are the
        exceptions the source handles. */
    method PollOnce(placeholderFails: bool, dispatchFails: bool, others: Others)
      returns (handled: bool, row: Option<Id>, chat: string, aid: Id)
      requires Valid() && exchange.IsSlotFree() && KeepsRows(others)
      modifies store, this`leases, this`context, this`chats, this`busy, this`buffers, exchange
      ensures Quiet()
      ensures row.None? ==> !handled && store.state == old(store.state) && leases == old(leases) &&
                            NothingToTake(old(store.state), None)
      ensures row.Some? ==> MayTake(old(store.state), None, row.value)
      ensures row.Some? ==>
                var seen := others(0, AfterTake(old(store.state), row.value));
                handled == (!HasStatus(seen.messages, row.value, Cancelled) && chat !in old(busy) && !placeholderFails) &&
                store.state == AfterRecheck(others, seen, row.value, chat, aid, chat in old(busy), placeholderFails, dispatchFails)
      ensures handled ==> aid !in others(1, others(0, AfterTake(old(store.state), row.value))).messages
      ensures row.Some? ==> chat == LocalChat(old(store.state).messages[row.value])
      ensures !handled ==> Books() == old(Books()) && buffers == old(buffers)
      ensures row.Some? ==>
                leases == if handled && !dispatchFails then old(leases) + {row.value} else old(leases) - {row.value}
      ensures handled ==> row.value !in old(exchange.inflight) && old(exchange.permits) > 0 &&
                          Books() == TurnBooks(old(Books()), row.value, chat, dispatchFails)
      ensures handled && !dispatchFails ==> context == old(context)[row.value := Context(Some(aid), [])]
    {
      handled, aid := false, 0;
      row, chat := TakeTask(None);
      if row.Some? {
        handled, aid := PollTaken(row.value, chat, placeholderFails, dispatchFails, others,
                                  old(store.state), old(leases), old(context));
      }
    }

    /** The rest of a poll that has claimed a task. */
    method PollTaken(task: Id, chat: string, placeholderFails: bool, dispatchFails: bool, others: Others,
                     ghost was: Database, ghost held: set<Id>, ghost noted: map<Id, Context>)
      returns (handled: bool, aid: Id)
      requires Valid() && exchange.IsSlotFree() && KeepsRows(others)
      requires IsUser(store.state.messages, task) && LocalChat(store.state.messages[task]) == chat
      requires store.state == AfterTake(was, task) && leases == held + {task} && context == noted
      modifies store, this`leases, this`context, this`chats, this`busy, this`buffers, exchange
      ensures Quiet()
      ensures var seen := others(0, AfterTake(was, task));
              handled == (!HasStatus(seen.messages, task, Cancelled) && chat !in old(busy) && !placeholderFails) &&
              store.state == AfterRecheck(others, seen, task, chat, aid, chat in old(busy), placeholderFails, dispatchFails)
      ensures handled ==> aid !in others(1, others(0, AfterTake(was, task))).messages
      ensures !handled ==> Books() == old(Books()) && buffers == old(buffers)
      ensures leases == if handled && !dispatchFails then held + {task} else held - {task}
      ensures handled ==> task !in old(exchange.inflight) && old(exchange.permits) > 0 &&
                          Books() == TurnBooks(old(Books()), task, chat, dispatchFails)
      ensures handled && !dispatchFails ==> context == noted[task := Context(Some(aid), [])]
    {
      Untaken(held, task);
      handled, aid := RecheckAndProceed(task, chat, placeholderFails, dispatchFails, others);
    }

    // ---- priority commands ------------------------------------------------------------------

    /** The end of a command: its claim goes, its row stays as it is. */
    method EndCommand(task: Id)
      modifies store, this`leases, this`context, this`chats
      ensures store.state == AfterDrop(old(store.state), task)
      ensures leases == old(leases) - {task} && context == old(context) - {task} && chats == old(chats) - {task}
    {
      DropClaim(task);
      leases := leases - {task};
      context := context - {task};
      chats := chats - {task};
    }

    function AfterCommand(others: Others, db: Database, task: Id, fails: bool): Database {
      var seen := others(1, db);
      if fails then AfterFail(seen, task, None, "dispatch_error") else AfterDrop(others(2, seen), task)
    }

    /** _poll_priority_once: a command takes no slot and makes no chat busy; nothing
        of it stays, except that a failed dispatch releases the chat it names. */
    method PollPriority(commands: set<string>, dispatchFails: bool, others: Others)
      returns (handled: bool, row: Option<Id>, chat: string)
      requires ChatsNamed(store.state.messages, chats) && KeepsRows(others)
      modifies store, this`leases, this`context, this`chats, this`busy, this`buffers, exchange
      ensures row.None? ==> !handled && store.state == old(store.state) && leases == old(leases) && context == old(context) &&
                            NothingToTake(old(store.state), Some(commands))
      ensures row.Some? ==> MayTake(old(store.state), Some(commands), row.value)
      ensures row.Some? ==>
                var seen := others(0, AfterTake(old(store.state), row.value));
                handled == !HasStatus(seen.messages, row.value, Cancelled) &&
                store.state == (if handled then AfterCommand(others, seen, row.value, dispatchFails) else AfterDrop(seen, row.value)) &&
                leases == old(leases) - {row.value} && context == old(context) - {row.value}
      ensures buffers == old(buffers) && (!handled ==> Books() == old(Books()))
      ensures handled ==>
                Books() == (if dispatchFails then Released(old(Books()).(chats := old(chats)[row.value := chat]), row.value)
                            else old(Books()).(chats := old(chats) - {row.value}))
    {
      handled := false;
      row, chat := TakeTask(Some(commands));
      if row.None? { return; }
      Untaken(old(leases), row.value);
      Yield(0, others);
      if HasStatus(store.state.messages, row.value, Cancelled) {
        SkipCancelled(row.value);
        return;
      }
      RunCommand(row.value, chat, dispatchFails, others);
      handled := true;
    }

    /** The dispatch of a claimed command, and what it leaves. */
    method RunCommand(task: Id, chat: string, dispatchFails: bool, others: Others)
      requires KeepsRows(others)
      modifies store, this`leases, this`context, this`chats, this`busy, this`buffers, exchange
      ensures store.state == AfterCommand(others, old(store.state), task, dispatchFails)
      ensures leases == old(leases) - {task} && context == old(context) - {task} && buffers == old(buffers)
      ensures Books() == (if dispatchFails then Released(old(Books()).(chats := old(chats)[task := chat]), task)
                          else old(Books()).(chats := old(chats) - {task}))
    {
      Yield(1, others);
      chats := chats[task := chat];
      if dispatchFails {
        MarkFailed(task, None, "dispatch_error");
      } else {
        Yield(2, others);
        EndCommand(task);
        assert chats == old(chats) - {task};
      }
    }

    // ---- failing and finishing --------------------------------------------------------------

    function AfterFail(db: Database, task: Id, aid: Option<Id>, reason: string): Database {
      AfterDrop(WithMessages(db, FailRows(cfg, db.messages, db.now, task, aid, reason)), task)
    }

    /** _mark_failed */
    method MarkFailed(task: Id, aid: Option<Id>, reason: string)
      modifies store, this`leases, this`context, this`chats, this`busy, this`buffers, exchange
      ensures store.state == AfterFail(old(store.state), task, aid, reason)
      ensures Books() == Released(old(Books()), task)
      ensures leases == old(leases) - {task} && context == old(context) - {task}
      ensures buffers == if aid.Some? then old(buffers) - {aid.value} else old(buffers)
    {
      WriteFailure(task, aid, reason);
      leases := leases - {task};
      context := context - {task};
      ReleaseSlot(task);
      if aid.Some? { buffers := buffers - {aid.value}; }
    }

    /** Its transaction. */
    method WriteFailure(task: Id, aid: Option<Id>, reason: string)
      modifies store
      ensures store.state == AfterFail(old(store.state), task, aid, reason)
    {
      var conn := store.state;
      var msgs := conn.messages;
      var retries := (if task in msgs then msgs[task].retries else 0) + 1;
      if retries < cfg.maxRetries {
        if aid.Some? { msgs := DeletePlaceholder(msgs, aid.value); }
        if task in msgs {
          msgs := msgs[task := msgs[task].(status := Error, retries := retries, updatedAt := conn.now)];
        }
      } else {
        if aid.Some? && aid.value in msgs { msgs := msgs[aid.value := ErrorReply(msgs[aid.value], conn.now, reason)]; }
        if task in msgs {
          msgs := msgs[task := msgs[task].(status := Failed, retries := retries, updatedAt := conn.now)];
        }
      }
      conn := conn.(messages := msgs);
      if pool { conn := conn.(claims := DeleteClaim(conn.claims, worker, task)); }
      store.state := conn;
    }

    function BufferOf(aid: Id): string
      reads this`buffers
    {
      if aid in buffers then buffers[aid] else ""
    }

    function Early(task: Id): seq<string>
      reads this`context
    {
      if task in context then context[task].early else []
    }

    /** What is left of the turn's reasoning goes to the assistant row. */
    method StoreReasoning(task: Id, aid: Id)
      modifies store, this`buffers
      ensures store.state == WithMessages(old(store.state),
                Reasoned(old(store.state), aid, ReasoningTail(Early(task), old(BufferOf(aid)))))
      ensures buffers == old(buffers) - {aid}
    {
      var tail := BufferOf(aid);
      buffers := buffers - {aid};
      if Early(task) != [] {
        tail := Joined(Early(task)) + (if tail != "" then " " else "") + tail;
      }
      if tail != "" && aid in store.state.messages {
        var m := store.state.messages[aid];
        store.state := WithMessages(store.state,
          store.state.messages[aid := m.(reasoning := m.reasoning + tail, updatedAt := store.state.now)]);
      }
    }

    /** The final transaction. */
    method WriteAnswer(task: Id, aid: Id, content: string, media: seq<string>)
      modifies store
      ensures store.state == AfterDrop(WithMessages(old(store.state),
                FinalRows(old(store.state).messages, old(store.state).now, task, aid, content, media)), task)
    {
      var conn := store.state;
      var msgs := conn.messages;
      if aid in msgs {
        var held := msgs[aid];
        var finalMedia := if media != [] then media else held.media;
        var finalContent := if content != "" then content else held.content;
        msgs := msgs[aid := held.(content := finalContent, media := finalMedia, status := Completed, updatedAt := conn.now)];
      }
      msgs := SetStatus(msgs, conn.now, task, Completed);
      conn := conn.(messages := msgs);
      if pool { conn := conn.(claims := DeleteClaim(conn.claims, worker, task)); }
      store.state := conn;
    }

    /** The tables after a final: `tail` is the reasoning not yet stored. */
    function AfterFinal(others: Others, db: Database, task: Id, aid: Id, tail: string,
                        content: string, media: seq<string>, writeFails: bool): Database {
      if HasStatus(db.messages, task, Cancelled) then AfterCancelled(others, db, task, aid)
      else AfterWritten(others, db, task, aid, tail, content, media, writeFails)
    }

    function AfterCancelled(others: Others, db: Database, task: Id, aid: Id): Database {
      var seen := others(0, db);
      AfterDrop(others(1, WithMessages(seen, DeletePlaceholder(seen.messages, aid))), task)
    }

    function AfterWritten(others: Others, db: Database, task: Id, aid: Id, tail: string,
                          content: string, media: seq<string>, writeFails: bool): Database {
      var seen := others(0, db);
      AfterEnd(others, others(1, WithMessages(seen, Reasoned(seen, aid, tail))), task, aid, content, media, writeFails)
    }

    function AfterEnd(others: Others, db: Database, task: Id, aid: Id, content: string, media: seq<string>,
                      writeFails: bool): Database {
      if writeFails then AfterFail(others(2, db), task, Some(aid), "write_error")
      else AfterDrop(WithMessages(db, FinalRows(db.messages, db.now, task, aid, content, media)), task)
    }

    /** _finalize_turn, its context resolved: the check for a cancellation, then
        either the placeholder and the claim go, or the reasoning and the answer are
        written.  `writeFails`: the final transaction raised and was rolled back. */
    method FinalizeTurn(task: Id, aid: Id, content: string, media: seq<string>, writeFails: bool, others: Others)
      requires KeepsRows(others)
      modifies store, this`leases, this`context, this`chats, this`busy, this`buffers, exchange
      ensures store.state == AfterFinal(others, old(store.state), task, aid,
                ReasoningTail(old(Early(task)), old(BufferOf(aid))), content, media, writeFails)
      ensures Books() == Released(old(Books()), task)
      ensures leases == old(leases) - {task} && context == old(context) - {task}
      ensures buffers == if HasStatus(old(store.state).messages, task, Cancelled) then old(buffers) else old(buffers) - {aid}
    {
      if HasStatus(store.state.messages, task, Cancelled) {
        FinalizeCancelled(task, aid, others);
        EndTurn(task);
      } else {
        FinalizeWritten(task, aid, content, media, writeFails, others);
      }
    }

    method FinalizeCancelled(task: Id, aid: Id, others: Others)
      requires KeepsRows(others)
      modifies store
      ensures store.state == AfterCancelled(others, old(store.state), task, aid)
    {
      Yield(0, others);
      store.state := WithMessages(store.state, DeletePlaceholder(store.state.messages, aid));
      Yield(1, others);
      DropClaim(task);
    }

    method FinalizeWritten(task: Id, aid: Id, content: string, media: seq<string>, writeFails: bool, others: Others)
      requires KeepsRows(others)
      modifies store, this`leases, this`context, this`chats, this`busy, this`buffers, exchange
      ensures store.state == AfterWritten(others, old(store.state), task, aid,
                ReasoningTail(old(Early(task)), old(BufferOf(aid))), content, media, writeFails)
      ensures Books() == Released(old(Books()), task)
      ensures leases == old(leases) - {task} && context == old(context) - {task} && buffers == old(buffers) - {aid}
    {
      Yield(0, others);
      StoreReasoning(task, aid);
      Yield(1, others);
      if writeFails {
        Yield(2, others);
        MarkFailed(task, Some(aid), "write_error");
        assert buffers == old(buffers) - {aid};
        return;
      }
      WriteAnswer(task, aid, content, media);
      EndTurn(task);
    }

    /** The bookkeeping at the end of every final that did not fail. */
    method EndTurn(task: Id)
      modifies this`leases, this`context, this`chats, this`busy, exchange
      ensures Books() == Released(old(Books()), task) && leases == old(leases) - {task} && context == old(context) - {task}
    {
      context := context - {task};
      leases := leases - {task};
      ReleaseSlot(task);
    }

    // ---- outbound before the final ---------------------------------------------------------------

    /** _merge_tool_delivery: nothing but the assistant row changes. */
    method MergeToolDelivery(aid: Id, content: string, media: seq<string>)
      modifies store
      ensures store.state ==
                if aid in old(store.state).messages
                then WithMessages(old(store.state), old(store.state).messages[
                       aid := Turns.Delivered(old(store.state).messages[aid], old(store.state).now, content, media)])
                else old(store.state)
      ensures aid in old(store.state).messages ==>
                var was, now := old(store.state).messages[aid].content, store.state.messages[aid].content;
                was <= now && (content != "" && content != was ==> |content| <= |now| && now[|now| - |content|..] == content)
    {
      if aid !in store.state.messages { return; }
      Turns.TextMerged(store.state.messages[aid].content, content);
      var held := store.state.messages[aid];
      var merged := held.media;
      var i := 0;
      while i < |media|
        invariant 0 <= i <= |media| && Turns.MergeMedia(held.media, media) == Turns.MergeMedia(merged, media[i..])
      {
        if media[i] !in merged { merged := merged + [media[i]]; }
        i := i + 1;
      }
      var text := held.content;
      if content != "" && content != text {
        text := if text != "" then text + "\n\n" + content else content;
      }
      store.state := WithMessages(store.state, store.state.messages[
        aid := held.(content := text, media := merged, updatedAt := store.state.now)]);
    }

    /** send_delta: accumulate, or close the turn with what was accumulated; the
        text of the closing call is dropped. */
    method SendDelta(key: string, text: string, end: bool, task: Id, aid: Id, writeFails: bool, others: Others)
      requires KeepsRows(others)
      modifies store, this, exchange
      ensures !end ==>
                store.state == old(store.state) && Books() == old(Books()) && leases == old(leases) && context == old(context) &&
                buffers == old(buffers) && streams == old(streams)[key := Turns.Buffered(old(streams), key) + text]
      ensures end ==> streams == old(streams) - {key} && Books() == Released(old(Books()), task) && leases == old(leases) - {task}
      ensures end ==>
                store.state == AfterFinal(others, old(store.state), task, aid,
                  ReasoningTail(old(Early(task)), old(BufferOf(aid))), Turns.Buffered(old(streams), key), [], writeFails)
    {
      if !end {
        streams := streams[key := Turns.Buffered(streams, key) + text];
        return;
      }
      var content := Turns.Buffered(streams, key);
      streams := streams - {key};
      FinalizeTurn(task, aid, content, [], writeFails, others);
    }

    /** send_reasoning_delta */
    method SendReasoningDelta(aid: Option<Id>, task: Option<Id>, text: string)
      modifies this`buffers, this`context
      ensures aid.Some? ==> buffers == old(buffers)[aid.value := old(BufferOf(aid.value)) + text] && context == old(context)
      ensures aid.None? ==> buffers == old(buffers)
      ensures aid.None? && task.Some? ==> Early(task.value) == old(Early(task.value)) + [text]
    {
      if aid.Some? {
        buffers := buffers[aid.value := BufferOf(aid.value) + text];
      } else if task.Some? {
        var was := if task.value in context then context[task.value] else Context(None, []);
        context := context[task.value := was.(early := was.early + [text])];
      }
    }

    /** _flush_reasoning, uninterrupted.  The buffers come in any order. */
    method FlushReasoning()
      modifies store, this`buffers
      ensures buffers == map[]
      ensures store.state == WithMessages(old(store.state), AllReasoned(old(store.state), old(buffers), old(buffers).Keys))
    {
      var taken := buffers;
      buffers := map[];
      var todo := taken.Keys;
      assert AllReasoned(store.state, taken, {}) == store.state.messages;
      while todo != {}
        invariant todo <= taken.Keys && buffers == map[]
        invariant store.state == WithMessages(old(store.state), AllReasoned(old(store.state), taken, taken.Keys - todo))
        decreases |todo|
      {
        var aid :| aid in todo;
        ReasonedNext(old(store.state), taken, todo, aid);
        if taken[aid] != "" && aid in store.state.messages {
          var m := store.state.messages[aid];
          store.state := WithMessages(store.state,
            store.state.messages[aid := m.(reasoning := m.reasoning + taken[aid], updatedAt := store.state.now)]);
        }
        todo := todo - {aid};
      }
      assert taken.Keys - todo == taken.Keys;
    }
  }

  function AllReasoned(db: Database, buffers: map<Id, string>, ids: set<Id>): Messages {
    map id | id in db.messages ::
      if id in ids && id in buffers && buffers[id] != ""
      then db.messages[id].(reasoning := db.messages[id].reasoning + buffers[id], updatedAt := db.now)
      else db.messages[id]
  }

  /** One buffer more. */
  lemma ReasonedNext(db: Database, taken: map<Id, string>, todo: set<Id>, aid: Id)
    requires aid in todo && todo <= taken.Keys
    ensures var so := AllReasoned(db, taken, taken.Keys - todo);
            AllReasoned(db, taken, taken.Keys - (todo - {aid})) ==
              if taken[aid] != "" && aid in so
              then so[aid := so[aid].(reasoning := so[aid].reasoning + taken[aid], updatedAt := db.now)] else so
  {
  }

  /** Early reasoning comes piece by piece in the order it came ... */
  lemma {:induction false} EarlyInOrder(early: seq<string>, last: string)
    requires early != []
    ensures Joined(early + [last]) == Joined(early) + " " + last
    decreases |early|
  {
    if |early| > 1 {
      EarlyInOrder(early[1..], last);
      assert (early + [last])[1..] == early[1..] + [last];
    }
  }

  /** ... and the live buffer after it. */
  lemma BufferIsLast(early: seq<string>, buffer: string)
    ensures early == [] ==> ReasoningTail(early, buffer) == buffer
    ensures early != [] ==> Joined(early) <= ReasoningTail(early, buffer)
    ensures var tail := ReasoningTail(early, buffer); |buffer| <= |tail| && tail[|tail| - |buffer|..] == buffer
    ensures early != [] && buffer == "" ==> ReasoningTail(early, buffer) == Joined(early)
  {
  }

  /** The final transaction leaves the assistant row exactly as a whole turn,
      assembled message by message, leaves it: what was early goes first. */
  lemma FinalClosesTurn(db: Database, task: Id, aid: Id, early: seq<string>, buffer: string,
                        content: string, media: seq<string>, streams: map<string, string>)
    requires aid in db.messages && aid != task
    ensures var tail := ReasoningTail(early, buffer);
            FinalRows(Reasoned(db, aid, tail), db.now, task, aid, content, media)[aid] ==
              Turns.Closed(Turns.Turn(db.messages[aid], streams, tail), db.now, content, media).row
  {
  }

  /** A flush leaves each row as a flush of its own turn does, and no other row. */
  lemma FlushFlushesTurns(db: Database, buffers: map<Id, string>, aid: Id, streams: map<string, string>)
    requires aid in db.messages
    ensures var after := AllReasoned(db, buffers, buffers.Keys);
            aid in after &&
            after[aid] == (if aid in buffers then Turns.Flushed(Turns.Turn(db.messages[aid], streams, buffers[aid]), db.now).row
                           else db.messages[aid])
  {
  }

  /** A lease taken and dropped again. */
  lemma Untaken(leases: set<Id>, task: Id)
    ensures (leases + {task}) - {task} - {task} == leases - {task} && (leases + {task}) - {task} == leases - {task}
  {
  }

  /** Set arithmetic of `ForgetAll`. */
  lemma OneLess(leases: set<Id>, inflight: set<Id>, context: map<Id, Context>, known: set<Id>, gone: set<Id>, todo: set<Id>, x: Id)
    requires x in todo && todo <= gone
    ensures inflight - (gone - (todo - {x})) == inflight - (gone - todo) - {x}
    ensures context - (gone - (todo - {x})) == context - (gone - todo) - {x}
    ensures leases - (gone - (todo - {x})) * known ==
              if x in known then leases - (gone - todo) * known - {x} else leases - (gone - todo) * known
  {
    assert gone - (todo - {x}) == gone - todo + {x};
  }

  /** A stuck row waiting for its turn in the loop is as it was. */
  lemma StuckIsUntouched(cfg: Settings, db: Database, done: set<Id>, id: Id)
    requires id in StuckTasks(cfg, db) && id !in done
    ensures HasStatus(RevokeAll(cfg, db.now, db.messages, done), id, Processing)
    ensures forall t | t in StuckTasks(cfg, db) :: !IsAssistant(db.messages, t)
  {
    assert !DroppedReply(cfg, db.messages, done, db.messages[id]);
  }

  /** The message part of one release does not depend on the claims table. */
  lemma ReleaseIgnoresClaims(a: Database, b: Database, w: WorkerId, id: Id)
    requires a.messages == b.messages && a.now == b.now
    ensures ReleaseOne(a, w, id).messages == ReleaseOne(b, w, id).messages
  {
  }
}
