/** Each transaction, and each statement outside one, that a gateway runs in
    worker_pool or single mode, as a function from database to database.
    Multi-row loops are given here row by row (`RevokeAll`, `ReleaseAll`); the
    class in Channel.dfy runs the loops and is proved against these. */
module PoolSteps {
  import opened Tables

  // ---- claiming -------------------------------------------------------------

  /** status = 'pending', or 'error' whose back-off has elapsed. */
  predicate Waiting(cfg: Settings, now: int, m: Message) {
    m.role == User && (m.status == Pending || (m.status == Error && m.updatedAt + cfg.errorDelay < now))
  }

  predicate Wanted(m: Message, commands: Option<set<string>>) {
    commands.None? || m.content in commands.value
  }

  /** The WHERE clause of the worker_pool claim. */
  predicate Eligible(cfg: Settings, db: Database, commands: Option<set<string>>, id: Id) {
    id in db.messages && Waiting(cfg, db.now, db.messages[id]) && Wanted(db.messages[id], commands) &&
    id !in db.claims && !ChatBusy(db.messages, db.messages[id].chat)
  }

  /** ORDER BY created_at LIMIT 1; ties are broken arbitrarily. */
  predicate OldestEligible(cfg: Settings, db: Database, commands: Option<set<string>>, id: Id) {
    Eligible(cfg, db, commands, id) &&
    forall j {:trigger Eligible(cfg, db, commands, j)} | j in db.messages ::
      Eligible(cfg, db, commands, j) ==> db.messages[id].createdAt <= db.messages[j].createdAt
  }

  /** INSERT INTO claims and UPDATE ... 'processing', in one transaction. */
  function Claimed(cfg: Settings, db: Database, w: WorkerId, id: Id): Database {
    db.(claims := db.claims[id := Claim(w, db.now + cfg.timeout)],
        messages := SetStatus(db.messages, db.now, id, Processing))
  }

  // ---- lease loop -----------------------------------------------------------

  function Heartbeat(cfg: Settings, db: Database, w: WorkerId): Database {
    db.(claims := map id | id in db.claims ::
                    if db.claims[id].worker == w then db.claims[id].(leaseUntil := db.now + cfg.timeout) else db.claims[id])
  }

  /** The claims the reclaim DELETE removes: expired, and not one of the
      worker's own rows for a task it holds in memory. */
  predicate Revocable(db: Database, w: WorkerId, own: set<Id>, id: Id) {
    id in db.claims && db.claims[id].leaseUntil < db.now && !(id in own && db.claims[id].worker == w)
  }

  function Revoked(db: Database, w: WorkerId, own: set<Id>): set<Id> {
    set id | id in db.claims && Revocable(db, w, own, id)
  }

  /** The failure being counted reaches max_stuck_retries. */
  predicate LastTry(cfg: Settings, msgs: Messages, id: Id) {
    (if id in msgs then msgs[id].retries else 0) + 1 >= cfg.maxRetries
  }

  /** What revoking `id` does to its own row. */
  function CountFailure(cfg: Settings, now: int, m: Message): Message {
    m.(status := if m.retries + 1 >= cfg.maxRetries then Failed else Pending, retries := m.retries + 1, updatedAt := now)
  }

  /** Revoke one task: the two statements of the loop body, in order. */
  function RevokeOne(cfg: Settings, now: int, msgs: Messages, id: Id): Messages {
    var counted := if HasStatus(msgs, id, Processing) then msgs[id := CountFailure(cfg, now, msgs[id])] else msgs;
    if LastTry(cfg, msgs, id) then
      map j | j in counted ::
        if RepliesTo(counted[j], id) && counted[j].status == Processing then counted[j].(status := Failed, updatedAt := now)
        else counted[j]
    else
      map j | j in counted && !(RepliesTo(counted[j], id) && counted[j].status in {Processing, Failed}) :: counted[j]
  }

  /** A reply dropped because its task goes back to the queue. */
  predicate DroppedReply(cfg: Settings, msgs: Messages, ids: set<Id>, m: Message) {
    m.role == Assistant && m.replyTo.Some? && m.replyTo.value in ids && !LastTry(cfg, msgs, m.replyTo.value) &&
    m.status in {Processing, Failed}
  }

  /** A reply that fails together with its task. */
  predicate FailedReply(cfg: Settings, msgs: Messages, ids: set<Id>, m: Message) {
    m.role == Assistant && m.replyTo.Some? && m.replyTo.value in ids && LastTry(cfg, msgs, m.replyTo.value) &&
    m.status == Processing
  }

  function RevokedRow(cfg: Settings, now: int, msgs: Messages, ids: set<Id>, id: Id): Message
    requires id in msgs
  {
    var m := msgs[id];
    if id in ids && m.status == Processing then CountFailure(cfg, now, m)
    else if FailedReply(cfg, msgs, ids, m) then m.(status := Failed, updatedAt := now)
    else m
  }

  /** All of `ids` revoked, whatever order the rows come in. */
  function RevokeAll(cfg: Settings, now: int, msgs: Messages, ids: set<Id>): Messages {
    map id | id in msgs && !DroppedReply(cfg, msgs, ids, msgs[id]) :: RevokedRow(cfg, now, msgs, ids, id)
  }

  /** Revoking one task is revoking the set of it, row by row. */
  lemma RevokeOneRow(cfg: Settings, now: int, msgs: Messages, id: Id, j: Id)
    requires !IsAssistant(msgs, id)
    ensures var a, b := RevokeOne(cfg, now, msgs, id), RevokeAll(cfg, now, msgs, {id});
            (j in a <==> j in b) && (j in a ==> a[j] == b[j])
  {
  }

  /** One row of `RevokeStep`. */
  lemma RevokeMoreRow(cfg: Settings, now: int, msgs: Messages, done: set<Id>, id: Id, j: Id)
    requires id !in done
    requires forall t | t in done + {id} :: !IsAssistant(msgs, t)
    ensures var a, b := RevokeAll(cfg, now, RevokeAll(cfg, now, msgs, done), {id}), RevokeAll(cfg, now, msgs, done + {id});
            (j in a <==> j in b) && (j in a ==> a[j] == b[j])
  {
    var mid := RevokeAll(cfg, now, msgs, done);
    assert id in done + {id};
    assert id in msgs <==> id in mid;
    assert id in msgs ==> mid[id] == msgs[id];
    assert LastTry(cfg, mid, id) == LastTry(cfg, msgs, id);
    if j in msgs {
      assert DroppedReply(cfg, msgs, done + {id}, msgs[j]) <==>
             DroppedReply(cfg, msgs, done, msgs[j]) || DroppedReply(cfg, msgs, {id}, msgs[j]);
    }
  }

  lemma SameRows(a: Messages, b: Messages)
    requires forall j: Id :: (j in a <==> j in b) && (j in a ==> a[j] == b[j])
    ensures a == b
  {
  }

  /** The order of the rows does not matter as long as none is an assistant row. */
  lemma RevokeStep(cfg: Settings, now: int, msgs: Messages, done: set<Id>, id: Id)
    requires id !in done
    requires forall t | t in done + {id} :: !IsAssistant(msgs, t)
    ensures RevokeOne(cfg, now, RevokeAll(cfg, now, msgs, done), id) == RevokeAll(cfg, now, msgs, done + {id})
  {
    var mid, all := RevokeAll(cfg, now, msgs, done), RevokeAll(cfg, now, msgs, done + {id});
    var one, both := RevokeOne(cfg, now, mid, id), RevokeAll(cfg, now, mid, {id});
    assert id in done + {id} && !IsAssistant(mid, id);
    forall j: Id
      ensures (j in one <==> j in both) && (j in one ==> one[j] == both[j])
    {
      RevokeOneRow(cfg, now, mid, id, j);
    }
    SameRows(one, both);
    forall j: Id
      ensures (j in both <==> j in all) && (j in both ==> both[j] == all[j])
    {
      RevokeMoreRow(cfg, now, msgs, done, id, j);
    }
    SameRows(both, all);
  }

  /** `RevokeStep`, as a loop that empties `todo` needs it. */
  lemma RevokeNext(cfg: Settings, now: int, msgs: Messages, rows: set<Id>, todo: set<Id>, id: Id)
    requires id in todo && todo <= rows && forall t | t in rows :: !IsAssistant(msgs, t)
    ensures RevokeOne(cfg, now, RevokeAll(cfg, now, msgs, rows - todo), id) == RevokeAll(cfg, now, msgs, rows - (todo - {id}))
  {
    assert rows - (todo - {id}) == rows - todo + {id};
    RevokeStep(cfg, now, msgs, rows - todo, id);
  }

  lemma RevokeNone(cfg: Settings, now: int, msgs: Messages)
    ensures RevokeAll(cfg, now, msgs, {}) == msgs
  {
    assert forall id | id in msgs :: RevokedRow(cfg, now, msgs, {}, id) == msgs[id];
  }

  function Revoke(cfg: Settings, db: Database, w: WorkerId, own: set<Id>): Database {
    var ids := Revoked(db, w, own);
    db.(claims := db.claims - ids, messages := RevokeAll(cfg, db.now, db.messages, ids))
  }

  // ---- self-repair ----------------------------------------------------------

  /** Step 2: a processing user row without a claim becomes 'error'. */
  function MarkUnclaimed(db: Database): Database {
    db.(messages := map id | id in db.messages ::
                      if db.messages[id].role == User && db.messages[id].status == Processing && id !in db.claims
                      then db.messages[id].(status := Error, updatedAt := db.now) else db.messages[id])
  }

  /** A processing assistant row whose reply_to is no user row. */
  predicate Orphan(msgs: Messages, id: Id) {
    id in msgs && msgs[id].role == Assistant && msgs[id].status == Processing &&
    !(msgs[id].replyTo.Some? && IsUser(msgs, msgs[id].replyTo.value))
  }

  /** Step 3: orphaned placeholders become 'failed'. */
  function FailOrphans(db: Database): Database {
    db.(messages := map id | id in db.messages ::
                      if Orphan(db.messages, id) then db.messages[id].(status := Failed, updatedAt := db.now)
                      else db.messages[id])
  }

  /** Step 4: a claim whose task is not processing is removed. */
  function DropDangling(db: Database): Database {
    db.(claims := map id | id in db.claims && HasStatus(db.messages, id, Processing) :: db.claims[id])
  }

  function Heal(db: Database): Database {
    DropDangling(FailOrphans(MarkUnclaimed(db)))
  }

  function ReclaimAndHeal(cfg: Settings, db: Database, w: WorkerId, own: set<Id>): Database {
    Heal(Revoke(cfg, db, w, own))
  }

  /** The quick gate: some row is processing, or some claim exists. */
  predicate ReclaimNeeded(db: Database) {
    (exists id | id in db.messages :: db.messages[id].status == Processing) || db.claims != map[]
  }

  // ---- releasing ------------------------------------------------------------

  /** Return one lease to the queue: the three statements of the loop body. */
  function ReleaseOne(db: Database, w: WorkerId, id: Id): Database {
    var msgs := if HasStatus(db.messages, id, Processing) then SetStatus(db.messages, db.now, id, Pending) else db.messages;
    db.(claims := DeleteClaim(db.claims, w, id),
        messages := map j | j in msgs && !(RepliesTo(msgs[j], id) && msgs[j].status == Processing) :: msgs[j])
  }

  predicate ReleasedReply(ids: set<Id>, m: Message) {
    m.role == Assistant && m.replyTo.Some? && m.replyTo.value in ids && m.status == Processing
  }

  function ReleaseAll(db: Database, w: WorkerId, ids: set<Id>): Database {
    db.(claims := map id | id in db.claims && !(id in ids && db.claims[id].worker == w) :: db.claims[id],
        messages := map id | id in db.messages && !ReleasedReply(ids, db.messages[id]) ::
          if id in ids && db.messages[id].status == Processing
          then db.messages[id].(status := Pending, updatedAt := db.now) else db.messages[id])
  }

  lemma ReleaseStep(db: Database, w: WorkerId, done: set<Id>, id: Id)
    requires id !in done
    requires forall t | t in done + {id} :: !IsAssistant(db.messages, t)
    ensures ReleaseOne(ReleaseAll(db, w, done), w, id) == ReleaseAll(db, w, done + {id})
  {
    var mid, all := ReleaseAll(db, w, done), ReleaseAll(db, w, done + {id});
    var one, both := ReleaseOne(mid, w, id), ReleaseAll(mid, w, {id});
    assert id in done + {id} && !IsAssistant(mid.messages, id);
    forall j: Id
      ensures (j in one.messages <==> j in both.messages) && (j in one.messages ==> one.messages[j] == both.messages[j])
    {
      ReleaseOneRow(mid, w, id, j);
    }
    SameRows(one.messages, both.messages);
    forall j: Id
      ensures (j in both.messages <==> j in all.messages) && (j in both.messages ==> both.messages[j] == all.messages[j])
    {
      ReleaseMoreRow(db, w, done, id, j);
    }
    SameRows(both.messages, all.messages);
    ReleasedClaims(db, w, done, id);
  }

  lemma ReleasedClaims(db: Database, w: WorkerId, done: set<Id>, id: Id)
    ensures ReleaseOne(ReleaseAll(db, w, done), w, id).claims == ReleaseAll(db, w, done + {id}).claims
  {
  }

  /** Releasing one lease is releasing the set of it, row by row. */
  lemma ReleaseOneRow(db: Database, w: WorkerId, id: Id, j: Id)
    requires !IsAssistant(db.messages, id)
    ensures var a, b := ReleaseOne(db, w, id).messages, ReleaseAll(db, w, {id}).messages;
            (j in a <==> j in b) && (j in a ==> a[j] == b[j])
  {
  }

  /** One row of `ReleaseStep`. */
  lemma ReleaseMoreRow(db: Database, w: WorkerId, done: set<Id>, id: Id, j: Id)
    requires id !in done
    requires forall t | t in done + {id} :: !IsAssistant(db.messages, t)
    ensures var a, b := ReleaseAll(ReleaseAll(db, w, done), w, {id}).messages, ReleaseAll(db, w, done + {id}).messages;
            (j in a <==> j in b) && (j in a ==> a[j] == b[j])
  {
    assert id in done + {id};
    if j in db.messages {
      assert ReleasedReply(done + {id}, db.messages[j]) <==> ReleasedReply(done, db.messages[j]) || ReleasedReply({id}, db.messages[j]);
    }
  }

  lemma ReleaseNone(db: Database, w: WorkerId)
    ensures ReleaseAll(db, w, {}) == db
  {
    assert ReleaseAll(db, w, {}).messages == db.messages;
    assert ReleaseAll(db, w, {}).claims == db.claims;
  }

  // ---- the turn -------------------------------------------------------------

  function WithMessages(db: Database, msgs: Messages): Database {
    db.(messages := msgs)
  }

  function WithoutClaim(db: Database, w: WorkerId, id: Id): Database {
    db.(claims := DeleteClaim(db.claims, w, id))
  }

  /** UPDATE ... 'pending' WHERE id: no status guard. */
  function Deferred(db: Database, id: Id): Database {
    WithMessages(db, SetStatus(db.messages, db.now, id, Pending))
  }

  function Placeholder(chat: string, task: Id, now: int): Message {
    Message(Assistant, Some(chat), None, "", [], "", Some(task), Processing, 0, now, now)
  }

  function Placed(db: Database, aid: Id, chat: string, task: Id): Database {
    WithMessages(db, db.messages[aid := Placeholder(chat, task, db.now)])
  }

  /** The answer row after the final: its own text and media unless empty. */
  function Answered(m: Message, now: int, content: string, media: seq<string>): Message {
    m.(content := if content != "" then content else m.content,
       media := if media != [] then media else m.media,
       status := Completed, updatedAt := now)
  }

  /** The message part of the final transaction; neither update has a guard. */
  function FinalRows(msgs: Messages, now: int, task: Id, aid: Id, content: string, media: seq<string>): Messages {
    var answered := if aid in msgs then msgs[aid := Answered(msgs[aid], now, content, media)] else msgs;
    SetStatus(answered, now, task, Completed)
  }

  function Finalized(db: Database, w: WorkerId, task: Id, aid: Id, content: string, media: seq<string>): Database {
    WithoutClaim(WithMessages(db, FinalRows(db.messages, db.now, task, aid, content, media)), w, task)
  }

  /** Append to metadata.reasoning of one row, if there is anything to append. */
  function Reasoned(db: Database, aid: Id, tail: string): Messages {
    if tail != "" && aid in db.messages
    then db.messages[aid := db.messages[aid].(reasoning := db.messages[aid].reasoning + tail, updatedAt := db.now)]
    else db.messages
  }

  function ErrorReply(m: Message, now: int, reason: string): Message {
    m.(content := "Internal error: " + reason, reasoning := "", retries := 0, status := Failed, updatedAt := now)
  }

  /** The message part of _mark_failed; the user row has no status guard. */
  function FailRows(cfg: Settings, msgs: Messages, now: int, task: Id, aid: Option<Id>, reason: string): Messages {
    var retries := (if task in msgs then msgs[task].retries else 0) + 1;
    if retries < cfg.maxRetries then
      var rest := if aid.Some? then DeletePlaceholder(msgs, aid.value) else msgs;
      if task in rest then rest[task := rest[task].(status := Error, retries := retries, updatedAt := now)] else rest
    else
      var rest := if aid.Some? && aid.value in msgs then msgs[aid.value := ErrorReply(msgs[aid.value], now, reason)] else msgs;
      if task in rest then rest[task := rest[task].(status := Failed, retries := retries, updatedAt := now)] else rest
  }

  function MarkedFailed(cfg: Settings, db: Database, w: WorkerId, task: Id, aid: Option<Id>, reason: string): Database {
    WithoutClaim(WithMessages(db, FailRows(cfg, db.messages, db.now, task, aid, reason)), w, task)
  }

  // ---- single mode ----------------------------------------------------------

  predicate Stuck(cfg: Settings, db: Database, id: Id) {
    id in db.messages && db.messages[id].role == User && db.messages[id].status == Processing &&
    db.messages[id].updatedAt + cfg.timeout < db.now
  }

  function StuckTasks(cfg: Settings, db: Database): set<Id> {
    set id | id in db.messages && Stuck(cfg, db, id)
  }

  /** Placeholders older than the timeout fail, whether or not their task lives. */
  function FailOldPlaceholders(cfg: Settings, db: Database): Database {
    WithMessages(db, map id | id in db.messages ::
                       if db.messages[id].role == Assistant && db.messages[id].status == Processing &&
                          db.messages[id].updatedAt + cfg.timeout < db.now
                       then db.messages[id].(status := Failed, updatedAt := db.now) else db.messages[id])
  }

  function Unstuck(cfg: Settings, db: Database): Database {
    FailOldPlaceholders(cfg, WithMessages(db, RevokeAll(cfg, db.now, db.messages, StuckTasks(cfg, db))))
  }

  /** The inner SELECT of the single-mode claim: no claims table. */
  predicate EligibleSingle(cfg: Settings, db: Database, commands: Option<set<string>>, id: Id) {
    id in db.messages && Waiting(cfg, db.now, db.messages[id]) && Wanted(db.messages[id], commands) &&
    !ChatBusy(db.messages, db.messages[id].chat)
  }

  predicate OldestSingle(cfg: Settings, db: Database, commands: Option<set<string>>, id: Id) {
    EligibleSingle(cfg, db, commands, id) &&
    forall j {:trigger EligibleSingle(cfg, db, commands, j)} | j in db.messages ::
      EligibleSingle(cfg, db, commands, j) ==> db.messages[id].createdAt <= db.messages[j].createdAt
  }

  /** The outer UPDATE takes the selected row only while it is 'pending'. */
  function ClaimedSingle(db: Database, id: Id): Database {
    if HasStatus(db.messages, id, Pending) then WithMessages(db, SetStatus(db.messages, db.now, id, Processing)) else db
  }
}
