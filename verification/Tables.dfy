/** The two shared tables of the worker pool, as values, and the SQL statements
    the gateways run against them.  A table is a map from primary key to row;
    `now` is the clock that NOW() reads. */
module Tables {

  datatype Option<+T> = None | Some(value: T)

  type Id = nat         // UUID: only equality matters
  type WorkerId = nat   // {host}:{pid}:{rand8}: only equality matters

  datatype Role = User | Assistant | OtherRole

  datatype Status = Pending | Processing | Error | Completed | Failed | Cancelled

  /** A row of agent_conversation_messages.  `reasoning` and `retries` are the
      metadata keys of those names (retries: retry_count). */
  datatype Message = Message(
    role: Role,
    chat: Option<string>,
    user: Option<string>,
    content: string,
    media: seq<string>,
    reasoning: string,
    replyTo: Option<Id>,
    status: Status,
    retries: nat,
    createdAt: int,
    updatedAt: int)

  /** A row of agent_worker_claims; its key is task_id. */
  datatype Claim = Claim(worker: WorkerId, leaseUntil: int)

  type Messages = map<Id, Message>
  type Claims = map<Id, Claim>

  datatype Database = Database(messages: Messages, claims: Claims, now: int)

  /** processing_timeout, error_retry_delay and max_stuck_retries. */
  datatype Settings = Settings(timeout: int, errorDelay: int, maxRetries: int)

  // ---- row predicates -------------------------------------------------------

  predicate IsUser(msgs: Messages, id: Id) {
    id in msgs && msgs[id].role == User
  }

  predicate IsAssistant(msgs: Messages, id: Id) {
    id in msgs && msgs[id].role == Assistant
  }

  predicate HasStatus(msgs: Messages, id: Id, s: Status) {
    id in msgs && msgs[id].status == s
  }

  predicate RepliesTo(m: Message, id: Id) {
    m.role == Assistant && m.replyTo == Some(id)
  }

  /** Some user row of this chat is being processed; a NULL chat is never busy. */
  predicate ChatBusy(msgs: Messages, chat: Option<string>) {
    chat.Some? && exists id | id in msgs :: msgs[id].role == User && msgs[id].chat == chat && msgs[id].status == Processing
  }

  /** The chat name a gateway keeps locally: chat_id, or user_id when chat_id is
      NULL or empty; str(None) is the text None. */
  function LocalChat(m: Message): string {
    if m.chat.Some? && m.chat.value != "" then m.chat.value
    else if m.user.Some? then m.user.value
    else "None"
  }

  /** No claim row points at an assistant row: the channel only inserts claims
      for the user rows it selects. */
  ghost predicate ClaimsOnUsers(db: Database) {
    forall id | id in db.claims :: !IsAssistant(db.messages, id)
  }

  // ---- single-row statements ------------------------------------------------

  /** UPDATE ... SET status = s, updated_at = NOW() WHERE id = id */
  function SetStatus(msgs: Messages, now: int, id: Id, s: Status): Messages {
    if id in msgs then msgs[id := msgs[id].(status := s, updatedAt := now)] else msgs
  }

  /** DELETE ... WHERE id = id AND role = 'assistant' */
  function DeletePlaceholder(msgs: Messages, id: Id): Messages {
    if IsAssistant(msgs, id) then msgs - {id} else msgs
  }

  /** DELETE FROM claims WHERE task_id = id AND worker_id = w */
  function DeleteClaim(claims: Claims, w: WorkerId, id: Id): Claims {
    if id in claims && claims[id].worker == w then claims - {id} else claims
  }
}
