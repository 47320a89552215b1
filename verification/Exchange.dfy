/** lib/channels/message_exchange.py: the slots that bound how many turns run at
    once, as an object, and as the value the run theorems speak about. */
module Exchange {
  import opened Tables

  /** asyncio.Semaphore(max_concurrent or 1) */
  function Capacity(max: nat): nat {
    if max == 0 then 1 else max
  }

  class MessageExchange<K(==)> {
    const max: nat
    var permits: nat
    var inflight: set<K>

    ghost predicate Balanced()
      reads this
    {
      permits + |inflight| == Capacity(max)
    }

    constructor (max: nat)
      ensures Balanced() && inflight == {} && this.max == max
    {
      this.max := max;
      permits := Capacity(max);
      inflight := {};
    }

    predicate IsSlotFree()
      reads this
    {
      |inflight| < max
    }

    /** `granted` is false where the source would wait for a permit. */
    method AcquireSlot() returns (granted: bool)
      modifies this`permits
      ensures granted == (old(permits) > 0)
      ensures permits == if granted then old(permits) - 1 else old(permits)
    {
      granted := permits > 0;
      if granted { permits := permits - 1; }
    }

    method AddInflight(key: K)
      modifies this`inflight
      ensures inflight == old(inflight) + {key}
    {
      inflight := inflight + {key};
    }

    method DiscardInflight(key: K)
      modifies this`inflight
      ensures inflight == old(inflight) - {key}
    {
      inflight := inflight - {key};
    }

    /** With a key: give the slot back once, however often it is called. */
    method ReleaseSlot(key: Option<K>)
      modifies this
      ensures inflight == if key.Some? then old(inflight) - {key.value} else old(inflight)
      ensures permits == if key.Some? && key.value !in old(inflight) then old(permits) else old(permits) + 1
      ensures key.Some? && old(Balanced()) ==> Balanced()
    {
      if key.Some? {
        if key.value !in inflight {
          assert inflight == inflight - {key.value};
          return;
        }
        inflight := inflight - {key.value};
      }
      permits := permits + 1;
    }
  }

  // ---- the channel's books -----------------------------------------------------

  /** The exchange, `_msg_chat` and `_chat_inflight` of one channel. */
  datatype Ledger = Ledger(max: nat, permits: nat, inflight: set<Id>, chats: map<Id, string>, busy: set<string>)

  /** Slot taken for a dispatched task. */
  function Begun(l: Ledger, id: Id, chat: string): Ledger
    requires l.permits > 0
  {
    Ledger(l.max, l.permits - 1, l.inflight + {id}, l.chats[id := chat], l.busy + {chat})
  }

  /** _release_slot: an empty chat name is not discarded. */
  function Released(l: Ledger, id: Id): Ledger {
    Ledger(l.max,
           if id in l.inflight then l.permits + 1 else l.permits,
           l.inflight - {id},
           l.chats - {id},
           if id in l.chats && l.chats[id] != "" then l.busy - {l.chats[id]} else l.busy)
  }

  /** Slots are conserved, and the tasks in flight have distinct, busy chats. */
  ghost predicate BooksKept(l: Ledger) {
    l.permits + |l.inflight| == Capacity(l.max) &&
    l.inflight <= l.chats.Keys &&
    (forall i | i in l.inflight :: l.chats[i] in l.busy) &&
    (forall i, j | i in l.inflight && j in l.inflight && l.chats[i] == l.chats[j] :: i == j)
  }

  lemma BeginKeepsBooks(l: Ledger, id: Id, chat: string)
    requires BooksKept(l) && l.permits > 0 && id !in l.inflight && chat !in l.busy
    ensures BooksKept(Begun(l, id, chat))
  {
    assert |l.inflight + {id}| == |l.inflight| + 1;
  }

  lemma ReleaseKeepsBooks(l: Ledger, id: Id)
    requires BooksKept(l) && (id in l.inflight || FreesNoTurn(l, id))
    ensures BooksKept(Released(l, id))
  {
    if id in l.inflight {
      assert |l.inflight - {id}| == |l.inflight| - 1;
    } else {
      assert l.inflight - {id} == l.inflight;
    }
  }

  /** The books are kept and no command is mid-dispatch. */
  ghost predicate QuietBooks(l: Ledger) {
    BooksKept(l) && l.chats.Keys == l.inflight
  }

  /** A poll admitted with a free slot, for a chat that is not busy, gets its permit. */
  lemma FreeSlot(l: Ledger, id: Id, chat: string)
    requires QuietBooks(l) && |l.inflight| < l.max && chat !in l.busy
    requires id in l.chats ==> l.chats[id] == chat
    ensures l.permits > 0 && id !in l.inflight && QuietBooks(Begun(l, id, chat))
  {
    BeginKeepsBooks(l, id, chat);
  }

  /** With no command mid-dispatch any id may be released. */
  lemma ReleaseKeepsQuiet(l: Ledger, id: Id)
    requires QuietBooks(l)
    ensures QuietBooks(Released(l, id))
  {
    ReleaseKeepsBooks(l, id);
  }

  /** The chat this id would free, if any, is not that of a task in flight. */
  ghost predicate FreesNoTurn(l: Ledger, id: Id) {
    id in l.chats && l.chats[id] != "" ==> forall i | i in l.inflight && i in l.chats :: l.chats[i] != l.chats[id]
  }

  /** Exactly when releasing an id that holds no slot (a command whose dispatch
      failed) breaks the books: when it shares its chat with a task in flight. */
  lemma ReleaseKeepsBooksIff(l: Ledger, id: Id)
    requires BooksKept(l) && id !in l.inflight
    ensures BooksKept(Released(l, id)) <==> FreesNoTurn(l, id)
  {
    if FreesNoTurn(l, id) {
      ReleaseKeepsBooks(l, id);
    } else {
      var i :| i in l.inflight && l.chats[i] == l.chats[id];
      assert l.inflight - {id} == l.inflight;
      assert i in Released(l, id).inflight && Released(l, id).chats[i] == l.chats[id];
    }
  }

  lemma ReleaseTwice(l: Ledger, id: Id)
    ensures Released(Released(l, id), id) == Released(l, id)
  {
    var r := Released(l, id);
    assert r.inflight - {id} == r.inflight && r.chats - {id} == r.chats;
  }

  // ---- runs -----------------------------------------------------------------------

  /** Where the poll coroutine stands. */
  datatype Poll = Idle | Admitted | Ready(task: Id)

  datatype SlotState = SlotState(books: Ledger, poll: Poll)

  datatype SlotStep =
    | Admit                 // is_slot_free() answered yes
    | Choose(task: Id)      // its chat is not busy here
    | Abandon
    | Begin                 // acquire_slot and the bookkeeping after it
    | Release(task: Id)     // a final, a duplicate final, a failure, an unstick
    | BeginCommand(task: Id)
    | EndCommand(task: Id)

  /** `chatOf`: the local chat of each task, fixed by its row. */
  predicate SlotEnabled(s: SlotState, step: SlotStep, chatOf: Id -> string) {
    match step
    case Admit => s.poll.Idle? && |s.books.inflight| < s.books.max
    case Choose(t) => s.poll.Admitted? && chatOf(t) !in s.books.busy
    case Abandon => true
    case Begin => s.poll.Ready?
    case Release(t) => t in s.books.inflight || t !in s.books.chats
    case BeginCommand(t) => s.poll.Idle? && t !in s.books.inflight
    case EndCommand(t) => t !in s.books.inflight
  }

  /** `Begin` does not move when no permit is free: the source would wait there. */
  function SlotNext(s: SlotState, step: SlotStep, chatOf: Id -> string): SlotState {
    match step
    case Admit => s.(poll := Admitted)
    case Choose(t) => s.(poll := Ready(t))
    case Abandon => s.(poll := Idle)
    case Begin =>
      if s.poll.Ready? && s.books.permits > 0 then SlotState(Begun(s.books, s.poll.task, chatOf(s.poll.task)), Idle) else s
    case Release(t) => s.(books := Released(s.books, t))
    case BeginCommand(t) => s.(books := s.books.(chats := s.books.chats[t := chatOf(t)]))
    case EndCommand(t) => s.(books := s.books.(chats := s.books.chats - {t}))
  }

  ghost predicate SlotInv(s: SlotState, chatOf: Id -> string) {
    BooksKept(s.books) && (forall i | i in s.books.chats :: s.books.chats[i] == chatOf(i)) &&
    (!s.poll.Idle? ==> |s.books.inflight| < s.books.max) &&
    (s.poll.Ready? ==> chatOf(s.poll.task) !in s.books.busy)
  }

  lemma SlotInvStep(s: SlotState, step: SlotStep, chatOf: Id -> string)
    requires SlotInv(s, chatOf) && SlotEnabled(s, step, chatOf)
    ensures SlotInv(SlotNext(s, step, chatOf), chatOf)
  {
    match step
    case Begin => BeginKeepsBooks(s.books, s.poll.task, chatOf(s.poll.task));
    case Release(t) =>
      ReleaseKeepsBooks(s.books, t);
      if t in s.books.inflight { assert |s.books.inflight - {t}| < |s.books.inflight|; }
      else { assert s.books.inflight - {t} == s.books.inflight; }
    case _ =>
  }

  ghost predicate SlotLegal(s: SlotState, steps: seq<SlotStep>, chatOf: Id -> string)
    decreases |steps|
  {
    steps == [] || (SlotEnabled(s, steps[0], chatOf) && SlotLegal(SlotNext(s, steps[0], chatOf), steps[1..], chatOf))
  }

  ghost function SlotAfter(s: SlotState, steps: seq<SlotStep>, chatOf: Id -> string): SlotState
    decreases |steps|
  {
    if steps == [] then s else SlotAfter(SlotNext(s, steps[0], chatOf), steps[1..], chatOf)
  }

  /** A step, and a run from where it leads. */
  lemma SlotThen(s: SlotState, step: SlotStep, rest: seq<SlotStep>, chatOf: Id -> string)
    requires SlotEnabled(s, step, chatOf) && SlotLegal(SlotNext(s, step, chatOf), rest, chatOf)
    ensures SlotLegal(s, [step] + rest, chatOf)
    ensures SlotAfter(s, [step] + rest, chatOf) == SlotAfter(SlotNext(s, step, chatOf), rest, chatOf)
  {
    assert ([step] + rest)[1..] == rest;
  }

  lemma {:induction false} SlotRun(s: SlotState, steps: seq<SlotStep>, chatOf: Id -> string)
    requires SlotInv(s, chatOf) && SlotLegal(s, steps, chatOf)
    ensures SlotInv(SlotAfter(s, steps, chatOf), chatOf)
    decreases |steps|
  {
    if steps != [] {
      SlotInvStep(s, steps[0], chatOf);
      SlotRun(SlotNext(s, steps[0], chatOf), steps[1..], chatOf);
    }
  }

  /** After any run from a fresh channel: slots are conserved, chats in flight are
      distinct, and a poll that was admitted never waits for its permit. */
  lemma SlotsConserved(max: nat, steps: seq<SlotStep>, chatOf: Id -> string)
    requires SlotLegal(SlotState(Ledger(max, Capacity(max), {}, map[], {}), Idle), steps, chatOf)
    ensures var s := SlotAfter(SlotState(Ledger(max, Capacity(max), {}, map[], {}), Idle), steps, chatOf);
            BooksKept(s.books) && (!s.poll.Idle? ==> s.books.permits > 0)
  {
    SlotRun(SlotState(Ledger(max, Capacity(max), {}, map[], {}), Idle), steps, chatOf);
  }

  /** A task in flight frees its chat exactly when the chat's local name is not empty. */
  lemma ReleaseFreesChatIff(l: Ledger, id: Id)
    requires BooksKept(l) && id in l.inflight
    ensures l.chats[id] !in Released(l, id).busy <==> l.chats[id] != ""
  {
    assert l.chats[id] in l.busy;
  }

  /** One ordinary turn of such a chat is enough to make it busy. */
  lemma EmptyChatReached(max: nat, t: Id, chatOf: Id -> string)
    requires max > 0 && chatOf(t) == ""
    ensures var s := SlotState(Ledger(max, Capacity(max), {}, map[], {}), Idle);
            exists steps :: SlotLegal(s, steps, chatOf) && "" in SlotAfter(s, steps, chatOf).books.busy
  {
    var s := SlotState(Ledger(max, Capacity(max), {}, map[], {}), Idle);
    var steps := [Admit, Choose(t), Begin];
    var a := SlotNext(s, Admit, chatOf);
    var b := SlotNext(a, Choose(t), chatOf);
    var c := SlotNext(b, Begin, chatOf);
    assert steps[1..] == [Choose(t), Begin] && [Choose(t), Begin][1..] == [Begin] && [Begin][1..] == [];
    assert SlotLegal(c, [], chatOf) && SlotAfter(c, [], chatOf) == c;
    assert SlotLegal(b, [Begin], chatOf) && SlotAfter(b, [Begin], chatOf) == c;
    assert SlotLegal(a, [Choose(t), Begin], chatOf) && SlotAfter(a, [Choose(t), Begin], chatOf) == c;
    assert SlotLegal(s, steps, chatOf) && SlotAfter(s, steps, chatOf) == c;
  }

  /** A chat with an empty local name, once begun, stays busy for good: no task of
      it is ever begun again. */
  lemma {:induction false} EmptyChatSticks(s: SlotState, steps: seq<SlotStep>, chatOf: Id -> string)
    requires SlotInv(s, chatOf) && "" in s.books.busy && SlotLegal(s, steps, chatOf)
    ensures var z := SlotAfter(s, steps, chatOf);
            "" in z.books.busy && forall i | i in z.books.inflight && chatOf(i) == "" :: i in s.books.inflight
    decreases |steps|
  {
    if steps != [] {
      SlotInvStep(s, steps[0], chatOf);
      EmptyChatSticks(SlotNext(s, steps[0], chatOf), steps[1..], chatOf);
    }
  }
}
