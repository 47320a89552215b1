/** lib/channels/redis_channel.py: the slot pair around a dispatch, and the map that
    remembers which message an answer replies to. */
module Redis {
  import opened Tables
  import opened Exchange

  // ---- an insertion-ordered dict ---------------------------------------------------

  datatype Reply = Reply(chat: string, id: Option<string>)

  ghost predicate Keyed(m: seq<Reply>) {
    forall i, j :: 0 <= i < j < |m| ==> m[i].chat != m[j].chat
  }

  function Get(m: seq<Reply>, chat: string): Option<Option<string>> {
    if m == [] then None else if m[0].chat == chat then Some(m[0].id) else Get(m[1..], chat)
  }

  /** Assignment keeps the place of a known key and appends a new one. */
  function Put(m: seq<Reply>, chat: string, id: Option<string>): seq<Reply> {
    if m == [] then [Reply(chat, id)]
    else if m[0].chat == chat then [Reply(chat, id)] + m[1..]
    else [m[0]] + Put(m[1..], chat, id)
  }

  function Popped(m: seq<Reply>, chat: string): seq<Reply> {
    if m == [] then []
    else if m[0].chat == chat then m[1..]
    else [m[0]] + Popped(m[1..], chat)
  }

  /** Past `maxSize` the oldest keys go, down to `trimTo`. */
  function Trimmed(m: seq<Reply>, maxSize: nat, trimTo: nat): seq<Reply> {
    if |m| > maxSize && |m| > trimTo then m[|m| - trimTo..] else m
  }

  lemma {:induction false} GetIff(m: seq<Reply>, chat: string)
    ensures Get(m, chat).None? <==> forall r | r in m :: r.chat != chat
  {
    if m != [] {
      GetIff(m[1..], chat);
      assert forall r :: r in m <==> r == m[0] || r in m[1..];
    }
  }

  ghost predicate NotIn(m: seq<Reply>, chat: string) {
    forall r | r in m :: r.chat != chat
  }

  lemma Cons(r: Reply, rest: seq<Reply>)
    ensures forall chat :: Get([r] + rest, chat) == if r.chat == chat then Some(r.id) else Get(rest, chat)
    ensures Keyed(rest) && NotIn(rest, r.chat) ==> Keyed([r] + rest)
  {
    assert ([r] + rest)[1..] == rest;
  }

  lemma Uncons(m: seq<Reply>)
    requires Keyed(m) && m != []
    ensures m == [m[0]] + m[1..] && Keyed(m[1..]) && NotIn(m[1..], m[0].chat)
  {
  }

  /** What Put leaves at each place. */
  lemma {:induction false} PutShape(m: seq<Reply>, chat: string, id: Option<string>)
    requires Keyed(m)
    ensures Keyed(Put(m, chat, id)) && Get(Put(m, chat, id), chat) == Some(id)
    ensures forall other | other != chat :: Get(Put(m, chat, id), other) == Get(m, other)
    ensures |Put(m, chat, id)| == |m| + if Get(m, chat).None? then 1 else 0
    ensures Get(m, chat).None? ==> Put(m, chat, id) == m + [Reply(chat, id)]
  {
    if m == [] {
      Cons(Reply(chat, id), []);
    } else {
      Uncons(m);
      Cons(m[0], m[1..]);
      GetIff(m[1..], m[0].chat);
      if m[0].chat == chat {
        Cons(Reply(chat, id), m[1..]);
      } else {
        var rest := Put(m[1..], chat, id);
        PutShape(m[1..], chat, id);
        GetIff(rest, m[0].chat);
        Cons(m[0], rest);
        assert [m[0]] + (m[1..] + [Reply(chat, id)]) == m + [Reply(chat, id)];
      }
    }
  }

  lemma {:induction false} PoppedShape(m: seq<Reply>, chat: string)
    requires Keyed(m)
    ensures Keyed(Popped(m, chat)) && Get(Popped(m, chat), chat).None? && |Popped(m, chat)| <= |m|
    ensures forall other | other != chat :: Get(Popped(m, chat), other) == Get(m, other)
    ensures forall r | r in Popped(m, chat) :: r in m
  {
    if m != [] {
      Uncons(m);
      Cons(m[0], m[1..]);
      if m[0].chat == chat {
        GetIff(m[1..], chat);
      } else {
        PoppedShape(m[1..], chat);
        Cons(m[0], Popped(m[1..], chat));
      }
    }
  }

  /** The key is among the entries from place k on. */
  predicate KeyFrom(m: seq<Reply>, k: nat, chat: string) {
    exists i | k <= i < |m| :: m[i].chat == chat
  }

  lemma {:induction false} GetFrom(m: seq<Reply>, k: nat, chat: string)
    requires Keyed(m) && k <= |m|
    ensures Get(m[k..], chat) == if KeyFrom(m, k, chat) then Get(m, chat) else None
    decreases k
  {
    if k == 0 {
      assert m[0..] == m;
      GetIff(m, chat);
    } else {
      assert m[1..][k - 1..] == m[k..];
      GetFrom(m[1..], k - 1, chat);
      KeyFromTail(m, k, chat);
    }
  }

  lemma KeyFromTail(m: seq<Reply>, k: nat, chat: string)
    requires Keyed(m) && 1 <= k <= |m|
    ensures KeyFrom(m, k, chat) <==> KeyFrom(m[1..], k - 1, chat)
    ensures KeyFrom(m, k, chat) ==> m[0].chat != chat
  {
    if KeyFrom(m, k, chat) {
      var i :| k <= i < |m| && m[i].chat == chat;
      assert m[1..][i - 1].chat == chat;
    }
    if i :| k - 1 <= i < |m[1..]| && m[1..][i].chat == chat {
      assert m[i + 1].chat == chat;
    }
  }

  /** The map stays within its bound, and what it drops are its oldest keys. */
  lemma TrimBounds(m: seq<Reply>, maxSize: nat, trimTo: nat)
    requires Keyed(m) && trimTo <= maxSize
    ensures Keyed(Trimmed(m, maxSize, trimTo)) && |Trimmed(m, maxSize, trimTo)| <= maxSize
    ensures exists k | 0 <= k <= |m| :: Trimmed(m, maxSize, trimTo) == m[k..]
  {
    var t := Trimmed(m, maxSize, trimTo);
    assert t == m[|m| - |t|..];
  }

  /** The entry just written is out of reach of the trim. */
  predicate Survives(put: seq<Reply>, chat: string, maxSize: nat, trimTo: nat) {
    !(|put| > maxSize && |put| > trimTo) || KeyFrom(put, |put| - trimTo, chat)
  }

  /** The chat just dispatched keeps its entry through the trim, exactly when the map
      is not over its bound or the key is among the newest `trimTo`.  The map may be
      over its bound already. */
  lemma JustPutSurvivesIff(m: seq<Reply>, chat: string, id: Option<string>, maxSize: nat, trimTo: nat)
    requires Keyed(m)
    ensures Get(Trimmed(Put(m, chat, id), maxSize, trimTo), chat) ==
            if Survives(Put(m, chat, id), chat, maxSize, trimTo) then Some(id) else None
  {
    PutShape(m, chat, id);
    TrimSurvivesIff(Put(m, chat, id), chat, maxSize, trimTo);
  }

  lemma TrimSurvivesIff(put: seq<Reply>, chat: string, maxSize: nat, trimTo: nat)
    requires Keyed(put)
    ensures Get(Trimmed(put, maxSize, trimTo), chat) == if Survives(put, chat, maxSize, trimTo) then Get(put, chat) else None
  {
    if |put| > maxSize && |put| > trimTo {
      GetFrom(put, |put| - trimTo, chat);
    }
  }

  /** Over a map within its bound that is: when the trim keeps anything or is not
      reached. */
  lemma SurvivesWithinBoundIff(m: seq<Reply>, chat: string, id: Option<string>, maxSize: nat, trimTo: nat)
    requires Keyed(m) && |m| <= maxSize
    ensures Survives(Put(m, chat, id), chat, maxSize, trimTo) <==> (trimTo > 0 || |Put(m, chat, id)| <= maxSize)
  {
    PutShape(m, chat, id);
    var put := Put(m, chat, id);
    if |put| > maxSize && trimTo > 0 {
      assert put[|put| - 1].chat == chat;
    }
  }

  // ---- the channel ---------------------------------------------------------------------

  /** What BRPOP hands over, and whether the attachments decode. */
  datatype Inbox = Empty | Garbage | NotADict | Inbound(chat: string, id: Option<string>, decodes: bool)

  /** Raised: the poll loop catches it and backs off. Waiting: no permit yet. */
  datatype Poll = Nothing | Handled | Raised | Waiting

  /** The outcome of one poll and the map after it; `dispatched` is false when
      _handle_message raises. */
  function Polled(m: seq<Reply>, maxSize: nat, trimTo: nat, inbox: Inbox, dispatched: bool, permit: bool): (Poll, seq<Reply>) {
    match inbox
    case Empty => (Nothing, m)
    case Garbage => (Nothing, m)
    case NotADict => (Raised, m)
    case Inbound(chat, id, decodes) =>
      var put := Put(m, chat, id);
      if !decodes then (Raised, put)
      else if !permit then (Waiting, put)
      else (Handled, Trimmed(if dispatched then put else Popped(put, chat), maxSize, trimTo))
  }

  /** A poll backs off exactly when it raises: on what is not a dict, and on attachments
      that do not decode; it waits exactly for a permit; and only a message, decoded or
      not, changes the map. */
  lemma PollOutcomes(m: seq<Reply>, maxSize: nat, trimTo: nat, inbox: Inbox, dispatched: bool, permit: bool)
    ensures var (poll, after) := Polled(m, maxSize, trimTo, inbox, dispatched, permit);
            && (poll == Raised <==> inbox.NotADict? || (inbox.Inbound? && !inbox.decodes))
            && (poll == Waiting <==> inbox.Inbound? && inbox.decodes && !permit)
            && (poll == Nothing <==> inbox.Empty? || inbox.Garbage?)
            && (!inbox.Inbound? ==> after == m)
  {
  }

  class RedisChannel {
    const maxSize: nat
    const trimTo: nat
    var replyTo: seq<Reply>

    constructor (maxSize: nat, trimTo: nat)
      ensures this.maxSize == maxSize && this.trimTo == trimTo && replyTo == []
    {
      this.maxSize, this.trimTo := maxSize, trimTo;
      replyTo := [];
    }

    method Trim()
      modifies this
      ensures replyTo == Trimmed(old(replyTo), maxSize, trimTo)
    {
      if |replyTo| > maxSize {
        while |replyTo| > trimTo
          invariant |replyTo| <= |old(replyTo)|
          invariant |replyTo| >= trimTo || replyTo == old(replyTo)
          invariant replyTo == old(replyTo)[|old(replyTo)| - |replyTo|..]
        {
          replyTo := replyTo[1..];
        }
      }
    }

    /** poll_inbound: the acquire/finally pair gives back what it took, whatever the
        dispatch does. */
    method PollInbound(exchange: MessageExchange<string>, inbox: Inbox, dispatched: bool) returns (poll: Poll)
      modifies this, exchange
      ensures (poll, replyTo) == Polled(old(replyTo), maxSize, trimTo, inbox, dispatched, old(exchange.permits) > 0)
      ensures exchange.permits == old(exchange.permits)
      ensures exchange.inflight == if poll.Handled? then old(exchange.inflight) - {inbox.chat} else old(exchange.inflight)
      ensures old(exchange.Balanced()) && old(exchange.inflight) == {} ==> exchange.Balanced() && exchange.inflight == {} && !poll.Waiting?
    {
      if inbox.Empty? || inbox.Garbage? {
        return Nothing;
      }
      if inbox.NotADict? {
        return Raised;
      }
      replyTo := Put(replyTo, inbox.chat, inbox.id);
      if !inbox.decodes {
        return Raised;
      }
      var granted := exchange.AcquireSlot();
      if !granted {
        return Waiting;
      }
      exchange.AddInflight(inbox.chat);
      if !dispatched {
        replyTo := Popped(replyTo, inbox.chat);
      }
      exchange.DiscardInflight(inbox.chat);
      exchange.ReleaseSlot(None);
      Trim();
      poll := Handled;
    }

    /** send: the answer's own reply_to, else the remembered one, which is consumed. */
    method Send(chat: string, own: Option<string>, dropped: bool) returns (reply: Option<string>)
      modifies this
      ensures (reply, replyTo) == Sent(old(replyTo), chat, own, dropped)
    {
      if dropped {
        return None;
      }
      if own.Some? && own.value != "" {
        return own;
      }
      var found := Get(replyTo, chat);
      replyTo := Popped(replyTo, chat);
      reply := if found.Some? then found.value else None;
    }
  }

  function Sent(m: seq<Reply>, chat: string, own: Option<string>, dropped: bool): (Option<string>, seq<Reply>) {
    if dropped then (None, m)
    else if own.Some? && own.value != "" then (own, m)
    else (match Get(m, chat) case Some(id) => id case None => None, Popped(m, chat))
  }

  /** An answer with a reply_to of its own keeps it and leaves the map alone; without one
      it takes what is remembered for its chat, and only that; one that is filtered out
      does nothing. */
  lemma AnswerTakes(m: seq<Reply>, chat: string, own: Option<string>, dropped: bool)
    requires Keyed(m)
    ensures var sent := Sent(m, chat, own, dropped);
            && (dropped ==> sent == (None, m))
            && (!dropped && own.Some? && own.value != "" ==> sent == (own, m))
            && (!dropped && (own.None? || own.value == "") ==>
                  (forall i | 0 <= i < |m| && m[i].chat == chat :: sent.0 == m[i].id) &&
                  ((forall i | 0 <= i < |m| :: m[i].chat != chat) ==> sent.0 == None) &&
                  (forall r :: r in sent.1 <==> r in m && r.chat != chat))
  {
    GetHere(m, chat);
    PoppedHas(m, chat);
  }

  lemma {:induction false} GetHere(m: seq<Reply>, chat: string)
    requires Keyed(m)
    ensures forall i | 0 <= i < |m| && m[i].chat == chat :: Get(m, chat) == Some(m[i].id)
    ensures (forall i | 0 <= i < |m| :: m[i].chat != chat) ==> Get(m, chat).None?
  {
    if m != [] {
      GetHere(m[1..], chat);
    }
  }

  lemma {:induction false} PoppedHas(m: seq<Reply>, chat: string)
    requires Keyed(m)
    ensures forall r :: r in Popped(m, chat) <==> r in m && r.chat != chat
  {
    if m != [] {
      Uncons(m);
      PoppedHas(m[1..], chat);
      assert forall r :: r in m <==> r == m[0] || r in m[1..];
    }
  }

  // ---- a request and its answer -------------------------------------------------------

  /** An answer without its own reply_to names the request it follows exactly when
      the entry survives the trim, or the request had no id; and the chat has no entry
      afterwards. */
  lemma AnswerNamesRequestIff(m: seq<Reply>, maxSize: nat, trimTo: nat, chat: string, id: Option<string>)
    requires Keyed(m)
    ensures var after := Polled(m, maxSize, trimTo, Inbound(chat, id, true), true, true).1;
            && (Sent(after, chat, None, false).0 == id <==> Survives(Put(m, chat, id), chat, maxSize, trimTo) || id.None?)
            && Get(Sent(after, chat, None, false).1, chat).None?
  {
    PutShape(m, chat, id);
    JustPutSurvivesIff(m, chat, id, maxSize, trimTo);
    var put := Put(m, chat, id);
    TrimKeepsKeys(put, maxSize, trimTo);
    SentFrom(Trimmed(put, maxSize, trimTo), chat, id, Survives(put, chat, maxSize, trimTo));
  }

  lemma SentFrom(t: seq<Reply>, chat: string, id: Option<string>, kept: bool)
    requires Keyed(t) && Get(t, chat) == if kept then Some(id) else None
    ensures (Sent(t, chat, None, false).0 == id <==> kept || id.None?) && Get(Sent(t, chat, None, false).1, chat).None?
  {
    PoppedShape(t, chat);
  }

  lemma TrimKeepsKeys(m: seq<Reply>, maxSize: nat, trimTo: nat)
    requires Keyed(m)
    ensures Keyed(Trimmed(m, maxSize, trimTo))
  {
  }

  /** Exactly when a poll takes a map within its bound above it: a message of a new
      chat finds the map full and does not get as far as its dispatch. */
  lemma BoundKeptIff(m: seq<Reply>, maxSize: nat, trimTo: nat, inbox: Inbox, dispatched: bool, permit: bool)
    requires Keyed(m) && |m| <= maxSize && trimTo <= maxSize
    ensures |Polled(m, maxSize, trimTo, inbox, dispatched, permit).1| <= maxSize <==>
            !(inbox.Inbound? && (!inbox.decodes || !permit) && |m| == maxSize && Get(m, inbox.chat).None?)
  {
    if inbox.Inbound? {
      PutShape(m, inbox.chat, inbox.id);
    }
  }

  /** A map of two, kept to one: a message that does not decode leaves three entries,
      and the next message of the oldest chat loses its own entry in its own trim. */
  lemma DispatchedButForgotten()
    ensures var m := [Reply("a", Some("1")), Reply("b", Some("2"))];
            var full := Polled(m, 2, 1, Inbound("c", Some("3"), false), true, true);
            var after := Polled(full.1, 2, 1, Inbound("a", Some("4"), true), true, true);
            && full == (Raised, m + [Reply("c", Some("3"))])
            && after == (Handled, [Reply("c", Some("3"))])
            && Sent(after.1, "a", None, false).0 == None
  {
    var m := [Reply("a", Some("1")), Reply("b", Some("2"))];
    PutShape(m, "c", Some("3"));
    GetIff(m, "c");
    var full := m + [Reply("c", Some("3"))];
    assert Put(m, "c", Some("3")) == full;
    assert Put(full, "a", Some("4")) == [Reply("a", Some("4")), Reply("b", Some("2")), Reply("c", Some("3"))];
    var last := [Reply("c", Some("3"))];
    assert [Reply("a", Some("4")), Reply("b", Some("2")), Reply("c", Some("3"))][2..] == last;
    GetIff(last, "a");
  }

  /** A failed dispatch forgets the request. */
  lemma FailedDispatchForgets(m: seq<Reply>, maxSize: nat, trimTo: nat, chat: string, id: Option<string>)
    requires Keyed(m)
    ensures var after := Polled(m, maxSize, trimTo, Inbound(chat, id, true), false, true).1;
            Get(after, chat).None? && Sent(after, chat, None, false) == (None, after)
  {
    PutShape(m, chat, id);
    var popped := Popped(Put(m, chat, id), chat);
    PoppedShape(Put(m, chat, id), chat);
    TrimForgets(popped, maxSize, trimTo, chat);
    PoppedAbsent(Trimmed(popped, maxSize, trimTo), chat);
  }

  lemma TrimForgets(m: seq<Reply>, maxSize: nat, trimTo: nat, chat: string)
    requires Get(m, chat).None?
    ensures Get(Trimmed(m, maxSize, trimTo), chat).None?
  {
    GetIff(m, chat);
    GetIff(Trimmed(m, maxSize, trimTo), chat);
  }

  lemma {:induction false} PoppedAbsent(m: seq<Reply>, chat: string)
    requires Get(m, chat).None?
    ensures Popped(m, chat) == m
  {
    if m != [] {
      PoppedAbsent(m[1..], chat);
    }
  }
}
