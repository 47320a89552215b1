/** How one answer is put together: tool deliveries merged into the assistant row,
    streamed text, reasoning, and the final that closes the turn. */
module Turns {
  import opened Tables
  import opened PoolSteps
  import opened Strings

  // ---- merging one delivery -------------------------------------------------------

  function MergeText(held: string, added: string): string {
    if added == "" || added == held then held
    else if held == "" then added
    else held + "\n\n" + added
  }

  function MergeMedia(held: seq<string>, added: seq<string>): seq<string>
    decreases |added|
  {
    if added == [] then held
    else MergeMedia(if added[0] in held then held else held + [added[0]], added[1..])
  }

  function Delivered(m: Message, now: int, content: string, media: seq<string>): Message {
    m.(content := MergeText(m.content, content), media := MergeMedia(m.media, media), updatedAt := now)
  }

  /** Merging a text: the held text stays in front, and a new one that is neither empty
      nor all that is held comes after it, in a paragraph of its own. */
  lemma TextMerged(held: string, added: string)
    ensures var all := MergeText(held, added);
            && held <= all
            && (all == held <==> added == "" || added == held)
            && (all != held ==> |added| <= |all| && all[|all| - |added|..] == added)
            && (all != held && held != "" ==> |all| == |held| + 2 + |added| && all[|held|..|held| + 2] == "\n\n")
            && (held == "" ==> all == added)
  {
    if added != "" && added != held && held != "" {
      assert held + "\n\n" + added == held + ("\n\n" + added);
    }
  }

  ghost predicate NoDuplicates(s: seq<string>) {
    forall i, j | 0 <= i < j < |s| :: s[i] != s[j]
  }

  /** The old attachments stay in front, nothing is lost, nothing invented, and no
      duplicate is added. */
  lemma {:induction false} MediaMerged(held: seq<string>, added: seq<string>)
    ensures var all := MergeMedia(held, added);
            held <= all && (forall x :: x in all <==> x in held || x in added) && (NoDuplicates(held) ==> NoDuplicates(all))
    decreases |added|
  {
    if added != [] {
      var next := if added[0] in held then held else held + [added[0]];
      MediaMerged(next, added[1..]);
      assert forall x :: x in added <==> x == added[0] || x in added[1..];
    }
  }

  /** Delivering the same attachments again changes nothing. */
  lemma {:induction false} MediaMergedAlready(held: seq<string>, added: seq<string>)
    requires forall x | x in added :: x in held
    ensures MergeMedia(held, added) == held
    decreases |added|
  {
    if added != [] { MediaMergedAlready(held, added[1..]); }
  }

  // ---- a whole turn ---------------------------------------------------------------------

  datatype Outbound =
    | Delivery(content: string, media: seq<string>)
    | Delta(key: string, text: string)
    | Reason(text: string)
    | Flush
    | Final(content: string, media: seq<string>)
    | StreamEnd(key: string, text: string)      // the text of this call itself is dropped

  /** The assistant row of the turn, the open streams and the reasoning buffer. */
  datatype Turn = Turn(row: Message, streams: map<string, string>, buffer: string)

  function Buffered(streams: map<string, string>, key: string): string {
    if key in streams then streams[key] else ""
  }

  function Flushed(t: Turn, now: int): Turn {
    if t.buffer == "" then t
    else t.(row := t.row.(reasoning := t.row.reasoning + t.buffer, updatedAt := now), buffer := "")
  }

  function Closed(t: Turn, now: int, content: string, media: seq<string>): Turn {
    var f := Flushed(t, now);
    f.(row := Answered(f.row, now, content, media))
  }

  function Sent(t: Turn, now: int, out: Outbound): Turn {
    match out
    case Delivery(content, media) => t.(row := Delivered(t.row, now, content, media))
    case Delta(key, text) => t.(streams := t.streams[key := Buffered(t.streams, key) + text])
    case Reason(text) => t.(buffer := t.buffer + text)
    case Flush => Flushed(t, now)
    case Final(content, media) => Closed(t, now, content, media)
    case StreamEnd(key, _) => Closed(t.(streams := t.streams - {key}), now, Buffered(t.streams, key), [])
  }

  function AllSent(t: Turn, now: int, outs: seq<Outbound>): Turn
    decreases |outs|
  {
    if outs == [] then t else AllSent(Sent(t, now, outs[0]), now, outs[1..])
  }

  predicate Closing(out: Outbound) {
    out.Final? || out.StreamEnd?
  }

  // ---- any number of deliveries -----------------------------------------------------------

  function Texts(outs: seq<Outbound>): seq<string> {
    if outs == [] then []
    else (if outs[0].Delivery? then [outs[0].content] else []) + Texts(outs[1..])
  }

  function Paragraphs(ds: seq<string>): string {
    if ds == [] then ""
    else if |ds| == 1 then ds[0]
    else Paragraphs(ds[..|ds| - 1]) + "\n\n" + ds[|ds| - 1]
  }

  function MergedAll(held: string, ds: seq<string>): string {
    if ds == [] then held else MergeText(MergedAll(held, ds[..|ds| - 1]), ds[|ds| - 1])
  }

  lemma {:induction false} MergedFirst(held: string, d: string, ds: seq<string>)
    ensures MergedAll(held, [d] + ds) == MergedAll(MergeText(held, d), ds)
    decreases |ds|
  {
    if ds == [] {
      assert [d] + ds == [d] && [d][..0] == [];
    } else {
      var n := |ds| - 1;
      MergedFirst(held, d, ds[..n]);
      assert ([d] + ds)[..n + 1] == [d] + ds[..n];
    }
  }

  lemma {:induction false} DeliveredIsMerged(held: string, outs: seq<Outbound>)
    ensures DeliveredText(held, outs) == MergedAll(held, Texts(outs))
    decreases |outs|
  {
    if outs != [] {
      var next := if outs[0].Delivery? then MergeText(held, outs[0].content) else held;
      DeliveredIsMerged(next, outs[1..]);
      if outs[0].Delivery? {
        MergedFirst(held, outs[0].content, Texts(outs[1..]));
      } else {
        assert Texts(outs) == Texts(outs[1..]);
      }
    }
  }

  /** Nothing delivered is lost: what was held stays in front, and every text delivered
      is somewhere in the row. */
  lemma {:induction false} NothingDeliveredIsLost(held: string, ds: seq<string>, k: nat)
    requires k < |ds|
    ensures held <= MergedAll(held, ds) && Contains(MergedAll(held, ds), ds[k])
    decreases |ds|
  {
    var n := |ds| - 1;
    var so, all := MergedAll(held, ds[..n]), MergedAll(held, ds);
    TextMerged(so, ds[n]);
    MergedKeepsFront(held, ds[..n]);
    if k < n {
      NothingDeliveredIsLost(held, ds[..n], k);
      ContainsMore(so, all, ds[k]);
    } else {
      LastIsThere(so, ds[n]);
    }
  }

  lemma {:induction false} MergedKeepsFront(held: string, ds: seq<string>)
    ensures held <= MergedAll(held, ds)
  {
    if ds != [] {
      MergedKeepsFront(held, ds[..|ds| - 1]);
      TextMerged(MergedAll(held, ds[..|ds| - 1]), ds[|ds| - 1]);
    }
  }

  lemma LastIsThere(held: string, added: string)
    ensures Contains(MergeText(held, added), added)
  {
    var all := MergeText(held, added);
    TextMerged(held, added);
    if all == held {
      assert OccursAt(all, added, 0);
    } else {
      assert all[|all| - |added|..|all| - |added| + |added|] == all[|all| - |added|..];
      assert OccursAt(all, added, |all| - |added|);
    }
  }

  ghost predicate Filled(ds: seq<string>) {
    forall i | 0 <= i < |ds| :: ds[i] != ""
  }

  lemma {:induction false} MergedShorter(ds: seq<string>)
    requires Filled(ds)
    ensures |MergedAll("", ds)| <= |Paragraphs(ds)|
    decreases |ds|
  {
    if ds != [] {
      MergedShorter(ds[..|ds| - 1]);
      if |ds| == 1 { assert ds[..0] == []; }
    }
  }

  /** Some delivery repeats all that was there before it. */
  ghost predicate Repeats(ds: seq<string>) {
    exists k | 0 < k < |ds| :: RepeatsAt(ds, k)
  }

  predicate RepeatsAt(ds: seq<string>, k: nat)
    requires 0 < k < |ds|
  {
    ds[k] == Paragraphs(ds[..k])
  }

  lemma RepeatsPrefix(ds: seq<string>)
    requires |ds| > 1
    ensures Repeats(ds) <==> Repeats(ds[..|ds| - 1]) || RepeatsAt(ds, |ds| - 1)
  {
    var n := |ds| - 1;
    if k :| 0 < k < |ds| && RepeatsAt(ds, k) {
      assert k < n ==> ds[..n][..k] == ds[..k] && RepeatsAt(ds[..n], k);
    }
    if k :| 0 < k < n && RepeatsAt(ds[..n], k) {
      assert ds[..n][..k] == ds[..k] && RepeatsAt(ds, k);
    }
  }

  /** Deliveries onto an empty row stand there in order, one paragraph each, exactly when
      none of them repeats all that was there before it. */
  lemma {:induction false} DeliveriesInOrderIff(ds: seq<string>)
    requires Filled(ds)
    ensures MergedAll("", ds) == Paragraphs(ds) <==> !Repeats(ds)
    ensures Repeats(ds) ==> |MergedAll("", ds)| < |Paragraphs(ds)|
    decreases |ds|
  {
    if |ds| == 1 {
      assert ds[..0] == [];
      TextMerged("", ds[0]);
    } else if |ds| > 1 {
      var n := |ds| - 1;
      DeliveriesInOrderIff(ds[..n]);
      RepeatsPrefix(ds);
      MergedShorter(ds[..n]);
      TextMerged(MergedAll("", ds[..n]), ds[n]);
      OneMore(ds);
    }
  }

  /** One delivery more, from what the ones before it left. */
  lemma OneMore(ds: seq<string>)
    requires |ds| > 1 && Filled(ds)
    ensures var n := |ds| - 1;
            var so, want := MergedAll("", ds[..n]), Paragraphs(ds[..n]);
            && (so == want && ds[n] != want ==> MergedAll("", ds) == Paragraphs(ds))
            && (|so| < |want| || (so == want && ds[n] == want) ==> |MergedAll("", ds)| < |Paragraphs(ds)|)
  {
    var n := |ds| - 1;
    MergedSome(ds[..n]);
    assert ds[..n][0] == ds[0] && ds[n] != "";
  }

  lemma {:induction false} MergedSome(ds: seq<string>)
    requires ds != [] && Filled(ds)
    ensures MergedAll("", ds) != "" && Paragraphs(ds) != ""
    decreases |ds|
  {
    if |ds| == 1 {
      assert ds[..0] == [];
    } else {
      MergedSome(ds[..|ds| - 1]);
      TextMerged(MergedAll("", ds[..|ds| - 1]), ds[|ds| - 1]);
    }
  }

  /** A turn on an empty placeholder that is closed by an empty final. */
  lemma DeliveredAnswerIff(t: Turn, now: int, outs: seq<Outbound>, media: seq<string>)
    requires t.row.content == "" && StaysOpen(outs) && Filled(Texts(outs))
    ensures Sent(AllSent(t, now, outs), now, Final("", media)).row.content == Paragraphs(Texts(outs)) <==> !Repeats(Texts(outs))
  {
    FinalAnswer(t, now, outs, "", media);
    DeliveredIsMerged("", outs);
    DeliveriesInOrderIff(Texts(outs));
  }

  // ---- what the parts add up to -------------------------------------------------------------

  /** The deltas of one stream, in order. */
  function StreamText(outs: seq<Outbound>, key: string): string {
    if outs == [] then ""
    else DeltaText(outs[0], key) + StreamText(outs[1..], key)
  }

  function DeltaText(out: Outbound, key: string): string {
    if out.Delta? && out.key == key then out.text else ""
  }

  function ReasonText(outs: seq<Outbound>): string {
    if outs == [] then ""
    else (if outs[0].Reason? then outs[0].text else "") + ReasonText(outs[1..])
  }

  /** The deliveries of a turn merged into what the row held before. */
  function DeliveredText(held: string, outs: seq<Outbound>): string
    decreases |outs|
  {
    if outs == [] then held
    else DeliveredText(if outs[0].Delivery? then MergeText(held, outs[0].content) else held, outs[1..])
  }

  function DeliveredMedia(held: seq<string>, outs: seq<Outbound>): seq<string>
    decreases |outs|
  {
    if outs == [] then held
    else DeliveredMedia(if outs[0].Delivery? then MergeMedia(held, outs[0].media) else held, outs[1..])
  }

  ghost predicate StaysOpen(outs: seq<Outbound>) {
    forall i | 0 <= i < |outs| :: !Closing(outs[i])
  }

  lemma Regroup(a: string, b: string, c: string)
    ensures (a + b) + c == a + (b + c)
  {
  }

  /** What one message adds to a stream's buffer. */
  lemma StreamGrows(t: Turn, now: int, out: Outbound, key: string)
    requires !Closing(out)
    ensures Buffered(Sent(t, now, out).streams, key) == Buffered(t.streams, key) + DeltaText(out, key)
  {
  }

  /** What one message adds to the reasoning, stored and buffered. */
  lemma ReasonGrows(t: Turn, now: int, out: Outbound)
    requires !Closing(out)
    ensures var next := Sent(t, now, out);
            next.row.reasoning + next.buffer == t.row.reasoning + t.buffer + if out.Reason? then out.text else ""
  {
    if out.Reason? {
      Regroup(t.row.reasoning, t.buffer, out.text);
    }
  }

  /** Each stream's buffer is the concatenation of its own deltas, however they
      interleave with other streams and other messages. */
  lemma {:induction false} StreamsApart(t: Turn, now: int, outs: seq<Outbound>, key: string)
    requires StaysOpen(outs)
    ensures Buffered(AllSent(t, now, outs).streams, key) == Buffered(t.streams, key) + StreamText(outs, key)
    decreases |outs|
  {
    if outs != [] {
      var next := Sent(t, now, outs[0]);
      StreamsApart(next, now, outs[1..], key);
      StreamGrows(t, now, outs[0], key);
      Regroup(Buffered(t.streams, key), DeltaText(outs[0], key), StreamText(outs[1..], key));
    }
  }

  /** No reasoning is lost, moved or stored twice, wherever the flushes fall. */
  lemma {:induction false} ReasoningConserved(t: Turn, now: int, outs: seq<Outbound>)
    requires StaysOpen(outs)
    ensures var z := AllSent(t, now, outs);
            z.row.reasoning + z.buffer == t.row.reasoning + t.buffer + ReasonText(outs)
    decreases |outs|
  {
    if outs != [] {
      var next := Sent(t, now, outs[0]);
      ReasoningConserved(next, now, outs[1..]);
      var here := if outs[0].Reason? then outs[0].text else "";
      ReasonGrows(t, now, outs[0]);
      Regroup(t.row.reasoning + t.buffer, here, ReasonText(outs[1..]));
    }
  }

  /** The row holds the merged deliveries, and nothing outbound short of a final
      changes its status, its task or its retries. */
  lemma {:induction false} OpenRow(t: Turn, now: int, outs: seq<Outbound>)
    requires StaysOpen(outs)
    ensures var m := AllSent(t, now, outs).row;
            m.content == DeliveredText(t.row.content, outs) && m.media == DeliveredMedia(t.row.media, outs) &&
            m.status == t.row.status && m.role == t.row.role && m.replyTo == t.row.replyTo && m.retries == t.row.retries
    decreases |outs|
  {
    if outs != [] {
      OpenRow(Sent(t, now, outs[0]), now, outs[1..]);
    }
  }

  /** A turn closed by a final: its own text and media unless empty, else what the
      deliveries left; and all reasoning stored. */
  lemma FinalAnswer(t: Turn, now: int, outs: seq<Outbound>, content: string, media: seq<string>)
    requires StaysOpen(outs)
    ensures var z := Sent(AllSent(t, now, outs), now, Final(content, media));
            z.row.status == Completed &&
            z.row.content == (if content != "" then content else DeliveredText(t.row.content, outs)) &&
            z.row.media == (if media != [] then media else DeliveredMedia(t.row.media, outs)) &&
            z.row.reasoning == t.row.reasoning + t.buffer + ReasonText(outs) && z.buffer == ""
  {
    ReasoningConserved(t, now, outs);
    OpenRow(t, now, outs);
  }

  /** A turn closed by the end of a stream: what was left under its key, then the
      deltas of that stream alone, in order, without the text of the closing call;
      deliveries only if there were neither. */
  lemma StreamedAnswer(t: Turn, now: int, outs: seq<Outbound>, key: string, last: string)
    requires StaysOpen(outs)
    ensures var z := Sent(AllSent(t, now, outs), now, StreamEnd(key, last));
            var whole := Buffered(t.streams, key) + StreamText(outs, key);
            z.row.status == Completed && key !in z.streams &&
            z.row.content == (if whole != "" then whole else DeliveredText(t.row.content, outs)) &&
            z.row.media == DeliveredMedia(t.row.media, outs) &&
            z.row.reasoning == t.row.reasoning + t.buffer + ReasonText(outs) && z.buffer == ""
  {
    StreamsApart(t, now, outs, key);
    ReasoningConserved(t, now, outs);
    OpenRow(t, now, outs);
  }

  /** The answer the turn's own messages call for. */
  function OwnAnswer(t: Turn, outs: seq<Outbound>, key: string): string {
    if StreamText(outs, key) != "" then StreamText(outs, key) else DeliveredText(t.row.content, outs)
  }

  /** The row gets it exactly when nothing was left under the key, or the stream was
      empty and what was left is what the deliveries made. */
  lemma StreamedAnswerIsOwnIff(t: Turn, now: int, outs: seq<Outbound>, key: string, last: string)
    requires StaysOpen(outs)
    ensures var left := Buffered(t.streams, key);
            Sent(AllSent(t, now, outs), now, StreamEnd(key, last)).row.content == OwnAnswer(t, outs, key) <==>
            left == "" || (StreamText(outs, key) == "" && left == DeliveredText(t.row.content, outs))
  {
    StreamedAnswer(t, now, outs, key, last);
    var left, own := Buffered(t.streams, key), StreamText(outs, key);
    assert left == "" ==> left + own == own;
    assert own == "" ==> left + own == left;
    assert |left + own| == |left| + |own|;
  }

  /** A final leaves every stream as it stands: what was streamed before it stays
      under its key. */
  lemma FinalLeavesStreams(t: Turn, now: int, outs: seq<Outbound>, content: string, media: seq<string>, key: string)
    requires StaysOpen(outs)
    ensures var z := Sent(AllSent(t, now, outs), now, Final(content, media));
            Buffered(z.streams, key) == Buffered(t.streams, key) + StreamText(outs, key)
  {
    StreamsApart(t, now, outs, key);
  }

  /** Two turns in a row on one key, say of one chat: a first one that streams and is
      closed by a final, and a second one closed by its stream.  The text streamed in
      the first stands in front of the answer of the second. */
  lemma LeftOverPrefixes(t: Turn, now: int, first: seq<Outbound>, content: string, media: seq<string>,
                         row: Message, second: seq<Outbound>, key: string, last: string)
    requires StaysOpen(first) && StaysOpen(second) && key !in t.streams
    requires StreamText(first, key) != "" && StreamText(second, key) != ""
    ensures var between := Sent(AllSent(t, now, first), now, Final(content, media));
            var next := Turn(row, between.streams, "");
            Sent(AllSent(next, now, second), now, StreamEnd(key, last)).row.content ==
              StreamText(first, key) + StreamText(second, key)
  {
    var between := Sent(AllSent(t, now, first), now, Final(content, media));
    FinalLeavesStreams(t, now, first, content, media, key);
    StreamedAnswer(Turn(row, between.streams, ""), now, second, key, last);
    assert "" + StreamText(first, key) == StreamText(first, key);
  }

  /** Such turns exist: one delta each. */
  lemma LeftOverReached(earlier: Message, later: Message, now: int, key: string, a: string, b: string, last: string)
    requires a != "" && b != ""
    ensures var first := Sent(Sent(Turn(earlier, map[], ""), now, Delta(key, a)), now, Final("", []));
            Sent(Sent(Turn(later, first.streams, ""), now, Delta(key, b)), now, StreamEnd(key, last)).row.content == a + b
  {
  }
}
