/** lib/services/text_splitter.py: long texts cut into overlapping segments.  Where a
    regular expression cuts is left open; what the loops make of it is not. */
module TextSplitter {
  import opened Strings
  import opened Tables

  // ---- cutting by characters -----------------------------------------------------------------

  function End(text: string, size: nat, start: nat): nat {
    if start + size < |text| then start + size else |text|
  }

  /** Segment k is the window at its start, a fixed step after the one before. */
  predicate WindowAt(text: string, size: nat, overlap: nat, chunks: seq<string>, starts: seq<nat>, k: nat)
    requires k < |starts| == |chunks|
  {
    starts[k] < |text| && chunks[k] == text[starts[k]..End(text, size, starts[k])] &&
    starts[k] == if k == 0 then 0 else starts[k - 1] + size - overlap
  }

  ghost predicate Windows(text: string, size: nat, overlap: nat, chunks: seq<string>, starts: seq<nat>) {
    |starts| == |chunks| && forall k | 0 <= k < |starts| :: WindowAt(text, size, overlap, chunks, starts, k)
  }

  lemma OneWindowMore(text: string, size: nat, overlap: nat, chunks: seq<string>, starts: seq<nat>, start: nat)
    requires Windows(text, size, overlap, chunks, starts) && start < |text|
    requires start == if starts == [] then 0 else starts[|starts| - 1] + size - overlap
    ensures Windows(text, size, overlap, chunks + [text[start..End(text, size, start)]], starts + [start])
  {
    forall k | 0 <= k <= |starts|
      ensures WindowAt(text, size, overlap, chunks + [text[start..End(text, size, start)]], starts + [start], k)
    {
      if k < |starts| { assert WindowAt(text, size, overlap, chunks, starts, k); }
    }
  }

  /** _split_by_chars, where it ends: segments overlap by less than their size, or one is
      enough.  The last segment reaches the end of the text, unless the overlap is 0: then
      only the first segment is kept. */
  method SplitByChars(text: string, size: nat, overlap: nat) returns (chunks: seq<string>, ghost starts: seq<nat>)
    requires size > 0 && (overlap < size || |text| <= size)
    ensures Windows(text, size, overlap, chunks, starts) && (text == "" <==> chunks == [])
    ensures text != "" ==> (starts[|starts| - 1] + size >= |text| <==> overlap > 0 || |text| <= size)
    ensures overlap == 0 && |text| > size ==> chunks == [text[..size]]
  {
    chunks, starts := [], [];
    if text == "" {
      return;
    }
    var start, n := 0, |text|;
    while start < n
      invariant start < n && Windows(text, size, overlap, chunks, starts)
      invariant start == if starts == [] then 0 else starts[|starts| - 1] + size - overlap
      invariant starts != [] ==> overlap > 0 && overlap < size
      decreases n - start
    {
      var end := if start + size < n then start + size else n;
      OneWindowMore(text, size, overlap, chunks, starts, start);
      chunks := chunks + [text[start..end]];
      starts := starts + [start];
      if end >= n {
        break;
      }
      start := end - overlap;
      if start >= end {
        break;
      }
    }
  }

  lemma {:induction false} StartsGrow(text: string, size: nat, overlap: nat, chunks: seq<string>, starts: seq<nat>, i: nat)
    returns (k: nat)
    requires Windows(text, size, overlap, chunks, starts) && starts != [] && i < |text|
    requires 0 < overlap < size || |text| <= size
    ensures k < |starts| && starts[k] <= i && (k + 1 < |starts| ==> i < starts[k + 1])
    decreases |starts|
  {
    k := |starts| - 1;
    assert WindowAt(text, size, overlap, chunks, starts, k);
    if starts[k] > i {
      assert k > 0;
      var init, head := starts[..k], chunks[..k];
      forall m | 0 <= m < k
        ensures WindowAt(text, size, overlap, head, init, m)
      {
        assert WindowAt(text, size, overlap, chunks, starts, m);
      }
      k := StartsGrow(text, size, overlap, head, init, i);
      assert k + 1 <= |init|;
    }
  }

  lemma SliceOfSlice(t: string, a: nat, b: nat, c: nat, d: nat)
    requires a <= b <= |t| && c <= d <= b - a
    ensures t[a..b][c..d] == t[a + c..a + d]
  {
    var x, y := t[a..b][c..d], t[a + c..a + d];
    assert |x| == |y|;
    forall i | 0 <= i < |x|
      ensures x[i] == y[i]
    {
      assert x[i] == t[a..b][c + i];
    }
  }

  /** No phrase that is not longer than the overlap is torn: it is whole in some segment. */
  lemma PhraseIsWhole(text: string, size: nat, overlap: nat, chunks: seq<string>, starts: seq<nat>, phrase: string)
    requires Windows(text, size, overlap, chunks, starts) && starts != [] && starts[|starts| - 1] + size >= |text|
    requires 0 < overlap < size || |text| <= size
    requires Contains(text, phrase) && phrase != "" && |phrase| <= overlap + 1
    ensures exists k | 0 <= k < |chunks| :: Contains(chunks[k], phrase)
  {
    var i: nat :| OccursAt(text, phrase, i);
    var k := StartsGrow(text, size, overlap, chunks, starts, i);
    assert WindowAt(text, size, overlap, chunks, starts, k);
    var end := End(text, size, starts[k]);
    if k + 1 < |starts| {
      assert WindowAt(text, size, overlap, chunks, starts, k + 1);
    }
    assert i + |phrase| <= end;
    SliceOfSlice(text, starts[k], end, i - starts[k], i - starts[k] + |phrase|);
    assert OccursAt(chunks[k], phrase, i - starts[k]);
  }

  /** The loop of _split_by_chars, as far as its position goes: where the next segment
      starts, if there is one.  A negative start is one counted from the end. */
  function NextStart(n: nat, size: nat, overlap: nat, start: int): Option<int> {
    var end := if start + size < n then start + size else n;
    if end >= n || overlap <= 0 then None else Some(end - overlap)
  }

  ghost predicate RunsFor(n: nat, size: nat, overlap: nat, start: int, turns: nat)
    decreases turns
  {
    start < n && (turns == 0 || (NextStart(n, size, overlap, start).Some? &&
                                 RunsFor(n, size, overlap, NextStart(n, size, overlap, start).value, turns - 1)))
  }

  /** Exactly when the loop never ends: the overlap is not less than the segment, and one
      segment is not enough. */
  lemma NeverEndsIff(n: nat, size: nat, overlap: nat)
    requires size > 0 && n > 0
    ensures (forall turns: nat :: RunsFor(n, size, overlap, 0, turns)) <==> overlap >= size && n > size
  {
    if overlap >= size && n > size {
      forall turns: nat
        ensures RunsFor(n, size, overlap, 0, turns)
      {
        KeepsRunning(n, size, overlap, 0, turns);
      }
    } else {
      Ends(n, size, overlap, 0);
    }
  }

  lemma {:induction false} KeepsRunning(n: nat, size: nat, overlap: nat, start: int, turns: nat)
    requires 0 < size < n && overlap >= size && start <= 0
    ensures RunsFor(n, size, overlap, start, turns)
    decreases turns
  {
    if turns > 0 {
      KeepsRunning(n, size, overlap, start + size - overlap, turns - 1);
    }
  }

  lemma {:induction false} Ends(n: nat, size: nat, overlap: nat, start: nat)
    requires size > 0 && start < n && (overlap < size || n <= size)
    ensures !RunsFor(n, size, overlap, start, n - start)
    decreases n - start
  {
    var next := NextStart(n, size, overlap, start);
    if next.Some? && next.value < n {
      Ends(n, size, overlap, next.value);
      RunsLess(n, size, overlap, next.value, n - start - 1, n - next.value);
    }
  }

  lemma {:induction false} RunsLess(n: nat, size: nat, overlap: nat, start: int, more: nat, less: nat)
    requires less <= more
    ensures RunsFor(n, size, overlap, start, more) ==> RunsFor(n, size, overlap, start, less)
    decreases less
  {
    if less > 0 && RunsFor(n, size, overlap, start, more) {
      RunsLess(n, size, overlap, NextStart(n, size, overlap, start).value, more - 1, less - 1);
    }
  }

  // ---- merging parts --------------------------------------------------------------------------

  const MAX_MERGE_CHUNKS := 1_000_000

  /** Part j has a place among the segments, places do not go back, and a part that fits a
      segment is whole in the one at its place. */
  ghost predicate PartsKept(parts: seq<string>, size: nat, chunks: seq<string>, places: seq<nat>) {
    |places| == |parts| && forall j | 0 <= j < |parts| :: PartKept(parts, size, chunks, places, j)
  }

  ghost predicate PartKept(parts: seq<string>, size: nat, chunks: seq<string>, places: seq<nat>, j: nat)
    requires j < |parts| == |places|
  {
    (j > 0 ==> places[j - 1] <= places[j]) && places[j] < |chunks| &&
    (|parts[j]| <= size ==> Contains(chunks[places[j]], parts[j]))
  }

  ghost predicate Fit(chunks: seq<string>, size: nat) {
    forall k | 0 <= k < |chunks| :: 0 < |chunks[k]| <= size
  }

  ghost predicate ShortParts(parts: seq<string>, size: nat) {
    forall p | p in parts :: |p| <= size
  }

  /** What is in `current` counts as one more segment. */
  function Closed(chunks: seq<string>, current: string): seq<string> {
    if current != "" then chunks + [current] else chunks
  }

  /** How much of a segment is repeated in front of the part that opens the next one: the
      overlap, or what there is, or what there is room for. */
  function Shared(segment: string, size: nat, overlap: nat, part: string): (n: nat)
    ensures n <= overlap && n <= |segment| && (n > 0 ==> n + 2 + |part| <= size)
    ensures overlap <= |segment| && overlap + 2 + |part| <= size ==> n == overlap
  {
    var room := if overlap + 2 + |part| <= size then overlap else if |part| + 2 <= size then size - 2 - |part| else 0;
    if room <= |segment| then room else |segment|
  }

  function Opened(segment: string, size: nat, overlap: nat, part: string): string {
    var n := Shared(segment, size, overlap, part);
    if n > 0 then segment[|segment| - n..] + "\n\n" + part else part
  }

  /** The segment begins with the end of the one before it, and then a part. */
  ghost predicate Overlaps(before: string, segment: string, size: nat, overlap: nat) {
    exists part: string :: part != "" && Opened(before, size, overlap, part) <= segment
  }

  ghost predicate AllOverlap(chunks: seq<string>, size: nat, overlap: nat) {
    forall k | 0 < k < |chunks| :: Overlaps(chunks[k - 1], chunks[k], size, overlap)
  }

  method Tail(current: string, size: nat, overlap: nat, part: string) returns (tail: string)
    requires 0 < |part| <= size
    ensures tail == current[|current| - Shared(current, size, overlap, part)..]
  {
    var maxTail: int := size - 2 - |part|;
    var room := if overlap < maxTail then overlap else maxTail;
    if room <= 0 {
      return "";
    }
    tail := if room <= |current| then current[|current| - room..] else current;
  }

  /** _merge_into_chunks: every part that fits a segment is whole in one, in order; no
      segment is empty or too long.  `ok` is false where the source gives up. */
  method MergeIntoChunks(parts: seq<string>, size: nat, overlap: nat) returns (ok: bool, chunks: seq<string>, ghost places: seq<nat>)
    requires 0 <= overlap < size && forall p | p in parts :: p != ""
    ensures ok ==> Fit(chunks, size) && PartsKept(parts, size, chunks, places)
    ensures !ok ==> |chunks| > MAX_MERGE_CHUNKS
    ensures ok && parts != [] ==> chunks != []
    ensures ok && ShortParts(parts, size) ==> AllOverlap(chunks, size, overlap)
  {
    chunks := [];
    var current := "";
    places := [];
    for j := 0 to |parts|
      invariant |current| <= size && Fit(chunks, size)
      invariant PartsKept(parts[..j], size, Closed(chunks, current), places)
      invariant j > 0 ==> Closed(chunks, current) != []
      invariant ShortParts(parts, size) ==>
                  AllOverlap(Closed(chunks, current), size, overlap) && (current == "" ==> chunks == [])
    {
      ghost var place;
      assert parts[..j + 1] == parts[..j] + [parts[j]] && parts[j] in parts;
      if |parts[j]| > size {
        ok, chunks, place := AddLong(chunks, current, parts[j], size, overlap, parts[..j], places);
        current := "";
      } else {
        ok, chunks, current, place := AddPart(chunks, current, parts[j], size, overlap, parts[..j], places);
      }
      places := places + [place];
      if !ok {
        return;
      }
    }
    assert parts[..|parts|] == parts;
    if current != "" {
      chunks := chunks + [current];
    }
    ok := true;
  }

  /** A part that does not fit a segment closes the open one and is cut. */
  method AddLong(chunks: seq<string>, current: string, part: string, size: nat, overlap: nat,
                 ghost parts: seq<string>, ghost places: seq<nat>)
    returns (ok: bool, longer: seq<string>, ghost place: nat)
    requires overlap < size < |part| && |current| <= size && Fit(chunks, size)
    requires PartsKept(parts, size, Closed(chunks, current), places)
    ensures Fit(longer, size) && longer != [] && (!ok ==> |longer| > MAX_MERGE_CHUNKS)
    ensures PartsKept(parts + [part], size, longer, places + [place])
  {
    longer := Closed(chunks, current);
    place := |longer|;
    var pieces, starts := SplitByChars(part, size, overlap);
    WindowsFit(part, size, overlap, pieces, starts);
    LongPart(parts, part, size, longer, pieces, places);
    longer := longer + pieces;
    ok := |longer| <= MAX_MERGE_CHUNKS;
  }

  /** A part that fits goes to the open segment if there is room, else opens the next,
      behind the end of the one before. */
  method AddPart(chunks: seq<string>, current: string, part: string, size: nat, overlap: nat,
                 ghost parts: seq<string>, ghost places: seq<nat>)
    returns (ok: bool, longer: seq<string>, next: string, ghost place: nat)
    requires overlap < size && 0 < |part| <= size && |current| <= size && Fit(chunks, size)
    requires PartsKept(parts, size, Closed(chunks, current), places)
    ensures Fit(longer, size) && 0 < |next| <= size && (!ok ==> |longer| > MAX_MERGE_CHUNKS)
    ensures PartsKept(parts + [part], size, Closed(longer, next), places + [place])
    ensures AllOverlap(Closed(chunks, current), size, overlap) && (current == "" ==> chunks == []) ==>
              AllOverlap(Closed(longer, next), size, overlap)
  {
    var candidate := if current != "" then current + "\n\n" + part else part;
    ok := true;
    if |candidate| <= size {
      MergedPart(parts, part, size, chunks, current, places);
      if AllOverlap(Closed(chunks, current), size, overlap) && (current == "" ==> chunks == []) {
        MergedOverlaps(chunks, current, part, size, overlap);
      }
      longer, next, place := chunks, candidate, |chunks|;
    } else {
      longer := chunks + [current];
      ok := |longer| <= MAX_MERGE_CHUNKS;
      next := OpenNext(longer, part, size, overlap, parts, places);
      place := |longer|;
    }
  }

  method OpenNext(chunks: seq<string>, part: string, size: nat, overlap: nat, ghost parts: seq<string>, ghost places: seq<nat>)
    returns (next: string)
    requires chunks != [] && 0 < |part| <= size && PartsKept(parts, size, chunks, places)
    ensures 0 < |next| <= size && PartsKept(parts + [part], size, chunks + [next], places + [|chunks|])
    ensures AllOverlap(chunks, size, overlap) ==> AllOverlap(chunks + [next], size, overlap)
  {
    var tail := Tail(chunks[|chunks| - 1], size, overlap, part);
    next := if tail != "" then tail + "\n\n" + part else part;
    NewPart(parts, part, size, chunks, tail, places);
    if AllOverlap(chunks, size, overlap) {
      OpenedOverlaps(chunks, part, size, overlap);
    }
  }

  lemma MergedOverlaps(chunks: seq<string>, current: string, part: string, size: nat, overlap: nat)
    requires AllOverlap(Closed(chunks, current), size, overlap) && part != ""
    requires current == "" ==> chunks == []
    ensures AllOverlap(Closed(chunks, if current != "" then current + "\n\n" + part else part), size, overlap)
  {
    var longer := if current != "" then current + "\n\n" + part else part;
    var was, now := Closed(chunks, current), Closed(chunks, longer);
    forall k | 0 < k < |now|
      ensures Overlaps(now[k - 1], now[k], size, overlap)
    {
      assert Overlaps(was[k - 1], was[k], size, overlap);
      var p: string :| p != "" && Opened(was[k - 1], size, overlap, p) <= was[k];
      PartAtEnd(current, part);
      assert Opened(now[k - 1], size, overlap, p) <= now[k];
    }
  }

  lemma OpenedOverlaps(chunks: seq<string>, part: string, size: nat, overlap: nat)
    requires chunks != [] && AllOverlap(chunks, size, overlap) && part != ""
    ensures AllOverlap(chunks + [Opened(chunks[|chunks| - 1], size, overlap, part)], size, overlap)
  {
    var all := chunks + [Opened(chunks[|chunks| - 1], size, overlap, part)];
    forall k | 0 < k < |all|
      ensures Overlaps(all[k - 1], all[k], size, overlap)
    {
      if k < |chunks| { assert Overlaps(chunks[k - 1], chunks[k], size, overlap); }
    }
  }

  lemma WindowsFit(text: string, size: nat, overlap: nat, chunks: seq<string>, starts: seq<nat>)
    requires Windows(text, size, overlap, chunks, starts) && size > 0
    ensures Fit(chunks, size)
  {
    forall k | 0 <= k < |chunks|
      ensures 0 < |chunks[k]| <= size
    {
      assert WindowAt(text, size, overlap, chunks, starts, k);
    }
  }

  /** A part too long for a segment is cut, and stands after all that came before. */
  lemma LongPart(parts: seq<string>, part: string, size: nat, chunks: seq<string>, pieces: seq<string>, places: seq<nat>)
    requires PartsKept(parts, size, chunks, places) && |part| > size && pieces != []
    ensures PartsKept(parts + [part], size, chunks + pieces, places + [|chunks|])
  {
    forall j | 0 <= j <= |parts|
      ensures PartKept(parts + [part], size, chunks + pieces, places + [|chunks|], j)
    {
      if j < |parts| { assert PartKept(parts, size, chunks, places, j); }
      if j > 0 { assert PartKept(parts, size, chunks, places, j - 1); }
    }
  }

  /** A part is appended to the open segment. */
  lemma MergedPart(parts: seq<string>, part: string, size: nat, chunks: seq<string>, current: string, places: seq<nat>)
    requires PartsKept(parts, size, Closed(chunks, current), places) && part != ""
    ensures var longer := if current != "" then current + "\n\n" + part else part;
            PartsKept(parts + [part], size, Closed(chunks, longer), places + [|chunks|])
  {
    var longer := if current != "" then current + "\n\n" + part else part;
    var was, now := Closed(chunks, current), Closed(chunks, longer);
    PartAtEnd(current, part);
    forall j | 0 <= j <= |parts|
      ensures PartKept(parts + [part], size, now, places + [|chunks|], j)
    {
      if j > 0 { assert PartKept(parts, size, was, places, j - 1); }
      if j < |parts| {
        assert PartKept(parts, size, was, places, j);
        if places[j] == |chunks| && current != "" && |parts[j]| <= size {
          ContainsMore(current, longer, parts[j]);
        }
      }
    }
  }

  lemma PartAtEnd(current: string, part: string)
    ensures var longer := if current != "" then current + "\n\n" + part else part; Contains(longer, part) && current <= longer
  {
    if current != "" {
      ContainsBetween(current + "\n\n", part, "");
      assert current + "\n\n" + part + "" == current + "\n\n" + part;
    } else {
      assert OccursAt(part, part, 0);
    }
  }

  /** A part opens the next segment. */
  lemma NewPart(parts: seq<string>, part: string, size: nat, chunks: seq<string>, tail: string, places: seq<nat>)
    requires PartsKept(parts, size, chunks, places) && part != ""
    ensures var next := if tail != "" then tail + "\n\n" + part else part;
            PartsKept(parts + [part], size, chunks + [next], places + [|chunks|])
  {
    var next := if tail != "" then tail + "\n\n" + part else part;
    PartAtEnd(tail, part);
    forall j | 0 <= j <= |parts|
      ensures PartKept(parts + [part], size, chunks + [next], places + [|chunks|], j)
    {
      if j > 0 { assert PartKept(parts, size, chunks, places, j - 1); }
      if j < |parts| { assert PartKept(parts, size, chunks, places, j); }
    }
  }

  // ---- the whole splitter ------------------------------------------------------------------------

  /** What the regular expression of each level makes of a text: the stripped parts
      between its matches, without the blank ones. */
  type Cutter = (nat, string) -> seq<string>

  const LEVELS := 5

  /** Where something is cut, the parts are shorter than the whole and not blank. */
  ghost predicate Cuts(cut: Cutter) {
    forall level: nat, text: string, j: nat | 1 < |cut(level, text)| && j < |cut(level, text)| ::
      0 < |cut(level, text)[j]| < |text|
  }

  ghost predicate InSome(chunks: seq<string>, phrase: string) {
    exists k | 0 <= k < |chunks| :: Contains(chunks[k], phrase)
  }

  /** No level cuts through the phrase. */
  ghost predicate Unbroken(cut: Cutter, phrase: string) {
    forall level: nat, text: string | 1 < |cut(level, text)| && Contains(text, phrase) :: InSome(cut(level, text), phrase)
  }

  /** A phrase the splitter is to keep: no separator in it, and no longer than the overlap. */
  ghost predicate Phrase(cut: Cutter, overlap: nat, phrase: string) {
    phrase != "" && |phrase| <= overlap + 1 && Unbroken(cut, phrase)
  }

  ghost predicate KeepsPhrases(cut: Cutter, overlap: nat, text: string, chunks: seq<string>) {
    forall phrase | Phrase(cut, overlap, phrase) && Contains(text, phrase) :: InSome(chunks, phrase)
  }

  lemma ContainsAll(whole: string, part: string, phrase: string)
    requires Contains(whole, part) && Contains(part, phrase)
    ensures Contains(whole, phrase)
  {
    var i: nat :| OccursAt(whole, part, i);
    var k: nat :| OccursAt(part, phrase, k);
    SliceOfSlice(whole, i, i + |part|, k, k + |phrase|);
    assert OccursAt(whole, phrase, i + k);
  }

  lemma WindowsKeepPhrases(cut: Cutter, text: string, size: nat, overlap: nat, chunks: seq<string>, starts: seq<nat>)
    requires Windows(text, size, overlap, chunks, starts) && starts != [] && starts[|starts| - 1] + size >= |text|
    requires 0 < overlap < size
    ensures KeepsPhrases(cut, overlap, text, chunks)
  {
    forall phrase | Phrase(cut, overlap, phrase) && Contains(text, phrase)
      ensures InSome(chunks, phrase)
    {
      PhraseIsWhole(text, size, overlap, chunks, starts, phrase);
    }
  }

  /** What is in some part is in some segment, if all parts fit. */
  lemma MergedKeeps(parts: seq<string>, size: nat, chunks: seq<string>, places: seq<nat>, phrase: string)
    requires PartsKept(parts, size, chunks, places) && Fit(parts, size) && InSome(parts, phrase)
    ensures InSome(chunks, phrase)
  {
    var j :| 0 <= j < |parts| && Contains(parts[j], phrase);
    assert PartKept(parts, size, chunks, places, j);
    ContainsAll(chunks[places[j]], parts[j], phrase);
  }

  /** _recursive_split */
  method RecursiveSplit(cut: Cutter, text: string, size: nat, overlap: nat) returns (ok: bool, chunks: seq<string>)
    requires text != "" && 0 <= overlap < size && Cuts(cut)
    ensures ok ==> Fit(chunks, size) && chunks != []
    ensures ok && overlap > 0 ==> KeepsPhrases(cut, overlap, text, chunks)
    decreases |text|, 1
  {
    for level := 0 to LEVELS {
      var parts := cut(level, text);
      if |parts| > 1 {
        ok, chunks := SplitParts(cut, level, text, parts, size, overlap);
        return;
      }
    }
    var pieces, starts := SplitByChars(text, size, overlap);
    WindowsFit(text, size, overlap, pieces, starts);
    if overlap > 0 {
      WindowsKeepPhrases(cut, text, size, overlap, pieces, starts);
    }
    return true, pieces;
  }

  /** Parts that fit stay, longer ones are split in turn; then the pieces are merged. */
  method SplitParts(cut: Cutter, level: nat, text: string, parts: seq<string>, size: nat, overlap: nat)
    returns (ok: bool, chunks: seq<string>)
    requires 0 <= overlap < size && Cuts(cut) && parts == cut(level, text) && |parts| > 1
    ensures ok ==> Fit(chunks, size) && chunks != []
    ensures ok && overlap > 0 ==> KeepsPhrases(cut, overlap, text, chunks)
    decreases |text|, 0
  {
    var result: seq<string> := [];
    for j := 0 to |parts|
      invariant Fit(result, size) && (j > 0 ==> result != [])
      invariant overlap > 0 ==> forall i | 0 <= i < j :: KeepsPhrases(cut, overlap, parts[i], result)
    {
      ghost var before := result;
      var more := [parts[j]];
      if |parts[j]| > size {
        ok, more := RecursiveSplit(cut, parts[j], size, overlap);
        if !ok {
          return false, [];
        }
      } else {
        OnePart(cut, overlap, parts[j]);
      }
      result := result + more;
      assert [] + before + more == result && before + more + [] == result;
      if overlap > 0 {
        forall i | 0 <= i <= j
          ensures KeepsPhrases(cut, overlap, parts[i], result)
        {
          if i < j { MorePieces(cut, overlap, parts[i], before, [], more); } else { MorePieces(cut, overlap, parts[i], more, before, []); }
        }
      }
    }
    ghost var places;
    ok, chunks, places := MergeIntoChunks(result, size, overlap);
    if ok && overlap > 0 {
      PartsKeepText(cut, level, text, result, overlap);
      forall phrase | Phrase(cut, overlap, phrase) && Contains(text, phrase)
        ensures InSome(chunks, phrase)
      {
        MergedKeeps(result, size, chunks, places, phrase);
      }
    }
  }

  lemma OnePart(cut: Cutter, overlap: nat, part: string)
    ensures KeepsPhrases(cut, overlap, part, [part])
  {
    forall phrase | Phrase(cut, overlap, phrase) && Contains(part, phrase)
      ensures InSome([part], phrase)
    {
      assert Contains([part][0], phrase);
    }
  }

  lemma MorePieces(cut: Cutter, overlap: nat, text: string, chunks: seq<string>, before: seq<string>, after: seq<string>)
    requires KeepsPhrases(cut, overlap, text, chunks)
    ensures KeepsPhrases(cut, overlap, text, before + chunks + after)
  {
    forall phrase | Phrase(cut, overlap, phrase) && Contains(text, phrase)
      ensures InSome(before + chunks + after, phrase)
    {
      var k :| 0 <= k < |chunks| && Contains(chunks[k], phrase);
      assert (before + chunks + after)[|before| + k] == chunks[k];
    }
  }

  lemma PartsKeepText(cut: Cutter, level: nat, text: string, result: seq<string>, overlap: nat)
    requires |cut(level, text)| > 1
    requires forall i | 0 <= i < |cut(level, text)| :: KeepsPhrases(cut, overlap, cut(level, text)[i], result)
    ensures KeepsPhrases(cut, overlap, text, result)
  {
    forall phrase | Phrase(cut, overlap, phrase) && Contains(text, phrase)
      ensures InSome(result, phrase)
    {
      assert InSome(cut(level, text), phrase);
      var i :| 0 <= i < |cut(level, text)| && Contains(cut(level, text)[i], phrase);
      assert KeepsPhrases(cut, overlap, cut(level, text)[i], result);
    }
  }

  /** split_text, of a stripped text: segments that are neither empty nor too long, at
      least one if there is any text, and with an overlap no phrase is torn that is not
      longer than it and has no separator in it. */
  method SplitText(cut: Cutter, text: string, size: nat, overlap: nat) returns (ok: bool, chunks: seq<string>)
    requires 0 <= overlap < size && Cuts(cut)
    ensures ok ==> Fit(chunks, size) && (chunks == [] <==> text == "")
    ensures ok && overlap > 0 ==> KeepsPhrases(cut, overlap, text, chunks)
    ensures |text| <= size ==> ok && chunks == if text == "" then [] else [text]
  {
    if text == "" || |text| <= size {
      if text != "" {
        OnePart(cut, overlap, text);
      } else {
        NothingToKeep(cut, overlap);
      }
      return true, if text != "" then [text] else [];
    }
    ok, chunks := RecursiveSplit(cut, text, size, overlap);
  }

  lemma NothingToKeep(cut: Cutter, overlap: nat)
    ensures KeepsPhrases(cut, overlap, "", [])
  {
  }
}
