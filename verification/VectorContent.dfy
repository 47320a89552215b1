/** What the vectors of a row say: every text of the row is in the chunks built from it,
    and so in the store. */
module VectorContent {
  import opened Tables
  import opened Strings
  import opened Vectors
  import opened VectorRuns
  import opened VectorTruth

  // ---- the columns of a row ----------------------------------------------------------------

  /** A configured column with a text. */
  predicate Speaks(ix: Indexer, row: Row, c: string) {
    c in ix.cols && c in row.texts && row.texts[c] != ""
  }

  lemma {:induction false} LabelsIff(row: Row, cols: seq<string>, c: string)
    ensures c in Labels(row, cols) <==> c in cols && c in row.texts && row.texts[c] != ""
  {
    if cols != [] {
      LabelsIff(row, cols[..|cols| - 1], c);
      assert cols == cols[..|cols| - 1] + [cols[|cols| - 1]];
    }
  }

  /** The column stands at this place for the first time. */
  predicate FirstAt(cols: seq<string>, c: string, p: nat) {
    p < |cols| && cols[p] == c && forall i | 0 <= i < p :: cols[i] != c
  }

  /** Each column once, in the order in which they are configured. */
  lemma {:induction false} LabelsInOrder(row: Row, cols: seq<string>, k: nat, l: nat)
    requires k < l < |Labels(row, cols)|
    ensures exists p: nat, q: nat :: p < q && FirstAt(cols, Labels(row, cols)[k], p) && FirstAt(cols, Labels(row, cols)[l], q)
  {
    var n := |cols| - 1;
    var init, labels := Labels(row, cols[..n]), Labels(row, cols);
    if l < |init| {
      LabelsInOrder(row, cols[..n], k, l);
      var p: nat, q: nat :| p < q && FirstAt(cols[..n], init[k], p) && FirstAt(cols[..n], init[l], q);
      assert FirstAt(cols, labels[k], p) && FirstAt(cols, labels[l], q);
    } else {
      var p := LabelPlace(row, cols[..n], k);
      LabelsIff(row, cols[..n], cols[n]);
      assert forall i | 0 <= i < n :: cols[i] == cols[..n][i];
      assert FirstAt(cols, labels[k], p) && FirstAt(cols, labels[l], n);
    }
  }

  lemma {:induction false} LabelPlace(row: Row, cols: seq<string>, k: nat) returns (p: nat)
    requires k < |Labels(row, cols)|
    ensures FirstAt(cols, Labels(row, cols)[k], p)
  {
    var n := |cols| - 1;
    if k < |Labels(row, cols[..n])| {
      p := LabelPlace(row, cols[..n], k);
    } else {
      LabelsIff(row, cols[..n], cols[n]);
      assert forall i | 0 <= i < n :: cols[i] == cols[..n][i];
      p := n;
    }
  }

  /** The first of the longest. */
  lemma {:induction false} LongestIsFirst(row: Row, labels: seq<string>) returns (k: nat)
    requires labels != []
    ensures k < |labels| && labels[k] == Longest(row, labels)
    ensures forall i | 0 <= i < |labels| :: Length(row, labels[i]) <= Length(row, labels[k])
    ensures forall i | 0 <= i < k :: Length(row, labels[i]) < Length(row, labels[k])
    decreases |labels|
  {
    if |labels| == 1 {
      k := 0;
    } else {
      var rest := LongestIsFirst(row, labels[1..]);
      k := if Length(row, labels[0]) >= Length(row, labels[1..][rest]) then 0 else rest + 1;
      forall i | 0 <= i < |labels|
        ensures Length(row, labels[i]) <= Length(row, labels[k])
        ensures i < k ==> Length(row, labels[i]) < Length(row, labels[k])
      {
        if i > 0 { assert labels[i] == labels[1..][i - 1]; }
      }
    }
  }

  // ---- the text of the other columns ------------------------------------------------------------

  /** Columns are joined in order. */
  lemma {:induction false} JoinedConcat(row: Row, a: seq<string>, b: seq<string>)
    requires a != [] && b != []
    ensures Joined(row, a + b) == Joined(row, a) + ". " + Joined(row, b)
    decreases |a|
  {
    if |a| == 1 {
      assert (a + b)[1..] == b;
    } else {
      JoinedConcat(row, a[1..], b);
      assert (a + b)[1..] == a[1..] + b;
    }
  }

  /** "name: text" of one column. */
  function Labelled(row: Row, c: string): string
    requires c in row.texts
  {
    c + (": " + row.texts[c])
  }

  lemma {:induction false} JoinedContains(row: Row, labels: seq<string>, c: string)
    requires c in labels && c in row.texts
    ensures Contains(Joined(row, labels), Labelled(row, c))
    decreases |labels|
  {
    assert Part(row, c) == Labelled(row, c);
    if labels[0] == c {
      var rest := if |labels| == 1 then "" else ". " + Joined(row, labels[1..]);
      ContainsBetween("", Labelled(row, c), rest);
      assert "" + Labelled(row, c) + rest == Joined(row, labels);
    } else {
      JoinedContains(row, labels[1..], c);
      ContainsShifted(Part(row, labels[0]) + ". ", Joined(row, labels[1..]), Labelled(row, c));
    }
  }

  lemma {:induction false} WithoutIff(labels: seq<string>, col: string, c: string)
    ensures c in Without(labels, col) <==> c in labels && c != col
  {
    if labels != [] {
      WithoutIff(labels[1..], col, c);
    }
  }

  // ---- numbers in the chunk labels ------------------------------------------------------------------

  function Digit(c: char): int {
    c as int - '0' as int
  }

  /** Reading a decimal number. */
  function Read(s: string): int {
    if s == "" then 0 else Read(s[..|s| - 1]) * 10 + Digit(s[|s| - 1])
  }

  lemma {:induction false} DecimalReads(n: nat)
    ensures Read(Decimal(n)) == n && Decimal(n) != ""
  {
    var digit := "0123456789"[n % 10];
    assert Digit(digit) == n % 10;
    if n < 10 {
      assert Decimal(n) == [digit] && [digit][..0] == "";
    } else {
      DecimalReads(n / 10);
      assert Decimal(n)[..|Decimal(n)| - 1] == Decimal(n / 10);
    }
  }

  // ---- the chunks of a row ------------------------------------------------------------------------------

  /** No text of the row is longer than a chunk. */
  ghost predicate Short(ix: Indexer, row: Row) {
    forall c | Speaks(ix, row, c) :: |row.texts[c]| <= ix.size
  }

  lemma ShortIff(ix: Indexer, row: Row)
    ensures Short(ix, row) <==> forall c | c in Labels(row, ix.cols) :: Length(row, c) <= ix.size
  {
    forall c
      ensures c in Labels(row, ix.cols) <==> Speaks(ix, row, c)
    {
      LabelsIff(row, ix.cols, c);
    }
  }

  /** A row of short texts has one chunk, and it contains every text under its name. */
  lemma ShortChunk(ix: Indexer, row: Row, c: string)
    requires Short(ix, row) && Speaks(ix, row, c)
    ensures |Chunks(ix, row)| == 1 && Contains(Chunks(ix, row)[0], Labelled(row, c))
  {
    ShortIff(ix, row);
    LabelsIff(row, ix.cols, c);
    JoinedContains(row, Labels(row, ix.cols), c);
  }

  /** The column that is split: the longest text, and the first configured of those. */
  ghost predicate IsSplit(ix: Indexer, row: Row, col: string) {
    Speaks(ix, row, col) && (forall c | Speaks(ix, row, c) :: |row.texts[c]| <= |row.texts[col]|) &&
    forall c, p: nat, q: nat | Speaks(ix, row, c) && FirstAt(ix.cols, c, p) && FirstAt(ix.cols, col, q) && p < q ::
      |row.texts[c]| < |row.texts[col]|
  }

  /** How chunk i of n ends: name and place of the split column, and its i-th segment. */
  function SegmentText(col: string, i: nat, n: nat, segment: string): string {
    col + (" [" + Decimal(i + 1) + "/" + Decimal(n) + "]: " + segment)
  }

  /** A row with a long text: there is a split column, a chunk for each of its segments,
      each chunk ends with its own segment, and before that contains every other text
      under its name. */
  lemma LongChunks(ix: Indexer, row: Row) returns (col: string)
    requires !Short(ix, row)
    ensures IsSplit(ix, row, col) && |row.texts[col]| > ix.size
    ensures |Chunks(ix, row)| == |ix.split(row.texts[col])|
    ensures forall i | 0 <= i < |Chunks(ix, row)| :: EndsInSegment(ix, row, col, i)
    ensures forall i | 0 <= i < |Chunks(ix, row)| :: LeadComplete(ix, row, col, i)
  {
    ShortIff(ix, row);
    var labels := Labels(row, ix.cols);
    col := SplitColumn(ix, row);
    var segments := ix.split(row.texts[col]);
    assert |Chunks(ix, row)| == |segments|;
    forall i | 0 <= i < |segments|
      ensures EndsInSegment(ix, row, col, i)
      ensures LeadComplete(ix, row, col, i)
    {
      var lead := Joined(row, Without(labels, col));
      assert Chunks(ix, row)[i] == ChunkText(lead, col, segments, i);
      ChunkEnds(lead, col, segments, i);
      forall c | Speaks(ix, row, c) && c != col
        ensures LeadContains(ix, row, col, i, c)
      {
        LabelsIff(row, ix.cols, c);
        WithoutIff(labels, col, c);
        JoinedContains(row, Without(labels, col), c);
        LeadStays(lead, col, segments, i, Labelled(row, c));
      }
    }
  }

  predicate EndsInSegment(ix: Indexer, row: Row, col: string, i: nat)
    requires col in row.texts && i < |Chunks(ix, row)| == |ix.split(row.texts[col])|
  {
    EndsWith(Chunks(ix, row)[i], SegmentText(col, i, |Chunks(ix, row)|, ix.split(row.texts[col])[i]))
  }

  /** What stands before the segment. */
  function Lead(chunk: string, end: string): string {
    if |end| <= |chunk| then chunk[..|chunk| - |end|] else ""
  }

  ghost predicate LeadContains(ix: Indexer, row: Row, col: string, i: nat, c: string)
    requires col in row.texts && c in row.texts && i < |Chunks(ix, row)| == |ix.split(row.texts[col])|
  {
    Contains(Lead(Chunks(ix, row)[i], SegmentText(col, i, |Chunks(ix, row)|, ix.split(row.texts[col])[i])), Labelled(row, c))
  }

  ghost predicate LeadComplete(ix: Indexer, row: Row, col: string, i: nat)
    requires col in row.texts && i < |Chunks(ix, row)| == |ix.split(row.texts[col])|
  {
    forall c | Speaks(ix, row, c) && c != col :: LeadContains(ix, row, col, i, c)
  }

  lemma ChunkEnds(lead: string, col: string, segments: seq<string>, i: nat)
    requires i < |segments|
    ensures EndsWith(ChunkText(lead, col, segments, i), SegmentText(col, i, |segments|, segments[i]))
  {
    var front, end := if lead != "" then lead + ". " else "", SegmentText(col, i, |segments|, segments[i]);
    assert ChunkText(lead, col, segments, i) == front + end;
  }

  lemma LeadStays(lead: string, col: string, segments: seq<string>, i: nat, part: string)
    requires i < |segments| && Contains(lead, part) && part != ""
    ensures Contains(Lead(ChunkText(lead, col, segments, i), SegmentText(col, i, |segments|, segments[i])), part)
  {
    var end := SegmentText(col, i, |segments|, segments[i]);
    var k: nat :| OccursAt(lead, part, k);
    assert lead != "";
    assert ChunkText(lead, col, segments, i) == lead + ". " + end;
    assert Lead(lead + ". " + end, end) == lead + ". ";
    ContainsMore(lead, lead + ". ", part);
  }

  lemma SplitColumn(ix: Indexer, row: Row) returns (col: string)
    requires !Short(ix, row)
    ensures Labels(row, ix.cols) != [] && col == Longest(row, Labels(row, ix.cols))
    ensures IsSplit(ix, row, col) && |row.texts[col]| > ix.size
  {
    var labels := Labels(row, ix.cols);
    ShortIff(ix, row);
    var long :| long in labels && Length(row, long) > ix.size;
    var k := LongestIsFirst(row, labels);
    col := labels[k];
    LabelsIff(row, ix.cols, col);
    forall c | Speaks(ix, row, c)
      ensures |row.texts[c]| <= |row.texts[col]|
    {
      LabelsIff(row, ix.cols, c);
    }
    forall c, p: nat, q: nat | Speaks(ix, row, c) && FirstAt(ix.cols, c, p) && FirstAt(ix.cols, col, q) && p < q
      ensures |row.texts[c]| < |row.texts[col]|
    {
      EarlierLabel(ix, row, c, p, q, k);
    }
  }

  /** A column configured before another comes before it in the labels. */
  lemma EarlierLabel(ix: Indexer, row: Row, c: string, p: nat, q: nat, k: nat)
    requires k < |Labels(row, ix.cols)| && Speaks(ix, row, c)
    requires FirstAt(ix.cols, c, p) && FirstAt(ix.cols, Labels(row, ix.cols)[k], q) && p < q
    requires forall i | 0 <= i < k :: Length(row, Labels(row, ix.cols)[i]) < Length(row, Labels(row, ix.cols)[k])
    ensures Length(row, c) < Length(row, Labels(row, ix.cols)[k])
  {
    var labels := Labels(row, ix.cols);
    LabelsIff(row, ix.cols, c);
    var i :| 0 <= i < |labels| && labels[i] == c;
    if i > k {
      PlacesInOrder(row, ix.cols, k, i, q, p);
    }
  }

  lemma PlacesInOrder(row: Row, cols: seq<string>, k: nat, l: nat, p: nat, q: nat)
    requires k < l < |Labels(row, cols)| && FirstAt(cols, Labels(row, cols)[k], p) && FirstAt(cols, Labels(row, cols)[l], q)
    ensures p < q
  {
    LabelsInOrder(row, cols, k, l);
  }

  // ---- and in the store -------------------------------------------------------------------------------------

  /** A vector of this index for chunk i of the row. */
  predicate Stored(ix: Indexer, store: seq<Entry>, row: Row, i: nat, text: string) {
    Entry(ix.name, row.pk, i, |Chunks(ix, row)|, text, Digest(ix, row)) in store
  }

  /** A store that indexes a source has a vector for each chunk of each row. */
  lemma ChunkIsStored(ix: Indexer, store: seq<Entry>, rows: seq<Row>, row: Row, i: nat)
    requires Distinct(rows) && row in rows && Indexes(ix, store, rows) && i < |Chunks(ix, row)|
    ensures Stored(ix, store, row, i, Chunks(ix, row)[i])
  {
    var e := Entries(ix, row)[i];
    RowOfIs(rows, row);
    assert e in Entries(ix, row);
    IndexedCount(ix, store, rows, e);
    assert multiset(store)[e] == 1;
  }

  /** After an error-free run over an empty index, every text of every row is embedded: a
      short row's in its one vector ... */
  lemma ShortTextIsEmbedded(ix: Indexer, store: seq<Entry>, rows: seq<Row>, row: Row, c: string)
    requires Distinct(rows) && Splits(ix.split) && Injective(ix.hash) && Own(ix, store) == []
    requires row in rows && Short(ix, row) && Speaks(ix, row, c)
    ensures exists text :: Stored(ix, Built(ix, NO_FAULTS, store, rows), row, 0, text) && Contains(text, Labelled(row, c))
  {
    FirstRunIndexes(ix, store, rows);
    ShortChunk(ix, row, c);
    ChunkIsStored(ix, Built(ix, NO_FAULTS, store, rows), rows, row, 0);
  }

  /** ... and of a row with a long text each segment in its own vector, every other text
      in all of them. */
  lemma LongTextIsEmbedded(ix: Indexer, store: seq<Entry>, rows: seq<Row>, row: Row) returns (col: string)
    requires Distinct(rows) && Splits(ix.split) && Injective(ix.hash) && Own(ix, store) == []
    requires row in rows && !Short(ix, row)
    ensures IsSplit(ix, row, col) && |row.texts[col]| > ix.size && |Chunks(ix, row)| == |ix.split(row.texts[col])|
    ensures forall i | 0 <= i < |ix.split(row.texts[col])| ::
              SegmentIsEmbedded(ix, Built(ix, NO_FAULTS, store, rows), row, col, i)
  {
    FirstRunIndexes(ix, store, rows);
    col := LongChunks(ix, row);
    forall i | 0 <= i < |ix.split(row.texts[col])|
      ensures SegmentIsEmbedded(ix, Built(ix, NO_FAULTS, store, rows), row, col, i)
    {
      ChunkIsStored(ix, Built(ix, NO_FAULTS, store, rows), rows, row, i);
      WholeChunk(ix, row, col, i);
    }
  }

  /** The row's i-th vector ends with the i-th segment and contains every other text. */
  ghost predicate SegmentIsEmbedded(ix: Indexer, store: seq<Entry>, row: Row, col: string, i: nat)
    requires col in row.texts && i < |Chunks(ix, row)| == |ix.split(row.texts[col])|
  {
    Stored(ix, store, row, i, Chunks(ix, row)[i]) && EndsWith(Chunks(ix, row)[i], ix.split(row.texts[col])[i]) &&
    forall c | Speaks(ix, row, c) && c != col :: Contains(Chunks(ix, row)[i], Labelled(row, c))
  }

  lemma WholeChunk(ix: Indexer, row: Row, col: string, i: nat)
    requires col in row.texts && i < |Chunks(ix, row)| == |ix.split(row.texts[col])|
    requires EndsInSegment(ix, row, col, i) && LeadComplete(ix, row, col, i)
    ensures EndsWith(Chunks(ix, row)[i], ix.split(row.texts[col])[i])
    ensures forall c | Speaks(ix, row, c) && c != col :: Contains(Chunks(ix, row)[i], Labelled(row, c))
  {
    EndOfEnd(ix, row, col, i);
    forall c | Speaks(ix, row, c) && c != col
      ensures Contains(Chunks(ix, row)[i], Labelled(row, c))
    {
      LeadIsFront(ix, row, col, i, c);
    }
  }

  lemma EndOfEnd(ix: Indexer, row: Row, col: string, i: nat)
    requires col in row.texts && i < |Chunks(ix, row)| == |ix.split(row.texts[col])| && EndsInSegment(ix, row, col, i)
    ensures EndsWith(Chunks(ix, row)[i], ix.split(row.texts[col])[i])
  {
    var chunk, segment := Chunks(ix, row)[i], ix.split(row.texts[col])[i];
    var end := SegmentText(col, i, |Chunks(ix, row)|, segment);
    assert end[|end| - |segment|..] == segment;
    assert chunk[|chunk| - |segment|..] == chunk[|chunk| - |end|..][|end| - |segment|..];
  }

  lemma LeadIsFront(ix: Indexer, row: Row, col: string, i: nat, c: string)
    requires col in row.texts && c in row.texts && i < |Chunks(ix, row)| == |ix.split(row.texts[col])|
    requires LeadContains(ix, row, col, i, c)
    ensures Contains(Chunks(ix, row)[i], Labelled(row, c))
  {
    var chunk := Chunks(ix, row)[i];
    var end := SegmentText(col, i, |Chunks(ix, row)|, ix.split(row.texts[col])[i]);
    ContainsMore(Lead(chunk, end), chunk, Labelled(row, c));
  }

  lemma FirstRunIndexes(ix: Indexer, store: seq<Entry>, rows: seq<Row>)
    requires Distinct(rows) && Splits(ix.split) && Injective(ix.hash) && Own(ix, store) == []
    ensures Indexes(ix, Built(ix, NO_FAULTS, store, rows), rows)
  {
    assert ChunkSet(ix, []) == [] && Indexes(ix, store, []);
    IncrementalIsFreshIff(ix, store, [], rows);
  }
}
