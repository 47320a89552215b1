/** An error-free run against building from scratch: when the two agree, and what the
    next run sees. */
module VectorTruth {
  import opened Tables
  import opened Vectors
  import opened VectorRuns

  // ---- a store that indexes some source ----------------------------------------------------

  predicate Embeddable(ix: Indexer, row: Option<Row>) {
    row.Some? && SearchText(ix, row.value) != ""
  }

  /** How often an indexing store holds each of its own entries. */
  lemma IndexedCount(ix: Indexer, store: seq<Entry>, before: seq<Row>, e: Entry)
    requires Distinct(before) && Indexes(ix, store, before) && e.index == ix.name
    ensures multiset(store)[e] == if RowOf(before, e.pk).Some? && e in Entries(ix, RowOf(before, e.pk).value) then 1 else 0
  {
    FilterCount(store, (x: Entry) => x.index == ix.name, e);
    ChunkSetCount(ix, before, e);
  }

  /** The run reads exactly the embeddable keys of the indexed source, with their digests. */
  lemma IndexedKeys(ix: Indexer, store: seq<Entry>, before: seq<Row>, pk: string)
    requires Distinct(before) && Splits(ix.split) && Indexes(ix, store, before)
    ensures pk in Existing(ix, store) <==> Embeddable(ix, RowOf(before, pk))
    ensures pk in Existing(ix, store) ==> Existing(ix, store)[pk] == Digest(ix, RowOf(before, pk).value)
  {
    ExistingIff(ix, store, pk);
    forall e | e in store && Owns(ix, e, pk)
      ensures Embeddable(ix, RowOf(before, pk)) && e.hash == Digest(ix, RowOf(before, pk).value)
    {
      IndexedCount(ix, store, before, e);
      ChunksEmptyIff(ix, RowOf(before, pk).value);
      EntryOfRow(ix, RowOf(before, pk).value, e);
    }
    if Embeddable(ix, RowOf(before, pk)) {
      var row := RowOf(before, pk).value;
      ChunksEmptyIff(ix, row);
      var e := Entries(ix, row)[0];
      IndexedCount(ix, store, before, e);
      assert e in store && Owns(ix, e, pk);
    }
  }

  // ---- one error-free incremental run ---------------------------------------------------------

  /** The row whose chunks the run leaves under a key: the old row where the search
      text is the same, as its chunks are then not rebuilt. */
  function Kept(ix: Indexer, before: seq<Row>, rows: seq<Row>, pk: string): Option<Row> {
    var was, current := RowOf(before, pk), RowOf(rows, pk);
    if !Embeddable(ix, current) then None
    else if Embeddable(ix, was) && SearchText(ix, was.value) == SearchText(ix, current.value) then was
    else current
  }

  lemma LandedCount(ix: Indexer, existing: map<string, string>, rows: seq<Row>, e: Entry)
    requires Distinct(rows)
    ensures var chunks := ChunkSet(ix, NewRows(ix, existing, rows) + ChangedRows(ix, existing, rows));
            Landed(NO_FAULTS, chunks) == chunks
    ensures var chunks := ChunkSet(ix, NewRows(ix, existing, rows) + ChangedRows(ix, existing, rows));
            var row := RowOf(rows, e.pk);
            multiset(chunks)[e] ==
              (if row.Some? && e in Entries(ix, row.value) && (IsNew(ix, existing, row.value) || IsChanged(ix, existing, row.value))
               then 1 else 0)
  {
    var added, changed := NewRows(ix, existing, rows), ChangedRows(ix, existing, rows);
    LandedAll(ChunkSet(ix, added + changed));
    ChunkSetConcat(ix, added, changed);
    PickedCount(ix, rows, r => IsNew(ix, existing, r), e);
    PickedCount(ix, rows, r => IsChanged(ix, existing, r), e);
  }

  lemma ObsoleteIff(ix: Indexer, existing: map<string, string>, rows: seq<Row>, pk: string)
    requires Distinct(rows)
    ensures pk in Obsolete(ix, existing, rows) <==> pk in existing && !Embeddable(ix, RowOf(rows, pk))
  {
    forall r | r in rows && r.pk == pk
      ensures RowOf(rows, pk) == Some(r)
    {
      RowOfIs(rows, r);
    }
  }

  /** With no fault, a changed key loses exactly the entries of other digests. */
  lemma SupersededIff(ix: Indexer, existing: map<string, string>, rows: seq<Row>, e: Entry)
    requires Distinct(rows) && Splits(ix.split) && e.index == ix.name
    ensures var changed := ChangedRows(ix, existing, rows);
            var landed := KeysOf(Added(ix, NO_FAULTS, existing, rows));
            Superseded(ix, NO_FAULTS, changed, landed, e) <==>
              var row := RowOf(rows, e.pk);
              row.Some? && IsChanged(ix, existing, row.value) && e.hash != Digest(ix, row.value)
  {
    var changed := ChangedRows(ix, existing, rows);
    var chunks := ChunkSet(ix, NewRows(ix, existing, rows) + changed);
    forall r | r in changed && r.pk == e.pk
      ensures RowOf(rows, e.pk) == Some(r) && IsChanged(ix, existing, r)
    {
      PickedIff(rows, x => IsChanged(ix, existing, x), r);
      RowOfIs(rows, r);
    }
    var row := RowOf(rows, e.pk);
    if row.Some? && IsChanged(ix, existing, row.value) {
      PickedIff(rows, x => IsChanged(ix, existing, x), row.value);
      ChunksEmptyIff(ix, row.value);
      var first := Entries(ix, row.value)[0];
      LandedCount(ix, existing, rows, first);
      assert first in chunks && first.pk == e.pk;
    }
  }

  /** The whole store after an error-free run, entry by entry. */
  lemma CleanCount(ix: Indexer, store: seq<Entry>, before: seq<Row>, rows: seq<Row>, e: Entry)
    requires Distinct(before) && Distinct(rows) && Splits(ix.split) && Injective(ix.hash)
    requires Indexes(ix, store, before) && e.index == ix.name
    ensures var kept := Kept(ix, before, rows, e.pk);
            multiset(Built(ix, NO_FAULTS, store, rows))[e] == (if kept.Some? && e in Entries(ix, kept.value) then 1 else 0)
  {
    var existing := Existing(ix, store);
    var was, current := RowOf(before, e.pk), RowOf(rows, e.pk);
    BuiltCount(ix, NO_FAULTS, store, rows, e);
    IndexedCount(ix, store, before, e);
    IndexedKeys(ix, store, before, e.pk);
    LandedCount(ix, existing, rows, e);
    ObsoleteIff(ix, existing, rows, e.pk);
    SupersededIff(ix, existing, rows, e);
    if was.Some? {
      ChunksEmptyIff(ix, was.value);
      HashOf(ix, was.value, e);
    }
    if current.Some? {
      ChunksEmptyIff(ix, current.value);
      HashOf(ix, current.value, e);
    }
  }

  lemma HashOf(ix: Indexer, row: Row, e: Entry)
    ensures e in Entries(ix, row) ==> e.hash == Digest(ix, row)
  {
  }

  // ---- incremental against fresh ----------------------------------------------------------------

  /** No key keeps its search text while its chunks change. */
  ghost predicate Aligned(ix: Indexer, before: seq<Row>, rows: seq<Row>) {
    forall o, r | o in before && r in rows && Regrouped(ix, o, r) :: Chunks(ix, o) == Chunks(ix, r)
  }

  predicate Regrouped(ix: Indexer, o: Row, r: Row) {
    o.pk == r.pk && SearchText(ix, o) != "" && SearchText(ix, o) == SearchText(ix, r)
  }

  /** Different chunkings differ in an entry. */
  lemma Telling(ix: Indexer, o: Row, r: Row) returns (e: Entry)
    requires o.pk == r.pk && Chunks(ix, o) != Chunks(ix, r) && Chunks(ix, r) != []
    ensures e in Entries(ix, r) && e !in Entries(ix, o)
  {
    var a, b := Chunks(ix, o), Chunks(ix, r);
    var i := 0;
    if |a| == |b| {
      i :| 0 <= i < |b| && a[i] != b[i];
    }
    e := Entries(ix, r)[i];
    assert forall k :: 0 <= k < |a| ==> Entries(ix, o)[k].chunk == k && Entries(ix, o)[k].count == |a| && Entries(ix, o)[k].text == a[k];
  }

  lemma OwnCount(ix: Indexer, store: seq<Entry>, rows: seq<Row>, e: Entry)
    requires Distinct(rows)
    ensures multiset(Own(ix, store))[e] == if e.index == ix.name then multiset(store)[e] else 0
    ensures e.index != ix.name ==> multiset(ChunkSet(ix, rows))[e] == 0
  {
    FilterCount(store, (x: Entry) => x.index == ix.name, e);
    if e in ChunkSet(ix, rows) {
      ChunkSetOwn(ix, rows, e);
    }
  }

  /** After an error-free run over a store that indexed an older source, the store
      indexes the current source, if and only if no key was regrouped. */
  lemma IncrementalIsFreshIff(ix: Indexer, store: seq<Entry>, before: seq<Row>, rows: seq<Row>)
    requires Distinct(before) && Distinct(rows) && Splits(ix.split) && Injective(ix.hash)
    requires Indexes(ix, store, before)
    ensures Indexes(ix, Built(ix, NO_FAULTS, store, rows), rows) <==> Aligned(ix, before, rows)
  {
    var after := Built(ix, NO_FAULTS, store, rows);
    if Aligned(ix, before, rows) {
      forall e
        ensures multiset(Own(ix, after))[e] == multiset(ChunkSet(ix, rows))[e]
      {
        AlignedCount(ix, store, before, rows, e);
      }
    }
    forall o, r | o in before && r in rows && Regrouped(ix, o, r) && Chunks(ix, o) != Chunks(ix, r)
      ensures !Indexes(ix, after, rows)
    {
      RegroupedBreaks(ix, store, before, rows, o, r);
    }
  }

  lemma RegroupedBreaks(ix: Indexer, store: seq<Entry>, before: seq<Row>, rows: seq<Row>, o: Row, r: Row)
    requires Distinct(before) && Distinct(rows) && Splits(ix.split) && Injective(ix.hash)
    requires Indexes(ix, store, before)
    requires o in before && r in rows && Regrouped(ix, o, r) && Chunks(ix, o) != Chunks(ix, r)
    ensures !Indexes(ix, Built(ix, NO_FAULTS, store, rows), rows)
  {
    var after := Built(ix, NO_FAULTS, store, rows);
    RowOfIs(before, o);
    RowOfIs(rows, r);
    ChunksEmptyIff(ix, r);
    var e := Telling(ix, o, r);
    EntryOfRow(ix, r, e);
    CleanCount(ix, store, before, rows, e);
    OwnCount(ix, after, rows, e);
    ChunkSetCount(ix, rows, e);
    assert multiset(Own(ix, after))[e] != multiset(ChunkSet(ix, rows))[e];
  }

  lemma AlignedCount(ix: Indexer, store: seq<Entry>, before: seq<Row>, rows: seq<Row>, e: Entry)
    requires Distinct(before) && Distinct(rows) && Splits(ix.split) && Injective(ix.hash)
    requires Indexes(ix, store, before) && Aligned(ix, before, rows)
    ensures multiset(Own(ix, Built(ix, NO_FAULTS, store, rows)))[e] == multiset(ChunkSet(ix, rows))[e]
  {
    OwnCount(ix, Built(ix, NO_FAULTS, store, rows), rows, e);
    if e.index == ix.name {
      CleanCount(ix, store, before, rows, e);
      ChunkSetCount(ix, rows, e);
      KeptHas(ix, before, rows, e);
    }
  }

  /** Aligned: the kept row has the chunks of the current row. */
  lemma KeptHas(ix: Indexer, before: seq<Row>, rows: seq<Row>, e: Entry)
    requires Splits(ix.split) && Aligned(ix, before, rows)
    ensures var kept, row := Kept(ix, before, rows, e.pk), RowOf(rows, e.pk);
            (kept.Some? && e in Entries(ix, kept.value)) <==> (row.Some? && e in Entries(ix, row.value))
  {
    var was, row := RowOf(before, e.pk), RowOf(rows, e.pk);
    if row.Some? {
      ChunksEmptyIff(ix, row.value);
      if was.Some? && Regrouped(ix, was.value, row.value) {
        SameEntries(ix, was.value, row.value);
      }
    }
  }

  lemma SameEntries(ix: Indexer, o: Row, r: Row)
    requires o.pk == r.pk && Digest(ix, o) == Digest(ix, r) && Chunks(ix, o) == Chunks(ix, r)
    ensures Entries(ix, o) == Entries(ix, r)
  {
    var a, b, chunks := Entries(ix, o), Entries(ix, r), Chunks(ix, r);
    assert o.pk == r.pk && Digest(ix, o) == Digest(ix, r);
    forall i | 0 <= i < |chunks|
      ensures a[i] == b[i]
    {
      assert a[i] == Entry(ix.name, o.pk, i, |chunks|, chunks[i], Digest(ix, o));
      assert b[i] == Entry(ix.name, r.pk, i, |chunks|, chunks[i], Digest(ix, r));
    }
  }

  // ---- when nothing can be regrouped ----------------------------------------------------------------

  ghost predicate AllShort(ix: Indexer, rows: seq<Row>) {
    forall r, c | r in rows && c in Labels(r, ix.cols) :: Length(r, c) <= ix.size
  }

  /** Sources whose texts all fit one chunk are aligned. */
  lemma ShortTextsAlign(ix: Indexer, before: seq<Row>, rows: seq<Row>)
    requires AllShort(ix, before) && AllShort(ix, rows)
    ensures Aligned(ix, before, rows)
  {
    forall o, r | o in before && r in rows && Regrouped(ix, o, r)
      ensures Chunks(ix, o) == Chunks(ix, r)
    {
      LabelsEmptyIff(ix, o);
      LabelsEmptyIff(ix, r);
      assert Chunks(ix, o) == [SearchText(ix, o)];
      assert Chunks(ix, r) == [SearchText(ix, r)];
    }
  }

  /** With one embedding column the search text determines the chunks. */
  lemma OneColumnAligns(ix: Indexer, before: seq<Row>, rows: seq<Row>)
    requires |ix.cols| == 1
    ensures Aligned(ix, before, rows)
  {
    forall o, r | o in before && r in rows && Regrouped(ix, o, r)
      ensures Chunks(ix, o) == Chunks(ix, r)
    {
      OneLabel(ix, o);
      OneLabel(ix, r);
      var c := ix.cols[0];
      var lead := c + ": ";
      assert Part(o, c)[|lead|..] == o.texts[c];
      assert Part(r, c)[|lead|..] == r.texts[c];
      OneColumnChunks(ix, o, r);
    }
  }

  lemma OneColumnChunks(ix: Indexer, o: Row, r: Row)
    requires |ix.cols| == 1 && Labels(o, ix.cols) == ix.cols && Labels(r, ix.cols) == ix.cols
    requires ix.cols[0] in o.texts && ix.cols[0] in r.texts && o.texts[ix.cols[0]] == r.texts[ix.cols[0]]
    requires SearchText(ix, o) == SearchText(ix, r)
    ensures Chunks(ix, o) == Chunks(ix, r)
  {
    var c := ix.cols[0];
    assert ix.cols == [c] && forall d | d in ix.cols :: d == c;
    if |o.texts[c]| > ix.size {
      assert Length(o, c) > ix.size && Length(r, c) > ix.size && c in ix.cols;
      assert Longest(o, ix.cols) == c && Longest(r, ix.cols) == c;
      assert ix.cols[1..] == [] && Without(ix.cols, c) == [];
      assert Joined(o, []) == "" && Joined(r, []) == "";
      var a, b, segments := Chunks(ix, o), Chunks(ix, r), ix.split(o.texts[c]);
      assert |a| == |segments| && |b| == |segments|;
      forall i | 0 <= i < |segments|
        ensures a[i] == b[i]
      {
        assert a[i] == ChunkText("", c, segments, i);
        assert b[i] == ChunkText("", c, segments, i);
      }
    }
  }

  lemma OneLabel(ix: Indexer, row: Row)
    requires |ix.cols| == 1 && SearchText(ix, row) != ""
    ensures Labels(row, ix.cols) == ix.cols && SearchText(ix, row) == Part(row, ix.cols[0])
    ensures ix.cols[0] in row.texts
  {
    assert ix.cols[..0] == [];
    LabelsEmptyIff(ix, row);
    LabelsFilled(row, ix.cols);
  }

  /** Two columns and one long text are enough to regroup, whatever the splitter and
      the hash: moving the tail of `a` into `b` keeps the search text. */
  lemma RegroupingExists(split: string -> seq<string>, hash: string -> string)
    ensures var ix := Indexer("docs", ["a", "b"], 3, split, hash);
            var o, r := Row("1", map["a" := "x. b: y"]), Row("1", map["a" := "x", "b" := "y"]);
            Distinct([o]) && Distinct([r]) && !Aligned(ix, [o], [r])
  {
    var ix := Indexer("docs", ["a", "b"], 3, split, hash);
    var o, r := Row("1", map["a" := "x. b: y"]), Row("1", map["a" := "x", "b" := "y"]);
    TailMoved(ix, o, r);
  }

  lemma TailMoved(ix: Indexer, o: Row, r: Row)
    requires ix.cols == ["a", "b"] && ix.size == 3
    requires o == Row("1", map["a" := "x. b: y"]) && r == Row("1", map["a" := "x", "b" := "y"])
    ensures Distinct([o]) && Distinct([r]) && !Aligned(ix, [o], [r])
  {
    LongRow(ix, o);
    ShortRow(ix, r);
    Misaligned(ix, o, r);
  }

  lemma Misaligned(ix: Indexer, o: Row, r: Row)
    requires Regrouped(ix, o, r)
    requires Chunks(ix, r) != [] && |Chunks(ix, r)[0]| > 1 && Chunks(ix, r)[0][1] == ':'
    requires Chunks(ix, o) != [] ==> |Chunks(ix, o)[0]| > 1 && Chunks(ix, o)[0][1] == ' '
    ensures Distinct([o]) && Distinct([r]) && !Aligned(ix, [o], [r])
  {
    assert o in [o] && r in [r];
  }

  lemma LongRow(ix: Indexer, o: Row)
    requires ix.cols == ["a", "b"] && ix.size == 3 && o == Row("1", map["a" := "x. b: y"])
    ensures SearchText(ix, o) == "a: x. b: y"
    ensures Chunks(ix, o) != [] ==> |Chunks(ix, o)[0]| > 1 && Chunks(ix, o)[0][1] == ' '
  {
    LongLabels(o);
    LongText(ix, o);
    SplitAlone(ix, o, "a");
    if Chunks(ix, o) != [] {
      assert ("a" + " [") <= Chunks(ix, o)[0];
    }
  }

  lemma LongText(ix: Indexer, o: Row)
    requires ix.cols == ["a", "b"] && ix.size == 3 && o == Row("1", map["a" := "x. b: y"]) && Labels(o, ix.cols) == ["a"]
    ensures SearchText(ix, o) == "a: x. b: y" && Length(o, "a") > ix.size
  {
  }

  lemma LongLabels(o: Row)
    requires o == Row("1", map["a" := "x. b: y"])
    ensures Labels(o, ["a", "b"]) == ["a"]
  {
    assert ["a", "b"][..1] == ["a"] && ["a"][..0] == [];
    assert Labels(o, ["a"]) == ["a"];
  }

  /** A single long column is split, and every chunk names it. */
  lemma SplitAlone(ix: Indexer, row: Row, col: string)
    requires Labels(row, ix.cols) == [col] && Length(row, col) > ix.size
    ensures |Chunks(ix, row)| == |ix.split(row.texts[col])|
    ensures forall i | 0 <= i < |Chunks(ix, row)| :: (col + " [") <= Chunks(ix, row)[i]
  {
    assert Longest(row, [col]) == col && col in [col];
    assert [col][1..] == [] && Without([], col) == [] && Without([col], col) == [];
    assert Joined(row, []) == "";
    var segments := ix.split(row.texts[col]);
    assert |Chunks(ix, row)| == |segments|;
    forall i | 0 <= i < |segments|
      ensures (col + " [") <= Chunks(ix, row)[i]
    {
      assert Chunks(ix, row)[i] == ChunkText("", col, segments, i);
      HeadOfChunk(col, Decimal(i + 1) + "/" + Decimal(|segments|) + "]: " + segments[i]);
    }
  }

  lemma HeadOfChunk(col: string, rest: string)
    ensures "" + (col + " [" + rest) == (col + " [") + rest
  {
  }

  lemma ShortRow(ix: Indexer, r: Row)
    requires ix.cols == ["a", "b"] && ix.size == 3 && r == Row("1", map["a" := "x", "b" := "y"])
    ensures SearchText(ix, r) == "a: x. b: y" && Chunks(ix, r) == ["a: x. b: y"]
  {
    ShortLabels(r);
    ShortText(ix, r);
  }

  lemma ShortLabels(r: Row)
    requires r == Row("1", map["a" := "x", "b" := "y"])
    ensures Labels(r, ["a", "b"]) == ["a", "b"]
  {
    assert ["a", "b"][..1] == ["a"] && ["a"][..0] == [];
    assert Labels(r, ["a"]) == ["a"];
  }

  lemma ShortText(ix: Indexer, r: Row)
    requires ix.cols == ["a", "b"] && r == Row("1", map["a" := "x", "b" := "y"]) && Labels(r, ix.cols) == ["a", "b"]
    ensures SearchText(ix, r) == "a: x. b: y"
  {
    assert ["a", "b"][1..] == ["b"] && ["b"][1..] == [];
    assert Joined(r, ["b"]) == "b: y";
  }

  // ---- the next run ----------------------------------------------------------------------------------

  /** The classification finds nothing to insert and nothing to delete. */
  ghost predicate Quiet(ix: Indexer, store: seq<Entry>, rows: seq<Row>) {
    var existing := Existing(ix, store);
    NewRows(ix, existing, rows) == [] && ChangedRows(ix, existing, rows) == [] && Obsolete(ix, existing, rows) == {}
  }

  lemma {:induction false} PickedNone(rows: seq<Row>, wanted: Row -> bool)
    requires forall r | r in rows :: !wanted(r)
    ensures Picked(rows, wanted) == []
  {
    if rows != [] {
      PickedNone(rows[..|rows| - 1], wanted);
    }
  }

  /** After an error-free run the next run reports no change: also where a regrouped
      key was left with its old chunks, which therefore stay. */
  lemma NextRunIsQuiet(ix: Indexer, store: seq<Entry>, before: seq<Row>, rows: seq<Row>)
    requires Distinct(before) && Distinct(rows) && Splits(ix.split) && Injective(ix.hash)
    requires Indexes(ix, store, before)
    ensures Quiet(ix, Built(ix, NO_FAULTS, store, rows), rows)
  {
    var existing := Existing(ix, Built(ix, NO_FAULTS, store, rows));
    forall pk
      ensures pk in existing <==> Embeddable(ix, RowOf(rows, pk))
      ensures pk in existing ==> existing[pk] == Digest(ix, RowOf(rows, pk).value)
    {
      KeysAfter(ix, store, before, rows, pk);
    }
    forall r | r in rows
      ensures !IsNew(ix, existing, r) && !IsChanged(ix, existing, r)
    {
      RowOfIs(rows, r);
    }
    PickedNone(rows, r => IsNew(ix, existing, r));
    PickedNone(rows, r => IsChanged(ix, existing, r));
    forall pk
      ensures pk !in Obsolete(ix, existing, rows)
    {
      ObsoleteIff(ix, existing, rows, pk);
    }
  }

  lemma KeysAfter(ix: Indexer, store: seq<Entry>, before: seq<Row>, rows: seq<Row>, pk: string)
    requires Distinct(before) && Distinct(rows) && Splits(ix.split) && Injective(ix.hash)
    requires Indexes(ix, store, before)
    ensures var existing := Existing(ix, Built(ix, NO_FAULTS, store, rows));
            && (pk in existing <==> Embeddable(ix, RowOf(rows, pk)))
            && (pk in existing ==> existing[pk] == Digest(ix, RowOf(rows, pk).value))
  {
    var after := Built(ix, NO_FAULTS, store, rows);
    var kept := Kept(ix, before, rows, pk);
    ExistingIff(ix, after, pk);
    forall e | e in after && Owns(ix, e, pk)
      ensures kept.Some? && e.hash == Digest(ix, kept.value)
    {
      CleanCount(ix, store, before, rows, e);
      EntryOfRow(ix, kept.value, e);
    }
    if kept.Some? {
      ChunksEmptyIff(ix, kept.value);
      var e := Entries(ix, kept.value)[0];
      CleanCount(ix, store, before, rows, e);
      assert e in after && Owns(ix, e, pk);
    }
  }

  /** A quiet run leaves the store as it is. */
  lemma QuietRunChangesNothing(ix: Indexer, f: Faults, store: seq<Entry>, rows: seq<Row>)
    requires Quiet(ix, store, rows)
    ensures Built(ix, f, store, rows) == store
  {
    var existing := Existing(ix, store);
    var obsolete := Obsolete(ix, existing, rows);
    var changed := ChangedRows(ix, existing, rows);
    var landed := Added(ix, f, existing, rows);
    assert landed == [];
    FilterAll(store, (e: Entry) => !(e.index == ix.name && e.pk in obsolete && !f.remove(e.pk)));
    assert Swept(ix, f, store, obsolete) + landed == store;
    FilterAll(store, (e: Entry) => !Superseded(ix, f, changed, KeysOf(landed), e));
  }

  // ---- the full rebuild ----------------------------------------------------------------------------------

  /** Rows without entries may be left out. */
  lemma {:induction false} FlatPicked(rows: seq<Row>, wanted: Row -> bool, f: Row -> seq<Entry>)
    requires forall r | r in rows :: wanted(r) || f(r) == []
    ensures Flat(Picked(rows, wanted), f) == Flat(rows, f)
  {
    if rows != [] {
      var init, r := rows[..|rows| - 1], rows[|rows| - 1];
      FlatPicked(init, wanted, f);
      FlatSnoc(Picked(init, wanted), r, f);
    }
  }

  lemma FlatSnoc(rows: seq<Row>, r: Row, f: Row -> seq<Entry>)
    ensures Flat(rows + [r], f) == Flat(rows, f) + f(r)
  {
    assert (rows + [r])[..|rows|] == rows;
  }

  lemma EmbeddableChunks(ix: Indexer, rows: seq<Row>)
    ensures ChunkSet(ix, NewRows(ix, map[], rows)) == ChunkSet(ix, rows)
  {
    forall r | r in rows
      ensures IsNew(ix, map[], r) || Entries(ix, r) == []
    {
      LabelsEmptyIff(ix, r);
    }
    FlatPicked(rows, (r: Row) => IsNew(ix, map[], r), (r: Row) => Entries(ix, r));
  }

  lemma NothingEmbeddableIff(ix: Indexer, rows: seq<Row>)
    ensures NewRows(ix, map[], rows) == [] <==> forall r | r in rows :: SearchText(ix, r) == ""
  {
    if r :| r in rows && SearchText(ix, r) != "" {
      PickedIff(rows, x => IsNew(ix, map[], x), r);
    } else {
      PickedNone(rows, x => IsNew(ix, map[], x));
    }
  }

  /** An error-free full rebuild leaves exactly the chunks of the source if and only
      if the source has something to embed or the index was empty. */
  lemma RebuildIsFreshIff(ix: Indexer, store: seq<Entry>, rows: seq<Row>)
    requires Distinct(rows)
    ensures Indexes(ix, Rebuilt(ix, NO_FAULTS, store, rows), rows)
            <==> (exists r | r in rows :: SearchText(ix, r) != "") || Own(ix, store) == []
  {
    var wanted := NewRows(ix, map[], rows);
    EmbeddableChunks(ix, rows);
    NothingEmbeddableIff(ix, rows);
    LandedAll(ChunkSet(ix, wanted));
    if wanted != [] {
      var foreign := Filter(store, (e: Entry) => e.index != ix.name);
      FilterConcat(foreign, ChunkSet(ix, rows), (e: Entry) => e.index == ix.name);
      forall e | e in foreign
        ensures e.index != ix.name
      {
        FilterCount(store, (x: Entry) => x.index != ix.name, e);
      }
      FilterNone(foreign, (e: Entry) => e.index == ix.name);
      forall e | e in ChunkSet(ix, rows)
        ensures e.index == ix.name
      {
        ChunkSetOwn(ix, rows, e);
      }
      FilterAll(ChunkSet(ix, rows), (e: Entry) => e.index == ix.name);
    } else {
      assert ChunkSet(ix, rows) == [];
      var own := Own(ix, store);
      assert own != [] ==> own[0] in multiset(own);
    }
  }

  /** The incremental run and the full rebuild agree. */
  lemma IncrementalEqualsRebuild(ix: Indexer, store: seq<Entry>, before: seq<Row>, rows: seq<Row>)
    requires Distinct(before) && Distinct(rows) && Splits(ix.split) && Injective(ix.hash)
    requires Indexes(ix, store, before) && Aligned(ix, before, rows)
    requires exists r | r in rows :: SearchText(ix, r) != ""
    ensures multiset(Own(ix, Built(ix, NO_FAULTS, store, rows))) == multiset(Own(ix, Rebuilt(ix, NO_FAULTS, store, rows)))
  {
    IncrementalIsFreshIff(ix, store, before, rows);
    RebuildIsFreshIff(ix, store, rows);
  }

  // ---- a history of runs ---------------------------------------------------------------------------------------

  /** The store after an error-free incremental run over each source in turn. */
  function AfterRuns(ix: Indexer, store: seq<Entry>, sources: seq<seq<Row>>): seq<Entry> {
    if sources == [] then store
    else Built(ix, NO_FAULTS, AfterRuns(ix, store, sources[..|sources| - 1]), sources[|sources| - 1])
  }

  ghost predicate History(ix: Indexer, sources: seq<seq<Row>>) {
    && (forall i | 0 <= i < |sources| :: Distinct(sources[i]))
    && (forall i | 0 < i < |sources| :: Aligned(ix, sources[i - 1], sources[i]))
  }

  lemma HistoryPrefix(ix: Indexer, sources: seq<seq<Row>>)
    requires History(ix, sources) && sources != []
    ensures History(ix, sources[..|sources| - 1])
  {
    var init := sources[..|sources| - 1];
    assert forall i | 0 <= i < |init| :: init[i] == sources[i];
  }

  /** From an index that never held anything, any number of error-free runs over
      aligned sources leaves exactly the chunks of the last source. */
  lemma {:induction false} HistoryIsFresh(ix: Indexer, store: seq<Entry>, sources: seq<seq<Row>>)
    requires Own(ix, store) == [] && Splits(ix.split) && Injective(ix.hash) && History(ix, sources)
    ensures Indexes(ix, AfterRuns(ix, store, sources), if sources == [] then [] else sources[|sources| - 1])
  {
    if sources != [] {
      var n := |sources| - 1;
      var earlier := sources[..n];
      HistoryPrefix(ix, sources);
      HistoryIsFresh(ix, store, earlier);
      var before := if n == 0 then [] else sources[n - 1];
      assert Distinct(before) && Aligned(ix, before, sources[n]);
      IncrementalIsFreshIff(ix, AfterRuns(ix, store, earlier), before, sources[n]);
    }
  }
}
