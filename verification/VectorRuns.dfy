/** What a run of the index builder leaves behind: exactly the chunks of the source
    after an error-free run, and no lost row whatever fails. */
module VectorRuns {
  import opened Tables
  import opened Vectors

  // ---- assumptions about the source, the hash and the splitter -----------------------

  /** Normalised primary keys are unique. */
  ghost predicate Distinct(rows: seq<Row>) {
    forall i, j :: 0 <= i < j < |rows| ==> rows[i].pk != rows[j].pk
  }

  ghost predicate Injective(hash: string -> string) {
    forall a, b :: hash(a) == hash(b) ==> a == b
  }

  /** Non-empty text splits into at least one segment. */
  ghost predicate Splits(split: string -> seq<string>) {
    forall t :: t != "" ==> split(t) != []
  }

  function Own(ix: Indexer, store: seq<Entry>): seq<Entry> {
    Filter(store, (e: Entry) => e.index == ix.name)
  }

  /** The store holds exactly the chunks of `rows` under this index's name. */
  ghost predicate Indexes(ix: Indexer, store: seq<Entry>, rows: seq<Row>) {
    multiset(Own(ix, store)) == multiset(ChunkSet(ix, rows))
  }

  // ---- rows and entries by key --------------------------------------------------------

  function RowOf(rows: seq<Row>, pk: string): (r: Option<Row>)
    ensures r.Some? ==> r.value in rows && r.value.pk == pk
    ensures r.None? ==> forall row | row in rows :: row.pk != pk
  {
    if rows == [] then None
    else if rows[|rows| - 1].pk == pk then Some(rows[|rows| - 1])
    else RowOf(rows[..|rows| - 1], pk)
  }

  lemma RowOfIs(rows: seq<Row>, row: Row)
    requires Distinct(rows) && row in rows
    ensures RowOf(rows, row.pk) == Some(row)
  {
    if rows[|rows| - 1].pk == row.pk {
      assert row == rows[|rows| - 1];
    } else {
      RowOfIs(rows[..|rows| - 1], row);
    }
  }

  lemma LabelsEmptyIff(ix: Indexer, row: Row)
    ensures SearchText(ix, row) == "" <==> Labels(row, ix.cols) == []
  {
  }

  lemma LabelsFilled(row: Row, cols: seq<string>)
    ensures forall c | c in Labels(row, cols) :: c in row.texts && row.texts[c] != ""
  {
  }

  lemma ChunksEmptyIff(ix: Indexer, row: Row)
    requires Splits(ix.split)
    ensures Entries(ix, row) == [] <==> SearchText(ix, row) == ""
  {
    LabelsEmptyIff(ix, row);
    LabelsFilled(row, ix.cols);
  }

  lemma {:induction false} FilterCount(s: seq<Entry>, keep: Entry -> bool, e: Entry)
    ensures multiset(Filter(s, keep))[e] == if keep(e) then multiset(s)[e] else 0
  {
    if s != [] {
      FilterCount(s[1..], keep, e);
      assert s == [s[0]] + s[1..];
    }
  }

  lemma {:induction false} Once(s: seq<Entry>, e: Entry)
    requires forall i, j :: 0 <= i < j < |s| ==> s[i] != s[j]
    ensures multiset(s)[e] == if e in s then 1 else 0
  {
    if s != [] {
      Once(s[1..], e);
      assert s == [s[0]] + s[1..];
    }
  }

  lemma EntriesOnce(ix: Indexer, row: Row, e: Entry)
    ensures multiset(Entries(ix, row))[e] == if e in Entries(ix, row) then 1 else 0
  {
    var s := Entries(ix, row);
    assert forall i :: 0 <= i < |s| ==> s[i].chunk == i;
    Once(s, e);
  }

  /** The row of this key, when it is wanted, and has this chunk. */
  predicate Has(ix: Indexer, row: Option<Row>, wanted: Row -> bool, e: Entry) {
    row.Some? && wanted(row.value) && e in Entries(ix, row.value)
  }

  lemma {:induction false} PickedCount(ix: Indexer, rows: seq<Row>, wanted: Row -> bool, e: Entry)
    requires Distinct(rows)
    ensures multiset(ChunkSet(ix, Picked(rows, wanted)))[e] == if Has(ix, RowOf(rows, e.pk), wanted, e) then 1 else 0
  {
    if rows != [] {
      var init, r := rows[..|rows| - 1], rows[|rows| - 1];
      PickedCount(ix, init, wanted, e);
      EntriesOnce(ix, r, e);
      PickedMore(ix, Picked(init, wanted), r, e);
    }
  }

  lemma PickedMore(ix: Indexer, picked: seq<Row>, r: Row, e: Entry)
    ensures multiset(ChunkSet(ix, picked + [r]))[e] == multiset(ChunkSet(ix, picked))[e] + multiset(Entries(ix, r))[e]
  {
    assert (picked + [r])[..|picked|] == picked;
    assert ChunkSet(ix, picked + [r]) == ChunkSet(ix, picked) + Entries(ix, r);
  }

  lemma {:induction false} PickedAll(rows: seq<Row>, wanted: Row -> bool)
    requires forall r | r in rows :: wanted(r)
    ensures Picked(rows, wanted) == rows
  {
    if rows != [] {
      PickedAll(rows[..|rows| - 1], wanted);
    }
  }

  lemma {:induction false} ChunkSetConcat(ix: Indexer, a: seq<Row>, b: seq<Row>)
    ensures ChunkSet(ix, a + b) == ChunkSet(ix, a) + ChunkSet(ix, b)
  {
    FlatConcat(a, b, (r: Row) => Entries(ix, r));
  }

  lemma {:induction false} FlatConcat(a: seq<Row>, b: seq<Row>, f: Row -> seq<Entry>)
    ensures Flat(a + b, f) == Flat(a, f) + Flat(b, f)
  {
    if b == [] {
      assert a + b == a;
    } else {
      var n := |b| - 1;
      FlatConcat(a, b[..n], f);
      assert (a + b)[..|a + b| - 1] == a + b[..n];
    }
  }

  /** Each chunk of the source, and nothing else, occurs once in the chunk set. */
  lemma ChunkSetCount(ix: Indexer, rows: seq<Row>, e: Entry)
    requires Distinct(rows)
    ensures multiset(ChunkSet(ix, rows))[e] == if RowOf(rows, e.pk).Some? && e in Entries(ix, RowOf(rows, e.pk).value) then 1 else 0
  {
    PickedAll(rows, r => true);
    PickedCount(ix, rows, r => true, e);
  }

  // ---- what the run reads --------------------------------------------------------------

  predicate Owns(ix: Indexer, e: Entry, pk: string) {
    e.index == ix.name && e.pk == pk
  }

  lemma {:induction false} ExistingIff(ix: Indexer, store: seq<Entry>, pk: string)
    ensures pk in Existing(ix, store) <==> exists e | e in store :: Owns(ix, e, pk)
    ensures pk in Existing(ix, store) ==> exists e | e in store :: Owns(ix, e, pk) && e.hash == Existing(ix, store)[pk]
  {
    if store != [] {
      var init, e := store[..|store| - 1], store[|store| - 1];
      ExistingIff(ix, init, pk);
      assert forall x :: x in store <==> x in init || x == e;
      assert Owns(ix, e, pk) ==> e in store && Existing(ix, store)[pk] == e.hash;
    }
  }

  lemma {:induction false} LandedAll(chunks: seq<Entry>)
    ensures Landed(NO_FAULTS, chunks) == chunks
  {
    if chunks != [] {
      LandedAll(chunks[..|chunks| - 1]);
    }
  }

  lemma {:induction false} LandedIn(f: Faults, chunks: seq<Entry>)
    ensures forall e | e in Landed(f, chunks) :: e in chunks
  {
    if chunks != [] {
      LandedIn(f, chunks[..|chunks| - 1]);
    }
  }

  lemma {:induction false} ChunkSetOwn(ix: Indexer, rows: seq<Row>, e: Entry)
    requires e in ChunkSet(ix, rows)
    ensures e.index == ix.name && exists r | r in rows :: e in Entries(ix, r)
  {
    var init := rows[..|rows| - 1];
    if e in ChunkSet(ix, init) {
      ChunkSetOwn(ix, init, e);
    } else {
      assert e in Entries(ix, rows[|rows| - 1]);
    }
  }

  lemma EntryOfRow(ix: Indexer, row: Row, e: Entry)
    requires e in Entries(ix, row)
    ensures Owns(ix, e, row.pk) && e.hash == Digest(ix, row)
  {
  }

  lemma {:induction false} PickedIff(rows: seq<Row>, wanted: Row -> bool, r: Row)
    ensures r in Picked(rows, wanted) <==> r in rows && wanted(r)
  {
    if rows != [] {
      PickedIff(rows[..|rows| - 1], wanted, r);
    }
  }

  /** A chunk that lands belongs to a row classified as new or as changed. */
  lemma LandedFrom(ix: Indexer, f: Faults, existing: map<string, string>, rows: seq<Row>, e: Entry)
    requires e in Added(ix, f, existing, rows)
    ensures e.index == ix.name
    ensures exists r | r in rows :: e in Entries(ix, r) && (IsNew(ix, existing, r) || IsChanged(ix, existing, r))
  {
    var wanted := NewRows(ix, existing, rows) + ChangedRows(ix, existing, rows);
    LandedIn(f, ChunkSet(ix, wanted));
    ChunkSetOwn(ix, wanted, e);
    var r :| r in wanted && e in Entries(ix, r);
    PickedIff(rows, x => IsNew(ix, existing, x), r);
    PickedIff(rows, x => IsChanged(ix, existing, x), r);
  }

  // ---- one entry through one run --------------------------------------------------------

  function SweptCount(ix: Indexer, f: Faults, store: seq<Entry>, obsolete: set<string>, e: Entry): nat {
    if e.index == ix.name && e.pk in obsolete && !f.remove(e.pk) then 0 else multiset(store)[e]
  }

  /** What the run does to the copies of one entry, whatever fails. */
  lemma BuiltCount(ix: Indexer, f: Faults, store: seq<Entry>, rows: seq<Row>, e: Entry)
    ensures var existing := Existing(ix, store);
            var changed := ChangedRows(ix, existing, rows);
            var landed := Added(ix, f, existing, rows);
            multiset(Built(ix, f, store, rows))[e] ==
              (if Superseded(ix, f, changed, KeysOf(landed), e) then 0
               else multiset(landed)[e] + SweptCount(ix, f, store, Obsolete(ix, existing, rows), e))
  {
    var existing := Existing(ix, store);
    var obsolete := Obsolete(ix, existing, rows);
    var changed := ChangedRows(ix, existing, rows);
    var landed := Added(ix, f, existing, rows);
    FilterCount(store, (x: Entry) => !(x.index == ix.name && x.pk in obsolete && !f.remove(x.pk)), e);
    FilterCount(Swept(ix, f, store, obsolete) + landed, (x: Entry) => !Superseded(ix, f, changed, KeysOf(landed), x), e);
  }

  // ---- no loss under failure ---------------------------------------------------------------

  ghost predicate HasVector(ix: Indexer, store: seq<Entry>, pk: string) {
    exists e | e in store :: Owns(ix, e, pk)
  }

  /** Some row under this key has nothing to embed. */
  ghost predicate BlankUnder(ix: Indexer, rows: seq<Row>, pk: string) {
    exists r | r in rows :: r.pk == pk && SearchText(ix, r) == ""
  }

  ghost predicate ChangedUnder(ix: Indexer, existing: map<string, string>, rows: seq<Row>, pk: string) {
    exists r | r in rows :: r.pk == pk && IsChanged(ix, existing, r)
  }

  /** Two changed rows under this key have different digests. */
  ghost predicate TornUnder(ix: Indexer, existing: map<string, string>, rows: seq<Row>, pk: string) {
    exists a, b | a in rows && b in rows ::
      a.pk == pk && b.pk == pk && IsChanged(ix, existing, a) && IsChanged(ix, existing, b) && Digest(ix, a) != Digest(ix, b)
  }

  lemma SupersedesIff(ix: Indexer, f: Faults, existing: map<string, string>, rows: seq<Row>, landed: set<string>, e: Entry)
    ensures Superseded(ix, f, ChangedRows(ix, existing, rows), landed, e) <==>
              e.index == ix.name && e.pk in landed && !f.replace(e.pk) &&
              exists r | r in rows :: r.pk == e.pk && IsChanged(ix, existing, r) && e.hash != Digest(ix, r)
  {
    var changed := ChangedRows(ix, existing, rows);
    forall r
      ensures r in changed <==> r in rows && IsChanged(ix, existing, r)
    {
      PickedIff(rows, x => IsChanged(ix, existing, x), r);
    }
  }

  /** A vector that lands for a key that had one stays, unless the key is torn. */
  lemma LandedStays(ix: Indexer, f: Faults, store: seq<Entry>, rows: seq<Row>, e: Entry)
    requires e in Added(ix, f, Existing(ix, store), rows) && HasVector(ix, store, e.pk)
    requires !TornUnder(ix, Existing(ix, store), rows, e.pk)
    ensures e in Built(ix, f, store, rows) && e.index == ix.name
  {
    var existing := Existing(ix, store);
    ExistingIff(ix, store, e.pk);
    LandedFrom(ix, f, existing, rows, e);
    var r :| r in rows && e in Entries(ix, r) && (IsNew(ix, existing, r) || IsChanged(ix, existing, r));
    EntryOfRow(ix, r, e);
    SupersedesIff(ix, f, existing, rows, KeysOf(Added(ix, f, existing, rows)), e);
    BuiltCount(ix, f, store, rows, e);
  }

  /** Exactly when a vector of a key none of whose new chunks landed survives. */
  lemma KeptWholeIff(ix: Indexer, f: Faults, store: seq<Entry>, rows: seq<Row>, e: Entry)
    requires e in store && e.index == ix.name
    requires e.pk !in KeysOf(Added(ix, f, Existing(ix, store), rows))
    ensures multiset(Built(ix, f, store, rows))[e] == multiset(store)[e]
            <==> f.remove(e.pk) || (e.pk in Keys(rows) && !BlankUnder(ix, rows, e.pk))
  {
    var existing := Existing(ix, store);
    BuiltCount(ix, f, store, rows, e);
    assert e !in Added(ix, f, existing, rows);
    ExistingIff(ix, store, e.pk);
    assert Owns(ix, e, e.pk);
    ObsoleteWhen(ix, existing, rows, e.pk);
  }

  lemma ObsoleteWhen(ix: Indexer, existing: map<string, string>, rows: seq<Row>, pk: string)
    ensures pk in Obsolete(ix, existing, rows) <==> pk in existing && (pk !in Keys(rows) || BlankUnder(ix, rows, pk))
  {
  }

  /** Whatever fails, a key that had a vector keeps one, as long as its source has a
      row with text under it, no blank one, and no two changed ones that differ. */
  lemma NoKeyLost(ix: Indexer, f: Faults, store: seq<Entry>, rows: seq<Row>, pk: string)
    requires HasVector(ix, store, pk) && pk in Keys(rows)
    requires !BlankUnder(ix, rows, pk) && !TornUnder(ix, Existing(ix, store), rows, pk)
    ensures HasVector(ix, Built(ix, f, store, rows), pk)
  {
    var existing := Existing(ix, store);
    var landed := Added(ix, f, existing, rows);
    if e :| e in landed && e.pk == pk {
      LandedStays(ix, f, store, rows, e);
      assert Owns(ix, e, pk);
    } else {
      var e :| e in store && Owns(ix, e, pk);
      KeptWholeIff(ix, f, store, rows, e);
      assert multiset(Built(ix, f, store, rows))[e] > 0;
    }
  }

  /** Distinct keys meet that condition: no row that had a vector and still has text
      to embed is lost, whatever fails. */
  lemma NoRowLost(ix: Indexer, f: Faults, store: seq<Entry>, rows: seq<Row>, row: Row)
    requires Distinct(rows) && row in rows && SearchText(ix, row) != ""
    requires HasVector(ix, store, row.pk)
    ensures HasVector(ix, Built(ix, f, store, rows), row.pk)
  {
    forall r | r in rows && r.pk == row.pk
      ensures r == row
    {
      RowOfIs(rows, r);
      RowOfIs(rows, row);
    }
    NoKeyLost(ix, f, store, rows, row.pk);
  }

  /** A foreign index's vectors are not touched: same entries, same order. */
  lemma ForeignKept(ix: Indexer, f: Faults, store: seq<Entry>, rows: seq<Row>)
    ensures var other := (e: Entry) => e.index != ix.name;
            Filter(Built(ix, f, store, rows), other) == Filter(store, other)
  {
    var existing := Existing(ix, store);
    var obsolete := Obsolete(ix, existing, rows);
    var changed := ChangedRows(ix, existing, rows);
    var landed := Added(ix, f, existing, rows);
    var other := (e: Entry) => e.index != ix.name;
    forall e | e in landed
      ensures !other(e)
    {
      LandedFrom(ix, f, existing, rows, e);
    }
    FilterTwice(Swept(ix, f, store, obsolete) + landed, (x: Entry) => !Superseded(ix, f, changed, KeysOf(landed), x), other);
    FilterConcat(Swept(ix, f, store, obsolete), landed, other);
    FilterNone(landed, other);
    FilterTwice(store, (x: Entry) => !(x.index == ix.name && x.pk in obsolete && !f.remove(x.pk)), other);
  }

  lemma {:induction false} FilterTwice(s: seq<Entry>, first: Entry -> bool, second: Entry -> bool)
    requires forall e | e in s :: second(e) ==> first(e)
    ensures Filter(Filter(s, first), second) == Filter(s, second)
  {
    if s != [] {
      FilterTwice(s[1..], first, second);
      var rest := Filter(s[1..], first);
      assert Filter(s, first) == if first(s[0]) then [s[0]] + rest else rest;
      assert first(s[0]) ==> ([s[0]] + rest)[1..] == rest;
    }
  }

  lemma {:induction false} FilterConcat(a: seq<Entry>, b: seq<Entry>, keep: Entry -> bool)
    ensures Filter(a + b, keep) == Filter(a, keep) + Filter(b, keep)
  {
    if a == [] {
      assert a + b == b;
    } else {
      FilterConcat(a[1..], b, keep);
      assert (a + b)[0] == a[0] && (a + b)[1..] == a[1..] + b;
      var head, rest, other := if keep(a[0]) then [a[0]] else [], Filter(a[1..], keep), Filter(b, keep);
      assert head + (rest + other) == head + rest + other;
    }
  }

  lemma {:induction false} FilterNone(s: seq<Entry>, keep: Entry -> bool)
    requires forall e | e in s :: !keep(e)
    ensures Filter(s, keep) == []
  {
    if s != [] {
      FilterNone(s[1..], keep);
    }
  }

  lemma {:induction false} FilterAll(s: seq<Entry>, keep: Entry -> bool)
    requires forall e | e in s :: keep(e)
    ensures Filter(s, keep) == s
  {
    if s != [] {
      FilterAll(s[1..], keep);
      assert s == [s[0]] + s[1..];
    }
  }
}
