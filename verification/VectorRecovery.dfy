/** Recovery: exactly when an error-free run, over whatever an earlier run left,
    leaves the chunk set of its source. */
module VectorRecovery {
  import opened Tables
  import opened Vectors
  import opened VectorRuns
  import opened VectorTruth

  // ---- one error-free run over any store ---------------------------------------------------

  /** A row whose key is indexed comes out right: with a current digest it must have
      exactly its chunks already; with another one, no entry of the current digest. */
  ghost predicate Repairable(ix: Indexer, store: seq<Entry>, r: Row)
    requires r.pk in Existing(ix, store)
  {
    if Existing(ix, store)[r.pk] == Digest(ix, r)
    then forall e | Owns(ix, e, r.pk) :: multiset(store)[e] == Copies(ix, r, e)
    else forall e | e in store && Owns(ix, e, r.pk) :: e.hash != Digest(ix, r)
  }

  function Copies(ix: Indexer, r: Row, e: Entry): nat {
    if e in Entries(ix, r) then 1 else 0
  }

  ghost predicate Recoverable(ix: Indexer, store: seq<Entry>, rows: seq<Row>) {
    forall r | r in rows && SearchText(ix, r) != "" && r.pk in Existing(ix, store) :: Repairable(ix, store, r)
  }

  /** `Repairable`, seen from one entry of the key. */
  ghost predicate RightAt(ix: Indexer, store: seq<Entry>, rows: seq<Row>, e: Entry) {
    var row, existing := RowOf(rows, e.pk), Existing(ix, store);
    Embeddable(ix, row) && e.pk in existing ==>
      if existing[e.pk] == Digest(ix, row.value) then multiset(store)[e] == Copies(ix, row.value, e)
      else e.hash == Digest(ix, row.value) ==> e !in store
  }

  lemma AnyStoreCount(ix: Indexer, store: seq<Entry>, rows: seq<Row>, e: Entry)
    requires Distinct(rows) && Splits(ix.split) && e.index == ix.name
    ensures multiset(Built(ix, NO_FAULTS, store, rows))[e] == multiset(ChunkSet(ix, rows))[e] <==> RightAt(ix, store, rows, e)
  {
    var existing, row := Existing(ix, store), RowOf(rows, e.pk);
    BuiltCount(ix, NO_FAULTS, store, rows, e);
    LandedCount(ix, existing, rows, e);
    ObsoleteIff(ix, existing, rows, e.pk);
    SupersededIff(ix, existing, rows, e);
    ChunkSetCount(ix, rows, e);
    ExistingIff(ix, store, e.pk);
    assert e in store ==> Owns(ix, e, e.pk);
    if row.Some? {
      ChunksEmptyIff(ix, row.value);
      HashOf(ix, row.value, e);
    }
  }

  lemma RecoverableIff(ix: Indexer, store: seq<Entry>, rows: seq<Row>)
    requires Distinct(rows)
    ensures Recoverable(ix, store, rows) <==> forall e: Entry | e.index == ix.name :: RightAt(ix, store, rows, e)
  {
    if Recoverable(ix, store, rows) {
      forall e: Entry | e.index == ix.name
        ensures RightAt(ix, store, rows, e)
      {
        var row := RowOf(rows, e.pk);
        if Embeddable(ix, row) && e.pk in Existing(ix, store) {
          assert Repairable(ix, store, row.value) && Owns(ix, e, row.value.pk);
        }
      }
    }
    if forall e: Entry | e.index == ix.name :: RightAt(ix, store, rows, e) {
      forall r | r in rows && SearchText(ix, r) != "" && r.pk in Existing(ix, store)
        ensures Repairable(ix, store, r)
      {
        RowOfIs(rows, r);
        forall e | Owns(ix, e, r.pk)
          ensures RightAt(ix, store, rows, e)
        {
        }
      }
    }
  }

  /** Over any store at all: an error-free run leaves exactly the chunks of the source
      if and only if every indexed row is repairable. */
  lemma CleanRunIsFreshIff(ix: Indexer, store: seq<Entry>, rows: seq<Row>)
    requires Distinct(rows) && Splits(ix.split)
    ensures Indexes(ix, Built(ix, NO_FAULTS, store, rows), rows) <==> Recoverable(ix, store, rows)
  {
    var after := Built(ix, NO_FAULTS, store, rows);
    RecoverableIff(ix, store, rows);
    forall e: Entry
      ensures multiset(Own(ix, after))[e] == multiset(ChunkSet(ix, rows))[e] <==>
                (e.index == ix.name ==> RightAt(ix, store, rows, e))
    {
      OwnCount(ix, after, rows, e);
      if e.index == ix.name {
        AnyStoreCount(ix, store, rows, e);
      }
    }
  }

  // ---- what a faulty run leaves for one key ----------------------------------------------------

  ghost predicate AllLanded(ix: Indexer, landed: seq<Entry>, r: Row) {
    forall e | e in Entries(ix, r) :: e in landed
  }

  ghost predicate NoneLanded(ix: Indexer, landed: seq<Entry>, r: Row) {
    forall e | e in Entries(ix, r) :: e !in landed
  }

  lemma {:induction false} LandedFewer(f: Faults, chunks: seq<Entry>, e: Entry)
    ensures multiset(Landed(f, chunks))[e] <= multiset(chunks)[e]
  {
    if chunks != [] {
      var n := |chunks| - 1;
      LandedFewer(f, chunks[..n], e);
      assert chunks == chunks[..n] + [chunks[n]];
    }
  }

  /** Whatever fails, each chunk lands at most once, and only for a row that needs it. */
  lemma AddedCount(ix: Indexer, f: Faults, existing: map<string, string>, rows: seq<Row>, r: Row, e: Entry)
    requires Distinct(rows) && r in rows && e.pk == r.pk
    ensures var landed := Added(ix, f, existing, rows);
            multiset(landed)[e] == (if e in landed then 1 else 0) &&
            (e in landed ==> e in Entries(ix, r) && e.hash == Digest(ix, r) && (IsNew(ix, existing, r) || IsChanged(ix, existing, r)))
  {
    var landed := Added(ix, f, existing, rows);
    var chunks := ChunkSet(ix, NewRows(ix, existing, rows) + ChangedRows(ix, existing, rows));
    LandedCount(ix, existing, rows, e);
    LandedFewer(f, chunks, e);
    RowOfIs(rows, r);
    HashOf(ix, r, e);
  }

  lemma KeyLandedIff(ix: Indexer, f: Faults, existing: map<string, string>, rows: seq<Row>, r: Row)
    requires Distinct(rows) && r in rows
    ensures var landed := Added(ix, f, existing, rows);
            r.pk in KeysOf(landed) <==> !NoneLanded(ix, landed, r)
  {
    var landed := Added(ix, f, existing, rows);
    forall e | e in landed && e.pk == r.pk
      ensures e in Entries(ix, r)
    {
      AddedCount(ix, f, existing, rows, r, e);
    }
    forall e | e in Entries(ix, r)
      ensures e.pk == r.pk
    {
      EntryOfRow(ix, r, e);
    }
  }

  /** The copies of one entry of an embeddable row's key after the faulty run. */
  lemma FaultyCount(ix: Indexer, f: Faults, store: seq<Entry>, rows: seq<Row>, r: Row, e: Entry)
    requires Distinct(rows) && r in rows && SearchText(ix, r) != "" && Owns(ix, e, r.pk)
    ensures var existing := Existing(ix, store);
            var landed := Added(ix, f, existing, rows);
            multiset(Built(ix, f, store, rows))[e] ==
              (if IsChanged(ix, existing, r) && !NoneLanded(ix, landed, r) && !f.replace(r.pk) && e.hash != Digest(ix, r)
               then 0 else multiset(store)[e] + if e in landed then 1 else 0)
  {
    var existing := Existing(ix, store);
    var landed := Added(ix, f, existing, rows);
    BuiltCount(ix, f, store, rows, e);
    AddedCount(ix, f, existing, rows, r, e);
    KeyLandedIff(ix, f, existing, rows, r);
    ObsoleteIff(ix, existing, rows, r.pk);
    RowOfIs(rows, r);
    SupersedesIff(ix, f, existing, rows, KeysOf(landed), e);
    forall x | x in rows && x.pk == e.pk
      ensures x == r
    {
      RowOfIs(rows, x);
    }
  }

  // ---- what the next run reads of it ---------------------------------------------------------------

  lemma {:induction false} ExistingConcat(ix: Indexer, a: seq<Entry>, b: seq<Entry>, pk: string)
    ensures pk in Existing(ix, b) ==> pk in Existing(ix, a + b) && Existing(ix, a + b)[pk] == Existing(ix, b)[pk]
  {
    if b != [] {
      var n := |b| - 1;
      ExistingConcat(ix, a, b[..n], pk);
      assert (a + b)[..|a + b| - 1] == a + b[..n] && (a + b)[|a + b| - 1] == b[n];
    }
  }

  lemma {:induction false} FilterIn(s: seq<Entry>, keep: Entry -> bool, e: Entry)
    ensures e in Filter(s, keep) <==> e in s && keep(e)
  {
    if s != [] {
      FilterIn(s[1..], keep, e);
    }
  }

  /** New vectors stand last, so where any landed the digest read back is current. */
  lemma LandedDigest(ix: Indexer, f: Faults, store: seq<Entry>, rows: seq<Row>, r: Row)
    requires Distinct(rows) && r in rows && !NoneLanded(ix, Added(ix, f, Existing(ix, store), rows), r)
    ensures var after := Existing(ix, Built(ix, f, store, rows)); r.pk in after && after[r.pk] == Digest(ix, r)
  {
    var existing := Existing(ix, store);
    var changed, landed := ChangedRows(ix, existing, rows), Added(ix, f, existing, rows);
    var swept := Swept(ix, f, store, Obsolete(ix, existing, rows));
    var keep := (e: Entry) => !Superseded(ix, f, changed, KeysOf(landed), e);
    var kept := Filter(landed, keep);
    FilterConcat(swept, landed, keep);
    assert Built(ix, f, store, rows) == Filter(swept, keep) + kept;
    var e :| e in Entries(ix, r) && e in landed;
    EntryOfRow(ix, r, e);
    CurrentKept(ix, f, existing, rows, r, e);
    FilterIn(landed, keep, e);
    ExistingIff(ix, kept, r.pk);
    forall x | x in kept && Owns(ix, x, r.pk)
      ensures x.hash == Digest(ix, r)
    {
      FilterIn(landed, keep, x);
      AddedCount(ix, f, existing, rows, r, x);
    }
    ExistingConcat(ix, Filter(swept, keep), kept, r.pk);
  }

  /** An entry of the current digest is never superseded. */
  lemma CurrentKept(ix: Indexer, f: Faults, existing: map<string, string>, rows: seq<Row>, r: Row, e: Entry)
    requires Distinct(rows) && r in rows && e.pk == r.pk && e.hash == Digest(ix, r)
    ensures !Superseded(ix, f, ChangedRows(ix, existing, rows), KeysOf(Added(ix, f, existing, rows)), e)
  {
    SupersedesIff(ix, f, existing, rows, KeysOf(Added(ix, f, existing, rows)), e);
    RowOfIs(rows, r);
    forall x | x in rows && x.pk == e.pk
      ensures x == r
    {
      RowOfIs(rows, x);
    }
  }

  /** Where nothing landed, the key reads as before. */
  lemma OldDigest(ix: Indexer, f: Faults, store: seq<Entry>, before: seq<Row>, rows: seq<Row>, r: Row)
    requires Distinct(before) && Distinct(rows) && Splits(ix.split) && Indexes(ix, store, before)
    requires r in rows && SearchText(ix, r) != "" && NoneLanded(ix, Added(ix, f, Existing(ix, store), rows), r)
    ensures var was, after := Existing(ix, store), Existing(ix, Built(ix, f, store, rows));
            (r.pk in after <==> r.pk in was) && (r.pk in after ==> after[r.pk] == was[r.pk])
  {
    var existing, built := Existing(ix, store), Built(ix, f, store, rows);
    ExistingIff(ix, store, r.pk);
    ExistingIff(ix, built, r.pk);
    IndexedKeys(ix, store, before, r.pk);
    forall e | Owns(ix, e, r.pk)
      ensures e in built <==> e in store
      ensures e in store ==> e.hash == existing[r.pk]
    {
      KeyLandedIff(ix, f, existing, rows, r);
      FaultyCount(ix, f, store, rows, r, e);
      AddedCount(ix, f, existing, rows, r, e);
      IndexedCount(ix, store, before, e);
      if e in store {
        HashOf(ix, RowOf(before, r.pk).value, e);
      }
    }
  }

  // ---- a faulty run, then an error-free one ------------------------------------------------------------

  /** The next error-free run sets this row right. */
  ghost predicate Heals(ix: Indexer, f: Faults, store: seq<Entry>, before: seq<Row>, rows: seq<Row>, r: Row) {
    var existing := Existing(ix, store);
    var landed := Added(ix, f, existing, rows);
    if IsNew(ix, existing, r) then NoneLanded(ix, landed, r) || AllLanded(ix, landed, r)
    else if IsChanged(ix, existing, r) then NoneLanded(ix, landed, r) || (AllLanded(ix, landed, r) && !f.replace(r.pk))
    else forall o | o in before && o.pk == r.pk :: Chunks(ix, o) == Chunks(ix, r)
  }

  /** A row of which some chunk landed. */
  lemma HealsLanded(ix: Indexer, f: Faults, store: seq<Entry>, before: seq<Row>, rows: seq<Row>, r: Row)
    requires Distinct(before) && Distinct(rows) && Splits(ix.split) && Indexes(ix, store, before)
    requires r in rows && SearchText(ix, r) != "" && !NoneLanded(ix, Added(ix, f, Existing(ix, store), rows), r)
    ensures var after := Built(ix, f, store, rows);
            r.pk in Existing(ix, after) && (Repairable(ix, after, r) <==> Heals(ix, f, store, before, rows, r))
  {
    var existing, after := Existing(ix, store), Built(ix, f, store, rows);
    var landed := Added(ix, f, existing, rows);
    LandedDigest(ix, f, store, rows, r);
    var some :| some in Entries(ix, r) && some in landed;
    EntryOfRow(ix, r, some);
    AddedCount(ix, f, existing, rows, r, some);
    IndexedKeys(ix, store, before, r.pk);
    forall e | Owns(ix, e, r.pk)
      ensures multiset(after)[e] == Copies(ix, r, e) <==>
                (e in Entries(ix, r) ==> e in landed) && (e in store ==> IsChanged(ix, existing, r) && !f.replace(r.pk))
    {
      LandedAt(ix, f, store, before, rows, r, e);
    }
    StoredIff(ix, store, before, r);
    if Repairable(ix, after, r) {
      forall e | e in Entries(ix, r)
        ensures e in landed
      {
        EntryOfRow(ix, r, e);
      }
    }
  }

  /** One entry of such a row: old copies are gone or stay, new ones landed or not. */
  lemma LandedAt(ix: Indexer, f: Faults, store: seq<Entry>, before: seq<Row>, rows: seq<Row>, r: Row, e: Entry)
    requires Distinct(before) && Distinct(rows) && Splits(ix.split) && Indexes(ix, store, before)
    requires r in rows && SearchText(ix, r) != "" && !NoneLanded(ix, Added(ix, f, Existing(ix, store), rows), r)
    requires Owns(ix, e, r.pk)
    ensures var existing, landed := Existing(ix, store), Added(ix, f, Existing(ix, store), rows);
            multiset(Built(ix, f, store, rows))[e] == Copies(ix, r, e) <==>
              (e in Entries(ix, r) ==> e in landed) && (e in store ==> IsChanged(ix, existing, r) && !f.replace(r.pk))
  {
    var existing := Existing(ix, store);
    FaultyCount(ix, f, store, rows, r, e);
    AddedCount(ix, f, existing, rows, r, e);
    HashOf(ix, r, e);
    var some :| some in Entries(ix, r) && some in Added(ix, f, existing, rows);
    EntryOfRow(ix, r, some);
    AddedCount(ix, f, existing, rows, r, some);
    StoredIff(ix, store, before, r);
    ExistingIff(ix, store, r.pk);
    IndexedKeys(ix, store, before, r.pk);
    IndexedCount(ix, store, before, e);
    if e in store {
      HashOf(ix, RowOf(before, r.pk).value, e);
    }
  }

  /** An indexed key is one under which something is stored. */
  lemma StoredIff(ix: Indexer, store: seq<Entry>, before: seq<Row>, r: Row)
    ensures r.pk in Existing(ix, store) <==> exists e | e in store :: Owns(ix, e, r.pk)
  {
    ExistingIff(ix, store, r.pk);
  }

  /** A row of which no chunk landed. */
  lemma HealsUntouched(ix: Indexer, f: Faults, store: seq<Entry>, before: seq<Row>, rows: seq<Row>, r: Row)
    requires Distinct(before) && Distinct(rows) && Splits(ix.split) && Indexes(ix, store, before)
    requires r in rows && SearchText(ix, r) != "" && NoneLanded(ix, Added(ix, f, Existing(ix, store), rows), r)
    ensures var after := Built(ix, f, store, rows);
            (r.pk in Existing(ix, after) ==> Repairable(ix, after, r)) <==> Heals(ix, f, store, before, rows, r)
  {
    var existing, after := Existing(ix, store), Built(ix, f, store, rows);
    OldDigest(ix, f, store, before, rows, r);
    IndexedKeys(ix, store, before, r.pk);
    forall e | Owns(ix, e, r.pk)
      ensures multiset(after)[e] == multiset(store)[e]
      ensures r.pk in existing ==> multiset(store)[e] == Copies(ix, RowOf(before, r.pk).value, e)
      ensures r.pk in existing && e in store ==> e.hash == existing[r.pk]
    {
      FaultyCount(ix, f, store, rows, r, e);
      AddedCount(ix, f, existing, rows, r, e);
      IndexedCount(ix, store, before, e);
      if e in store {
        HashOf(ix, RowOf(before, r.pk).value, e);
      }
    }
    if r.pk in existing {
      SameChunksIff(ix, before, r);
      forall e | e in after && Owns(ix, e, r.pk)
        ensures e.hash == existing[r.pk]
      {
        assert multiset(after)[e] > 0;
      }
    }
  }

  /** Two rows of one key and digest have the same copies exactly when their chunks agree. */
  lemma SameChunksIff(ix: Indexer, before: seq<Row>, r: Row)
    requires Distinct(before) && Splits(ix.split) && SearchText(ix, r) != "" && Embeddable(ix, RowOf(before, r.pk))
    ensures var o := RowOf(before, r.pk).value;
            Digest(ix, o) == Digest(ix, r) ==>
              ((forall e | Owns(ix, e, r.pk) :: Copies(ix, o, e) == Copies(ix, r, e)) <==>
               (forall x | x in before && x.pk == r.pk :: Chunks(ix, x) == Chunks(ix, r)))
  {
    var o := RowOf(before, r.pk).value;
    forall x | x in before && x.pk == r.pk
      ensures x == o
    {
      RowOfIs(before, x);
    }
    if Digest(ix, o) == Digest(ix, r) {
      if Chunks(ix, o) == Chunks(ix, r) {
        SameEntries(ix, o, r);
      } else {
        ChunksEmptyIff(ix, r);
        var e := Telling(ix, o, r);
        EntryOfRow(ix, r, e);
        assert Copies(ix, o, e) != Copies(ix, r, e);
      }
    }
  }

  /** After a run with any failures, from a store that indexed an older source: the
      next error-free run leaves exactly the chunks of the source if and only if of
      each new or changed row none of the chunks landed, or all of them and, for a
      changed row, the old ones were deleted; and no unchanged row was regrouped. */
  lemma RecoversIff(ix: Indexer, f: Faults, store: seq<Entry>, before: seq<Row>, rows: seq<Row>)
    requires Distinct(before) && Distinct(rows) && Splits(ix.split) && Indexes(ix, store, before)
    ensures Indexes(ix, Built(ix, NO_FAULTS, Built(ix, f, store, rows), rows), rows) <==>
              forall r | r in rows && SearchText(ix, r) != "" :: Heals(ix, f, store, before, rows, r)
  {
    var after := Built(ix, f, store, rows);
    CleanRunIsFreshIff(ix, after, rows);
    forall r | r in rows && SearchText(ix, r) != ""
      ensures (r.pk in Existing(ix, after) ==> Repairable(ix, after, r)) <==> Heals(ix, f, store, before, rows, r)
    {
      if NoneLanded(ix, Added(ix, f, Existing(ix, store), rows), r) {
        HealsUntouched(ix, f, store, before, rows, r);
      } else {
        HealsLanded(ix, f, store, before, rows, r);
      }
    }
  }

  // ---- second attempts --------------------------------------------------------------------------------------

  /** Only first embedding attempts fail. */
  ghost predicate OnlyFirstTries(f: Faults) {
    (forall n: nat :: !f.embed(n, true) && !f.insert(n)) && (forall pk: string :: !f.remove(pk) && !f.replace(pk)) && !f.wipe
  }

  lemma {:induction false} LandedDespite(f: Faults, chunks: seq<Entry>)
    requires OnlyFirstTries(f)
    ensures Landed(f, chunks) == chunks
  {
    if chunks != [] {
      LandedDespite(f, chunks[..|chunks| - 1]);
    }
  }

  /** Failures of first attempts alone do not matter: the run ends as without any. */
  lemma FirstTriesDoNotMatter(ix: Indexer, f: Faults, store: seq<Entry>, rows: seq<Row>)
    requires OnlyFirstTries(f)
    ensures Built(ix, f, store, rows) == Built(ix, NO_FAULTS, store, rows)
    ensures Rebuilt(ix, f, store, rows) == Rebuilt(ix, NO_FAULTS, store, rows)
  {
    var existing := Existing(ix, store);
    var changed := ChangedRows(ix, existing, rows);
    var chunks := ChunkSet(ix, NewRows(ix, existing, rows) + changed);
    LandedDespite(f, chunks);
    LandedAll(chunks);
    LandedDespite(f, ChunkSet(ix, NewRows(ix, map[], rows)));
    LandedAll(ChunkSet(ix, NewRows(ix, map[], rows)));
    var obsolete := Obsolete(ix, existing, rows);
    SameFilter(store, (e: Entry) => !(e.index == ix.name && e.pk in obsolete && !f.remove(e.pk)),
               (e: Entry) => !(e.index == ix.name && e.pk in obsolete && !NO_FAULTS.remove(e.pk)));
    var swept := Swept(ix, f, store, obsolete) + chunks;
    SameFilter(swept, (e: Entry) => !Superseded(ix, f, changed, KeysOf(chunks), e),
               (e: Entry) => !Superseded(ix, NO_FAULTS, changed, KeysOf(chunks), e));
  }

  lemma {:induction false} SameFilter(s: seq<Entry>, p: Entry -> bool, q: Entry -> bool)
    requires forall e :: p(e) == q(e)
    ensures Filter(s, p) == Filter(s, q)
  {
    if s != [] {
      SameFilter(s[1..], p, q);
    }
  }

  // ---- a row that never heals --------------------------------------------------------------------------------

  /** Embedding fails, twice, for the first chunk of a run alone. */
  const FIRST_FAILS := Faults((n, again) => n == 0, n => false, pk => false, pk => false, false)

  lemma {:induction false} LandedIff(f: Faults, chunks: seq<Entry>, e: Entry)
    ensures e in Landed(f, chunks) <==> exists n | 0 <= n < |chunks| :: Lands(f, n) && chunks[n] == e
  {
    if chunks != [] {
      var m := |chunks| - 1;
      LandedIff(f, chunks[..m], e);
      assert forall n | 0 <= n < m :: chunks[..m][n] == chunks[n];
    }
  }

  lemma FlatOne(r: Row, f: Row -> seq<Entry>)
    ensures Flat([r], f) == f(r)
  {
    assert [r][..0] == [] && Flat([], f) == [];
  }

  lemma OneRowAdded(ix: Indexer, f: Faults, r: Row)
    requires SearchText(ix, r) != ""
    ensures Added(ix, f, map[], [r]) == Landed(f, Entries(ix, r))
  {
    PickedAll([r], x => IsNew(ix, map[], x));
    PickedNone([r], x => IsChanged(ix, map[], x));
    assert [r] + [] == [r];
    FlatOne(r, (x: Row) => Entries(ix, x));
  }

  lemma FirstMissing(ix: Indexer, r: Row)
    requires |Entries(ix, r)| >= 2 && SearchText(ix, r) != ""
    ensures var landed := Added(ix, FIRST_FAILS, map[], [r]);
            Entries(ix, r)[0] !in landed && Entries(ix, r)[1] in landed
  {
    var chunks := Entries(ix, r);
    OneRowAdded(ix, FIRST_FAILS, r);
    LandedIff(FIRST_FAILS, chunks, chunks[0]);
    LandedIff(FIRST_FAILS, chunks, chunks[1]);
    assert Lands(FIRST_FAILS, 1) && !Lands(FIRST_FAILS, 0);
    assert forall n | 0 <= n < |chunks| :: chunks[n].chunk == n;
  }

  /** A new row in several chunks, the first of which fails to embed: its digest is
      current, the next run reports no change, and the chunk never comes. */
  lemma PartialLandingSticks(ix: Indexer, r: Row)
    requires Splits(ix.split) && |Entries(ix, r)| >= 2
    ensures var after := Built(ix, FIRST_FAILS, [], [r]);
            Quiet(ix, after, [r]) && !Indexes(ix, Built(ix, NO_FAULTS, after, [r]), [r])
  {
    var rows, after := [r], Built(ix, FIRST_FAILS, [], [r]);
    ChunksEmptyIff(ix, r);
    FirstMissing(ix, r);
    assert Existing(ix, []) == map[] && r in rows;
    assert Own(ix, []) == [] && ChunkSet(ix, []) == [] && Indexes(ix, [], []);
    assert Entries(ix, r)[0] in Entries(ix, r) && Entries(ix, r)[1] in Entries(ix, r);
    assert !Heals(ix, FIRST_FAILS, [], [], rows, r);
    RecoversIff(ix, FIRST_FAILS, [], [], rows);
    LandedDigest(ix, FIRST_FAILS, [], rows, r);
    OneKeyQuiet(ix, after, r);
  }

  lemma OnlyItsKey(ix: Indexer, after: seq<Entry>, r: Row, pk: string)
    requires after == Built(ix, FIRST_FAILS, [], [r]) && pk in Existing(ix, after)
    ensures pk == r.pk
  {
    ExistingIff(ix, after, pk);
    var e :| e in after && Owns(ix, e, pk);
    BuiltCount(ix, FIRST_FAILS, [], [r], e);
    LandedFrom(ix, FIRST_FAILS, Existing(ix, []), [r], e);
    EntryOfRow(ix, r, e);
  }

  lemma OneKeyQuiet(ix: Indexer, after: seq<Entry>, r: Row)
    requires after == Built(ix, FIRST_FAILS, [], [r]) && SearchText(ix, r) != ""
    requires r.pk in Existing(ix, after) && Existing(ix, after)[r.pk] == Digest(ix, r)
    ensures Quiet(ix, after, [r])
  {
    var rows, existing := [r], Existing(ix, after);
    PickedNone(rows, x => IsNew(ix, existing, x));
    PickedNone(rows, x => IsChanged(ix, existing, x));
    forall pk | pk in existing
      ensures pk == r.pk
    {
      OnlyItsKey(ix, after, r, pk);
    }
    assert r in rows;
    forall pk
      ensures pk !in Obsolete(ix, existing, rows)
    {
      ObsoleteIff(ix, existing, rows, pk);
      if pk in existing { RowOfIs(rows, r); }
    }
  }
}
