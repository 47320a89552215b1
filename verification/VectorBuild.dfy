/** build_index as the loop it is, on a store it updates statement by statement. */
module VectorBuild {
  import opened Vectors
  import opened VectorRuns
  import opened VectorTruth

  /** The dictionary build_index returns. */
  datatype Report = Report(total: nat, inserted: nat, updated: nat, deleted: nat, errors: nat)

  function Deleted(f: Faults, obsolete: set<string>): set<string> {
    set pk | pk in obsolete && !f.remove(pk)
  }

  function Replaced(f: Faults, changed: seq<Row>, landed: set<string>): seq<Row> {
    Picked(changed, (r: Row) => r.pk in landed && !f.replace(r.pk))
  }

  function Reported(ix: Indexer, f: Faults, existing: map<string, string>, rows: seq<Row>): (r: Report)
    ensures r.inserted + r.errors == |ChunkSet(ix, NewRows(ix, existing, rows) + ChangedRows(ix, existing, rows))|
  {
    var changed := ChangedRows(ix, existing, rows);
    var wanted := NewRows(ix, existing, rows) + changed;
    var chunks := ChunkSet(ix, wanted);
    var landed := Landed(f, chunks);
    LandedLength(f, chunks);
    Report(|wanted|, |landed|, |Replaced(f, changed, KeysOf(landed))|, |Deleted(f, Obsolete(ix, existing, rows))|, |chunks| - |landed|)
  }

  lemma {:induction false} LandedLength(f: Faults, chunks: seq<Entry>)
    ensures |Landed(f, chunks)| <= |chunks|
  {
    if chunks != [] {
      LandedLength(f, chunks[..|chunks| - 1]);
    }
  }

  /** What the report says of the store: as many entries are new as it counts inserted,
      and it counts no error exactly when every chunk that was wanted is among them. */
  lemma ReportIsTrue(ix: Indexer, f: Faults, existing: map<string, string>, rows: seq<Row>)
    ensures var r, landed := Reported(ix, f, existing, rows), Added(ix, f, existing, rows);
            r.inserted == |landed| &&
            (r.errors == 0 <==> landed == ChunkSet(ix, NewRows(ix, existing, rows) + ChangedRows(ix, existing, rows)))
  {
    LandedWholeIff(f, ChunkSet(ix, NewRows(ix, existing, rows) + ChangedRows(ix, existing, rows)));
  }

  lemma {:induction false} LandedWholeIff(f: Faults, chunks: seq<Entry>)
    ensures |Landed(f, chunks)| == |chunks| <==> Landed(f, chunks) == chunks
  {
    if chunks != [] {
      var n := |chunks| - 1;
      LandedWholeIff(f, chunks[..n]);
      LandedLength(f, chunks[..n]);
      assert chunks == chunks[..n] + [chunks[n]];
    }
  }

  /** A key counts as deleted exactly when it was obsolete and nothing is left of it. */
  lemma DeletedIsGoneIff(ix: Indexer, f: Faults, store: seq<Entry>, rows: seq<Row>, pk: string)
    requires Distinct(rows) && pk in Obsolete(ix, Existing(ix, store), rows)
    ensures pk in Deleted(f, Obsolete(ix, Existing(ix, store), rows)) <==> !HasVector(ix, Built(ix, f, store, rows), pk)
  {
    var after := Built(ix, f, store, rows);
    ObsoleteIff(ix, Existing(ix, store), rows, pk);
    forall e | Owns(ix, e, pk)
      ensures multiset(after)[e] == if f.remove(pk) then multiset(store)[e] else 0
    {
      ObsoleteCount(ix, f, store, rows, e);
    }
    ExistingIff(ix, store, pk);
    var e :| e in store && Owns(ix, e, pk);
    assert f.remove(pk) ==> e in after;
    if HasVector(ix, after, pk) {
      var x :| x in after && Owns(ix, x, pk);
      assert multiset(after)[x] > 0;
    }
  }

  lemma ObsoleteCount(ix: Indexer, f: Faults, store: seq<Entry>, rows: seq<Row>, e: Entry)
    requires Distinct(rows) && e.index == ix.name && e.pk in Obsolete(ix, Existing(ix, store), rows)
    ensures multiset(Built(ix, f, store, rows))[e] == if f.remove(e.pk) then multiset(store)[e] else 0
  {
    var existing := Existing(ix, store);
    var landed := Added(ix, f, existing, rows);
    BuiltCount(ix, f, store, rows, e);
    ObsoleteIff(ix, existing, rows, e.pk);
    SupersedesIff(ix, f, existing, rows, KeysOf(landed), e);
    forall r | r in rows && r.pk == e.pk
      ensures !IsNew(ix, existing, r) && !IsChanged(ix, existing, r)
    {
      RowOfIs(rows, r);
    }
    if e in landed {
      LandedFrom(ix, f, existing, rows, e);
    }
  }

  /** A changed row counts as updated exactly when something of it landed and every vector
      of its key is of its new text. */
  lemma UpdatedIsCurrentIff(ix: Indexer, f: Faults, store: seq<Entry>, rows: seq<Row>, r: Row)
    requires Distinct(rows) && r in ChangedRows(ix, Existing(ix, store), rows)
    ensures var existing := Existing(ix, store);
            var changed, landed := ChangedRows(ix, existing, rows), KeysOf(Added(ix, f, existing, rows));
            r in Replaced(f, changed, landed) <==>
              r.pk in landed && forall e | e in Built(ix, f, store, rows) && Owns(ix, e, r.pk) :: e.hash == Digest(ix, r)
  {
    var existing, after := Existing(ix, store), Built(ix, f, store, rows);
    var changed, landed := ChangedRows(ix, existing, rows), KeysOf(Added(ix, f, existing, rows));
    PickedIff(rows, x => IsChanged(ix, existing, x), r);
    PickedIff(changed, (x: Row) => x.pk in landed && !f.replace(x.pk), r);
    forall e | Owns(ix, e, r.pk) && e.hash != Digest(ix, r)
      ensures multiset(after)[e] == if r.pk in landed && !f.replace(r.pk) then 0 else multiset(store)[e]
    {
      ChangedCount(ix, f, store, rows, r, e);
    }
    ExistingIff(ix, store, r.pk);
    var was :| was in store && Owns(ix, was, r.pk) && was.hash == existing[r.pk];
    assert f.replace(r.pk) ==> was in after;
    forall e | e in after && Owns(ix, e, r.pk)
      ensures multiset(after)[e] > 0
    {
    }
  }

  lemma ChangedCount(ix: Indexer, f: Faults, store: seq<Entry>, rows: seq<Row>, r: Row, e: Entry)
    requires Distinct(rows) && r in rows && IsChanged(ix, Existing(ix, store), r)
    requires Owns(ix, e, r.pk) && e.hash != Digest(ix, r)
    ensures var landed := KeysOf(Added(ix, f, Existing(ix, store), rows));
            multiset(Built(ix, f, store, rows))[e] == if r.pk in landed && !f.replace(r.pk) then 0 else multiset(store)[e]
  {
    var existing := Existing(ix, store);
    var landed := Added(ix, f, existing, rows);
    BuiltCount(ix, f, store, rows, e);
    ObsoleteIff(ix, existing, rows, r.pk);
    RowOfIs(rows, r);
    SupersedesIff(ix, f, existing, rows, KeysOf(landed), e);
    forall x | x in rows && x.pk == e.pk
      ensures x == r
    {
      RowOfIs(rows, x);
    }
    if e in landed {
      LandedFrom(ix, f, existing, rows, e);
    }
  }

  /** The classification loop. */
  method Classify(ix: Indexer, existing: map<string, string>, rows: seq<Row>)
    returns (added: seq<Row>, changed: seq<Row>, obsolete: set<string>)
    ensures added == NewRows(ix, existing, rows)
    ensures changed == ChangedRows(ix, existing, rows)
    ensures obsolete == Obsolete(ix, existing, rows)
  {
    added, changed := [], [];
    var blank, sourceKeys := {}, {};
    for i := 0 to |rows|
      invariant added == NewRows(ix, existing, rows[..i])
      invariant changed == ChangedRows(ix, existing, rows[..i])
      invariant sourceKeys == Keys(rows[..i])
      invariant blank == set r | r in rows[..i] && SearchText(ix, r) == "" && r.pk in existing :: r.pk
    {
      var row := rows[i];
      assert rows[..i + 1] == rows[..i] + [row];
      sourceKeys := sourceKeys + {row.pk};
      if SearchText(ix, row) == "" {
        if row.pk in existing {
          blank := blank + {row.pk};
        }
        continue;
      }
      if row.pk !in existing {
        added := added + [row];
      } else if existing[row.pk] != Digest(ix, row) {
        changed := changed + [row];
      }
    }
    assert rows[..|rows|] == rows;
    obsolete := (existing.Keys - sourceKeys) + blank;
  }

  method RowChunks(ix: Indexer, row: Row) returns (all: seq<Entry>)
    ensures all == Entries(ix, row)
  {
    all := [];
    var chunks := Chunks(ix, row);
    for j := 0 to |chunks|
      invariant all == Entries(ix, row)[..j]
    {
      all := all + [Entry(ix.name, row.pk, j, |chunks|, chunks[j], Digest(ix, row))];
    }
  }

  method AllChunks(ix: Indexer, wanted: seq<Row>) returns (all: seq<Entry>)
    ensures all == ChunkSet(ix, wanted)
  {
    all := [];
    for i := 0 to |wanted|
      invariant all == ChunkSet(ix, wanted[..i])
    {
      var chunks := RowChunks(ix, wanted[i]);
      FlatMore(wanted, i, (r: Row) => Entries(ix, r));
      all := all + chunks;
    }
    assert wanted[..|wanted|] == wanted;
  }

  lemma FlatMore(rows: seq<Row>, i: nat, f: Row -> seq<Entry>)
    requires i < |rows|
    ensures Flat(rows[..i + 1], f) == Flat(rows[..i], f) + f(rows[i])
  {
    assert rows[..i + 1][..i] == rows[..i];
  }

  lemma SweptNone(ix: Indexer, f: Faults, store: seq<Entry>, none: set<string>)
    requires none == {}
    ensures Swept(ix, f, store, none) == store && Deleted(f, none) == {}
  {
    FilterAll(store, (e: Entry) => !(e.index == ix.name && e.pk in none && !f.remove(e.pk)));
  }

  lemma DeletedMore(f: Faults, done: set<string>, pk: string)
    requires pk !in done
    ensures |Deleted(f, done + {pk})| == |Deleted(f, done)| + if f.remove(pk) then 0 else 1
  {
    assert Deleted(f, done + {pk}) == Deleted(f, done) + if f.remove(pk) then {} else {pk};
  }

  lemma SweptMore(ix: Indexer, f: Faults, store: seq<Entry>, done: set<string>, pk: string)
    ensures var now := Swept(ix, f, store, done);
            Swept(ix, f, store, done + {pk}) ==
              (if f.remove(pk) then now else Filter(now, (e: Entry) => !(e.index == ix.name && e.pk == pk)))
  {
    var now := Swept(ix, f, store, done);
    var more := done + {pk};
    var kept := (e: Entry) => !(e.index == ix.name && e.pk in more && !f.remove(e.pk));
    if f.remove(pk) {
      FilterSame(store, (e: Entry) => !(e.index == ix.name && e.pk in done && !f.remove(e.pk)), kept);
    } else {
      FilterBoth(store, (e: Entry) => !(e.index == ix.name && e.pk in done && !f.remove(e.pk)),
                 (e: Entry) => !(e.index == ix.name && e.pk == pk), kept);
    }
  }

  lemma {:induction false} FilterSame(s: seq<Entry>, p: Entry -> bool, q: Entry -> bool)
    requires forall e | e in s :: p(e) == q(e)
    ensures Filter(s, p) == Filter(s, q)
  {
    if s != [] {
      FilterSame(s[1..], p, q);
    }
  }

  lemma {:induction false} FilterBoth(s: seq<Entry>, first: Entry -> bool, second: Entry -> bool, both: Entry -> bool)
    requires forall e | e in s :: both(e) == (first(e) && second(e))
    ensures Filter(Filter(s, first), second) == Filter(s, both)
  {
    if s != [] {
      FilterBoth(s[1..], first, second, both);
      var rest := Filter(s[1..], first);
      assert Filter(s, first) == if first(s[0]) then [s[0]] + rest else rest;
      assert first(s[0]) ==> ([s[0]] + rest)[1..] == rest;
    }
  }

  lemma SettledMore(ix: Indexer, f: Faults, store: seq<Entry>, changed: seq<Row>, landed: set<string>, r: Row)
    ensures var now := Settled(ix, f, store, changed, landed);
            Settled(ix, f, store, changed + [r], landed) ==
              (if r.pk in landed && !f.replace(r.pk)
               then Filter(now, (e: Entry) => !(e.index == ix.name && e.pk == r.pk && e.hash != Digest(ix, r)))
               else now)
  {
    var more := changed + [r];
    var was := (e: Entry) => !Superseded(ix, f, changed, landed, e);
    var current := (e: Entry) => !Superseded(ix, f, more, landed, e);
    var one := (e: Entry) => !(e.index == ix.name && e.pk == r.pk && e.hash != Digest(ix, r));
    var hit := r.pk in landed && !f.replace(r.pk);
    forall e
      ensures current(e) == (was(e) && (hit ==> one(e)))
    {
      assert forall x :: x in more <==> x in changed || x == r;
    }
    if hit {
      FilterBoth(store, was, one, current);
    } else {
      FilterSame(store, was, current);
    }
  }

  /** A full rebuild reads no entry: nothing is changed or obsolete. */
  lemma AllNew(ix: Indexer, rows: seq<Row>)
    ensures ChangedRows(ix, map[], rows) == [] && Obsolete(ix, map[], rows) == {}
    ensures NewRows(ix, map[], rows) + ChangedRows(ix, map[], rows) == NewRows(ix, map[], rows)
  {
    PickedNone(rows, r => IsChanged(ix, map[], r));
  }

  lemma NothingReported(f: Faults)
    ensures Deleted(f, {}) == {} && Replaced(f, [], {}) == []
  {
  }

  /** With nothing to insert the run only sweeps. */
  lemma NothingInserted(ix: Indexer, f: Faults, store: seq<Entry>, rows: seq<Row>)
    requires var existing := Existing(ix, store);
             NewRows(ix, existing, rows) + ChangedRows(ix, existing, rows) == []
    ensures var obsolete := Obsolete(ix, Existing(ix, store), rows);
            Built(ix, f, store, rows) == Swept(ix, f, store, obsolete)
  {
    var existing := Existing(ix, store);
    var obsolete := Obsolete(ix, existing, rows);
    var added, changed := NewRows(ix, existing, rows), ChangedRows(ix, existing, rows);
    var landed := Landed(f, ChunkSet(ix, added + changed));
    var swept := Swept(ix, f, store, obsolete);
    assert added == [] && changed == [] && landed == [] && swept + landed == swept;
    FilterAll(swept + landed, (e: Entry) => !Superseded(ix, f, changed, KeysOf(landed), e));
  }

  /** The vector table. */
  class VectorTable {
    var entries: seq<Entry>

    /** DELETE the keys that are gone or blank, one statement each. */
    method DeleteKeys(ix: Indexer, f: Faults, obsolete: set<string>) returns (deleted: nat)
      modifies this
      ensures entries == Swept(ix, f, old(entries), obsolete)
      ensures deleted == |Deleted(f, obsolete)|
    {
      deleted := 0;
      var todo := obsolete;
      SweptNone(ix, f, entries, obsolete - todo);
      while todo != {}
        invariant todo <= obsolete
        invariant entries == Swept(ix, f, old(entries), obsolete - todo)
        invariant deleted == |Deleted(f, obsolete - todo)|
        decreases |todo|
      {
        var pk :| pk in todo;
        ghost var done := obsolete - todo;
        SweptMore(ix, f, old(entries), done, pk);
        DeletedMore(f, done, pk);
        todo := todo - {pk};
        assert obsolete - todo == done + {pk};
        if !f.remove(pk) {
          entries := Filter(entries, (e: Entry) => !(e.index == ix.name && e.pk == pk));
          deleted := deleted + 1;
        }
      }
      assert obsolete - todo == obsolete;
    }

    /** Embed and INSERT chunk by chunk. */
    method InsertChunks(f: Faults, chunks: seq<Entry>) returns (inserted: nat, errors: nat, landed: set<string>)
      modifies this
      ensures entries == old(entries) + Landed(f, chunks)
      ensures inserted == |Landed(f, chunks)| && inserted + errors == |chunks|
      ensures landed == KeysOf(Landed(f, chunks))
    {
      inserted, errors, landed := 0, 0, {};
      for n := 0 to |chunks|
        invariant entries == old(entries) + Landed(f, chunks[..n])
        invariant inserted == |Landed(f, chunks[..n])| && inserted + errors == n
        invariant landed == KeysOf(Landed(f, chunks[..n]))
      {
        var chunk := chunks[n];
        assert chunks[..n + 1][..n] == chunks[..n];
        var failed := f.embed(n, false);
        if failed {
          failed := f.embed(n, true);
        }
        if failed {
          errors := errors + 1;
          continue;
        }
        if f.insert(n) {
          errors := errors + 1;
        } else {
          entries := entries + [chunk];
          inserted := inserted + 1;
          landed := landed + {chunk.pk};
        }
      }
      assert chunks[..|chunks|] == chunks;
    }

    /** DELETE the old vectors of each changed row that got a new one. */
    method Supersede(ix: Indexer, f: Faults, changed: seq<Row>, landed: set<string>) returns (updated: nat)
      modifies this
      ensures entries == Settled(ix, f, old(entries), changed, landed)
      ensures updated == |Replaced(f, changed, landed)|
    {
      updated := 0;
      ghost var none := changed[..0];
      FilterAll(entries, (e: Entry) => !Superseded(ix, f, none, landed, e));
      for i := 0 to |changed|
        invariant entries == Settled(ix, f, old(entries), changed[..i], landed)
        invariant updated == |Replaced(f, changed[..i], landed)|
      {
        var row := changed[i];
        assert changed[..i + 1] == changed[..i] + [row];
        assert changed[..i + 1][..i] == changed[..i];
        SettledMore(ix, f, old(entries), changed[..i], landed, row);
        if row.pk !in landed {
          continue;
        }
        if !f.replace(row.pk) {
          entries := Filter(entries, (e: Entry) => !(e.index == ix.name && e.pk == row.pk && e.hash != Digest(ix, row)));
          updated := updated + 1;
        }
      }
      assert changed[..|changed|] == changed;
    }

    /** The deletions that come before the inserts. */
    method Prune(ix: Indexer, f: Faults, obsolete: set<string>, fullRebuild: bool) returns (deleted: nat)
      requires fullRebuild ==> obsolete == {}
      modifies this
      ensures !fullRebuild ==> entries == Swept(ix, f, old(entries), obsolete)
      ensures fullRebuild ==> entries == if f.wipe then old(entries) else Filter(old(entries), (e: Entry) => e.index != ix.name)
      ensures deleted == |Deleted(f, obsolete)|
    {
      deleted := 0;
      if obsolete != {} {
        deleted := DeleteKeys(ix, f, obsolete);
      } else {
        SweptNone(ix, f, entries, obsolete);
      }
      if fullRebuild && !f.wipe {
        entries := Filter(entries, (e: Entry) => e.index != ix.name);
      }
    }

    /** Chunks, inserts, and the deletions that come after them. */
    method Refill(ix: Indexer, f: Faults, wanted: seq<Row>, changed: seq<Row>) returns (inserted: nat, updated: nat, errors: nat)
      modifies this
      ensures var landed := Landed(f, ChunkSet(ix, wanted));
              && entries == Settled(ix, f, old(entries) + landed, changed, KeysOf(landed))
              && inserted == |landed| && inserted + errors == |ChunkSet(ix, wanted)|
              && updated == |Replaced(f, changed, KeysOf(landed))|
      ensures changed == [] ==> entries == old(entries) + Landed(f, ChunkSet(ix, wanted))
    {
      var chunks := AllChunks(ix, wanted);
      var landed;
      inserted, errors, landed := InsertChunks(f, chunks);
      updated := 0;
      if changed != [] {
        updated := Supersede(ix, f, changed, landed);
      } else {
        FilterAll(entries, (e: Entry) => !Superseded(ix, f, changed, landed, e));
      }
    }

    /** build_index */
    method BuildIndex(ix: Indexer, f: Faults, rows: seq<Row>, fullRebuild: bool) returns (report: Report)
      modifies this
      ensures entries == if fullRebuild then Rebuilt(ix, f, old(entries), rows) else Built(ix, f, old(entries), rows)
      ensures report == Reported(ix, f, if fullRebuild then map[] else Existing(ix, old(entries)), rows)
    {
      var existing := if fullRebuild then map[] else Existing(ix, entries);
      var added, changed, obsolete := Classify(ix, existing, rows);
      var wanted := added + changed;
      NothingReported(f);
      if fullRebuild {
        AllNew(ix, rows);
      } else if wanted == [] {
        NothingInserted(ix, f, entries, rows);
      }
      if wanted == [] && obsolete == {} {
        if !fullRebuild {
          QuietRunChangesNothing(ix, f, entries, rows);
        }
        return Report(0, 0, 0, 0, 0);
      }
      var deleted := Prune(ix, f, obsolete, fullRebuild);
      if wanted == [] {
        return Report(0, 0, 0, deleted, 0);
      }
      var inserted, updated, errors := Refill(ix, f, wanted, changed);
      report := Report(|wanted|, inserted, updated, deleted, errors);
    }
  }
}
