/** Source rows whose primary keys become equal after normalisation: exactly when a
    run loses the vectors of such a key. */
module VectorKeys {
  import opened Vectors
  import opened VectorRuns

  /** Every attempt to embed fails; all statements work. */
  const NO_EMBEDDING := Faults((n, again) => true, n => false, pk => false, pk => false, false)

  lemma {:induction false} NothingLands(chunks: seq<Entry>)
    ensures Landed(NO_EMBEDDING, chunks) == []
  {
    if chunks != [] {
      NothingLands(chunks[..|chunks| - 1]);
    }
  }

  lemma {:induction false} InChunkSet(ix: Indexer, rows: seq<Row>, row: Row, e: Entry)
    requires row in rows && e in Entries(ix, row)
    ensures e in ChunkSet(ix, rows)
  {
    if rows[|rows| - 1] != row {
      InChunkSet(ix, rows[..|rows| - 1], row, e);
    }
  }

  /** With no fault, something lands under a key that had a vector exactly when one of
      its rows changed. */
  lemma LandsIff(ix: Indexer, store: seq<Entry>, rows: seq<Row>, pk: string)
    requires Splits(ix.split) && HasVector(ix, store, pk)
    ensures var existing := Existing(ix, store);
            pk in KeysOf(Added(ix, NO_FAULTS, existing, rows)) <==> ChangedUnder(ix, existing, rows, pk)
  {
    var existing := Existing(ix, store);
    ExistingIff(ix, store, pk);
    var added, changed := NewRows(ix, existing, rows), ChangedRows(ix, existing, rows);
    LandedAll(ChunkSet(ix, added + changed));
    if r :| r in rows && r.pk == pk && IsChanged(ix, existing, r) {
      PickedIff(rows, x => IsChanged(ix, existing, x), r);
      ChunksEmptyIff(ix, r);
      var e := Entries(ix, r)[0];
      InChunkSet(ix, added + changed, r, e);
      EntryOfRow(ix, r, e);
    }
    forall e | e in Added(ix, NO_FAULTS, existing, rows) && e.pk == pk
      ensures ChangedUnder(ix, existing, rows, pk)
    {
      LandedFrom(ix, NO_FAULTS, existing, rows, e);
      var r :| r in rows && e in Entries(ix, r) && (IsNew(ix, existing, r) || IsChanged(ix, existing, r));
      EntryOfRow(ix, r, e);
    }
  }

  /** An error-free run empties a key whose changed rows differ: each supersedes the
      other's chunks. */
  lemma TornKeyLost(ix: Indexer, store: seq<Entry>, rows: seq<Row>, pk: string)
    requires Splits(ix.split) && HasVector(ix, store, pk) && TornUnder(ix, Existing(ix, store), rows, pk)
    ensures !HasVector(ix, Built(ix, NO_FAULTS, store, rows), pk)
  {
    var existing := Existing(ix, store);
    LandsIff(ix, store, rows, pk);
    forall e | Owns(ix, e, pk)
      ensures e !in Built(ix, NO_FAULTS, store, rows)
    {
      SupersedesIff(ix, NO_FAULTS, existing, rows, KeysOf(Added(ix, NO_FAULTS, existing, rows)), e);
      BuiltCount(ix, NO_FAULTS, store, rows, e);
    }
  }

  /** A blank row empties its key when nothing new lands: the key counts as obsolete,
      and an unchanged row is not inserted again. */
  lemma BlankKeyLost(ix: Indexer, f: Faults, store: seq<Entry>, rows: seq<Row>, pk: string)
    requires BlankUnder(ix, rows, pk) && !f.remove(pk)
    requires pk !in KeysOf(Added(ix, f, Existing(ix, store), rows))
    ensures !HasVector(ix, Built(ix, f, store, rows), pk)
  {
    var existing := Existing(ix, store);
    forall e | Owns(ix, e, pk)
      ensures e !in Built(ix, f, store, rows)
    {
      ExistingIff(ix, store, pk);
      ObsoleteWhen(ix, existing, rows, pk);
      BuiltCount(ix, f, store, rows, e);
    }
  }

  /** Exactly when an error-free run keeps a vector for a key that had one and still
      has a row with text: no two changed rows under it differ, and none is blank
      unless another changed. */
  lemma CleanKeepsKeyIff(ix: Indexer, store: seq<Entry>, rows: seq<Row>, row: Row)
    requires Splits(ix.split) && row in rows && SearchText(ix, row) != "" && HasVector(ix, store, row.pk)
    ensures var existing := Existing(ix, store);
            HasVector(ix, Built(ix, NO_FAULTS, store, rows), row.pk) <==>
              !TornUnder(ix, existing, rows, row.pk) &&
              !(BlankUnder(ix, rows, row.pk) && !ChangedUnder(ix, existing, rows, row.pk))
  {
    var existing, pk := Existing(ix, store), row.pk;
    var landed := Added(ix, NO_FAULTS, existing, rows);
    LandsIff(ix, store, rows, pk);
    if TornUnder(ix, existing, rows, pk) {
      TornKeyLost(ix, store, rows, pk);
    } else if ChangedUnder(ix, existing, rows, pk) {
      var e :| e in landed && e.pk == pk;
      LandedStays(ix, NO_FAULTS, store, rows, e);
      assert Owns(ix, e, pk);
    } else if BlankUnder(ix, rows, pk) {
      BlankKeyLost(ix, NO_FAULTS, store, rows, pk);
    } else {
      NoKeyLost(ix, NO_FAULTS, store, rows, pk);
    }
  }

  /** Exactly when a key keeps a vector under every pattern of failures. */
  lemma NoKeyLostIff(ix: Indexer, store: seq<Entry>, rows: seq<Row>, row: Row)
    requires Splits(ix.split) && row in rows && SearchText(ix, row) != "" && HasVector(ix, store, row.pk)
    ensures (forall f: Faults :: HasVector(ix, Built(ix, f, store, rows), row.pk)) <==>
              !TornUnder(ix, Existing(ix, store), rows, row.pk) && !BlankUnder(ix, rows, row.pk)
  {
    var existing, pk := Existing(ix, store), row.pk;
    if TornUnder(ix, existing, rows, pk) {
      TornKeyLost(ix, store, rows, pk);
    } else if BlankUnder(ix, rows, pk) {
      NothingLands(ChunkSet(ix, NewRows(ix, existing, rows) + ChangedRows(ix, existing, rows)));
      BlankKeyLost(ix, NO_EMBEDDING, store, rows, pk);
    } else {
      forall f: Faults
        ensures HasVector(ix, Built(ix, f, store, rows), pk)
      {
        NoKeyLost(ix, f, store, rows, pk);
      }
    }
  }

  // ---- two sources that lose a row ----------------------------------------------------------

  function Docs(split: string -> seq<string>, hash: string -> string): Indexer {
    Indexer("docs", ["a"], 10, split, hash)
  }

  function Note(text: string): Row {
    Row("1", map["a" := text])
  }

  function Labelled(text: string): string {
    if text == "" then "" else "a: " + text
  }

  lemma NoteText(ix: Indexer, text: string)
    requires ix.cols == ["a"]
    ensures SearchText(ix, Note(text)) == Labelled(text)
  {
    assert ["a"][..0] == [];
    assert Labels(Note(text), ["a"]) == if text == "" then [] else ["a"];
  }

  /** What was indexed for key "1": one vector of this text. */
  function Indexed(hash: string -> string, text: string): seq<Entry> {
    [Entry("docs", "1", 0, 1, Labelled(text), hash(Labelled(text)))]
  }

  lemma OneIndexed(ix: Indexer, text: string)
    requires ix.name == "docs"
    ensures var store := Indexed(ix.hash, text);
            HasVector(ix, store, "1") && "1" in Existing(ix, store) && Existing(ix, store)["1"] == ix.hash(Labelled(text))
  {
    var store := Indexed(ix.hash, text);
    assert store[..0] == [] && Existing(ix, []) == map[];
    assert Owns(ix, store[0], "1");
  }

  /** Keys 1.2 and 1.7 both normalise to "1": with two rows edited to different texts,
      or with no edit and one row blank, an error-free run leaves the key without a
      vector, whatever the texts x, y and z. */
  lemma CollidingKeysLoseRow(split: string -> seq<string>, hash: string -> string, x: string, y: string, z: string)
    requires Splits(split) && Injective(hash) && "" !in {x, y, z} && x != y && x != z && y != z
    ensures var ix, store := Docs(split, hash), Indexed(hash, x);
            HasVector(ix, store, "1") &&
            !HasVector(ix, Built(ix, NO_FAULTS, store, [Note(y), Note(z)]), "1") &&
            !HasVector(ix, Built(ix, NO_FAULTS, store, [Note(x), Note("")]), "1")
  {
    var ix, store := Docs(split, hash), Indexed(hash, x);
    OneIndexed(ix, x);
    NoteText(ix, x);
    NoteText(ix, y);
    NoteText(ix, z);
    NoteText(ix, "");
    Unequal(x, y);
    Unequal(x, z);
    Unequal(y, z);
    EditedTwice(ix, store, Note(y), Note(z), Labelled(x));
    BlankBeside(ix, store, Note(x), Note(""));
  }

  lemma Unequal(a: string, b: string)
    requires a != b
    ensures "a: " + a != "a: " + b
  {
    assert ("a: " + a)[3..] == a && ("a: " + b)[3..] == b;
  }

  lemma EditedTwice(ix: Indexer, store: seq<Entry>, a: Row, b: Row, was: string)
    requires Splits(ix.split) && Injective(ix.hash) && HasVector(ix, store, a.pk) && a.pk == b.pk
    requires a.pk in Existing(ix, store) && Existing(ix, store)[a.pk] == ix.hash(was)
    requires SearchText(ix, a) !in {"", was} && SearchText(ix, b) !in {"", was} && SearchText(ix, a) != SearchText(ix, b)
    ensures !HasVector(ix, Built(ix, NO_FAULTS, store, [a, b]), a.pk)
  {
    var rows, existing := [a, b], Existing(ix, store);
    assert a in rows && b in rows;
    assert IsChanged(ix, existing, a) && IsChanged(ix, existing, b) && Digest(ix, a) != Digest(ix, b);
    TornKeyLost(ix, store, rows, a.pk);
  }

  lemma BlankBeside(ix: Indexer, store: seq<Entry>, a: Row, b: Row)
    requires Splits(ix.split) && HasVector(ix, store, a.pk) && a.pk == b.pk
    requires a.pk in Existing(ix, store) && Existing(ix, store)[a.pk] == Digest(ix, a)
    requires SearchText(ix, a) != "" && SearchText(ix, b) == ""
    ensures !HasVector(ix, Built(ix, NO_FAULTS, store, [a, b]), a.pk)
  {
    var rows, existing := [a, b], Existing(ix, store);
    assert a in rows && b in rows;
    assert BlankUnder(ix, rows, a.pk) && !ChangedUnder(ix, existing, rows, a.pk);
    LandsIff(ix, store, rows, a.pk);
    BlankKeyLost(ix, NO_FAULTS, store, rows, a.pk);
  }
}
