/** tools/build_vectors.py: what a row's vectors are, and the incremental build as
    a function of the store, the source and the failures that happen. */
module Vectors {

  // ---- rows and their chunks ------------------------------------------------------

  /** A source row: its normalised primary key and the stripped texts of its
      columns; a column that is NULL, falsy or blank is absent or "". */
  datatype Row = Row(pk: string, texts: map<string, string>)

  /** One index: its name, embedding columns, chunk size, text splitter and hash. */
  datatype Indexer = Indexer(name: string, cols: seq<string>, size: nat, split: string -> seq<string>, hash: string -> string)

  /** A row of the vector table, as far as a rebuild decides it. */
  datatype Entry = Entry(index: string, pk: string, chunk: nat, count: nat, text: string, hash: string)

  /** The non-blank columns in configured order, each once. */
  function Labels(row: Row, cols: seq<string>): seq<string> {
    if cols == [] then []
    else
      var init, c := Labels(row, cols[..|cols| - 1]), cols[|cols| - 1];
      if c in row.texts && row.texts[c] != "" && c !in init then init + [c] else init
  }

  function Part(row: Row, col: string): string {
    col + ": " + if col in row.texts then row.texts[col] else ""
  }

  function Joined(row: Row, labels: seq<string>): string {
    if labels == [] then ""
    else if |labels| == 1 then Part(row, labels[0])
    else Part(row, labels[0]) + ". " + Joined(row, labels[1..])
  }

  /** _build_search_text */
  function SearchText(ix: Indexer, row: Row): string {
    Joined(row, Labels(row, ix.cols))
  }

  function Length(row: Row, col: string): nat {
    if col in row.texts then |row.texts[col]| else 0
  }

  /** max(labeled, key=len): the first of the longest. */
  function Longest(row: Row, labels: seq<string>): (col: string)
    requires labels != []
    ensures col in labels && forall c | c in labels :: Length(row, c) <= Length(row, col)
  {
    if |labels| == 1 then labels[0]
    else
      var rest := Longest(row, labels[1..]);
      if Length(row, labels[0]) >= Length(row, rest) then labels[0] else rest
  }

  function Without(labels: seq<string>, col: string): seq<string> {
    if labels == [] then []
    else (if labels[0] == col then [] else [labels[0]]) + Without(labels[1..], col)
  }

  function Decimal(n: nat): string {
    var digit := ["0123456789"[n % 10]];
    if n < 10 then digit else Decimal(n / 10) + digit
  }

  function ChunkText(lead: string, col: string, segments: seq<string>, i: nat): string
    requires i < |segments|
  {
    (if lead != "" then lead + ". " else "") +
    (col + " [" + Decimal(i + 1) + "/" + Decimal(|segments|) + "]: " + segments[i])
  }

  /** build_chunks: one chunk when every column is short; else the longest column is
      split and the others lead every chunk. */
  function Chunks(ix: Indexer, row: Row): seq<string> {
    var labels := Labels(row, ix.cols);
    if labels == [] then []
    else if forall c | c in labels :: Length(row, c) <= ix.size then [SearchText(ix, row)]
    else
      var col := Longest(row, labels);
      var segments := ix.split(if col in row.texts then row.texts[col] else "");
      seq(|segments|, i requires 0 <= i < |segments| => ChunkText(Joined(row, Without(labels, col)), col, segments, i))
  }

  function Digest(ix: Indexer, row: Row): string {
    ix.hash(SearchText(ix, row))
  }

  function Entries(ix: Indexer, row: Row): seq<Entry> {
    var chunks := Chunks(ix, row);
    seq(|chunks|, i requires 0 <= i < |chunks| => Entry(ix.name, row.pk, i, |chunks|, chunks[i], Digest(ix, row)))
  }

  function Flat(rows: seq<Row>, f: Row -> seq<Entry>): seq<Entry> {
    if rows == [] then [] else Flat(rows[..|rows| - 1], f) + f(rows[|rows| - 1])
  }

  /** Building from scratch. */
  function ChunkSet(ix: Indexer, rows: seq<Row>): seq<Entry> {
    Flat(rows, (r: Row) => Entries(ix, r))
  }

  // ---- one run -----------------------------------------------------------------------

  /** Which attempts fail: the first and the second embedding of the n-th chunk, its
      INSERT, the DELETEs of a key, and the wipe of a full rebuild. */
  datatype Faults = Faults(
    embed: (nat, bool) -> bool,
    insert: nat -> bool,
    remove: string -> bool,
    replace: string -> bool,
    wipe: bool)

  const NO_FAULTS := Faults((n, again) => false, n => false, pk => false, pk => false, false)

  function Filter(s: seq<Entry>, keep: Entry -> bool): seq<Entry> {
    if s == [] then [] else (if keep(s[0]) then [s[0]] else []) + Filter(s[1..], keep)
  }

  /** _get_existing_entries: the hash of the last row read for each key. */
  function Existing(ix: Indexer, store: seq<Entry>): map<string, string> {
    if store == [] then map[]
    else
      var init, e := Existing(ix, store[..|store| - 1]), store[|store| - 1];
      if e.index == ix.name then init[e.pk := e.hash] else init
  }

  predicate IsNew(ix: Indexer, existing: map<string, string>, row: Row) {
    SearchText(ix, row) != "" && row.pk !in existing
  }

  predicate IsChanged(ix: Indexer, existing: map<string, string>, row: Row) {
    SearchText(ix, row) != "" && row.pk in existing && existing[row.pk] != Digest(ix, row)
  }

  function Picked(rows: seq<Row>, wanted: Row -> bool): seq<Row> {
    if rows == [] then []
    else
      var init, r := Picked(rows[..|rows| - 1], wanted), rows[|rows| - 1];
      if wanted(r) then init + [r] else init
  }

  function NewRows(ix: Indexer, existing: map<string, string>, rows: seq<Row>): seq<Row> {
    Picked(rows, (r: Row) => IsNew(ix, existing, r))
  }

  function ChangedRows(ix: Indexer, existing: map<string, string>, rows: seq<Row>): seq<Row> {
    Picked(rows, (r: Row) => IsChanged(ix, existing, r))
  }

  function Keys(rows: seq<Row>): set<string> {
    set r | r in rows :: r.pk
  }

  /** Indexed keys whose row is gone or has nothing left to embed. */
  function Obsolete(ix: Indexer, existing: map<string, string>, rows: seq<Row>): set<string> {
    (existing.Keys - Keys(rows)) + (set r | r in rows && SearchText(ix, r) == "" && r.pk in existing :: r.pk)
  }

  /** The n-th chunk gets its vector: one of two embeddings works, and the INSERT. */
  predicate Lands(f: Faults, n: nat) {
    !(f.embed(n, false) && f.embed(n, true)) && !f.insert(n)
  }

  /** The chunks that get a row, in order. */
  function Landed(f: Faults, chunks: seq<Entry>): seq<Entry> {
    if chunks == [] then []
    else
      var n := |chunks| - 1;
      Landed(f, chunks[..n]) + if Lands(f, n) then [chunks[n]] else []
  }

  function KeysOf(es: seq<Entry>): set<string> {
    set e | e in es :: e.pk
  }

  function Swept(ix: Indexer, f: Faults, store: seq<Entry>, obsolete: set<string>): seq<Entry> {
    Filter(store, (e: Entry) => !(e.index == ix.name && e.pk in obsolete && !f.remove(e.pk)))
  }

  /** After the inserts: a changed key that got a new vector loses the old ones. */
  predicate Superseded(ix: Indexer, f: Faults, changed: seq<Row>, landed: set<string>, e: Entry) {
    e.index == ix.name && e.pk in landed && !f.replace(e.pk) &&
    exists r | r in changed :: r.pk == e.pk && e.hash != Digest(ix, r)
  }

  function Settled(ix: Indexer, f: Faults, store: seq<Entry>, changed: seq<Row>, landed: set<string>): seq<Entry> {
    Filter(store, (e: Entry) => !Superseded(ix, f, changed, landed, e))
  }

  /** The vectors an incremental run adds. */
  function Added(ix: Indexer, f: Faults, existing: map<string, string>, rows: seq<Row>): seq<Entry> {
    Landed(f, ChunkSet(ix, NewRows(ix, existing, rows) + ChangedRows(ix, existing, rows)))
  }

  /** The incremental run. */
  function Built(ix: Indexer, f: Faults, store: seq<Entry>, rows: seq<Row>): seq<Entry> {
    var existing := Existing(ix, store);
    var changed := ChangedRows(ix, existing, rows);
    var landed := Added(ix, f, existing, rows);
    Settled(ix, f, Swept(ix, f, store, Obsolete(ix, existing, rows)) + landed, changed, KeysOf(landed))
  }

  /** The full rebuild: returns before its DELETE when no row has anything to embed. */
  function Rebuilt(ix: Indexer, f: Faults, store: seq<Entry>, rows: seq<Row>): seq<Entry> {
    var wanted := NewRows(ix, map[], rows);
    if wanted == [] then store
    else
      (if f.wipe then store else Filter(store, (e: Entry) => e.index != ix.name)) +
      Landed(f, ChunkSet(ix, wanted))
  }
}
