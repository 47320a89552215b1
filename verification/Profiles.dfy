/** config.py: layers of JSON merged in order, the profile overlay last, and the
    check of the overlay itself. */
module Profiles {
  import opened Tables

  /** A JSON value; Scalar stands for numbers, booleans and null. */
  datatype Json = Text(text: string) | Scalar(id: nat) | List(items: seq<Json>) | Object(fields: map<string, Json>)

  type Path = seq<string>

  const EMPTY := Object(map[])

  function At(j: Json, path: Path): Option<Json>
    decreases path
  {
    if path == [] then Some(j)
    else if j.Object? && path[0] in j.fields then At(j.fields[path[0]], path[1..])
    else None
  }

  // ---- _deep_merge ----------------------------------------------------------------------

  function Merged(base: Json, over: Json): Json
    decreases over, 1
  {
    if base.Object? && over.Object? then
      Object(map k | k in base.fields.Keys + over.fields.Keys ::
        if k in over.fields then MergedField(base, over, k) else base.fields[k])
    else over
  }

  function MergedField(base: Json, over: Json, key: string): Json
    requires base.Object? && over.Object? && key in over.fields
    decreases over, 0
  {
    if key in base.fields then Merged(base.fields[key], over.fields[key]) else over.fields[key]
  }

  /** The base once the keys `done` of the override have been merged into it. */
  ghost function Partly(base: Json, over: Json, done: set<string>): map<string, Json>
    requires base.Object? && over.Object? && done <= over.fields.Keys
  {
    map k | k in base.fields.Keys + done :: if k in done then MergedField(base, over, k) else base.fields[k]
  }

  lemma PartlyStep(base: Json, over: Json, done: set<string>, key: string)
    requires base.Object? && over.Object? && done <= over.fields.Keys && key in over.fields
    ensures Partly(base, over, done + {key}) == Partly(base, over, done)[key := MergedField(base, over, key)]
  {
  }

  lemma PartlyEnds(base: Json, over: Json)
    requires base.Object? && over.Object?
    ensures Partly(base, over, {}) == base.fields
    ensures Object(Partly(base, over, over.fields.Keys)) == Merged(base, over)
  {
  }

  /** _deep_merge, key by key. */
  method DeepMerge(base: Json, over: Json) returns (merged: Json)
    requires base.Object? && over.Object?
    ensures merged == Merged(base, over)
    decreases over
  {
    var fields := base.fields;
    var todo := over.fields.Keys;
    PartlyEnds(base, over);
    assert over.fields.Keys - todo == {};
    while todo != {}
      invariant todo <= over.fields.Keys
      invariant fields == Partly(base, over, over.fields.Keys - todo)
      decreases |todo|
    {
      var k :| k in todo;
      ghost var done := over.fields.Keys - todo;
      PartlyStep(base, over, done, k);
      assert k in fields <==> k in base.fields;
      assert k in fields ==> fields[k] == base.fields[k];
      var v := over.fields[k];
      if v.Object? && k in fields && fields[k].Object? {
        v := DeepMerge(fields[k], v);
      }
      assert v == MergedField(base, over, k);
      fields := fields[k := v];
      todo := todo - {k};
      assert over.fields.Keys - todo == done + {k};
    }
    assert over.fields.Keys - todo == over.fields.Keys;
    merged := Object(fields);
  }

  /** A scalar of `over` lies strictly above the path. */
  ghost predicate Cut(over: Json, path: Path) {
    exists n | 0 <= n < |path| :: At(over, path[..n]).Some? && !At(over, path[..n]).value.Object?
  }

  lemma CutStep(over: Json, path: Path)
    requires path != [] && over.Object? && path[0] in over.fields
    ensures Cut(over, path) <==> Cut(over.fields[path[0]], path[1..])
  {
    var inner, rest := over.fields[path[0]], path[1..];
    forall n | 0 <= n < |rest|
      ensures At(over, path[..n + 1]) == At(inner, rest[..n])
    {
      assert path[..n + 1][1..] == rest[..n];
    }
    assert At(over, path[..0]) == Some(over);
    if n :| 0 <= n < |path| && At(over, path[..n]).Some? && !At(over, path[..n]).value.Object? {
      assert At(inner, rest[..n - 1]) == At(over, path[..n]);
    }
    if n :| 0 <= n < |rest| && At(inner, rest[..n]).Some? && !At(inner, rest[..n]).value.Object? {
      assert At(over, path[..n + 1]) == At(inner, rest[..n]);
    }
  }

  lemma CutHere(over: Json, path: Path)
    requires path != []
    ensures !over.Object? ==> Cut(over, path)
    ensures over.Object? && path[0] !in over.fields ==> !Cut(over, path)
  {
    assert At(over, path[..0]) == Some(over);
    if over.Object? && path[0] !in over.fields {
      forall n | 0 < n < |path|
        ensures At(over, path[..n]).None?
      {
        assert path[..n][0] == path[0];
      }
    }
  }

  /** The merge, path by path: the override decides every path it reaches, and cuts
      off what lies below its scalars; every other path keeps the base. */
  lemma {:induction false} MergedAt(base: Json, over: Json, path: Path)
    ensures At(Merged(base, over), path) ==
              match At(over, path)
              case Some(x) => Some(if At(base, path).Some? then Merged(At(base, path).value, x) else x)
              case None => if Cut(over, path) then None else At(base, path)
    decreases path
  {
    if path != [] {
      CutHere(over, path);
      if base.Object? && over.Object? && path[0] in over.fields {
        CutStep(over, path);
        if path[0] in base.fields {
          MergedAt(base.fields[path[0]], over.fields[path[0]], path[1..]);
        }
        if path[0] !in base.fields && At(over, path).None? {
          NothingBelow(over.fields[path[0]], path[1..]);
        }
      } else if !base.Object? && At(over, path).None? {
        assert At(base, path).None?;
      }
    }
  }

  lemma NothingBelow(over: Json, path: Path)
    ensures At(over, path).None? ==> path != []
  {
  }

  /** What a leaf of the base becomes. */
  lemma LeafKeptIff(base: Json, over: Json, path: Path)
    requires At(base, path).Some? && !At(base, path).value.Object?
    ensures At(Merged(base, over), path) == At(base, path)
            <==> (At(over, path) == At(base, path) || (At(over, path).None? && !Cut(over, path)))
  {
    MergedAt(base, over, path);
  }

  /** Every leaf of the merge is a leaf of one of the two. */
  lemma NoLeafInvented(base: Json, over: Json, path: Path)
    requires At(Merged(base, over), path).Some? && !At(Merged(base, over), path).value.Object?
    ensures At(Merged(base, over), path) in {At(base, path), At(over, path)}
  {
    MergedAt(base, over, path);
  }

  // ---- layers ------------------------------------------------------------------------------

  /** Layers merged in order onto an empty configuration. */
  function Stacked(layers: seq<Json>): Json {
    if layers == [] then EMPTY else Merged(Stacked(layers[..|layers| - 1]), layers[|layers| - 1])
  }

  /** The last layer that says anything about a leaf path decides it. */
  lemma {:induction false} LastLayerWins(layers: seq<Json>, i: nat, path: Path)
    requires i < |layers| && At(layers[i], path).Some? && !At(layers[i], path).value.Object?
    requires forall j | i < j < |layers| :: At(layers[j], path).None? && !Cut(layers[j], path)
    ensures At(Stacked(layers), path) == At(layers[i], path)
  {
    var n := |layers| - 1;
    MergedAt(Stacked(layers[..n]), layers[n], path);
    if i < n {
      LastLayerWins(layers[..n], i, path);
    }
  }

  /** The layer has nothing to say about the path: it neither reaches nor cuts it. */
  ghost predicate Silent(layer: Json, path: Path) {
    At(layer, path).None? && !Cut(layer, path)
  }

  /** The layer has this value at the path, and every later one is silent. */
  ghost predicate DecidedBy(layers: seq<Json>, i: nat, path: Path, leaf: Json) {
    i < |layers| && At(layers[i], path) == Some(leaf) && forall j | i < j < |layers| :: Silent(layers[j], path)
  }

  /** Every leaf of a stack, and nothing else, is decided by some layer. */
  lemma {:induction false} StackedLeafIff(layers: seq<Json>, path: Path, leaf: Json)
    requires !leaf.Object?
    ensures At(Stacked(layers), path) == Some(leaf) <==> exists i: nat :: DecidedBy(layers, i, path, leaf)
  {
    if layers != [] {
      var n := |layers| - 1;
      StackedLeafIff(layers[..n], path, leaf);
      MergedAt(Stacked(layers[..n]), layers[n], path);
      DecidedMore(layers, path, leaf);
    }
  }

  lemma DecidedMore(layers: seq<Json>, path: Path, leaf: Json)
    requires layers != []
    ensures var n := |layers| - 1;
            (exists i: nat :: DecidedBy(layers, i, path, leaf)) <==>
              At(layers[n], path) == Some(leaf) || (Silent(layers[n], path) && exists i: nat :: DecidedBy(layers[..n], i, path, leaf))
  {
    var n := |layers| - 1;
    if i: nat :| DecidedBy(layers, i, path, leaf) {
      if i < n { assert DecidedBy(layers[..n], i, path, leaf); }
    }
    if At(layers[n], path) == Some(leaf) { assert DecidedBy(layers, n, path, leaf); }
    if Silent(layers[n], path) {
      if i: nat :| DecidedBy(layers[..n], i, path, leaf) { assert DecidedBy(layers, i, path, leaf); }
    }
  }

  // ---- the overlay ----------------------------------------------------------------------------

  /** The six runtime tables. */
  datatype Table = ConversationMessages | SessionMessages | SessionMeta | WorkerClaims | GatewayLogs | QuestionRuns

  /** The configuration key that names a runtime table. */
  function PathOf(t: Table): (path: Path)
    ensures |path| == 3
  {
    match t
    case ConversationMessages => ["channels", "postgres", "table_name"]
    case SessionMessages => ["channels", "postgres", "messages_table"]
    case SessionMeta => ["channels", "postgres", "meta_table"]
    case WorkerClaims => ["channels", "postgres", "claims_table"]
    case GatewayLogs => ["logging", "db", "table_name"]
    case QuestionRuns => ["logging", "db", "question_runs_table"]
  }

  /** PROFILE_Owned()_RUNTIME_KEYS */
  function Owned(): set<Path> {
    set t: Table | true :: PathOf(t)
  }

  /** The paths _walk collects: those that end in a non-dict. */
  function Leaves(j: Json): set<Path> {
    if j.Object? then set k, p | k in j.fields && p in Leaves(j.fields[k]) :: [k] + p
    else {[]}
  }

  lemma {:induction false} LeavesIff(j: Json, path: Path)
    ensures path in Leaves(j) <==> At(j, path).Some? && !At(j, path).value.Object?
    decreases path
  {
    if j.Object? {
      if path != [] && path[0] in j.fields {
        LeavesIff(j.fields[path[0]], path[1..]);
        assert path == [path[0]] + path[1..];
      }
      forall k, p | k in j.fields && p in Leaves(j.fields[k]) && [k] + p == path
        ensures path != [] && path[0] == k && path[1..] == p
      {
        assert ([k] + p)[1..] == p;
      }
    }
  }

  /** A valid overlay decides all six owned paths, over every configuration. */
  lemma OverlayDominates(base: Json, overlay: Json, path: Path)
    requires Leaves(overlay) == Owned()
    ensures path in Owned() ==> At(Merged(base, overlay), path) == At(overlay, path) && At(overlay, path).Some?
    ensures path !in Owned() && At(base, path).Some? && !At(base, path).value.Object?
            && At(overlay, path).None? && !Cut(overlay, path)
            ==> At(Merged(base, overlay), path) == At(base, path)
  {
    LeavesIff(overlay, path);
    MergedAt(base, overlay, path);
  }

  lemma CutIff(overlay: Json, path: Path)
    requires Leaves(overlay) == Owned()
    ensures Cut(overlay, path) <==> exists q | q in Owned() :: q < path
  {
    if Cut(overlay, path) {
      var n :| 0 <= n < |path| && At(overlay, path[..n]).Some? && !At(overlay, path[..n]).value.Object?;
      LeavesIff(overlay, path[..n]);
      assert path[..n] < path;
    }
    forall q | q in Owned() && q < path
      ensures Cut(overlay, path)
    {
      LeavesIff(overlay, q);
      assert path[..|q|] == q;
    }
  }

  /** Exactly which foreign leaves a valid overlay leaves alone: those it has nothing
      at, neither a dict, empty or not, nor an owned key above them. */
  lemma ForeignLeafKeptIff(base: Json, overlay: Json, path: Path)
    requires Leaves(overlay) == Owned() && path !in Owned()
    requires At(base, path).Some? && !At(base, path).value.Object?
    ensures At(Merged(base, overlay), path) == At(base, path) <==>
              At(overlay, path).None? && !(exists q | q in Owned() :: q < path)
  {
    LeafKeptIff(base, overlay, path);
    LeavesIff(overlay, path);
    CutIff(overlay, path);
  }

  /** The check lets an empty dict through, and an empty dict replaces a scalar of the
      lower layers: a valid overlay can still change a key it does not own. */
  lemma EmptyDictEscapes(base: Json, overlay: Json, key: string)
    requires overlay.Object? && key !in overlay.fields
    requires base.Object? && key in base.fields && !base.fields[key].Object?
    ensures var wider := Object(overlay.fields[key := EMPTY]);
            Leaves(wider) == Leaves(overlay) &&
            At(Merged(base, wider), [key]) == Some(EMPTY) && At(base, [key]) != Some(EMPTY)
  {
    var wider := Object(overlay.fields[key := EMPTY]);
    assert [key][1..] == [];
    MergedAt(base, wider, [key]);
    assert At(wider, [key]) == At(EMPTY, []);
    forall p
      ensures p in Leaves(wider) <==> p in Leaves(overlay)
    {
      LeavesIff(wider, p);
      LeavesIff(overlay, p);
      if p != [] && p[0] == key {
        assert At(wider, p) == At(EMPTY, p[1..]);
      }
    }
  }
}
