/** config.py: the resolver, which merges the layers, exports them to the environment,
    applies the overlay, replaces references and checks the runtime table names. */
module Resolver {
  import opened Tables
  import opened Environment
  import opened Profiles

  type Dict = map<string, Json>

  datatype Resolution =
    | Resolved(cfg: Json)
    | BrokenSession      // session_manager.json does not parse
    | NoProfileFile
    | MissingKeys
    | ExtraKeys
    | UnknownMode
    | NotADict
    | WrongNames

  function ProdName(t: Table): string {
    match t
    case ConversationMessages => "agent_conversation_messages"
    case SessionMessages => "agent_session_messages"
    case SessionMeta => "agent_session_meta"
    case WorkerClaims => "agent_worker_claims"
    case GatewayLogs => "agent_gateway_logs"
    case QuestionRuns => "agent_question_runs"
  }

  /** EXPECTED_RUNTIME_TABLE_NAMES */
  function Expected(mode: string): Option<Table -> string> {
    if mode == "prod" then Some(ProdName)
    else if mode == "test" then Some((t: Table) => ProdName(t) + "_test")
    else None
  }

  /** validate_profile_overlay */
  function OverlayFault(overlay: Json): Option<Resolution> {
    if !(Owned() <= Leaves(overlay)) then Some(MissingKeys)
    else if !(Leaves(overlay) <= Owned()) then Some(ExtraKeys)
    else None
  }

  /** _resolve_env_refs */
  function Expanded(j: Json, env: Env): Json {
    match j
    case Text(t) => Text(Expand(t, env))
    case Scalar(_) => j
    case List(items) => List(seq(|items|, i requires 0 <= i < |items| => Expanded(items[i], env)))
    case Object(fields) => Object(map k | k in fields :: Expanded(fields[k], env))
  }

  function Child(j: Json, key: string): Json
    requires j.Object?
  {
    if key in j.fields then j.fields[key] else EMPTY
  }

  function NameAt(section: Json, key: string): Json {
    if section.Object? && key in section.fields then section.fields[key] else Text("")
  }

  /** What validate_runtime_isolation reads for a path: "" where it is absent. */
  function Actual(cfg: Json, path: Path): Json
    requires cfg.Object? && |path| == 3 && Child(cfg, path[0]).Object?
  {
    NameAt(Child(Child(cfg, path[0]), path[1]), path[2])
  }

  /** validate_runtime_isolation: six comparisons, after two lookups that raise when
      `channels` or `logging` is not a dict. */
  function Isolated(cfg: Json, mode: string): Resolution
    requires cfg.Object?
  {
    match Expected(mode)
    case None => UnknownMode
    case Some(names) =>
      if !Child(cfg, "channels").Object? || !Child(cfg, "logging").Object? then NotADict
      else
        SectionsOf(cfg);
        if forall t: Table :: Actual(cfg, PathOf(t)) == Text(names(t)) then Resolved(cfg) else WrongNames
  }

  lemma SectionsOf(cfg: Json)
    requires cfg.Object? && Child(cfg, "channels").Object? && Child(cfg, "logging").Object?
    ensures forall t: Table :: Child(cfg, PathOf(t)[0]).Object?
  {
  }

  function Layers(project: Dict, session: Dict, config: Dict, secrets: Dict): seq<Json> {
    [Object(project), Object(session), Object(config), Object(secrets)]
  }

  lemma {:induction false} StackedObject(layers: seq<Json>)
    requires forall j | j in layers :: j.Object?
    ensures Stacked(layers).Object?
  {
    if layers != [] {
      StackedObject(layers[..|layers| - 1]);
    }
  }

  /** The first four steps of the merge order. */
  method LoadLayers(project: Dict, session: Dict, config: Dict, secrets: Dict) returns (cfg: Json)
    ensures cfg == Stacked(Layers(project, session, config, secrets)) && cfg.Object?
  {
    cfg := DeepMerge(EMPTY, Object(project));
    cfg := DeepMerge(cfg, Object(session));
    cfg := DeepMerge(cfg, Object(config));
    cfg := DeepMerge(cfg, Object(secrets));
    FourLayers(Object(project), Object(session), Object(config), Object(secrets));
  }

  lemma FourLayers(a: Json, b: Json, c: Json, d: Json)
    ensures Stacked([a, b, c, d]) == Merged(Merged(Merged(Merged(EMPTY, a), b), c), d)
  {
    assert [a, b, c, d][..3] == [a, b, c] && [a, b, c][..2] == [a, b] && [a, b][..1] == [a] && [a][..0] == [];
    assert Stacked([a]) == Merged(EMPTY, a);
    assert Stacked([a, b]) == Merged(Stacked([a]), b);
    assert Stacked([a, b, c]) == Merged(Stacked([a, b]), c);
  }

  // ---- which file decides ------------------------------------------------------------------------

  /** A leaf of the secrets, else of config.json, else of session_manager.json, else of
      project.json; a later file that reaches the path or cuts it off stands in the way. */
  ghost predicate FileDecides(project: Dict, session: Dict, config: Dict, secrets: Dict, path: Path, leaf: Json) {
    At(Object(secrets), path) == Some(leaf) ||
    (Silent(Object(secrets), path) &&
     (At(Object(config), path) == Some(leaf) ||
      (Silent(Object(config), path) &&
       (At(Object(session), path) == Some(leaf) ||
        (Silent(Object(session), path) && At(Object(project), path) == Some(leaf))))))
  }

  /** The merged configuration, leaf by leaf: secrets over config.json over
      session_manager.json over project.json. */
  lemma FileOrderIff(project: Dict, session: Dict, config: Dict, secrets: Dict, path: Path, leaf: Json)
    requires !leaf.Object?
    ensures At(Stacked(Layers(project, session, config, secrets)), path) == Some(leaf) <==>
              FileDecides(project, session, config, secrets, path, leaf)
  {
    FourLayers(Object(project), Object(session), Object(config), Object(secrets));
    var a := Merged(EMPTY, Object(project));
    var b := Merged(a, Object(session));
    var c := Merged(b, Object(config));
    assert path != [] ==> At(EMPTY, path).None?;
    LeafMergedIff(EMPTY, Object(project), path, leaf);
    LeafMergedIff(a, Object(session), path, leaf);
    LeafMergedIff(b, Object(config), path, leaf);
    LeafMergedIff(c, Object(secrets), path, leaf);
  }

  lemma LeafMergedIff(base: Json, over: Json, path: Path, leaf: Json)
    requires !leaf.Object?
    ensures At(Merged(base, over), path) == Some(leaf) <==>
              At(over, path) == Some(leaf) || (Silent(over, path) && At(base, path) == Some(leaf))
  {
    MergedAt(base, over, path);
  }

  lemma ExpandedLeaf(j: Json, env: Env, path: Path, leaf: Json)
    requires !leaf.Object?
    ensures At(j, path) == Some(leaf) ==> At(Expanded(j, env), path) == Some(Expanded(leaf, env))
  {
    ExpandedAt(j, env, path);
  }

  /** And what a successful resolve hands out for it, with its references replaced; for
      the test profile where the overlay is silent. */
  lemma ResolvedLeaf(profile: string, project: Dict, session: Dict, config: Dict, secrets: Dict, overlay: Option<Dict>,
                     environ: Env, path: Path, leaf: Json)
    requires !leaf.Object? && FileDecides(project, session, config, secrets, path, leaf)
    requires profile != "prod" ==> overlay.Some? && Silent(Object(overlay.value), path)
    ensures var r := Outcome(profile, Layers(project, session, config, secrets), overlay, environ);
            r.Resolved? ==> At(r.cfg, path) == Some(Expanded(leaf, environ))
  {
    var layers := Layers(project, session, config, secrets);
    var cfg := Stacked(layers);
    StackedObject(layers);
    FileOrderIff(project, session, config, secrets, path, leaf);
    ExpandedLeaf(cfg, environ, path, leaf);
    if profile == "prod" {
      IsolatedKeeps(Expanded(cfg, environ), profile);
    } else {
      LeafMergedIff(cfg, Object(overlay.value), path, leaf);
      ExpandedLeaf(Merged(cfg, Object(overlay.value)), environ, path, leaf);
      IsolatedKeeps(Expanded(Merged(cfg, Object(overlay.value)), environ), profile);
    }
  }

  /** The check changes nothing. */
  lemma IsolatedKeeps(cfg: Json, mode: string)
    requires cfg.Object?
    ensures Isolated(cfg, mode).Resolved? ==> Isolated(cfg, mode).cfg == cfg
  {
  }

  // ---- the environment ------------------------------------------------------------------------

  /** str() of a value that is not a string, and str.upper(). */
  datatype Python = Python(str: Json -> string, upper: string -> string)

  function StrOf(py: Python, j: Json): string {
    if j.Text? then j.text else py.str(j)
  }

  function Sanitized(t: string): string {
    seq(|t|, i requires 0 <= i < |t| => if t[i] == ' ' || t[i] == '-' then '_' else t[i])
  }

  function Prefixed(prefix: string, key: string): string {
    if prefix != "" then prefix + "_" + key else key
  }

  /** The variable a path is exported as. */
  function EnvKey(py: Python, prefix: string, path: Path): string
    decreases path
  {
    if path == [] then py.upper(Sanitized(prefix)) else EnvKey(py, Prefixed(prefix, path[0]), path[1..])
  }

  /** The keys of a path with underscores between them. */
  function Underscored(path: Path): string {
    if path == [] then ""
    else if |path| == 1 then path[0]
    else Underscored(path[..|path| - 1]) + "_" + path[|path| - 1]
  }

  lemma {:induction false} UnderscoredFirst(key: string, path: Path)
    requires path != []
    ensures Underscored([key] + path) == key + "_" + Underscored(path)
    decreases |path|
  {
    var n := |path| - 1;
    var all := [key] + path;
    assert all[..n + 1] == [key] + path[..n] && all[n + 1] == path[n];
    assert Underscored(all) == Underscored([key] + path[..n]) + "_" + path[n];
    if n > 0 {
      UnderscoredFirst(key, path[..n]);
      Joins(key, Underscored(path[..n]), path[n]);
    } else {
      assert [key] + path[..0] == [key];
    }
  }

  lemma Joins(a: string, b: string, c: string)
    ensures (a + "_" + b) + "_" + c == a + "_" + (b + "_" + c)
  {
  }

  lemma {:induction false} EnvKeyBelow(py: Python, prefix: string, path: Path)
    requires prefix != ""
    ensures EnvKey(py, prefix, path) == py.upper(Sanitized(if path == [] then prefix else prefix + "_" + Underscored(path)))
    decreases path
  {
    if path != [] {
      EnvKeyBelow(py, Prefixed(prefix, path[0]), path[1..]);
      if |path| > 1 {
        assert path == [path[0]] + path[1..];
        UnderscoredFirst(path[0], path[1..]);
        assert prefix + "_" + path[0] + "_" + Underscored(path[1..]) == prefix + "_" + (path[0] + "_" + Underscored(path[1..]));
      }
    }
  }

  /** A leaf is exported under its keys joined by underscores, blanks and hyphens turned
      into underscores, in upper case. */
  lemma EnvKeyIs(py: Python, path: Path)
    requires path != [] && path[0] != ""
    ensures exists t: string ::
              EnvKey(py, "", path) == py.upper(t) && |t| == |Underscored(path)| &&
              forall i | 0 <= i < |t| :: t[i] == if Underscored(path)[i] in {' ', '-'} then '_' else Underscored(path)[i]
  {
    EnvKeyBelow(py, path[0], path[1..]);
    if |path| > 1 {
      assert path == [path[0]] + path[1..];
      UnderscoredFirst(path[0], path[1..]);
    }
    assert EnvKey(py, "", path) == py.upper(Sanitized(Underscored(path)));
  }

  predicate LeafAt(j: Json, path: Path) {
    At(j, path).Some? && !At(j, path).value.Object?
  }

  /** The leaf `path` of `j` is flattened to this variable with this value. */
  predicate GivenBy(py: Python, j: Json, prefix: string, path: Path, name: string, value: string) {
    LeafAt(j, path) && EnvKey(py, prefix, path) == name && StrOf(py, At(j, path).value) == value
  }

  ghost predicate Given(py: Python, j: Json, prefix: string, name: string, value: string) {
    exists path :: GivenBy(py, j, prefix, path, name, value)
  }

  /** Every leaf has its variable and every variable its leaf; which leaf, where names
      collide, the order of the dict decides. */
  ghost predicate Flattens(py: Python, j: Json, prefix: string, flat: Env) {
    (forall name | name in flat :: Given(py, j, prefix, name, flat[name])) &&
    (forall path | LeafAt(j, path) :: EnvKey(py, prefix, path) in flat)
  }

  lemma ChildLeaf(py: Python, j: Json, prefix: string, key: string, path: Path)
    requires j.Object? && key in j.fields
    ensures LeafAt(j, [key] + path) <==> LeafAt(j.fields[key], path)
    ensures LeafAt(j, [key] + path) ==> At(j, [key] + path) == At(j.fields[key], path)
    ensures EnvKey(py, prefix, [key] + path) == EnvKey(py, Prefixed(prefix, key), path)
  {
    assert ([key] + path)[1..] == path;
  }

  /** The keys `done` are flattened. */
  ghost predicate PartlyFlat(py: Python, d: Json, prefix: string, done: set<string>, flat: Env) {
    (forall name | name in flat :: Given(py, d, prefix, name, flat[name])) &&
    (forall path | LeafAt(d, path) && path != [] && path[0] in done :: EnvKey(py, prefix, path) in flat)
  }

  lemma FlatMore(py: Python, d: Json, prefix: string, done: set<string>, flat: Env, key: string, inner: Env)
    requires d.Object? && key in d.fields && PartlyFlat(py, d, prefix, done, flat)
    requires Flattens(py, d.fields[key], Prefixed(prefix, key), inner)
    ensures PartlyFlat(py, d, prefix, done + {key}, flat + inner)
  {
    var all := flat + inner;
    forall name | name in all
      ensures Given(py, d, prefix, name, all[name])
    {
      if name in inner {
        var path :| GivenBy(py, d.fields[key], Prefixed(prefix, key), path, name, inner[name]);
        ChildLeaf(py, d, prefix, key, path);
        assert GivenBy(py, d, prefix, [key] + path, name, all[name]);
      }
    }
    forall path | LeafAt(d, path) && path != [] && path[0] in done + {key}
      ensures EnvKey(py, prefix, path) in all
    {
      if path[0] == key {
        assert path == [key] + path[1..];
        ChildLeaf(py, d, prefix, key, path[1..]);
      }
    }
  }

  lemma LeafFlat(py: Python, j: Json, prefix: string)
    requires !j.Object?
    ensures Flattens(py, j, prefix, map[py.upper(Sanitized(prefix)) := StrOf(py, j)])
  {
    var flat := map[py.upper(Sanitized(prefix)) := StrOf(py, j)];
    forall name | name in flat
      ensures Given(py, j, prefix, name, flat[name])
    {
      assert GivenBy(py, j, prefix, [], name, flat[name]);
    }
  }

  /** _flatten_env; the items come in any order. */
  method FlattenEnv(py: Python, d: Json, prefix: string) returns (flat: Env)
    requires d.Object?
    ensures Flattens(py, d, prefix, flat)
    decreases d
  {
    flat := map[];
    var todo := d.fields.Keys;
    while todo != {}
      invariant todo <= d.fields.Keys
      invariant PartlyFlat(py, d, prefix, d.fields.Keys - todo, flat)
      decreases |todo|
    {
      var key :| key in todo;
      var v, p := d.fields[key], Prefixed(prefix, key);
      ghost var done := d.fields.Keys - todo;
      var inner;
      if v.Object? {
        inner := FlattenEnv(py, v, p);
      } else {
        inner := map[py.upper(Sanitized(p)) := StrOf(py, v)];
        LeafFlat(py, v, p);
      }
      FlatMore(py, d, prefix, done, flat, key, inner);
      flat := flat + inner;
      todo := todo - {key};
      assert d.fields.Keys - todo == done + {key};
    }
    forall path | LeafAt(d, path)
      ensures path != [] && path[0] in d.fields.Keys - todo
    {
    }
  }

  /** What the export makes of the environment: what was set stays; a flattened value
      without "${" is added under a name that was not. */
  ghost predicate Exports(py: Python, cfg: Json, env: Env, after: Env) {
    (forall name | name in env :: name in after && after[name] == env[name]) &&
    (forall name | name in after && name !in env ::
       !Placeholder(after[name]) && Given(py, cfg, "", name, after[name])) &&
    (forall path | LeafAt(cfg, path) && EnvKey(py, "", path) !in after ::
       exists value :: Given(py, cfg, "", EnvKey(py, "", path), value) && Placeholder(value))
  }

  /** setdefault for each flattened value without "${", in any order. */
  method SetDefaults(flat: Env, env: Env) returns (after: Env)
    ensures forall name | name in env :: name in after && after[name] == env[name]
    ensures forall name | name in after && name !in env :: name in flat && after[name] == flat[name] && !Placeholder(after[name])
    ensures forall name | name in flat && name !in after :: Placeholder(flat[name])
  {
    after := env;
    var todo := flat.Keys;
    while todo != {}
      invariant todo <= flat.Keys
      invariant forall name | name in env :: name in after && after[name] == env[name]
      invariant forall name | name in after && name !in env :: name in flat && after[name] == flat[name] && !Placeholder(after[name])
      invariant forall name | name in flat && name !in todo && name !in after :: Placeholder(flat[name])
      decreases |todo|
    {
      var name :| name in todo;
      if !Placeholder(flat[name]) && name !in after {
        after := after[name := flat[name]];
      }
      todo := todo - {name};
    }
  }

  lemma DefaultsExport(py: Python, cfg: Json, env: Env, flat: Env, after: Env)
    requires Flattens(py, cfg, "", flat)
    requires forall name | name in env :: name in after && after[name] == env[name]
    requires forall name | name in after && name !in env :: name in flat && after[name] == flat[name] && !Placeholder(after[name])
    requires forall name | name in flat && name !in after :: Placeholder(flat[name])
    ensures Exports(py, cfg, env, after)
  {
    forall path | LeafAt(cfg, path) && EnvKey(py, "", path) !in after
      ensures exists value :: Given(py, cfg, "", EnvKey(py, "", path), value) && Placeholder(value)
    {
      var name := EnvKey(py, "", path);
      assert Given(py, cfg, "", name, flat[name]) && Placeholder(flat[name]);
    }
  }

  /** _export_secrets_to_env */
  method ExportSecrets(py: Python, cfg: Json, env: Env) returns (after: Env)
    requires cfg.Object?
    ensures Exports(py, cfg, env, after)
  {
    var flat := FlattenEnv(py, cfg, "");
    after := SetDefaults(flat, env);
    DefaultsExport(py, cfg, env, flat, after);
  }

  /** resolve_application_config.  An absent or unreadable project.json, config.json
      or overlay is an empty dict; `session` is None when session_manager.json does
      not parse, and `overlay` when the profile file does not exist. */
  method Resolve(py: Python, profile: string, project: Dict, session: Option<Dict>, config: Dict, secrets: Dict,
                 overlay: Option<Dict>, env: Env)
    returns (r: Resolution, environ: Env)
    ensures session.None? ==> r.BrokenSession? && environ == env
    ensures session.Some? ==>
              var layers := Layers(project, session.value, config, secrets);
              Exports(py, Stacked(layers), env, environ) && r == Outcome(profile, layers, overlay, environ)
    ensures session.Some? && profile == "prod" && r.Resolved? ==>
              forall path, leaf: Json | !leaf.Object? && FileDecides(project, session.value, config, secrets, path, leaf) ::
                At(r.cfg, path) == Some(Expanded(leaf, environ))
  {
    if session.None? {
      return BrokenSession, env;
    }
    var cfg := LoadLayers(project, session.value, config, secrets);
    environ := ExportSecrets(py, cfg, env);
    if profile != "prod" {
      if overlay.None? {
        return NoProfileFile, environ;
      }
      var fault := OverlayFault(Object(overlay.value));
      if fault.Some? {
        return fault.value, environ;
      }
      cfg := DeepMerge(cfg, Object(overlay.value));
    }
    cfg := Expanded(cfg, environ);
    r := Isolated(cfg, profile);
    if profile == "prod" {
      ResolvedLeaves(project, session.value, config, secrets, environ);
    }
  }

  lemma ResolvedLeaves(project: Dict, session: Dict, config: Dict, secrets: Dict, environ: Env)
    ensures var r := Outcome("prod", Layers(project, session, config, secrets), None, environ);
            r.Resolved? ==>
              forall path, leaf: Json | !leaf.Object? && FileDecides(project, session, config, secrets, path, leaf) ::
                At(r.cfg, path) == Some(Expanded(leaf, environ))
  {
    forall path, leaf: Json | !leaf.Object? && FileDecides(project, session, config, secrets, path, leaf)
      ensures var r := Outcome("prod", Layers(project, session, config, secrets), None, environ);
              r.Resolved? ==> At(r.cfg, path) == Some(Expanded(leaf, environ))
    {
      ResolvedLeaf("prod", project, session, config, secrets, None, environ, path, leaf);
    }
  }

  /** The outcome, with the environment the references are read from. */
  function Outcome(profile: string, layers: seq<Json>, overlay: Option<Dict>, environ: Env): Resolution
    requires forall j | j in layers :: j.Object?
  {
    StackedObject(layers);
    var cfg := Stacked(layers);
    if profile == "prod" then Isolated(Expanded(cfg, environ), profile)
    else if overlay.None? then NoProfileFile
    else
      var fault := OverlayFault(Object(overlay.value));
      if fault.Some? then fault.value
      else Isolated(Expanded(Merged(cfg, Object(overlay.value)), environ), profile)
  }

  // ---- isolation --------------------------------------------------------------------------------------

  lemma {:induction false} ExpandedAt(j: Json, env: Env, path: Path)
    ensures At(Expanded(j, env), path) == match At(j, path) case None => None case Some(x) => Some(Expanded(x, env))
    decreases path
  {
    if path != [] && j.Object? && path[0] in j.fields {
      ExpandedAt(j.fields[path[0]], env, path[1..]);
    }
  }

  /** Expansion reaches into lists, item by item, and leaves other scalars alone. */
  lemma ExpandedItems(items: seq<Json>, env: Env, id: nat)
    ensures Expanded(Scalar(id), env) == Scalar(id)
    ensures Expanded(List(items), env).List? && |Expanded(List(items), env).items| == |items|
    ensures forall i | 0 <= i < |items| :: Expanded(List(items), env).items[i] == Expanded(items[i], env)
  {
  }

  /** The table's key holds this name. */
  ghost predicate Named(cfg: Json, t: Table, name: string) {
    At(cfg, PathOf(t)) == Some(Text(name))
  }

  lemma AtThree(cfg: Json, a: string, b: string, c: string)
    requires cfg.Object?
    ensures At(cfg, [a, b, c]) ==
              (if !Child(cfg, a).Object? || !Child(Child(cfg, a), b).Object? then None
               else if c in Child(Child(cfg, a), b).fields then Some(NameAt(Child(Child(cfg, a), b), c))
               else None)
  {
    assert [a, b, c][1..] == [b, c] && [b, c][1..] == [c] && [c][1..] == [];
    assert At(cfg, [a, b, c]) == if a in cfg.fields then At(cfg.fields[a], [b, c]) else None;
    if a in cfg.fields {
      var x := cfg.fields[a];
      assert At(x, [b, c]) == if x.Object? && b in x.fields then At(x.fields[b], [c]) else None;
      if x.Object? && b in x.fields {
        var y := x.fields[b];
        assert At(y, [c]) == if y.Object? && c in y.fields then At(y.fields[c], []) else None;
      }
    }
  }

  /** One line of the check. */
  ghost predicate Passes(cfg: Json, t: Table, name: string)
    requires cfg.Object?
  {
    Child(cfg, PathOf(t)[0]).Object? && Actual(cfg, PathOf(t)) == Text(name)
  }

  lemma ActualIff(cfg: Json, t: Table, name: string)
    requires cfg.Object? && name != ""
    ensures Named(cfg, t, name) <==> Passes(cfg, t, name)
  {
    var p := PathOf(t);
    assert p == [p[0], p[1], p[2]];
    AtThree(cfg, p[0], p[1], p[2]);
  }

  lemma NamesGiven(mode: string, t: Table)
    requires Expected(mode).Some?
    ensures Expected(mode).value(t) != ""
  {
  }

  lemma PassesIff(cfg: Json, mode: string)
    requires cfg.Object? && Expected(mode).Some?
    ensures Isolated(cfg, mode).Resolved? <==> forall t: Table :: Passes(cfg, t, Expected(mode).value(t))
    ensures Isolated(cfg, mode).Resolved? ==> Isolated(cfg, mode).cfg == cfg
  {
    var names := Expected(mode).value;
    if forall t: Table :: Passes(cfg, t, names(t)) {
      assert Passes(cfg, ConversationMessages, names(ConversationMessages));
      assert Passes(cfg, GatewayLogs, names(GatewayLogs));
    }
    if Isolated(cfg, mode).Resolved? {
      SectionsOf(cfg);
    }
  }

  /** The check passes exactly when all six keys hold the expected names. */
  lemma IsolatedIff(cfg: Json, mode: string)
    requires cfg.Object? && Expected(mode).Some?
    ensures Isolated(cfg, mode).Resolved? <==> forall t: Table :: Named(cfg, t, Expected(mode).value(t))
    ensures Isolated(cfg, mode).Resolved? ==> Isolated(cfg, mode).cfg == cfg
  {
    var names := Expected(mode).value;
    forall t: Table
      ensures Named(cfg, t, names(t)) <==> Passes(cfg, t, names(t))
    {
      NamesGiven(mode, t);
      ActualIff(cfg, t, names(t));
    }
    PassesIff(cfg, mode);
  }

  /** A successful resolve has exactly the six expected names, in either profile. */
  lemma ResolvedHasTheNames(profile: string, layers: seq<Json>, overlay: Option<Dict>, environ: Env)
    requires forall j | j in layers :: j.Object?
    requires Outcome(profile, layers, overlay, environ).Resolved?
    ensures Expected(profile).Some?
    ensures forall t: Table :: Named(Outcome(profile, layers, overlay, environ).cfg, t, Expected(profile).value(t))
  {
    StackedObject(layers);
    var cfg := Stacked(layers);
    if profile == "prod" {
      IsolatedIff(Expanded(cfg, environ), profile);
    } else {
      IsolatedIff(Expanded(Merged(cfg, Object(overlay.value)), environ), profile);
    }
  }

  /** An overlay's text for a table, once its references are replaced, is the name. */
  ghost predicate Reads(overlay: Json, t: Table, environ: Env, name: string) {
    At(overlay, PathOf(t)).Some? && At(overlay, PathOf(t)).value.Text? &&
    Expand(At(overlay, PathOf(t)).value.text, environ) == name
  }

  lemma OverlayRead(base: Json, overlay: Json, environ: Env, t: Table, name: string)
    requires Leaves(overlay) == Owned()
    ensures Named(Expanded(Merged(base, overlay), environ), t, name) <==> Reads(overlay, t, environ, name)
  {
    assert PathOf(t) in Owned();
    OverlayDominates(base, overlay, PathOf(t));
    ExpandedAt(Merged(base, overlay), environ, PathOf(t));
  }

  /** The test profile resolves exactly when the overlay file holds the six owned
      leaves and nothing else, and they read as the expected names in the
      environment: the lower layers count only through what they export to it. */
  lemma TestResolvesIff(layers: seq<Json>, overlay: Option<Dict>, environ: Env)
    requires forall j | j in layers :: j.Object?
    ensures Outcome("test", layers, overlay, environ).Resolved? <==>
            && overlay.Some?
            && Leaves(Object(overlay.value)) == Owned()
            && forall t: Table :: Reads(Object(overlay.value), t, environ, Expected("test").value(t))
  {
    StackedObject(layers);
    if overlay.Some? && Leaves(Object(overlay.value)) == Owned() {
      var over := Object(overlay.value);
      IsolatedIff(Expanded(Merged(Stacked(layers), over), environ), "test");
      forall t: Table
        ensures Named(Expanded(Merged(Stacked(layers), over), environ), t, Expected("test").value(t)) <==>
                  Reads(over, t, environ, Expected("test").value(t))
      {
        OverlayRead(Stacked(layers), over, environ, t, Expected("test").value(t));
      }
    }
  }

  /** The six names of a mode are six tables. */
  lemma NamesDiffer(t: Table, u: Table)
    requires t != u
    ensures ProdName(t) != ProdName(u)
  {
    assert |ProdName(t)| != |ProdName(u)| || ProdName(t)[6] != ProdName(u)[6];
  }

  /** No name of the one mode is a name of the other. */
  lemma ModesDiffer(t: Table, u: Table)
    ensures ProdName(t) != ProdName(u) + "_test"
  {
    var a, b := ProdName(t), ProdName(u) + "_test";
    assert b[|b| - 1] == 't' && a[|a| - 1] != 't';
  }

  /** Whatever the files and the environments of two processes: if one resolves for
      production and the other for test, they share no runtime table, and neither uses
      one table twice. */
  lemma ModesNeverShare(prodLayers: seq<Json>, prodEnv: Env, testLayers: seq<Json>, overlay: Option<Dict>, testEnv: Env,
                        t: Table, u: Table)
    requires (forall j | j in prodLayers :: j.Object?) && (forall j | j in testLayers :: j.Object?)
    requires Outcome("prod", prodLayers, None, prodEnv).Resolved? && Outcome("test", testLayers, overlay, testEnv).Resolved?
    ensures var prod, test := Outcome("prod", prodLayers, None, prodEnv).cfg, Outcome("test", testLayers, overlay, testEnv).cfg;
            && At(prod, PathOf(t)).Some? && At(test, PathOf(u)).Some? && At(prod, PathOf(t)) != At(test, PathOf(u))
            && (t != u ==> At(prod, PathOf(t)) != At(prod, PathOf(u)) && At(test, PathOf(t)) != At(test, PathOf(u)))
  {
    ProdHasTheNames(prodLayers, prodEnv, t);
    ProdHasTheNames(prodLayers, prodEnv, u);
    TestHasTheNames(testLayers, overlay, testEnv, t);
    TestHasTheNames(testLayers, overlay, testEnv, u);
    NamesNeverShare(t, u);
  }

  lemma ProdHasTheNames(layers: seq<Json>, environ: Env, t: Table)
    requires forall j | j in layers :: j.Object?
    requires Outcome("prod", layers, None, environ).Resolved?
    ensures At(Outcome("prod", layers, None, environ).cfg, PathOf(t)) == Some(Text(ProdName(t)))
  {
    ResolvedHasTheNames("prod", layers, None, environ);
    assert Named(Outcome("prod", layers, None, environ).cfg, t, Expected("prod").value(t));
  }

  lemma TestHasTheNames(layers: seq<Json>, overlay: Option<Dict>, environ: Env, t: Table)
    requires forall j | j in layers :: j.Object?
    requires Outcome("test", layers, overlay, environ).Resolved?
    ensures At(Outcome("test", layers, overlay, environ).cfg, PathOf(t)) == Some(Text(ProdName(t) + "_test"))
  {
    ResolvedHasTheNames("test", layers, overlay, environ);
    assert Named(Outcome("test", layers, overlay, environ).cfg, t, Expected("test").value(t));
  }

  lemma NamesNeverShare(t: Table, u: Table)
    ensures Text(ProdName(t)) != Text(ProdName(u) + "_test")
    ensures t != u ==> Text(ProdName(t)) != Text(ProdName(u)) && Text(ProdName(t) + "_test") != Text(ProdName(u) + "_test")
  {
    ModesDiffer(t, u);
    if t != u {
      NamesDiffer(t, u);
      SuffixCancels(ProdName(t), ProdName(u), "_test");
    }
  }

  lemma SuffixCancels(a: string, b: string, end: string)
    ensures a + end == b + end ==> a == b
  {
    if a + end == b + end {
      assert |a| == |b| && (a + end)[..|a|] == a && (b + end)[..|b|] == b;
    }
  }

  /** What is wrong with an overlay that is refused: first, that an owned path is not one
      of its leaves; else, that it has another leaf. */
  lemma OverlayFaultIff(overlay: Json)
    ensures OverlayFault(overlay).None? <==> Leaves(overlay) == Owned()
    ensures OverlayFault(overlay) == Some(MissingKeys) <==> exists t: Table :: PathOf(t) !in Leaves(overlay)
    ensures OverlayFault(overlay) == Some(ExtraKeys) <==>
              (forall t: Table :: PathOf(t) in Leaves(overlay)) && exists p :: p in Leaves(overlay) && p !in Owned()
  {
    assert forall t: Table :: PathOf(t) in Owned();
    assert forall p :: p in Owned() ==> exists t: Table :: PathOf(t) == p;
  }

  // ---- who decides the names --------------------------------------------------------------------------------

  /** The overlay's text for a table. */
  ghost predicate Says(overlay: Json, t: Table, text: string) {
    At(overlay, PathOf(t)) == Some(Text(text))
  }

  /** The name a valid overlay gives a table is the same in every environment, hence
      under every lower layer, exactly when its text holds no reference. */
  lemma OwnedNameIsFixedIff(base: Json, overlay: Json, t: Table, text: string)
    requires Leaves(overlay) == Owned() && Says(overlay, t, text)
    ensures (forall a: Env, b: Env ::
               At(Expanded(Merged(base, overlay), a), PathOf(t)) == At(Expanded(Merged(base, overlay), b), PathOf(t)))
            <==> !HasRef(text)
  {
    assert PathOf(t) in Owned();
    OverlayDominates(base, overlay, PathOf(t));
    FixedTextIff(text);
    forall a: Env
      ensures At(Expanded(Merged(base, overlay), a), PathOf(t)) == Some(Text(Expand(text, a)))
    {
      ExpandedAt(Merged(base, overlay), a, PathOf(t));
    }
    if HasRef(text) {
      var a: Env, b: Env :| Expand(text, a) != Expand(text, b);
      assert At(Expanded(Merged(base, overlay), a), PathOf(t)) != At(Expanded(Merged(base, overlay), b), PathOf(t));
    } else {
      forall a: Env, b: Env
        ensures At(Expanded(Merged(base, overlay), a), PathOf(t)) == At(Expanded(Merged(base, overlay), b), PathOf(t))
      {
        NoRefStays(text, a);
        NoRefStays(text, b);
      }
    }
  }

  lemma NamesHaveNoRef(t: Table)
    ensures !HasRef(Expected("test").value(t))
  {
    var name := ProdName(t);
    assert '$' !in name;
    NoDollarNoRef(name + "_test");
  }

  /** The test profile resolves whatever the lower layers and the environment hold,
      exactly when the overlay spells out the six names. */
  lemma AlwaysResolvesIff(overlay: Option<Dict>)
    ensures (forall layers: seq<Json>, environ: Env | (forall j | j in layers :: j.Object?) ::
               Outcome("test", layers, overlay, environ).Resolved?)
            <==>
            && overlay.Some?
            && Leaves(Object(overlay.value)) == Owned()
            && forall t: Table :: Says(Object(overlay.value), t, Expected("test").value(t))
  {
    if forall layers: seq<Json>, environ: Env | (forall j | j in layers :: j.Object?) ::
         Outcome("test", layers, overlay, environ).Resolved? {
      var none: seq<Json> := [];
      assert Outcome("test", none, overlay, map[]).Resolved?;
      TestResolvesIff(none, overlay, map[]);
      forall t: Table
        ensures Says(Object(overlay.value), t, Expected("test").value(t))
      {
        NothingSetStays(At(Object(overlay.value), PathOf(t)).value.text);
      }
    }
    if overlay.Some? && Leaves(Object(overlay.value)) == Owned() &&
       (forall t: Table :: Says(Object(overlay.value), t, Expected("test").value(t))) {
      forall layers: seq<Json>, environ: Env | (forall j | j in layers :: j.Object?)
        ensures Outcome("test", layers, overlay, environ).Resolved?
      {
        TestResolvesIff(layers, overlay, environ);
        forall t: Table
          ensures Reads(Object(overlay.value), t, environ, Expected("test").value(t))
        {
          assert Says(Object(overlay.value), t, Expected("test").value(t));
          NamesHaveNoRef(t);
          NoRefStays(Expected("test").value(t), environ);
        }
      }
    }
  }

  // ---- a lower layer that decides ---------------------------------------------------------------------------

  function Spelled(names: Table -> string): Json {
    Object(map[
      "channels" := Object(map["postgres" := Object(map[
        "table_name" := Text(names(ConversationMessages)),
        "messages_table" := Text(names(SessionMessages)),
        "meta_table" := Text(names(SessionMeta)),
        "claims_table" := Text(names(WorkerClaims))])]),
      "logging" := Object(map["db" := Object(map[
        "table_name" := Text(names(GatewayLogs)),
        "question_runs_table" := Text(names(QuestionRuns))])])])
  }

  lemma SpelledSays(names: Table -> string, t: Table)
    ensures Says(Spelled(names), t, names(t))
  {
    var p := PathOf(t);
    assert p == [p[0], p[1], p[2]];
    AtThree(Spelled(names), p[0], p[1], p[2]);
  }

  lemma SpelledOwned(names: Table -> string)
    ensures Leaves(Spelled(names)) == Owned()
  {
    var o := Spelled(names);
    forall p
      ensures p in Leaves(o) <==> p in Owned()
    {
      LeavesIff(o, p);
      if p in Owned() {
        var t: Table :| PathOf(t) == p;
        SpelledSays(names, t);
      } else if LeafAt(o, p) {
        SpelledLeaf(names, p);
      }
    }
  }

  lemma Down(j: Json, p: Path)
    requires j.Object? && LeafAt(j, p)
    ensures p != [] && p[0] in j.fields && LeafAt(j.fields[p[0]], p[1..])
  {
  }

  lemma SpelledLeaf(names: Table -> string, p: Path)
    requires LeafAt(Spelled(names), p)
    ensures exists t: Table :: PathOf(t) == p
  {
    var o := Spelled(names);
    Down(o, p);
    var a := o.fields[p[0]];
    Down(a, p[1..]);
    var b := a.fields[p[1]];
    Down(b, p[1..][1..]);
    assert p[1..][1..][1..] == [] && p == [p[0], p[1], p[2]];
    assert PathOf(ConversationMessages) == p || PathOf(SessionMessages) == p || PathOf(SessionMeta) == p ||
           PathOf(WorkerClaims) == p || PathOf(GatewayLogs) == p || PathOf(QuestionRuns) == p;
  }

  /** What the overlay below says: one name is left to the environment. */
  function OneReference(t: Table): string {
    if t == WorkerClaims then "${CT}" else ProdName(t) + "_test"
  }

  /** A lower layer with a key CT, and nothing else set. */
  function KeyCT(value: string): Json {
    Object(map["CT" := Text(value)])
  }

  lemma OntoEmpty(layer: Json)
    requires layer.Object?
    ensures Stacked([layer]) == layer
  {
    assert [layer][..0] == [] && Merged(EMPTY, layer).fields == layer.fields;
  }

  lemma CTExported(py: Python, value: string)
    requires py.upper("CT") == "CT" && !Placeholder(value)
    ensures Exports(py, Stacked([KeyCT(value)]), map[], map["CT" := value])
  {
    var cfg := KeyCT(value);
    OntoEmpty(cfg);
    assert Sanitized("CT") == "CT" && ["CT"][1..] == [];
    assert EnvKey(py, "", ["CT"]) == EnvKey(py, "CT", []) == "CT";
    assert At(cfg.fields["CT"], []) == Some(Text(value)) && GivenBy(py, cfg, "", ["CT"], "CT", value);
    forall path | LeafAt(cfg, path)
      ensures path == ["CT"]
    {
      Down(cfg, path);
      assert path[1..] == [];
    }
  }

  lemma CTRead(value: string)
    ensures Expand("${CT}", map["CT" := value]) == value
  {
    var t := "${CT}";
    assert t[2..] == "CT}" && t[2..][1..] == "T}" && t[2..][1..][1..] == "}";
    assert WordLen("}") == 0 && WordLen("T}") == 1 && WordLen(t[2..]) == 2 && RefLen(t) == 5;
    assert t[2..4] == "CT" && t[5..] == "";
  }

  lemma OneReferenceRead(t: Table, value: string)
    ensures Reads(Spelled(OneReference), t, map["CT" := value], Expected("test").value(t)) <==>
              (t == WorkerClaims ==> value == Expected("test").value(WorkerClaims))
  {
    SpelledSays(OneReference, t);
    if t == WorkerClaims {
      CTRead(value);
    } else {
      NamesHaveNoRef(t);
      NoRefStays(Expected("test").value(t), map["CT" := value]);
    }
  }

  /** With a reference in the overlay a lower layer can repair or break the test
      profile: the same overlay resolves, or not, by what the layer exports. */
  lemma LowerLayerDecides(py: Python, value: string)
    requires py.upper("CT") == "CT" && !Placeholder(value)
    ensures var layers, environ := [KeyCT(value)], map["CT" := value];
            Exports(py, Stacked(layers), map[], environ) &&
            (Outcome("test", layers, Some(Spelled(OneReference).fields), environ).Resolved? <==>
             value == Expected("test").value(WorkerClaims))
  {
    CTExported(py, value);
    SpelledOwned(OneReference);
    DecidedByOne([KeyCT(value)], Spelled(OneReference), map["CT" := value], value);
  }

  lemma DecidedByOne(layers: seq<Json>, overlay: Json, environ: Env, value: string)
    requires forall j | j in layers :: j.Object?
    requires overlay == Spelled(OneReference) && Leaves(overlay) == Owned() && environ == map["CT" := value]
    ensures Outcome("test", layers, Some(overlay.fields), environ).Resolved? <==> value == Expected("test").value(WorkerClaims)
  {
    TestResolvesIff(layers, Some(overlay.fields), environ);
    forall t: Table
      ensures Reads(overlay, t, environ, Expected("test").value(t)) <==>
                (t == WorkerClaims ==> value == Expected("test").value(WorkerClaims))
    {
      OneReferenceRead(t, value);
    }
    assert Reads(overlay, WorkerClaims, environ, Expected("test").value(WorkerClaims)) <==>
           value == Expected("test").value(WorkerClaims);
  }
}
