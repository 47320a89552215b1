/** config.py: `${NAME}` references in strings, and the export of the merged
    configuration to the environment that they are read from. */
module Environment {
  import opened Strings

  type Env = map<string, string>

  // ---- references: \$\{([A-Za-z_][A-Za-z0-9_]*)\} ---------------------------------------

  predicate WordStart(c: char) {
    'A' <= c <= 'Z' || 'a' <= c <= 'z' || c == '_'
  }

  predicate WordChar(c: char) {
    WordStart(c) || '0' <= c <= '9'
  }

  function WordLen(t: string): (n: nat)
    ensures n <= |t|
  {
    if t == "" || !WordChar(t[0]) then 0 else 1 + WordLen(t[1..])
  }

  /** Length of the reference at the head of the text; 0 if there is none. */
  function RefLen(t: string): (n: nat)
    ensures n <= |t| && (n > 0 ==> n >= 4)
  {
    if |t| < 4 || t[0] != '$' || t[1] != '{' || !WordStart(t[2]) then 0
    else
      var n := WordLen(t[2..]);
      if 2 + n < |t| && t[2 + n] == '}' then 3 + n else 0
  }

  /** ENV_REF_PATTERN.sub: a variable that is not set leaves its reference. */
  function Expand(t: string, env: Env): string
    decreases |t|
  {
    if t == "" then ""
    else
      var n := RefLen(t);
      if n == 0 then [t[0]] + Expand(t[1..], env)
      else (if t[2..n - 1] in env then env[t[2..n - 1]] else t[..n]) + Expand(t[n..], env)
  }

  predicate HasRef(t: string) {
    t != "" && (RefLen(t) > 0 || HasRef(t[1..]))
  }

  lemma {:induction false} NoRefStays(t: string, env: Env)
    requires !HasRef(t)
    ensures Expand(t, env) == t
    decreases |t|
  {
    if t != "" {
      NoRefStays(t[1..], env);
      assert t == [t[0]] + t[1..];
    }
  }

  /** The first character, or the reference at the head. */
  function HeadLen(t: string): (n: nat)
    requires t != ""
    ensures 1 <= n <= |t|
  {
    if RefLen(t) == 0 then 1 else RefLen(t)
  }

  function HeadMeant(t: string, env: Env): string
    requires t != ""
  {
    var n := RefLen(t);
    if n == 0 then [t[0]] else if t[2..n - 1] in env then env[t[2..n - 1]] else t[..n]
  }

  lemma ExpandHead(t: string, env: Env)
    requires t != ""
    ensures Expand(t, env) == HeadMeant(t, env) + Expand(t[HeadLen(t)..], env)
  {
  }

  lemma Halves(t: string, n: nat)
    requires n <= |t|
    ensures t[..n] + t[n..] == t
  {
  }

  lemma {:induction false} NothingSetStays(t: string)
    ensures Expand(t, map[]) == t
    decreases |t|
  {
    if t != "" {
      ExpandHead(t, map[]);
      NothingSetStays(t[HeadLen(t)..]);
      assert t[..1] == [t[0]];
      Halves(t, HeadLen(t));
    }
  }

  lemma {:induction false} BlankShortens(t: string, name: string)
    ensures |Expand(t, map[name := ""])| <= |t|
    decreases |t|
  {
    if t != "" {
      BlankShortens(t[if RefLen(t) == 0 then 1 else RefLen(t)..], name);
    }
  }

  /** A text with a reference has an environment that changes it. */
  lemma {:induction false} RefChanges(t: string) returns (env: Env)
    requires HasRef(t)
    ensures |Expand(t, env)| < |t|
    decreases |t|
  {
    var n := RefLen(t);
    if n == 0 {
      env := RefChanges(t[1..]);
    } else {
      env := map[t[2..n - 1] := ""];
      BlankShortens(t[n..], t[2..n - 1]);
    }
  }

  /** The environment has no say in a text exactly when it holds no reference. */
  lemma FixedTextIff(t: string)
    ensures (forall a: Env, b: Env :: Expand(t, a) == Expand(t, b)) <==> !HasRef(t)
  {
    if HasRef(t) {
      var env := RefChanges(t);
      NothingSetStays(t);
      assert Expand(t, env) != Expand(t, map[]);
    } else {
      forall a: Env
        ensures Expand(t, a) == t
      {
        NoRefStays(t, a);
      }
    }
  }

  // ---- any number of references ----------------------------------------------------------

  predicate IsName(name: string) {
    name != "" && WordStart(name[0]) && forall i | 0 <= i < |name| :: WordChar(name[i])
  }

  /** A stretch of text, or a reference to a name. */
  datatype Part = Plain(text: string) | Ref(name: string)

  function Written(p: Part): string {
    match p
    case Plain(text) => text
    case Ref(name) => "${" + name + "}"
  }

  function Rendered(parts: seq<Part>): string {
    if parts == [] then "" else Written(parts[0]) + Rendered(parts[1..])
  }

  /** What a part stands for: a name that is not set stays as it is written. */
  function Meant(p: Part, env: Env): string {
    if p.Ref? && p.name in env then env[p.name] else Written(p)
  }

  function AllMeant(parts: seq<Part>, env: Env): string {
    if parts == [] then "" else Meant(parts[0], env) + AllMeant(parts[1..], env)
  }

  predicate WellFormed(p: Part) {
    if p.Ref? then IsName(p.name) else p.text != "" && !HasRef(p.text)
  }

  /** Names are names, stretches hold no reference, and no two stretches touch. */
  predicate Parted(parts: seq<Part>) {
    parts == [] ||
    (WellFormed(parts[0]) && Parted(parts[1..]) && (parts[0].Plain? && |parts| > 1 ==> parts[1].Ref?))
  }

  predicate AtDollar(t: string) {
    t == "" || t[0] == '$'
  }

  lemma {:induction false} WordStops(a: string, b: string)
    requires AtDollar(b)
    ensures WordLen(a + b) == WordLen(a)
  {
    if a == "" {
      assert a + b == b;
    } else {
      assert (a + b)[1..] == a[1..] + b;
      WordStops(a[1..], b);
    }
  }

  /** A reference that begins in one text does not run into the next at a '$'. */
  lemma RefStops(a: string, b: string)
    requires a != "" && AtDollar(b)
    ensures RefLen(a + b) == RefLen(a)
  {
    if |a| >= 2 {
      assert (a + b)[2..] == a[2..] + b;
      WordStops(a[2..], b);
    }
    if |a| == 2 || |a| == 3 {
      assert |a[2..]| == |a| - 2;
    }
  }

  lemma HeadStops(a: string, b: string, env: Env)
    requires a != "" && AtDollar(b)
    ensures HeadLen(a + b) == HeadLen(a) && HeadMeant(a + b, env) == HeadMeant(a, env)
    ensures (a + b)[HeadLen(a)..] == a[HeadLen(a)..] + b
  {
    RefStops(a, b);
    var n := RefLen(a);
    DropOfConcat(a, b, HeadLen(a));
    if n > 0 {
      SliceOfConcat(a, b, 2, n - 1);
      SliceOfConcat(a, b, 0, n);
    }
  }

  lemma SliceOfConcat(a: string, b: string, i: nat, j: nat)
    requires i <= j <= |a|
    ensures (a + b)[i..j] == a[i..j]
  {
  }

  lemma DropOfConcat(a: string, b: string, n: nat)
    requires n <= |a|
    ensures (a + b)[n..] == a[n..] + b
  {
  }

  /** Texts that meet at a '$' expand one by one. */
  lemma {:induction false} ExpandConcat(a: string, b: string, env: Env)
    requires AtDollar(b)
    ensures Expand(a + b, env) == Expand(a, env) + Expand(b, env)
    decreases |a|
  {
    if a == "" {
      assert a + b == b && "" + Expand(b, env) == Expand(b, env);
    } else {
      HeadStops(a, b, env);
      ExpandHead(a + b, env);
      ExpandHead(a, env);
      ExpandConcat(a[HeadLen(a)..], b, env);
      Regroup(HeadMeant(a, env), Expand(a[HeadLen(a)..], env), Expand(b, env));
    }
  }

  lemma Regroup(a: string, b: string, c: string)
    ensures (a + b) + c == a + (b + c)
  {
  }

  lemma {:induction false} NameLen(name: string, rest: string)
    requires forall i | 0 <= i < |name| :: WordChar(name[i])
    requires rest == "" || !WordChar(rest[0])
    ensures WordLen(name + rest) == |name|
  {
    if name == "" {
      assert name + rest == rest;
    } else {
      assert (name + rest)[1..] == name[1..] + rest;
      NameLen(name[1..], rest);
    }
  }

  /** A reference at the head of a text. */
  lemma ExpandRef(name: string, rest: string, env: Env)
    requires IsName(name)
    ensures Expand(Written(Ref(name)) + rest, env) == Meant(Ref(name), env) + Expand(rest, env)
  {
    var t := Written(Ref(name)) + rest;
    assert t[2..] == name + ("}" + rest);
    NameLen(name, "}" + rest);
    var n := 3 + |name|;
    assert t[2 + |name|] == '}' && RefLen(t) == n;
    assert t[2..n - 1] == name && t[..n] == Written(Ref(name)) && t[n..] == rest;
  }

  lemma RenderedStarts(parts: seq<Part>)
    requires Parted(parts) && (parts == [] || parts[0].Ref?)
    ensures AtDollar(Rendered(parts))
  {
  }

  /** Any number of references, set or not, between any stretches of text: each is
      replaced by its value, in place, and everything else stays. */
  lemma {:induction false} ExpandParts(parts: seq<Part>, env: Env)
    requires Parted(parts)
    ensures Expand(Rendered(parts), env) == AllMeant(parts, env)
  {
    if parts != [] {
      var p, rest := parts[0], Rendered(parts[1..]);
      ExpandParts(parts[1..], env);
      if p.Ref? {
        ExpandRef(p.name, rest, env);
      } else {
        RenderedStarts(parts[1..]);
        ExpandConcat(p.text, rest, env);
        NoRefStays(p.text, env);
      }
    }
  }

  /** And every text is of this form. */
  lemma {:induction false} EveryTextParts(t: string) returns (parts: seq<Part>)
    ensures Parted(parts) && Rendered(parts) == t
    decreases |t|
  {
    if t == "" {
      parts := [];
    } else if RefLen(t) > 0 {
      var rest := EveryTextParts(t[RefLen(t)..]);
      RefIsWritten(t);
      FrontedIs(Ref(t[2..RefLen(t) - 1]), rest, t, RefLen(t));
      parts := [Ref(t[2..RefLen(t) - 1])] + rest;
    } else {
      var rest := EveryTextParts(t[1..]);
      assert t == [t[0]] + t[1..];
      parts := Prepended(t[0], rest);
    }
  }

  /** One part more in front. */
  lemma Fronted(p: Part, rest: seq<Part>)
    requires WellFormed(p) && Parted(rest) && (p.Plain? ==> rest == [] || rest[0].Ref?)
    ensures Parted([p] + rest) && Rendered([p] + rest) == Written(p) + Rendered(rest)
  {
    assert ([p] + rest)[1..] == rest;
    if rest != [] { assert ([p] + rest)[1] == rest[0]; }
  }

  lemma FrontedIs(p: Part, rest: seq<Part>, t: string, n: nat)
    requires n <= |t| && p.Ref? && WellFormed(p) && Parted(rest) && Written(p) == t[..n] && Rendered(rest) == t[n..]
    ensures Parted([p] + rest) && Rendered([p] + rest) == t
  {
    Fronted(p, rest);
    Halves(t, n);
  }

  lemma RefIsWritten(t: string)
    requires RefLen(t) > 0
    ensures var name := t[2..RefLen(t) - 1]; IsName(name) && Written(Ref(name)) == t[..RefLen(t)]
  {
    WordIsName(t[2..]);
    assert t[2..RefLen(t) - 1] == t[2..][..WordLen(t[2..])];
  }

  lemma {:induction false} WordIsName(t: string)
    ensures forall i | 0 <= i < WordLen(t) :: WordChar(t[i])
  {
    if t != "" && WordChar(t[0]) {
      WordIsName(t[1..]);
      forall i | 0 <= i < WordLen(t)
        ensures WordChar(t[i])
      {
        if i > 0 { assert t[i] == t[1..][i - 1]; }
      }
    }
  }

  /** One character more in front. */
  lemma Prepended(c: char, rest: seq<Part>) returns (parts: seq<Part>)
    requires Parted(rest) && RefLen([c] + Rendered(rest)) == 0
    ensures Parted(parts) && Rendered(parts) == [c] + Rendered(rest)
  {
    if rest != [] && rest[0].Plain? {
      parts := Extended(c, rest[0].text, rest[1..]);
    } else {
      parts := Single(c, rest);
    }
  }

  lemma Single(c: char, rest: seq<Part>) returns (parts: seq<Part>)
    requires Parted(rest) && (rest == [] || rest[0].Ref?) && RefLen([c] + Rendered(rest)) == 0
    ensures Parted(parts) && Rendered(parts) == [c] + Rendered(rest)
  {
    RenderedStarts(rest);
    RefStops([c], Rendered(rest));
    assert [c][1..] == "" && !HasRef([c]);
    Fronted(Plain([c]), rest);
    parts := [Plain([c])] + rest;
  }

  lemma Extended(c: char, text: string, tail: seq<Part>) returns (parts: seq<Part>)
    requires Parted(tail) && (tail == [] || tail[0].Ref?) && text != "" && !HasRef(text)
    requires RefLen([c] + (text + Rendered(tail))) == 0
    ensures Parted(parts) && Rendered(parts) == [c] + (text + Rendered(tail))
  {
    var longer := [c] + text;
    RenderedStarts(tail);
    assert [c] + (text + Rendered(tail)) == longer + Rendered(tail);
    RefStops(longer, Rendered(tail));
    assert longer[1..] == text;
    Fronted(Plain(longer), tail);
    parts := [Plain(longer)] + tail;
  }

  lemma {:induction false} NoDollarNoRef(t: string)
    requires '$' !in t
    ensures !HasRef(t)
  {
    if t != "" {
      NoDollarNoRef(t[1..]);
    }
  }

  /** "${" occurs in the text. */
  predicate Placeholder(t: string) {
    |t| >= 2 && ((t[0] == '$' && t[1] == '{') || Placeholder(t[1..]))
  }

  lemma {:induction false} PlaceholderIff(t: string)
    ensures Placeholder(t) <==> Contains(t, "${")
    decreases |t|
  {
    if |t| >= 2 {
      PlaceholderIff(t[1..]);
      ContainsHeadOrTail(t);
    }
  }

  lemma ContainsHeadOrTail(t: string)
    requires |t| >= 2
    ensures Contains(t, "${") <==> (t[0] == '$' && t[1] == '{') || Contains(t[1..], "${")
  {
    if t[0] == '$' && t[1] == '{' {
      assert t[0..2] == "${";
      assert OccursAt(t, "${", 0);
    }
    if Contains(t[1..], "${") {
      ContainsShifted([t[0]], t[1..], "${");
      assert [t[0]] + t[1..] == t;
    }
    if i: nat :| OccursAt(t, "${", i) {
      OccursLater(t, i);
    }
  }

  lemma OccursLater(t: string, i: nat)
    requires |t| >= 2 && OccursAt(t, "${", i)
    ensures if i == 0 then t[0] == '$' && t[1] == '{' else OccursAt(t[1..], "${", i - 1)
  {
    assert t[i..i + 2][0] == t[i] && t[i..i + 2][1] == t[i + 1];
    if i > 0 {
      assert t[1..][i - 1..i + 1] == t[i..i + 2];
    }
  }

  /** What is exported holds no reference. */
  lemma {:induction false} NoPlaceholderNoRef(t: string)
    requires !Placeholder(t)
    ensures !HasRef(t)
    decreases |t|
  {
    if |t| >= 2 {
      NoPlaceholderNoRef(t[1..]);
    } else if |t| == 1 {
      assert t[1..] == "";
    }
  }
}
