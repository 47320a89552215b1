/** config.py, _strip_jsonc_comments: a character machine that removes // and block
    comments from JSON text, against a lexer that splits the text into pieces. */
module Jsonc {

  datatype Piece =
    | Plain(c: char)          // any character outside strings and comments
    | Literal(text: string)   // a string, quotes included; unterminated at the end of the text only
    | Line(text: string)      // from // up to, not including, the end of the line
    | Block(text: string)     // from /* through */, or to the end of the text

  function Text(p: Piece): string {
    match p
    case Plain(c) => [c]
    case Literal(t) => t
    case Line(t) => t
    case Block(t) => t
  }

  predicate Comment(p: Piece) {
    p.Line? || p.Block?
  }

  // ---- the lexer ------------------------------------------------------------------

  /** Length of a string body with its closing quote, after the opening quote. */
  function BodyLen(t: string): (n: nat)
    ensures n <= |t|
  {
    if t == "" then 0
    else if t[0] == '\\' && |t| > 1 then 2 + BodyLen(t[2..])
    else if t[0] == '"' then 1
    else 1 + BodyLen(t[1..])
  }

  function LineLen(t: string): (n: nat)
    ensures n <= |t|
  {
    if t == "" || t[0] == '\r' || t[0] == '\n' then 0 else 1 + LineLen(t[1..])
  }

  /** Length of the rest of a block comment with its end, after the opening. */
  function BlockLen(t: string): (n: nat)
    ensures n <= |t|
  {
    if t == "" then 0
    else if t[0] == '*' && |t| > 1 && t[1] == '/' then 2
    else 1 + BlockLen(t[1..])
  }

  function FirstLen(t: string): (n: nat)
    requires t != ""
    ensures 1 <= n <= |t|
  {
    if t[0] == '"' then 1 + BodyLen(t[1..])
    else if t[0] == '/' && |t| > 1 && t[1] == '/' then 2 + LineLen(t[2..])
    else if t[0] == '/' && |t| > 1 && t[1] == '*' then 2 + BlockLen(t[2..])
    else 1
  }

  function First(t: string): Piece
    requires t != ""
  {
    var text := t[..FirstLen(t)];
    if t[0] == '"' then Literal(text)
    else if t[0] == '/' && |t| > 1 && t[1] == '/' then Line(text)
    else if t[0] == '/' && |t| > 1 && t[1] == '*' then Block(text)
    else Plain(t[0])
  }

  function Lex(t: string): seq<Piece> {
    if t == "" then [] else [First(t)] + Lex(t[FirstLen(t)..])
  }

  function Flatten(ps: seq<Piece>): string {
    if ps == [] then "" else Text(ps[0]) + Flatten(ps[1..])
  }

  function Kept(ps: seq<Piece>): seq<Piece> {
    if ps == [] then [] else (if Comment(ps[0]) then [] else [ps[0]]) + Kept(ps[1..])
  }

  /** The text without its comments, piece by piece. */
  function Stripped(t: string): string {
    if t == "" then ""
    else (if Comment(First(t)) then "" else t[..FirstLen(t)]) + Stripped(t[FirstLen(t)..])
  }

  /** It is what the lexer keeps. */
  lemma {:induction false} StrippedIsKept(t: string)
    ensures Stripped(t) == Flatten(Kept(Lex(t)))
    decreases |t|
  {
    if t != "" {
      var rest := Lex(t[FirstLen(t)..]);
      StrippedIsKept(t[FirstLen(t)..]);
      assert Lex(t) == [First(t)] + rest;
      assert Lex(t)[1..] == rest;
      if Comment(First(t)) {
        assert Kept(Lex(t)) == [] + Kept(rest);
        assert Kept(Lex(t)) == Kept(rest);
      } else {
        assert Kept(Lex(t)) == [First(t)] + Kept(rest);
        assert Kept(Lex(t))[1..] == Kept(rest);
        assert t[..1] == [t[0]];
      }
    }
  }

  // ---- the character machine ------------------------------------------------------------

  /** What is still to be written when `t` is left to read. */
  ghost function Rest(t: string, inString: bool, inBlock: bool): string {
    if inBlock then Stripped(t[BlockLen(t)..])
    else if inString then t[..BodyLen(t)] + Stripped(t[BodyLen(t)..])
    else Stripped(t)
  }

  method Strip(text: string) returns (out: string)
    ensures out == Stripped(text)
  {
    out := "";
    var i, n := 0, |text|;
    var inString, inBlock := false, false;
    assert text[0..] == text;
    while i < n
      invariant 0 <= i <= n == |text| && !(inString && inBlock)
      invariant Stripped(text) == out + Rest(text[i..], inString, inBlock)
    {
      var emitted;
      i, inString, inBlock, emitted := Turn(text, i, inString, inBlock);
      Regroup(out, emitted, Rest(text[i..], inString, inBlock));
      out := out + emitted;
    }
    assert text[n..] == "" && Rest("", inString, inBlock) == "";
  }

  /** One turn of the loop: read one or two characters, or a whole line comment. */
  method Turn(text: string, at: nat, wasString: bool, wasBlock: bool)
    returns (i: nat, inString: bool, inBlock: bool, emitted: string)
    requires at < |text| && !(wasString && wasBlock)
    ensures at < i <= |text| && !(inString && inBlock)
    ensures Rest(text[at..], wasString, wasBlock) == emitted + Rest(text[i..], inString, inBlock)
  {
    i, inString, inBlock, emitted := at, wasString, wasBlock, "";
    if inBlock {
      i, inBlock := TurnInBlock(text, at);
    } else if inString {
      i, inString, emitted := TurnInString(text, at);
    } else {
      i, inString, inBlock, emitted := TurnOutside(text, at);
    }
  }

  method TurnInBlock(text: string, at: nat) returns (i: nat, inBlock: bool)
    requires at < |text|
    ensures at < i <= |text| && Rest(text[at..], false, true) == "" + Rest(text[i..], false, inBlock)
  {
    var next := if at + 1 < |text| then text[at + 1..at + 2] else "";
    Slices(text, at);
    if text[at] == '*' && next == "/" {
      BlockCloses(text[at..]);
      return at + 2, false;
    }
    BlockChar(text[at..]);
    return at + 1, true;
  }

  method TurnInString(text: string, at: nat) returns (i: nat, inString: bool, emitted: string)
    requires at < |text|
    ensures at < i <= |text| && Rest(text[at..], true, false) == emitted + Rest(text[i..], inString, false)
  {
    var c := text[at];
    var next := if at + 1 < |text| then text[at + 1..at + 2] else "";
    Slices(text, at);
    if c == '\\' && next != "" {
      BodyPair(text[at..]);
      return at + 2, true, [c] + next;
    }
    BodyChar(text[at..]);
    return at + 1, c != '"', [c];
  }

  method TurnOutside(text: string, at: nat) returns (i: nat, inString: bool, inBlock: bool, emitted: string)
    requires at < |text|
    ensures at < i <= |text| && !(inString && inBlock)
    ensures Rest(text[at..], false, false) == emitted + Rest(text[i..], inString, inBlock)
  {
    var c := text[at];
    var next := if at + 1 < |text| then text[at + 1..at + 2] else "";
    Slices(text, at);
    if c == '"' {
      StringOpens(text[at..]);
      return at + 1, true, false, [c];
    }
    if c == '/' && next == "/" {
      i := TurnLine(text, at);
      return i, false, false, "";
    }
    if c == '/' && next == "*" {
      BlockOpens(text[at..]);
      return at + 2, false, true, "";
    }
    PlainKept(text[at..]);
    return at + 1, false, false, [c];
  }

  method TurnLine(text: string, at: nat) returns (i: nat)
    requires at + 1 < |text| && text[at] == '/' && text[at + 1] == '/'
    ensures at < i <= |text| && Rest(text[at..], false, false) == "" + Rest(text[i..], false, false)
  {
    LineSkipped(text[at..]);
    i := SkipLine(text, at);
    assert text[at..][LineLen(text[at..])..] == text[i..];
  }

  /** The inner loop of a line comment. */
  method SkipLine(text: string, start: nat) returns (i: nat)
    requires start <= |text|
    ensures i == start + LineLen(text[start..]) <= |text|
  {
    i := start;
    while i < |text| && text[i] != '\r' && text[i] != '\n'
      invariant start <= i <= |text|
      invariant i - start + LineLen(text[i..]) == LineLen(text[start..])
    {
      assert text[i..][1..] == text[i + 1..];
      i := i + 1;
    }
  }

  lemma Slices(text: string, i: nat)
    requires i < |text|
    ensures text[i..][0] == text[i] && text[i..][1..] == text[i + 1..]
    ensures i + 1 < |text| ==>
              text[i..][1] == text[i + 1] && text[i + 1..i + 2] == [text[i + 1]] && text[i..][2..] == text[i + 2..] &&
              text[i..][..2] == [text[i]] + [text[i + 1]]
  {
  }

  lemma BlockCloses(t: string)
    requires |t| > 1 && t[0] == '*' && t[1] == '/'
    ensures Rest(t, false, true) == "" + Rest(t[2..], false, false)
  {
  }

  lemma BlockChar(t: string)
    requires t != "" && !(t[0] == '*' && |t| > 1 && t[1] == '/')
    ensures Rest(t, false, true) == "" + Rest(t[1..], false, true)
  {
    assert t[BlockLen(t)..] == t[1..][BlockLen(t[1..])..];
  }

  /** How the body of a string splits at its first character. */
  lemma BodySplit(t: string)
    requires t != ""
    ensures var k := if |t| > 1 && t[0] == '\\' then 2 else 1;
            var rest := if k == 1 && t[0] == '"' then 0 else BodyLen(t[k..]);
            BodyLen(t) == k + rest && t[..k + rest] == t[..k] + t[k..][..rest] && t[k + rest..] == t[k..][rest..]
  {
    var k := if |t| > 1 && t[0] == '\\' then 2 else 1;
    CutTwice(t, k, if k == 1 && t[0] == '"' then 0 else BodyLen(t[k..]));
  }

  lemma CutTwice(t: string, k: nat, n: nat)
    requires k + n <= |t|
    ensures t[..k + n] == t[..k] + t[k..][..n] && t[k + n..] == t[k..][n..]
  {
  }

  lemma BodyPair(t: string)
    requires |t| > 1 && t[0] == '\\'
    ensures Rest(t, true, false) == t[..2] + Rest(t[2..], true, false)
  {
    BodySplit(t);
    var rest := BodyLen(t[2..]);
    Regroup(t[..2], t[2..][..rest], Stripped(t[2..][rest..]));
  }

  lemma Regroup(a: string, b: string, c: string)
    ensures (a + b) + c == a + (b + c)
  {
  }

  lemma BodyChar(t: string)
    requires t != "" && !(|t| > 1 && t[0] == '\\')
    ensures Rest(t, true, false) == [t[0]] + Rest(t[1..], t[0] != '"', false)
  {
    assert t[..1] == [t[0]];
    if t[0] != '"' {
      var rest := BodyLen(t[1..]);
      BodySplit(t);
      Regroup(t[..1], t[1..][..rest], Stripped(t[1..][rest..]));
    }
  }

  lemma StringOpens(t: string)
    requires t != "" && t[0] == '"'
    ensures Rest(t, false, false) == [t[0]] + Rest(t[1..], true, false)
  {
    var k := BodyLen(t[1..]);
    assert Stripped(t) == t[..1 + k] + Stripped(t[1 + k..]);
    Prepend(t, k);
  }

  lemma Prepend(t: string, k: nat)
    requires t != "" && 1 + k <= |t|
    ensures t[..1 + k] + Stripped(t[1 + k..]) == [t[0]] + (t[1..][..k] + Stripped(t[1..][k..]))
  {
    assert t[..1] == [t[0]];
    CutTwice(t, 1, k);
    Regroup([t[0]], t[1..][..k], Stripped(t[1..][k..]));
  }

  lemma LineSkipped(t: string)
    requires |t| > 1 && t[0] == '/' && t[1] == '/'
    ensures Rest(t, false, false) == "" + Rest(t[LineLen(t)..], false, false)
  {
    assert t[1..][1..] == t[2..];
    assert LineLen(t) == 1 + LineLen(t[1..]) && LineLen(t[1..]) == 1 + LineLen(t[2..]);
  }

  lemma BlockOpens(t: string)
    requires |t| > 1 && t[0] == '/' && t[1] == '*'
    ensures Rest(t, false, false) == "" + Rest(t[2..], false, true)
  {
    assert t[2 + BlockLen(t[2..])..] == t[2..][BlockLen(t[2..])..];
  }

  lemma PlainKept(t: string)
    requires t != "" && First(t).Plain?
    ensures Rest(t, false, false) == [t[0]] + Rest(t[1..], false, false)
  {
    assert t[..1] == [t[0]];
  }

  // ---- the lexer is a faithful one ------------------------------------------------------------

  /** The rest of a string literal (section 7 of RFC 8259, control characters and
      unknown escapes let through): escaped pairs and plain characters, then the
      closing quote. */
  predicate ClosedBody(b: string) {
    if b == "" then false
    else if b[0] == '\\' then |b| > 1 && ClosedBody(b[2..])
    else if b[0] == '"' then |b| == 1
    else ClosedBody(b[1..])
  }

  predicate NoBreak(s: string) {
    forall i | 0 <= i < |s| :: s[i] != '\r' && s[i] != '\n'
  }

  /** "*" followed by "/" at position i. */
  predicate EndsBlock(s: string, i: nat) {
    i + 1 < |s| && s[i] == '*' && s[i + 1] == '/'
  }

  /** The first end of comment is the last thing in it. */
  predicate ClosedBlock(b: string) {
    |b| >= 2 && EndsBlock(b, |b| - 2) && forall i | 0 <= i < |b| - 2 :: !EndsBlock(b, i)
  }

  predicate OpenBlock(b: string) {
    forall i | 0 <= i < |b| :: !EndsBlock(b, i)
  }

  predicate AtBreak(rest: string) {
    rest == "" || rest[0] == '\r' || rest[0] == '\n'
  }

  /** Pieces as they may stand in front of `rest`: literals and block comments are
      closed or run to the very end, line comments end at a line break, and a plain
      character opens neither. */
  predicate PieceFits(p: Piece, rest: string) {
    match p
    case Plain(c) => c != '"' && (c == '/' && rest != "" ==> rest[0] != '/' && rest[0] != '*')
    case Literal(s) => s != "" && s[0] == '"' && (ClosedBody(s[1..]) || (rest == "" && BodyLen(s[1..]) == |s| - 1))
    case Line(s) => |s| >= 2 && s[0] == '/' && s[1] == '/' && NoBreak(s[2..]) && AtBreak(rest)
    case Block(s) => |s| >= 2 && s[0] == '/' && s[1] == '*' && (ClosedBlock(s[2..]) || (rest == "" && OpenBlock(s[2..])))
  }

  /** A split of a text into pieces each of which fits where it stands. */
  predicate Fits(ps: seq<Piece>) {
    ps == [] || (PieceFits(ps[0], Flatten(ps[1..])) && Fits(ps[1..]))
  }

  // ---- lengths, one direction -------------------------------------------------------------

  lemma {:induction false} ClosedBodyLen(b: string, rest: string)
    requires ClosedBody(b)
    ensures BodyLen(b + rest) == |b|
    decreases |b|
  {
    if b[0] == '\\' {
      assert (b + rest)[2..] == b[2..] + rest;
      ClosedBodyLen(b[2..], rest);
    } else if b[0] != '"' {
      assert (b + rest)[1..] == b[1..] + rest;
      ClosedBodyLen(b[1..], rest);
    }
  }

  lemma {:induction false} LineBodyLen(b: string, rest: string)
    requires NoBreak(b) && AtBreak(rest)
    ensures LineLen(b + rest) == |b|
    decreases |b|
  {
    if b == "" {
      assert b + rest == rest;
    } else {
      assert (b + rest)[1..] == b[1..] + rest;
      LineBodyLen(b[1..], rest);
    }
  }

  lemma {:induction false} ClosedBlockLen(b: string, rest: string)
    requires ClosedBlock(b)
    ensures BlockLen(b + rest) == |b|
    decreases |b|
  {
    if |b| > 2 {
      assert !EndsBlock(b, 0);
      assert (b + rest)[1..] == b[1..] + rest;
      assert forall i | 0 <= i < |b| - 1 :: EndsBlock(b[1..], i) <==> EndsBlock(b, i + 1);
      ClosedBlockLen(b[1..], rest);
    }
  }

  lemma {:induction false} OpenBlockLen(b: string)
    requires OpenBlock(b)
    ensures BlockLen(b) == |b|
    decreases |b|
  {
    if b != "" {
      assert !EndsBlock(b, 0);
      assert forall i | 0 <= i < |b| - 1 :: EndsBlock(b[1..], i) <==> EndsBlock(b, i + 1);
      OpenBlockLen(b[1..]);
    }
  }

  // ---- and the other ------------------------------------------------------------------------

  lemma {:induction false} BodyShape(b: string)
    ensures var k := BodyLen(b); ClosedBody(b[..k]) || k == |b|
    decreases |b|
  {
    if b != "" {
      if b[0] == '\\' && |b| > 1 {
        BodyShape(b[2..]);
        assert b[..2 + BodyLen(b[2..])][2..] == b[2..][..BodyLen(b[2..])];
      } else if b[0] != '"' {
        BodyShape(b[1..]);
        assert b[..1 + BodyLen(b[1..])][1..] == b[1..][..BodyLen(b[1..])];
      }
    }
  }

  lemma {:induction false} LineShape(b: string)
    ensures NoBreak(b[..LineLen(b)]) && AtBreak(b[LineLen(b)..])
    decreases |b|
  {
    if !AtBreak(b) {
      LineShape(b[1..]);
      assert b[..LineLen(b)] == [b[0]] + b[1..][..LineLen(b[1..])];
      assert b[LineLen(b)..] == b[1..][LineLen(b[1..])..];
    }
  }

  lemma {:induction false} BlockShape(b: string)
    ensures var k := BlockLen(b); ClosedBlock(b[..k]) || (k == |b| && OpenBlock(b))
    decreases |b|
  {
    if b != "" && !EndsBlock(b, 0) {
      BlockShape(b[1..]);
      var k := BlockLen(b[1..]);
      assert forall i | 0 <= i < |b| - 1 :: EndsBlock(b[1..], i) <==> EndsBlock(b, i + 1);
      if ClosedBlock(b[1..][..k]) {
        var z, tail := b[..1 + k], b[1..][..k];
        forall i | 0 <= i < |z| - 2
          ensures !EndsBlock(z, i)
        {
          if i > 0 { assert !EndsBlock(tail, i - 1); }
        }
        assert EndsBlock(tail, k - 2);
      } else {
        assert forall i | 0 <= i < |b| :: EndsBlock(b, i) ==> i > 0 && EndsBlock(b[1..], i - 1);
      }
    }
  }

  // ---- main results ------------------------------------------------------------------------------

  lemma {:induction false} LexFlattens(t: string)
    ensures Flatten(Lex(t)) == t
    decreases |t|
  {
    if t != "" {
      LexFlattens(t[FirstLen(t)..]);
      TextOfFirst(t);
      assert Lex(t)[1..] == Lex(t[FirstLen(t)..]);
    }
  }

  lemma TextOfFirst(t: string)
    requires t != ""
    ensures Text(First(t)) + t[FirstLen(t)..] == t
  {
    assert t[..1] == [t[0]];
    assert Text(First(t)) == t[..FirstLen(t)];
  }

  lemma FirstFits(t: string)
    requires t != ""
    ensures PieceFits(First(t), t[FirstLen(t)..])
  {
    var n := FirstLen(t);
    if t[0] == '"' {
      BodyShape(t[1..]);
      assert t[..n][1..] == t[1..][..n - 1];
      if n == |t| { assert t[..n][1..] == t[1..]; }
    } else if First(t).Line? {
      LineShape(t[2..]);
      assert t[..n][2..] == t[2..][..n - 2] && t[n..] == t[2..][n - 2..];
    } else if First(t).Block? {
      BlockShape(t[2..]);
      assert t[..n][2..] == t[2..][..n - 2];
      if n == |t| { assert t[..n][2..] == t[2..]; }
    }
  }

  /** The lexer splits every text into pieces that fit ... */
  lemma {:induction false} LexFits(t: string)
    ensures Fits(Lex(t)) && Flatten(Lex(t)) == t
    decreases |t|
  {
    LexFlattens(t);
    if t != "" {
      var rest := t[FirstLen(t)..];
      LexFits(rest);
      FirstFits(t);
      assert Lex(t) == [First(t)] + Lex(rest);
      assert Lex(t)[1..] == Lex(rest);
    }
  }

  lemma DropOfConcat(s: string, rest: string, k: nat)
    requires k <= |s|
    ensures (s + rest)[k..] == s[k..] + rest && (s + rest)[..|s|] == s && (s + rest)[|s|..] == rest
  {
  }

  lemma FirstOfFitting(p: Piece, rest: string)
    requires PieceFits(p, rest)
    ensures var t := Text(p) + rest; t != "" && First(t) == p && FirstLen(t) == |Text(p)| && t[FirstLen(t)..] == rest
  {
    DropOfConcat(Text(p), rest, |Text(p)|);
    match p
    case Plain(c) =>
    case Literal(s) =>
      DropOfConcat(s, rest, 1);
      if ClosedBody(s[1..]) { ClosedBodyLen(s[1..], rest); } else { assert s[1..] + rest == s[1..]; }
    case Line(s) =>
      DropOfConcat(s, rest, 2);
      LineBodyLen(s[2..], rest);
    case Block(s) =>
      DropOfConcat(s, rest, 2);
      if ClosedBlock(s[2..]) { ClosedBlockLen(s[2..], rest); } else { assert s[2..] + rest == s[2..]; OpenBlockLen(s[2..]); }
  }

  lemma LexOfFitting(p: Piece, rest: string)
    requires PieceFits(p, rest)
    ensures Lex(Text(p) + rest) == [p] + Lex(rest)
  {
    FirstOfFitting(p, rest);
  }

  /** ... and it is the only such split. */
  lemma {:induction false} LexUnique(ps: seq<Piece>)
    requires Fits(ps)
    ensures Lex(Flatten(ps)) == ps
    decreases |ps|
  {
    if ps != [] {
      LexOfFitting(ps[0], Flatten(ps[1..]));
      LexUnique(ps[1..]);
      assert ps == [ps[0]] + ps[1..];
    }
  }

  /** Dropping comments brings no two pieces together that could form another. */
  lemma {:induction false} KeptFits(ps: seq<Piece>)
    requires Fits(ps)
    ensures Fits(Kept(ps)) && (Flatten(ps) == "" ==> Flatten(Kept(ps)) == "")
    ensures ps != [] && !Comment(ps[0]) ==> Flatten(ps) != "" && Flatten(Kept(ps)) != "" && Flatten(Kept(ps))[0] == Flatten(ps)[0]
    ensures ps != [] && Comment(ps[0]) ==> Flatten(ps) != "" && Flatten(ps)[0] == '/' && |Flatten(ps)| > 1
    ensures forall i | 0 <= i < |Kept(ps)| :: !Comment(Kept(ps)[i])
    decreases |ps|
  {
    if ps != [] {
      var rest := ps[1..];
      KeptFits(rest);
      if Comment(ps[0]) {
        assert Kept(ps) == [] + Kept(rest);
        assert Kept(ps) == Kept(rest);
      } else {
        assert Kept(ps) == [ps[0]] + Kept(rest);
        assert Kept(ps)[1..] == Kept(rest);
      }
    }
  }

  lemma {:induction false} KeptOnce(ps: seq<Piece>)
    requires forall i | 0 <= i < |ps| :: !Comment(ps[i])
    ensures Kept(ps) == ps
    decreases |ps|
  {
    if ps != [] {
      KeptOnce(ps[1..]);
      assert ps == [ps[0]] + ps[1..];
    }
  }

  /** For every text: what comes out, read again, is exactly the plain characters
      and the string literals that went in, in order, and not one comment. */
  lemma StripKeepsPieces(t: string)
    ensures Lex(Stripped(t)) == Kept(Lex(t))
    ensures forall i | 0 <= i < |Lex(Stripped(t))| :: !Comment(Lex(Stripped(t))[i])
  {
    StrippedIsKept(t);
    LexFits(t);
    KeptFits(Lex(t));
    LexUnique(Kept(Lex(t)));
  }

  /** For every text: stripping twice is stripping once. */
  lemma StripIdempotent(t: string)
    ensures Stripped(Stripped(t)) == Stripped(t)
  {
    StripKeepsPieces(t);
    KeptOnce(Lex(Stripped(t)));
    StrippedIsKept(Stripped(t));
    StrippedIsKept(t);
  }

  /** Exactly when there is nothing to strip. */
  lemma StripIsIdentityIff(t: string)
    ensures Stripped(t) == t <==> forall i | 0 <= i < |Lex(t)| :: !Comment(Lex(t)[i])
  {
    if forall i | 0 <= i < |Lex(t)| :: !Comment(Lex(t)[i]) {
      StrippedIsKept(t);
      KeptOnce(Lex(t));
      LexFlattens(t);
    } else {
      StripKeepsPieces(t);
    }
  }

  // ---- what comes together --------------------------------------------------------------------

  /** How many pieces before the i-th are kept. */
  function Place(ps: seq<Piece>, i: nat): nat
    requires i <= |ps|
  {
    |Kept(ps[..i])|
  }

  lemma {:induction false} KeptConcat(a: seq<Piece>, b: seq<Piece>)
    ensures Kept(a + b) == Kept(a) + Kept(b)
    decreases |a|
  {
    if a == [] {
      assert a + b == b;
    } else {
      KeptConcat(a[1..], b);
      assert a + b == [a[0]] + (a[1..] + b);
      KeptFirst(a[0], a[1..]);
      KeptFirst(a[0], a[1..] + b);
      assert a == [a[0]] + a[1..];
    }
  }

  lemma KeptFirst(p: Piece, rest: seq<Piece>)
    ensures Kept([p] + rest) == (if Comment(p) then [] else [p]) + Kept(rest)
  {
    assert ([p] + rest)[1..] == rest;
  }

  predicate OnlyComments(ps: seq<Piece>) {
    forall p | p in ps :: Comment(p)
  }

  lemma {:induction false} KeptNoneIff(ps: seq<Piece>)
    ensures Kept(ps) == [] <==> OnlyComments(ps)
    decreases |ps|
  {
    if ps != [] {
      KeptNoneIff(ps[1..]);
      assert forall p :: p in ps <==> p == ps[0] || p in ps[1..];
    }
  }

  /** A kept piece is found at its place. */
  lemma KeptAt(ps: seq<Piece>, i: nat)
    requires i < |ps| && !Comment(ps[i])
    ensures Place(ps, i) < |Kept(ps)| && Kept(ps)[Place(ps, i)] == ps[i]
    ensures Kept(ps[..i + 1]) == Kept(ps[..i]) + [ps[i]]
  {
    var here := [ps[i]];
    assert here[1..] == [] && Kept(here) == here;
    assert ps[..i + 1] == ps[..i] + here && ps == ps[..i + 1] + ps[i + 1..];
    KeptConcat(ps[..i], here);
    KeptConcat(ps[..i + 1], ps[i + 1..]);
  }

  lemma PlacesBetween(ps: seq<Piece>, i: nat, j: nat)
    requires i < j < |ps| && !Comment(ps[i])
    ensures Place(ps, j) == Place(ps, i) + 1 + |Kept(ps[i + 1..j])|
  {
    KeptAt(ps, i);
    assert ps[..j] == ps[..i + 1] + ps[i + 1..j];
    KeptConcat(ps[..i + 1], ps[i + 1..j]);
  }

  /** For every text: two pieces that are kept stand side by side in what comes out
      exactly when nothing but comments stood between them. */
  lemma NeighboursIff(t: string, i: nat, j: nat)
    requires i < j < |Lex(t)| && !Comment(Lex(t)[i]) && !Comment(Lex(t)[j])
    ensures var ps, out := Lex(t), Lex(Stripped(t));
            && Place(ps, i) < Place(ps, j) < |out|
            && out[Place(ps, i)] == ps[i] && out[Place(ps, j)] == ps[j]
            && (Place(ps, j) == Place(ps, i) + 1 <==> OnlyComments(ps[i + 1..j]))
  {
    var ps := Lex(t);
    StripKeepsPieces(t);
    KeptAt(ps, i);
    KeptAt(ps, j);
    PlacesBetween(ps, i, j);
    KeptNoneIff(ps[i + 1..j]);
  }

  lemma StrippedFitting(p: Piece, rest: string)
    requires PieceFits(p, rest)
    ensures Stripped(Text(p) + rest) == (if Comment(p) then "" else Text(p)) + Stripped(rest)
  {
    FirstOfFitting(p, rest);
    DropOfConcat(Text(p), rest, 0);
    StrippedFirst(Text(p) + rest);
  }

  lemma StrippedFirst(t: string)
    requires t != ""
    ensures Stripped(t) == (if Comment(First(t)) then "" else t[..FirstLen(t)]) + Stripped(t[FirstLen(t)..])
  {
  }

  /** A comment between two pieces goes without a trace ... */
  lemma JoinedOverComment(a: Piece, b: Piece, c: Piece)
    requires !Comment(a) && Comment(b) && !Comment(c)
    requires PieceFits(a, Text(b) + Text(c)) && PieceFits(b, Text(c)) && PieceFits(c, "")
    ensures Stripped(Text(a) + (Text(b) + Text(c))) == Text(a) + Text(c)
  {
    StrippedFitting(c, "");
    assert Text(c) + "" == Text(c);
    StrippedFitting(b, Text(c));
    assert "" + Stripped(Text(c)) == Stripped(Text(c));
    StrippedFitting(a, Text(b) + Text(c));
  }

  /** ... so that two numbers become one. */
  lemma NumbersJoin()
    ensures Stripped("1/**/2") == "12"
  {
    var b := Block("/**/");
    assert "/**/"[2..] == "*/";
    assert EndsBlock("*/", 0) && ClosedBlock("*/");
    assert PieceFits(b, "2");
    assert "1" + ("/**/" + "2") == "1/**/2";
    JoinedOverComment(Plain('1'), b, Plain('2'));
  }
}
