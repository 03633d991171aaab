/** The placeholder substituter `_template` (dumper.js:111-115): a global
    `String.replace` of the pattern `{(\w+)}` whose replacement is
    `object[item] + '' || '{' + item + '}'`. */
module Templates {

  /** A character of the regular-expression class `\w`. */
  predicate IsWordChar(c: char) {
    ('a' <= c <= 'z') || ('A' <= c <= 'Z') || ('0' <= c <= '9') || c == '_'
  }

  predicate IsWord(s: string) {
    |s| > 0 && forall i :: 0 <= i < |s| ==> IsWordChar(s[i])
  }

  /** Length of the longest run of word characters in `t` starting at `i`. */
  function WordRun(t: string, i: nat): (n: nat)
    requires i <= |t|
    ensures i + n <= |t|
    ensures forall k :: i <= k < i + n ==> IsWordChar(t[k])
    ensures i + n == |t| || !IsWordChar(t[i + n])
    decreases |t| - i
  {
    if i < |t| && IsWordChar(t[i]) then 1 + WordRun(t, i + 1) else 0
  }

  /** The pattern `{\w+}` matches at position `i` of `t`: a `{`, a non-empty
      maximal run of word characters, then a `}`. A shorter run cannot be
      followed by `}`, so backtracking finds no other match. */
  predicate TokenAt(t: string, i: nat) {
    i < |t| && t[i] == '{' &&
    var n := WordRun(t, i + 1);
    n > 0 && i + 1 + n < |t| && t[i + 1 + n] == '}'
  }

  /** The replacement for the placeholder `{name}`: the field's string form
      when it is non-empty, the placeholder itself when it is empty, and the
      text `undefined` when the field is absent. */
  function Substitute(name: string, fields: map<string, string>): (r: string)
    ensures name !in fields ==> r == "undefined"
    ensures name in fields && fields[name] != "" ==> r == fields[name]
    ensures name in fields && fields[name] == "" ==> r == "{" + name + "}"
  {
    if name !in fields then "undefined"
    else if fields[name] == "" then "{" + name + "}"
    else fields[name]
  }

  /** Left-to-right scan: a token at the front is replaced and scanning
      resumes after its `}`; otherwise one character is copied. */
  function Template(t: string, fields: map<string, string>): string
    decreases |t|
  {
    if t == [] then []
    else if TokenAt(t, 0) then
      var n := WordRun(t, 1);
      Substitute(t[1..1 + n], fields) + Template(t[n + 2..], fields)
    else [t[0]] + Template(t[1..], fields)
  }

  /** A template seen as literal text and named holes: the reference reading
      against which the scanner is proved. */
  datatype Piece = Lit(text: string) | Hole(name: string)

  predicate WellFormedPiece(p: Piece) {
    match p
    case Lit(text) => '{' !in text
    case Hole(name) => IsWord(name)
  }

  predicate WellFormed(ps: seq<Piece>) {
    forall i :: 0 <= i < |ps| ==> WellFormedPiece(ps[i])
  }

  function PieceText(p: Piece): string {
    match p
    case Lit(text) => text
    case Hole(name) => "{" + name + "}"
  }

  /** The template text the pieces spell. */
  function Text(ps: seq<Piece>): string {
    if ps == [] then "" else PieceText(ps[0]) + Text(ps[1..])
  }

  function PieceFill(p: Piece, fields: map<string, string>): string {
    match p
    case Lit(text) => text
    case Hole(name) => Substitute(name, fields)
  }

  /** Each hole filled by `Substitute`, each literal kept. */
  function Fill(ps: seq<Piece>, fields: map<string, string>): string {
    if ps == [] then "" else PieceFill(ps[0], fields) + Fill(ps[1..], fields)
  }

  /** `Fill` distributes over concatenation of piece lists. */
  lemma {:induction false} FillAppend(ps: seq<Piece>, qs: seq<Piece>, f: map<string, string>)
    ensures Fill(ps + qs, f) == Fill(ps, f) + Fill(qs, f)
    decreases |ps|
  {
    if ps == [] {
      assert ps + qs == qs;
    } else {
      assert (ps + qs)[1..] == ps[1..] + qs;
      FillAppend(ps[1..], qs, f);
    }
  }

  lemma FillOne(p: Piece, f: map<string, string>)
    ensures Fill([p], f) == PieceFill(p, f)
  {
    assert [p][1..] == [];
  }

  /** `Fill` of a short piece list, spelled out. */
  lemma Fill3(a: Piece, b: Piece, c: Piece, f: map<string, string>)
    ensures Fill([a, b, c], f) == PieceFill(a, f) + PieceFill(b, f) + PieceFill(c, f)
  {
    assert [a, b, c] == [a, b] + [c];
    assert [a, b] == [a] + [b];
    FillAppend([a, b], [c], f);
    FillAppend([a], [b], f);
    FillOne(a, f);
    FillOne(b, f);
    FillOne(c, f);
  }

  lemma Fill5(a: Piece, b: Piece, c: Piece, d: Piece, e: Piece, f: map<string, string>)
    ensures Fill([a, b, c, d, e], f) == PieceFill(a, f) + PieceFill(b, f) + PieceFill(c, f) + PieceFill(d, f) + PieceFill(e, f)
  {
    assert [a, b, c, d, e] == [a, b, c] + [d] + [e];
    FillAppend([a, b, c] + [d], [e], f);
    FillAppend([a, b, c], [d], f);
    Fill3(a, b, c, f);
    FillOne(d, f);
    FillOne(e, f);
  }

  lemma Fill7(a: Piece, b: Piece, c: Piece, d: Piece, e: Piece, g: Piece, h: Piece, f: map<string, string>)
    ensures Fill([a, b, c, d, e, g, h], f) ==
      PieceFill(a, f) + PieceFill(b, f) + PieceFill(c, f) + PieceFill(d, f) + PieceFill(e, f) + PieceFill(g, f) + PieceFill(h, f)
  {
    assert [a, b, c, d, e, g, h] == [a, b, c, d, e] + [g] + [h];
    FillAppend([a, b, c, d, e] + [g], [h], f);
    FillAppend([a, b, c, d, e], [g], f);
    Fill5(a, b, c, d, e, f);
    FillOne(g, f);
    FillOne(h, f);
  }

  lemma Fill9(a: Piece, b: Piece, c: Piece, d: Piece, e: Piece, g: Piece, h: Piece, j: Piece, k: Piece, f: map<string, string>)
    ensures Fill([a, b, c, d, e, g, h, j, k], f) ==
      PieceFill(a, f) + PieceFill(b, f) + PieceFill(c, f) + PieceFill(d, f) + PieceFill(e, f) + PieceFill(g, f)
      + PieceFill(h, f) + PieceFill(j, f) + PieceFill(k, f)
  {
    assert [a, b, c, d, e, g, h, j, k] == [a, b, c, d, e, g, h] + [j] + [k];
    FillAppend([a, b, c, d, e, g, h] + [j], [k], f);
    FillAppend([a, b, c, d, e, g, h], [j], f);
    Fill7(a, b, c, d, e, g, h, f);
    FillOne(j, f);
    FillOne(k, f);
  }

  /** Brace-free text stays brace-free when joined; long literal runs are
      checked chunk by chunk through this. */
  lemma NoBraceAppend(a: string, b: string)
    requires '{' !in a && '{' !in b
    ensures '{' !in a + b
  {
    assert forall i :: 0 <= i < |a + b| ==> (a + b)[i] == (if i < |a| then a[i] else b[i - |a|]);
  }

  /** The scanner on a template of three, five, seven or nine well-formed
      pieces, spelled out. */
  lemma Template3(a: Piece, b: Piece, c: Piece, f: map<string, string>)
    requires WellFormedPiece(a) && WellFormedPiece(b) && WellFormedPiece(c)
    ensures Template(Text([a, b, c]), f) == PieceFill(a, f) + PieceFill(b, f) + PieceFill(c, f)
  {
    TemplateFill([a, b, c], f);
    Fill3(a, b, c, f);
  }

  lemma Template5(a: Piece, b: Piece, c: Piece, d: Piece, e: Piece, f: map<string, string>)
    requires WellFormedPiece(a) && WellFormedPiece(b) && WellFormedPiece(c) && WellFormedPiece(d) && WellFormedPiece(e)
    ensures Template(Text([a, b, c, d, e]), f) ==
      PieceFill(a, f) + PieceFill(b, f) + PieceFill(c, f) + PieceFill(d, f) + PieceFill(e, f)
  {
    TemplateFill([a, b, c, d, e], f);
    Fill5(a, b, c, d, e, f);
  }

  lemma Template7(a: Piece, b: Piece, c: Piece, d: Piece, e: Piece, g: Piece, h: Piece, f: map<string, string>)
    requires WellFormedPiece(a) && WellFormedPiece(b) && WellFormedPiece(c) && WellFormedPiece(d)
    requires WellFormedPiece(e) && WellFormedPiece(g) && WellFormedPiece(h)
    ensures Template(Text([a, b, c, d, e, g, h]), f) ==
      PieceFill(a, f) + PieceFill(b, f) + PieceFill(c, f) + PieceFill(d, f) + PieceFill(e, f) + PieceFill(g, f) + PieceFill(h, f)
  {
    TemplateFill([a, b, c, d, e, g, h], f);
    Fill7(a, b, c, d, e, g, h, f);
  }

  lemma Template9(a: Piece, b: Piece, c: Piece, d: Piece, e: Piece, g: Piece, h: Piece, j: Piece, k: Piece,
                  f: map<string, string>)
    requires WellFormedPiece(a) && WellFormedPiece(b) && WellFormedPiece(c) && WellFormedPiece(d) && WellFormedPiece(e)
    requires WellFormedPiece(g) && WellFormedPiece(h) && WellFormedPiece(j) && WellFormedPiece(k)
    ensures Template(Text([a, b, c, d, e, g, h, j, k]), f) ==
      PieceFill(a, f) + PieceFill(b, f) + PieceFill(c, f) + PieceFill(d, f) + PieceFill(e, f) + PieceFill(g, f)
      + PieceFill(h, f) + PieceFill(j, f) + PieceFill(k, f)
  {
    TemplateFill([a, b, c, d, e, g, h, j, k], f);
    Fill9(a, b, c, d, e, g, h, j, k, f);
  }

  /** Text where the pattern matches at none of its own positions is copied
      through unchanged, whatever follows it; this covers braces that open no
      placeholder, such as `{}` or `{a-b}`. */
  lemma {:induction false} LiteralPrefix(lit: string, rest: string, fields: map<string, string>)
    requires forall k :: 0 <= k < |lit| ==> !TokenAt(lit + rest, k)
    ensures Template(lit + rest, fields) == lit + Template(rest, fields)
    decreases |lit|
  {
    if lit != [] {
      var t := lit + rest;
      assert !TokenAt(t, 0);
      assert Template(t, fields) == [t[0]] + Template(t[1..], fields);
      assert t[0] == lit[0] && t[1..] == lit[1..] + rest;
      NoTokenTail(lit, rest);
      LiteralPrefix(lit[1..], rest, fields);
      assert lit == [lit[0]] + lit[1..];
    } else {
      assert lit + rest == rest;
    }
  }

  /** Dropping the first character keeps the literal free of matches. */
  lemma NoTokenTail(lit: string, rest: string)
    requires lit != []
    requires forall k :: 0 <= k < |lit| ==> !TokenAt(lit + rest, k)
    ensures forall k :: 0 <= k < |lit| - 1 ==> !TokenAt(lit[1..] + rest, k)
  {
    var t := lit + rest;
    assert t[1..] == lit[1..] + rest;
    forall k | 0 <= k < |lit| - 1 ensures !TokenAt(t[1..], k) {
      assert !TokenAt(t, k + 1);
      TokenShift(t, k + 1);
    }
  }

  /** Text without `{` gives the pattern no match. */
  lemma NoBraceNoToken(lit: string, rest: string)
    requires '{' !in lit
    ensures forall k :: 0 <= k < |lit| ==> !TokenAt(lit + rest, k)
  {
    forall k | 0 <= k < |lit| ensures !TokenAt(lit + rest, k) {
      assert (lit + rest)[k] == lit[k];
    }
  }

  /** A well-formed placeholder at the front is replaced, and the replacement
      is not scanned again. */
  lemma HolePrefix(name: string, rest: string, fields: map<string, string>)
    requires IsWord(name)
    ensures Template("{" + name + "}" + rest, fields) == Substitute(name, fields) + Template(rest, fields)
  {
    var t := "{" + name + "}" + rest;
    var n := WordRun(t, 1);
    assert forall k :: 1 <= k < 1 + |name| ==> t[k] == name[k - 1];
    assert t[1 + |name|] == '}';
    assert n == |name|;
    assert TokenAt(t, 0);
    assert t[1..1 + n] == name;
    assert t[n + 2..] == rest;
  }

  /** The scanner agrees with the piece-wise reading of any well-formed
      template. */
  lemma {:induction false} TemplateFill(ps: seq<Piece>, fields: map<string, string>)
    requires WellFormed(ps)
    ensures Template(Text(ps), fields) == Fill(ps, fields)
    decreases |ps|
  {
    if ps == [] {
    } else {
      assert WellFormedPiece(ps[0]);
      assert WellFormed(ps[1..]) by {
        forall i | 0 <= i < |ps[1..]| ensures WellFormedPiece(ps[1..][i]) {
          assert ps[1..][i] == ps[i + 1];
        }
      }
      TemplateFill(ps[1..], fields);
      match ps[0]
      case Lit(text) =>
        NoBraceNoToken(text, Text(ps[1..]));
        LiteralPrefix(text, Text(ps[1..]), fields);
      case Hole(name) =>
        HolePrefix(name, Text(ps[1..]), fields);
    }
  }

  /** A token at position `i + 1` of `t` is a token at position `i` of `t[1..]`. */
  lemma {:induction false} WordRunShift(t: string, i: nat)
    requires 1 <= i <= |t|
    ensures WordRun(t[1..], i - 1) == WordRun(t, i)
    decreases |t| - i
  {
    if i < |t| && IsWordChar(t[i]) {
      assert t[1..][i - 1] == t[i];
      WordRunShift(t, i + 1);
    }
  }

  /** The pattern matches at position `k >= 1` of `t` exactly when it
      matches at `k - 1` of `t[1..]`. */
  lemma TokenShift(t: string, k: nat)
    requires 1 <= k && t != []
    ensures TokenAt(t, k) == TokenAt(t[1..], k - 1)
  {
    if k < |t| {
      WordRunShift(t, k + 1);
      var n := WordRun(t, k + 1);
      assert t[1..][k - 1] == t[k];
      if k + 1 + n < |t| {
        assert t[1..][k + n] == t[k + 1 + n];
      }
    }
  }

  /** A template in which the pattern matches nowhere is returned unchanged. */
  lemma {:induction false} NoTokenIdentity(t: string, fields: map<string, string>)
    requires forall i :: 0 <= i < |t| ==> !TokenAt(t, i)
    ensures Template(t, fields) == t
    decreases |t|
  {
    if t != [] {
      assert !TokenAt(t, 0);
      forall i | 0 <= i < |t[1..]| ensures !TokenAt(t[1..], i) {
        assert !TokenAt(t, i + 1);
        WordRunShift(t, i + 2);
      }
      NoTokenIdentity(t[1..], fields);
      assert t == [t[0]] + t[1..];
    }
  }

  /** The three outcomes of a lone placeholder; the string forms `"0"` and
      `"false"` are non-empty and therefore inserted. */
  lemma PlaceholderRules(name: string, fields: map<string, string>)
    requires IsWord(name)
    ensures name !in fields ==> Template("{" + name + "}", fields) == "undefined"
    ensures name in fields && fields[name] == "" ==> Template("{" + name + "}", fields) == "{" + name + "}"
    ensures name in fields && fields[name] != "" ==> Template("{" + name + "}", fields) == fields[name]
  {
    HolePrefix(name, "", fields);
    assert "{" + name + "}" + "" == "{" + name + "}";
  }

  /** Substituted text that itself looks like a placeholder is not scanned
      again: `{A}` with `A` = `{B}` gives `{B}` whatever `B` is. */
  lemma NoRescan(f: map<string, string>)
    requires "A" in f && f["A"] == "{B}"
    ensures Template(Text([Hole("A")]), f) == "{B}"
  {
    assert WellFormed([Hole("A")]);
    TemplateFill([Hole("A")], f);
    FillOne(Hole("A"), f);
  }
}
