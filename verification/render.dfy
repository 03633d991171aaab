/** The configuration table (dumper.js:43-67), `_indent` (dumper.js:96-102)
    and the one-line formatter `_render` (dumper.js:129-165). */
module Renderer {
  import opened Decimal
  import opened Templates
  import opened Values

  const ChrSpace: string := " "
  const ChrNewline: string := "\n"
  const ChrArrow: string := "=>"

  const ColorNumber: string := "green"
  const ColorString: string := "red"
  const ColorNull: string := "blue"
  const ColorBoolean: string := "purple"
  const ColorArrow: string := "gray"

  const FontFamily: string := "monospace"
  const FontSize: string := "1em"
  const FontSpace: string := "pre-wrap"

  // Each template is given as its literal runs and placeholders; `Text`
  // spells the source's template string from them. Long runs are written as
  // concatenations of short ones.
  const SpanColor: string := "<span style=\"color:"
  const TagEnd: string := "\">"
  const SpanClose: string := "</span>"
  const KeyOpen: string := "<span style=\"cursor:pointer\" " + "onclick=\"javascript:(" + "document.getElementById('"
  const KeyMiddle: string := "').style.display=" + "(document.getElementById('"
  const KeyClose: string := "').style.display)" + "?'':'none');\">"
  const DumpOpen: string := "<div class=\"dump\" " + "style=\"font-family:"
  const StringMiddle: string := "'</span> <em>" + "(length="

  const NumberPieces: seq<Piece> := [Lit(SpanColor), Hole("COLOR"), Lit(TagEnd), Hole("VALUE"), Lit(SpanClose)]
  const StringPieces: seq<Piece> :=
    [Lit(SpanColor), Hole("COLOR"), Lit("\">'"), Hole("VALUE"), Lit(StringMiddle), Hole("LENGTH"), Lit(")</em>")]
  const NullPieces: seq<Piece> := [Lit(SpanColor), Hole("COLOR"), Lit("\">null</span>")]
  const ObjectPieces: seq<Piece> := [Lit("<em>(size="), Hole("SIZE"), Lit(")</em>")]
  const BooleanPieces: seq<Piece> := NumberPieces
  const ArrowPieces: seq<Piece> := [Lit(SpanColor), Hole("COLOR"), Lit(TagEnd), Hole("ARROW"), Lit(SpanClose)]
  const DumpPieces: seq<Piece> :=
    [Lit(DumpOpen), Hole("FONT"), Lit(";font-size:"), Hole("SIZE"), Lit(";white-space:"), Hole("SPACE"),
     Lit(TagEnd), Hole("DUMP"), Lit("</div>")]
  const TypePieces: seq<Piece> := [Lit("<small>"), Hole("TYPE"), Lit("</small> ")]
  const TypeObjPieces: seq<Piece> := [Lit("<strong>"), Hole("TYPE"), Lit("</strong> ")]
  const KeyPieces: seq<Piece> :=
    [Lit(KeyOpen), Hole("KEYID"), Lit(KeyMiddle), Hole("KEYID"), Lit(KeyClose), Hole("KEY"), Lit(SpanClose)]
  const ItemsPieces: seq<Piece> := [Lit("<span id=\""), Hole("KEYID"), Lit(TagEnd), Hole("ITEMS"), Lit(SpanClose)]

  const TemplateNumber: string := Text(NumberPieces)
  const TemplateString: string := Text(StringPieces)
  const TemplateNull: string := Text(NullPieces)
  const TemplateObject: string := Text(ObjectPieces)
  const TemplateBoolean: string := Text(BooleanPieces)
  const TemplateArrow: string := Text(ArrowPieces)
  const TemplateDump: string := Text(DumpPieces)
  const TemplateType: string := Text(TypePieces)
  const TemplateTypeObj: string := Text(TypeObjPieces)
  const TemplateKey: string := Text(KeyPieces)
  const TemplateItems: string := Text(ItemsPieces)

  /** `_indent`: `CHR_SPACE` appended `n` times. */
  function Indent(n: nat): (r: string)
    ensures |r| == n
  {
    if n == 0 then "" else Indent(n - 1) + ChrSpace
  }

  /** The indentation is made of spaces only. */
  lemma {:induction false} IndentSpaces(n: nat)
    ensures forall i :: 0 <= i < n ==> Indent(n)[i] == ' '
  {
    if n > 0 {
      IndentSpaces(n - 1);
      assert forall i :: 0 <= i < n - 1 ==> Indent(n)[i] == Indent(n - 1)[i];
    }
  }

  /** The type label, the first half of `_render` (dumper.js:131-136). */
  function TypeLabel(v: Value): string {
    if IsObjectType(v) then
      if IsNull(v) then ""
      else Template(TemplateTypeObj, map["TYPE" := if IsArray(v) then "array" else "object"])
    else Template(TemplateType, map["TYPE" := TypeOf(v)])
  }

  /** The value fragment, the `switch (typeof value)` of `_render`
      (dumper.js:138-161); other `typeof` names add nothing. */
  function ValueFragment(v: Value): string {
    match v
    case Num(n) => Template(TemplateNumber, map["VALUE" := IntToString(n), "COLOR" := ColorNumber])
    case Str(s) => Template(TemplateString, map["VALUE" := s, "COLOR" := ColorString, "LENGTH" := NatToString(Utf16Length(s))])
    case Null => Template(TemplateNull, map["COLOR" := ColorNull])
    case Arr(_) => Template(TemplateObject, map["SIZE" := NatToString(Size(v))])
    case Obj(_) => Template(TemplateObject, map["SIZE" := NatToString(Size(v))])
    case Bool(b) => Template(TemplateBoolean, map["COLOR" := ColorBoolean, "VALUE" := if b then "true" else "false"])
    case Other(_) => ""
  }

  /** `_render(value)`. */
  function Render(v: Value): string {
    TypeLabel(v) + ValueFragment(v)
  }

  /** The coloured arrow every entry line carries. */
  function ArrowSpan(): string {
    Template(TemplateArrow, map["ARROW" := ChrArrow, "COLOR" := ColorArrow])
  }

  // The long literal runs carry no brace, checked chunk by chunk.

  lemma KeyOpenNoBrace()
    ensures '{' !in KeyOpen
  {
    assert '{' !in "<span style=\"cursor:pointer\" " by {}
    assert '{' !in "onclick=\"javascript:(" by {}
    assert '{' !in "document.getElementById('" by {}
    NoBraceAppend("<span style=\"cursor:pointer\" ", "onclick=\"javascript:(");
    NoBraceAppend("<span style=\"cursor:pointer\" " + "onclick=\"javascript:(", "document.getElementById('");
  }

  lemma KeyMiddleNoBrace()
    ensures '{' !in KeyMiddle
  {
    assert '{' !in "').style.display=" by {}
    assert '{' !in "(document.getElementById('" by {}
    NoBraceAppend("').style.display=", "(document.getElementById('");
  }

  lemma KeyCloseNoBrace()
    ensures '{' !in KeyClose
  {
    assert '{' !in "').style.display)" by {}
    assert '{' !in "?'':'none');\">" by {}
    NoBraceAppend("').style.display)", "?'':'none');\">");
  }

  lemma DumpOpenNoBrace()
    ensures '{' !in DumpOpen
  {
    assert '{' !in "<div class=\"dump\" " by {}
    assert '{' !in "style=\"font-family:" by {}
    NoBraceAppend("<div class=\"dump\" ", "style=\"font-family:");
  }

  lemma StringMiddleNoBrace()
    ensures '{' !in StringMiddle
  {
    assert '{' !in "'</span> <em>" by {}
    assert '{' !in "(length=" by {}
    NoBraceAppend("'</span> <em>", "(length=");
  }

  // Each constant template filled in, read piece by piece.

  lemma TypeTemplate(f: map<string, string>)
    ensures Template(TemplateType, f) == "<small>" + Substitute("TYPE", f) + "</small> "
  {
    Template3(Lit("<small>"), Hole("TYPE"), Lit("</small> "), f);
  }

  lemma TypeObjTemplate(f: map<string, string>)
    ensures Template(TemplateTypeObj, f) == "<strong>" + Substitute("TYPE", f) + "</strong> "
  {
    Template3(Lit("<strong>"), Hole("TYPE"), Lit("</strong> "), f);
  }

  /** The number template; the boolean template is the same text. */
  lemma NumberTemplate(f: map<string, string>)
    ensures Template(TemplateNumber, f) == SpanColor + Substitute("COLOR", f) + TagEnd + Substitute("VALUE", f) + SpanClose
    ensures TemplateBoolean == TemplateNumber
  {
    Template5(Lit(SpanColor), Hole("COLOR"), Lit(TagEnd), Hole("VALUE"), Lit(SpanClose), f);
  }

  lemma ArrowTemplate(f: map<string, string>)
    ensures Template(TemplateArrow, f) == SpanColor + Substitute("COLOR", f) + TagEnd + Substitute("ARROW", f) + SpanClose
  {
    Template5(Lit(SpanColor), Hole("COLOR"), Lit(TagEnd), Hole("ARROW"), Lit(SpanClose), f);
  }

  lemma StringTemplate(f: map<string, string>)
    ensures Template(TemplateString, f) ==
      SpanColor + Substitute("COLOR", f) + "\">'" + Substitute("VALUE", f) + StringMiddle + Substitute("LENGTH", f) + ")</em>"
  {
    StringMiddleNoBrace();
    Template7(Lit(SpanColor), Hole("COLOR"), Lit("\">'"), Hole("VALUE"), Lit(StringMiddle), Hole("LENGTH"), Lit(")</em>"), f);
  }

  lemma NullTemplate(f: map<string, string>)
    ensures Template(TemplateNull, f) == SpanColor + Substitute("COLOR", f) + "\">null</span>"
  {
    Template3(Lit(SpanColor), Hole("COLOR"), Lit("\">null</span>"), f);
  }

  lemma ObjectTemplate(f: map<string, string>)
    ensures Template(TemplateObject, f) == "<em>(size=" + Substitute("SIZE", f) + ")</em>"
  {
    Template3(Lit("<em>(size="), Hole("SIZE"), Lit(")</em>"), f);
  }

  lemma DumpTemplate(f: map<string, string>)
    ensures Template(TemplateDump, f) ==
      DumpOpen + Substitute("FONT", f) + ";font-size:" + Substitute("SIZE", f)
      + ";white-space:" + Substitute("SPACE", f) + TagEnd + Substitute("DUMP", f) + "</div>"
  {
    DumpOpenNoBrace();
    Template9(Lit(DumpOpen), Hole("FONT"), Lit(";font-size:"), Hole("SIZE"), Lit(";white-space:"), Hole("SPACE"), Lit(TagEnd), Hole("DUMP"), Lit("</div>"), f);
  }

  lemma KeyTemplate(f: map<string, string>)
    ensures Template(TemplateKey, f) ==
      KeyOpen + Substitute("KEYID", f) + KeyMiddle + Substitute("KEYID", f) + KeyClose + Substitute("KEY", f) + SpanClose
  {
    KeyOpenNoBrace();
    KeyMiddleNoBrace();
    KeyCloseNoBrace();
    Template7(Lit(KeyOpen), Hole("KEYID"), Lit(KeyMiddle), Hole("KEYID"), Lit(KeyClose), Hole("KEY"), Lit(SpanClose), f);
  }

  lemma ItemsTemplate(f: map<string, string>)
    ensures Template(TemplateItems, f) == "<span id=\"" + Substitute("KEYID", f) + TagEnd + Substitute("ITEMS", f) + SpanClose
  {
    Template5(Lit("<span id=\""), Hole("KEYID"), Lit(TagEnd), Hole("ITEMS"), Lit(SpanClose), f);
  }

  // What `_render` prints for each kind of value.

  /** The label of a value whose `typeof` is not `object`. */
  lemma ScalarLabel(v: Value)
    requires !IsObjectType(v)
    ensures TypeLabel(v) == "<small>" + TypeOf(v) + "</small> "
  {
    TypeTemplate(map["TYPE" := TypeOf(v)]);
  }

  /** The label of a container. */
  lemma ContainerLabel(v: Value)
    requires IsContainer(v)
    ensures TypeLabel(v) == "<strong>" + (if v.Arr? then "array" else "object") + "</strong> "
  {
    TypeObjTemplate(map["TYPE" := if IsArray(v) then "array" else "object"]);
  }

  /** The number template filled with a number's text. */
  lemma NumberFragment(n: int, f: map<string, string>)
    requires f == map["VALUE" := IntToString(n), "COLOR" := ColorNumber]
    ensures Template(TemplateNumber, f) == SpanColor + ColorNumber + TagEnd + IntToString(n) + SpanClose
  {
    NumberTemplate(f);
  }

  /** The string template filled with a non-empty string, its colour and
      its length in UTF-16 code units. */
  lemma StringFragment(s: string, f: map<string, string>)
    requires s != ""
    requires f == map["VALUE" := s, "COLOR" := ColorString, "LENGTH" := NatToString(Utf16Length(s))]
    ensures Template(TemplateString, f) == SpanColor + ColorString + "\">'" + s + StringMiddle + NatToString(Utf16Length(s)) + ")</em>"
  {
    StringTemplate(f);
  }

  /** The string template filled for the empty string: the empty value
      leaves its placeholder in place. */
  lemma EmptyStringFragment(f: map<string, string>)
    requires f == map["VALUE" := "", "COLOR" := ColorString, "LENGTH" := "0"]
    ensures Template(TemplateString, f) == SpanColor + ColorString + "\">'" + "{" + "VALUE" + "}" + StringMiddle + "0" + ")</em>"
  {
    StringTemplate(f);
  }

  /** The boolean template filled with `true` or `false`. */
  lemma BooleanFragment(b: bool, f: map<string, string>)
    requires f == map["COLOR" := ColorBoolean, "VALUE" := if b then "true" else "false"]
    ensures Template(TemplateBoolean, f) == SpanColor + ColorBoolean + TagEnd + (if b then "true" else "false") + SpanClose
  {
    NumberTemplate(f);
  }

  // The lemmas below take the value as a parameter and split the output
  // into its label and its fragment, which keeps the solver from evaluating
  // the templates on literal arguments.

  /** A number: its type label, then its decimal text in green. */
  lemma RenderNumber(v: Value)
    requires v.Num?
    ensures Render(v) ==
      ("<small>" + "number" + "</small> ") + (SpanColor + ColorNumber + TagEnd + IntToString(v.n) + SpanClose)
  {
    ScalarLabel(v);
    var f := map["VALUE" := IntToString(v.n), "COLOR" := ColorNumber];
    assert ValueFragment(v) == Template(TemplateNumber, f);
    NumberFragment(v.n, f);
  }

  /** A non-empty string: its type label, the text between quotes in red
      and its JavaScript length, counted in UTF-16 code units. */
  lemma RenderString(v: Value)
    requires v.Str? && v.s != ""
    ensures Render(v) ==
      ("<small>" + "string" + "</small> ")
      + (SpanColor + ColorString + "\">'" + v.s + StringMiddle + NatToString(Utf16Length(v.s)) + ")</em>")
  {
    ScalarLabel(v);
    var f := map["VALUE" := v.s, "COLOR" := ColorString, "LENGTH" := NatToString(Utf16Length(v.s))];
    assert ValueFragment(v) == Template(TemplateString, f);
    StringFragment(v.s, f);
  }

  /** The empty string: the quotes enclose the `{VALUE}` placeholder and the
      length is 0. */
  lemma RenderEmptyString(v: Value)
    requires v == Str("")
    ensures Render(v) ==
      ("<small>" + "string" + "</small> ")
      + (SpanColor + ColorString + "\">'" + "{" + "VALUE" + "}" + StringMiddle + "0" + ")</em>")
  {
    ScalarLabel(v);
    var f := map["VALUE" := "", "COLOR" := ColorString, "LENGTH" := NatToString(0)];
    assert ValueFragment(v) == Template(TemplateString, f);
    EmptyStringFragment(f);
  }

  /** A boolean: its type label, then `true` or `false` in purple. */
  lemma RenderBoolean(v: Value)
    requires v.Bool?
    ensures Render(v) ==
      ("<small>" + "boolean" + "</small> ") + (SpanColor + ColorBoolean + TagEnd + (if v.b then "true" else "false") + SpanClose)
  {
    ScalarLabel(v);
    var f := map["COLOR" := ColorBoolean, "VALUE" := if v.b then "true" else "false"];
    assert ValueFragment(v) == Template(TemplateBoolean, f);
    BooleanFragment(v.b, f);
  }

  /** Null: no type label, no size, only the blue `null` span. */
  lemma RenderNull(v: Value)
    requires v.Null?
    ensures Render(v) == SpanColor + ColorNull + "\">null</span>"
  {
    assert TypeLabel(v) == "";
    NullTemplate(map["COLOR" := ColorNull]);
  }

  /** An array or object: a bold `array`/`object` label and the number of
      its entries. */
  lemma RenderContainer(v: Value)
    requires IsContainer(v)
    ensures Render(v) ==
      ("<strong>" + (if v.Arr? then "array" else "object") + "</strong> ") + ("<em>(size=" + NatToString(Size(v)) + ")</em>")
  {
    ContainerLabel(v);
    ObjectTemplate(map["SIZE" := NatToString(Size(v))]);
  }

  /** Any other `typeof` name: the type label alone. */
  lemma RenderOther(v: Value)
    requires v.Other?
    ensures Render(v) == "<small>" + TypeName(v.kind) + "</small> "
  {
    ScalarLabel(v);
  }

  /** The arrow: `=>` in gray. */
  lemma ArrowText()
    ensures ArrowSpan() == SpanColor + ColorArrow + TagEnd + ChrArrow + SpanClose
  {
    ArrowTemplate(map["ARROW" := ChrArrow, "COLOR" := ColorArrow]);
  }

  /** Decimal text never holds a line break. */
  lemma DecimalOneLine(i: int)
    ensures '\n' !in IntToString(i)
  {
    if i < 0 {
      assert IntToString(i) == "-" + NatToString(-i);
    }
  }

  /** The literal runs of the value templates hold no line break. */
  lemma TemplateRunsOneLine()
    ensures '\n' !in SpanColor && '\n' !in TagEnd && '\n' !in SpanClose && '\n' !in StringMiddle
    ensures '\n' !in "\">'" && '\n' !in ")</em>" && '\n' !in "\">null</span>" && '\n' !in "<em>(size="
    ensures '\n' !in "<small>" && '\n' !in "</small> " && '\n' !in "<strong>" && '\n' !in "</strong> "
  {
    assert '\n' !in SpanColor by {}
    assert '\n' !in StringMiddle by {
      assert '\n' !in "'</span> <em>" by {}
      assert '\n' !in "(length=" by {}
    }
  }

  /** A scalar's two halves joined: one line that opens with a tag. */
  lemma JoinedOneLine(r: string, head: string, tail: string)
    requires r == head + tail
    requires head != "" && head[0] == '<'
    requires '\n' !in head && '\n' !in tail
    ensures '\n' !in r && r != "" && r[0] == '<'
  {
  }

  // `_render` prints one line that opens with a tag, value kind by value kind.

  lemma NumberOneLine(v: Value)
    requires v.Num?
    ensures '\n' !in Render(v) && Render(v) != "" && Render(v)[0] == '<'
  {
    TemplateRunsOneLine();
    RenderNumber(v);
    DecimalOneLine(v.n);
    JoinedOneLine(Render(v), "<small>" + "number" + "</small> ",
      SpanColor + ColorNumber + TagEnd + IntToString(v.n) + SpanClose);
  }

  lemma EmptyStringOneLine(v: Value)
    requires v == Str("")
    ensures '\n' !in Render(v) && Render(v) != "" && Render(v)[0] == '<'
  {
    TemplateRunsOneLine();
    RenderEmptyString(v);
    JoinedOneLine(Render(v), "<small>" + "string" + "</small> ",
      SpanColor + ColorString + "\">'" + "{" + "VALUE" + "}" + StringMiddle + "0" + ")</em>");
  }

  lemma StringOneLine(v: Value)
    requires v.Str? && v.s != "" && '\n' !in v.s
    ensures '\n' !in Render(v) && Render(v) != "" && Render(v)[0] == '<'
  {
    TemplateRunsOneLine();
    RenderString(v);
    DecimalOneLine(Utf16Length(v.s));
    JoinedOneLine(Render(v), "<small>" + "string" + "</small> ",
      SpanColor + ColorString + "\">'" + v.s + StringMiddle + NatToString(Utf16Length(v.s)) + ")</em>");
  }

  lemma BooleanOneLine(v: Value)
    requires v.Bool?
    ensures '\n' !in Render(v) && Render(v) != "" && Render(v)[0] == '<'
  {
    TemplateRunsOneLine();
    RenderBoolean(v);
    JoinedOneLine(Render(v), "<small>" + "boolean" + "</small> ",
      SpanColor + ColorBoolean + TagEnd + (if v.b then "true" else "false") + SpanClose);
  }

  lemma NullOneLine(v: Value)
    requires v.Null?
    ensures '\n' !in Render(v) && Render(v) != "" && Render(v)[0] == '<'
  {
    TemplateRunsOneLine();
    RenderNull(v);
    JoinedOneLine(Render(v), SpanColor + ColorNull + "\">null</span>",
      "");
  }

  lemma ContainerOneLine(v: Value)
    requires IsContainer(v)
    ensures '\n' !in Render(v) && Render(v) != "" && Render(v)[0] == '<'
  {
    TemplateRunsOneLine();
    RenderContainer(v);
    DecimalOneLine(Size(v));
    JoinedOneLine(Render(v), "<strong>" + (if v.Arr? then "array" else "object") + "</strong> ",
      "<em>(size=" + NatToString(Size(v)) + ")</em>");
  }

  lemma OtherOneLine(v: Value)
    requires v.Other?
    ensures '\n' !in Render(v) && Render(v) != "" && Render(v)[0] == '<'
  {
    TemplateRunsOneLine();
    RenderOther(v);
    assert '\n' !in TypeName(v.kind);
    JoinedOneLine(Render(v), "<small>" + TypeName(v.kind) + "</small> ",
      "");
  }

  /** `_render` prints one line: no line break unless a string value holds
      one; and it starts with a tag. */
  lemma RenderOneLine(v: Value)
    requires !(v.Str? && '\n' in v.s)
    ensures '\n' !in Render(v)
    ensures Render(v) != "" && Render(v)[0] == '<'
  {
    if v.Num? {
      NumberOneLine(v);
    } else if v == Str("") {
      EmptyStringOneLine(v);
    } else if v.Str? {
      StringOneLine(v);
    } else if v.Bool? {
      BooleanOneLine(v);
    } else if v.Null? {
      NullOneLine(v);
    } else if IsContainer(v) {
      ContainerOneLine(v);
    } else {
      OtherOneLine(v);
    }
  }

  /** The arrow span holds no line break. */
  lemma ArrowOneLine()
    ensures '\n' !in ArrowSpan()
  {
    ArrowText();
    TemplateRunsOneLine();
  }

  /** The literal runs of the key and items templates hold no line break. */
  lemma KeyRunsOneLine()
    ensures '\n' !in KeyOpen && '\n' !in KeyMiddle && '\n' !in KeyClose && '\n' !in "<span id=\""
  {
    KeyOpenOneLine();
    KeyMiddleOneLine();
    KeyCloseOneLine();
  }

  lemma KeyOpenOneLine()
    ensures '\n' !in KeyOpen
  {
    assert '\n' !in "<span style=\"cursor:pointer\" " by {}
    assert '\n' !in "onclick=\"javascript:(" by {}
    assert '\n' !in "document.getElementById('" by {}
  }

  lemma KeyMiddleOneLine()
    ensures '\n' !in KeyMiddle
  {
    assert '\n' !in "').style.display=" by {}
    assert '\n' !in "(document.getElementById('" by {}
  }

  lemma KeyCloseOneLine()
    ensures '\n' !in KeyClose
  {
    assert '\n' !in "').style.display)" by {}
    assert '\n' !in "?'':'none');\">" by {}
  }
}
