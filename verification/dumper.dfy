/** The recursive traversal `_dumper` (dumper.js:167-217) and the envelope
    `_dump` (dumper.js:224-231). The ids `_randId` draws become an explicit
    stream: the `k`-th call of the whole dump reads `ids(k)`. */
module Dumper {
  import opened Decimal
  import opened Templates
  import opened Values
  import opened Renderer

  /** What `Math.floor(Math.random() * (1024 * 64))` can return. */
  type RandId = x: int | 0 <= x < 65536

  /** The values of successive `_randId` calls, by call number. */
  type IdStream = nat -> RandId

  /** The element id an entry's key span and items span share. */
  function KeyId(id: RandId): (r: string)
    ensures |r| > 4 && r[..4] == "key-"
    ensures AllDigits(r[4..]) && DigitsValue(r[4..]) == id
  {
    NatToStringRoundTrip(id);
    assert ("key-" + NatToString(id))[4..] == NatToString(id);
    "key-" + NatToString(id)
  }

  /** Different draws give different element ids, so a key span opens only
      the items span of its own entry. */
  lemma KeyIdInjective(a: RandId, b: RandId)
    ensures KeyId(a) == KeyId(b) ==> a == b
  {
    if KeyId(a) == KeyId(b) {
      assert KeyId(a)[4..] == KeyId(b)[4..];
    }
  }

  /** The clickable key of a nested container. */
  function KeySpan(key: string, id: RandId): string {
    Template(TemplateKey, map["KEY" := key, "KEYID" := KeyId(id)])
  }

  /** The span that wraps a nested container's dump. */
  function ItemsSpan(id: RandId, items: string): string {
    Template(TemplateItems, map["KEYID" := KeyId(id), "ITEMS" := items])
  }

  /** How many times the dump of `v` calls `_randId`: once per entry, at
      every level. */
  function Draws(v: Value): nat
    decreases v, 1
  {
    if IsContainer(v) then DrawsFrom(v, 0) else 0
  }

  /** The calls made by the entries of `v` from the `i`-th on. */
  function DrawsFrom(v: Value, i: nat): nat
    requires IsContainer(v) && i <= Size(v)
    decreases v, 0, Size(v) - i
  {
    if i == Size(v) then 0 else 1 + Draws(Child(v, i)) + DrawsFrom(v, i + 1)
  }

  /** The markup the traversal puts around keys and values: the value
      renderer, the arrow between key and value, the clickable key span of a
      nested container and the span that wraps its dump. */
  datatype Markup = Markup(
    render: Value -> string,
    arrow: string,
    keySpan: (string, RandId) -> string,
    itemsSpan: (RandId, string) -> string)

  /** The markup of the dump: `_render` and the templates of dumper.js. */
  const Html: Markup := Markup(Render, ArrowSpan(), KeySpan, ItemsSpan)

  /** `_dumper(v, depth)`, with the next `_randId` call being number `next`. */
  function Dumper(v: Value, depth: nat, ids: IdStream, next: nat): (r: string)
    ensures r == "" <==> v.Null?
  {
    Traverse(Html, v, depth, ids, next)
  }

  /** The entries of `v` from the `i`-th on, each at indent `depth`. */
  function Entries(v: Value, i: nat, depth: nat, ids: IdStream, next: nat): string
    requires IsContainer(v) && i <= Size(v)
  {
    TraverseEntries(Html, v, i, depth, ids, next)
  }

  /** One iteration of the for-in loop of `_dumper`. */
  function Entry(key: string, c: Value, depth: nat, id: RandId, ids: IdStream, next: nat): string {
    TraverseEntry(Html, key, c, depth, id, ids, next)
  }

  // The traversal is written once for any markup `m`; the dump is its
  // instance at `Html`. Facts about the shape of the output are proved for
  // every markup that keeps to one line.

  /** The traversal. A container prints its header line and then its entries
      one level deeper; any other non-object prints its one line unindented;
      null prints nothing. */
  function Traverse(m: Markup, v: Value, depth: nat, ids: IdStream, next: nat): (r: string)
    ensures r == "" <==> v.Null?
    decreases v, 1
  {
    if IsContainer(v) then
      Indent(depth) + m.render(v) + ChrNewline + TraverseEntries(m, v, 0, depth + 1, ids, next)
    else if !IsObjectType(v) then
      m.render(v) + ChrNewline
    else
      ""
  }

  /** The entries of `v` from the `i`-th on. Each entry draws its id before
      its nested dump draws any. */
  function TraverseEntries(m: Markup, v: Value, i: nat, depth: nat, ids: IdStream, next: nat): string
    requires IsContainer(v) && i <= Size(v)
    decreases v, 0, Size(v) - i
  {
    if i == Size(v) then ""
    else
      TraverseEntry(m, Key(v, i), Child(v, i), depth, ids(next), ids, next + 1)
      + TraverseEntries(m, v, i + 1, depth, ids, next + 1 + Draws(Child(v, i)))
  }

  /** The entry `key` with value `c`, id `id`, at indent `depth`. */
  function TraverseEntry(m: Markup, key: string, c: Value, depth: nat, id: RandId, ids: IdStream, next: nat): string
    decreases c, 2
  {
    Indent(depth)
    + (if IsContainer(c) then "" else key + ChrSpace + m.arrow + ChrSpace)
    + (if IsObjectType(c) then
         (if IsNull(c) then m.render(Null) else m.keySpan(key, id) + ChrSpace + m.arrow)
       else m.render(c) + ChrSpace)
    + ChrNewline
    + (if IsContainer(c) then m.itemsSpan(id, Traverse(m, c, depth + 1, ids, next)) else "")
  }

  /** `_dump()`: the traversal of the root at depth 0, in the outer `div`. */
  function DumpHtml(root: Value, ids: IdStream): string {
    Template(TemplateDump, map["DUMP" := Dumper(root, 0, ids, 0), "FONT" := FontFamily,
                               "SIZE" := FontSize, "SPACE" := FontSpace])
  }

  // The two spans of a nested entry, spelled out.

  /** The key span of a non-empty key: the key, clickable, with the shared
      element id written twice into its handler. */
  lemma KeySpanText(key: string, id: RandId)
    requires key != ""
    ensures KeySpan(key, id) == KeyOpen + KeyId(id) + KeyMiddle + KeyId(id) + KeyClose + key + SpanClose
  {
    KeyTemplate(map["KEY" := key, "KEYID" := KeyId(id)]);
  }

  /** An empty key leaves the `{KEY}` placeholder in the key span. */
  lemma EmptyKeySpanText(id: RandId)
    ensures KeySpan("", id) == KeyOpen + KeyId(id) + KeyMiddle + KeyId(id) + KeyClose + "{" + "KEY" + "}" + SpanClose
  {
    KeyTemplate(map["KEY" := "", "KEYID" := KeyId(id)]);
  }

  /** The items span around non-empty items carries the same element id. */
  lemma ItemsSpanText(id: RandId, items: string)
    requires items != ""
    ensures ItemsSpan(id, items) == "<span id=\"" + KeyId(id) + TagEnd + items + SpanClose
  {
    ItemsTemplate(map["KEYID" := KeyId(id), "ITEMS" := items]);
  }

  // The three shapes of an entry line (dumper.js:183-206).

  /** A scalar entry: key, arrow, the rendered value and a trailing space. */
  lemma ScalarEntry(key: string, c: Value, depth: nat, id: RandId, ids: IdStream, next: nat)
    requires !IsObjectType(c)
    ensures Entry(key, c, depth, id, ids, next) ==
      Indent(depth) + (key + " " + ArrowSpan() + " ") + (Render(c) + " ") + "\n"
  {
    assert Entry(key, c, depth, id, ids, next) ==
      Indent(depth) + (key + " " + ArrowSpan() + " ") + (Render(c) + " ") + "\n" + "";
  }

  /** A null entry: key, arrow and the null span, with no trailing space. */
  lemma NullEntry(key: string, c: Value, depth: nat, id: RandId, ids: IdStream, next: nat)
    requires c.Null?
    ensures Entry(key, c, depth, id, ids, next) ==
      Indent(depth) + (key + " " + ArrowSpan() + " ") + (SpanColor + ColorNull + "\">null</span>") + "\n"
  {
    RenderNull(c);
    assert Entry(key, c, depth, id, ids, next) ==
      Indent(depth) + (key + " " + ArrowSpan() + " ") + Render(c) + "\n" + "";
  }

  /** A nested container entry: the key span and the arrow on one line, then
      the container's own dump one level deeper inside the items span; both
      spans carry the id drawn for this entry. */
  lemma NestedEntry(key: string, c: Value, depth: nat, id: RandId, ids: IdStream, next: nat)
    requires IsContainer(c) && key != ""
    ensures Entry(key, c, depth, id, ids, next) ==
      Indent(depth)
      + ((KeyOpen + KeyId(id) + KeyMiddle + KeyId(id) + KeyClose + key + SpanClose) + " " + ArrowSpan())
      + "\n"
      + ("<span id=\"" + KeyId(id) + TagEnd + Dumper(c, depth + 1, ids, next) + SpanClose)
    ensures Dumper(c, depth + 1, ids, next) ==
      Indent(depth + 1) + Render(c) + "\n" + Entries(c, 0, depth + 2, ids, next)
  {
    KeySpanText(key, id);
    ItemsSpanText(id, Dumper(c, depth + 1, ids, next));
    assert Indent(depth) + "" == Indent(depth);
  }

  // The root cases (dumper.js:173-176, 211-213).

  /** The null root prints nothing, so the envelope keeps its `{DUMP}`
      placeholder. */
  lemma NullRoot(root: Value, ids: IdStream)
    requires root.Null?
    ensures Dumper(root, 0, ids, 0) == ""
    ensures DumpHtml(root, ids) ==
      DumpOpen + FontFamily + ";font-size:" + FontSize + ";white-space:" + FontSpace + TagEnd + "{" + "DUMP" + "}" + "</div>"
  {
    DumpTemplate(map["DUMP" := "", "FONT" := FontFamily, "SIZE" := FontSize, "SPACE" := FontSpace]);
  }

  /** Any other root is printed, and the envelope wraps its dump. */
  lemma Envelope(root: Value, ids: IdStream)
    requires !root.Null?
    ensures Dumper(root, 0, ids, 0) != ""
    ensures DumpHtml(root, ids) ==
      DumpOpen + FontFamily + ";font-size:" + FontSize + ";white-space:" + FontSpace + TagEnd
      + Dumper(root, 0, ids, 0) + "</div>"
  {
    assert Dumper(root, 0, ids, 0) != "" by {
      Classification(root);
    }
    DumpTemplate(map["DUMP" := Dumper(root, 0, ids, 0), "FONT" := FontFamily, "SIZE" := FontSize, "SPACE" := FontSpace]);
  }

  /** An empty container prints exactly its header line, with size 0. */
  lemma EmptyContainer(v: Value, depth: nat, ids: IdStream, next: nat)
    requires IsContainer(v) && Size(v) == 0
    ensures Dumper(v, depth, ids, next) ==
      Indent(depth) + (("<strong>" + (if v.Arr? then "array" else "object") + "</strong> ") + ("<em>(size=" + "0" + ")</em>"))
      + "\n"
  {
    RenderContainer(v);
    assert Dumper(v, depth, ids, next) == Indent(depth) + Render(v) + "\n" + "";
  }

  /** A scalar root is its rendering and a line break, with no indentation
      whatever the depth. */
  lemma ScalarRoot(v: Value, depth: nat, ids: IdStream, next: nat)
    requires !IsObjectType(v)
    ensures Dumper(v, depth, ids, next) == Render(v) + "\n"
  {
    assert !IsContainer(v);
  }

  /** A scalar root without a line break in its text is exactly one line,
      opening with a tag. */
  lemma ScalarRootOneLine(v: Value, depth: nat, ids: IdStream, next: nat)
    requires !IsObjectType(v) && !(v.Str? && '\n' in v.s)
    ensures var r := Dumper(v, depth, ids, next);
      r[|r| - 1] == '\n' && '\n' !in r[..|r| - 1] && r[0] == '<'
  {
    ScalarRoot(v, depth, ids, next);
    RenderOneLine(v);
    var r := Dumper(v, depth, ids, next);
    assert r[..|r| - 1] == Render(v);
  }

  /** A container's header line sits at its own depth, holds no line break,
      and its entries follow one level deeper. */
  lemma ContainerHeader(v: Value, depth: nat, ids: IdStream, next: nat)
    requires IsContainer(v)
    ensures Dumper(v, depth, ids, next) == Indent(depth) + Render(v) + "\n" + Entries(v, 0, depth + 1, ids, next)
    ensures '\n' !in Render(v) && Render(v)[0] == '<'
  {
    RenderOneLine(v);
  }

  // Line count: one line per entry at every level, plus the root's header.

  /** The number of line breaks in `s`. */
  function Lines(s: string): nat {
    if s == [] then 0 else (if s[0] == '\n' then 1 else 0) + Lines(s[1..])
  }

  lemma {:induction false} LinesAppend(a: string, b: string)
    ensures Lines(a + b) == Lines(a) + Lines(b)
  {
    if a == [] {
      assert a + b == b;
    } else {
      assert (a + b)[0] == a[0];
      assert (a + b)[1..] == a[1..] + b;
      LinesAppend(a[1..], b);
    }
  }

  lemma {:induction false} NoBreakNoLines(s: string)
    requires '\n' !in s
    ensures Lines(s) == 0
  {
    if s != [] {
      NoBreakNoLines(s[1..]);
    }
  }

  /** No line break anywhere in the tree: neither in a string value nor in
      an object key. */
  predicate SingleLineTree(v: Value) {
    match v
    case Str(s) => '\n' !in s
    case Arr(items) => forall i :: 0 <= i < |items| ==> SingleLineTree(items[i])
    case Obj(fields) => forall i :: 0 <= i < |fields| ==> '\n' !in fields[i].0 && SingleLineTree(fields[i].1)
    case _ => true
  }

  /** How many arrays and objects the tree holds, the root included. */
  function Containers(v: Value): nat
    decreases v, 1
  {
    if IsContainer(v) then 1 + ContainersFrom(v, 0) else 0
  }

  function ContainersFrom(v: Value, i: nat): nat
    requires IsContainer(v) && i <= Size(v)
    decreases v, 0, Size(v) - i
  {
    if i == Size(v) then 0 else Containers(Child(v, i)) + ContainersFrom(v, i + 1)
  }

  /** The keys and children of a single-line tree are single-line too. */
  lemma SingleLineParts(v: Value, i: nat)
    requires IsContainer(v) && i < Size(v) && SingleLineTree(v)
    ensures '\n' !in Key(v, i) && SingleLineTree(Child(v, i))
  {
    if v.Arr? {
      DecimalOneLine(i);
    }
  }

  /** A key span on a single-line key is itself one line. */
  lemma KeySpanOneLine(key: string, id: RandId)
    requires '\n' !in key
    ensures '\n' !in KeySpan(key, id)
  {
    KeyRunsOneLine();
    TemplateRunsOneLine();
    DecimalOneLine(id);
    assert '\n' !in KeyId(id);
    var f := map["KEY" := key, "KEYID" := KeyId(id)];
    KeyTemplate(f);
    assert '\n' !in Substitute("KEY", f);
  }

  /** The items span adds no line of its own. */
  lemma ItemsSpanLines(id: RandId, items: string)
    requires items != ""
    ensures Lines(ItemsSpan(id, items)) == Lines(items)
  {
    KeyRunsOneLine();
    TemplateRunsOneLine();
    DecimalOneLine(id);
    ItemsSpanText(id, items);
    var head := "<span id=\"" + KeyId(id) + TagEnd;
    assert '\n' !in head;
    NoBreakNoLines(head);
    NoBreakNoLines(SpanClose);
    LinesAppend(head, items);
    LinesAppend(head + items, SpanClose);
  }

  /** Indentation is all spaces. */
  lemma IndentOneLine(n: nat)
    ensures Lines(Indent(n)) == 0
  {
    IndentSpaces(n);
    NoBreakNoLines(Indent(n));
  }

  /** Markup that keeps each entry on one line: the rendering of a
      single-line tree, the arrow and the key span of a single-line key hold
      no line break, and the items span adds none to what it wraps. */
  ghost predicate OneLineMarkup(m: Markup) {
    && (forall x :: SingleLineTree(x) ==> '\n' !in m.render(x))
    && '\n' !in m.arrow
    && (forall key, id :: '\n' !in key ==> '\n' !in m.keySpan(key, id))
    && (forall id, items :: items != "" ==> Lines(m.itemsSpan(id, items)) == Lines(items))
  }

  /** The markup of the dump keeps to one line. */
  lemma HtmlIsOneLine()
    ensures OneLineMarkup(Html)
  {
    forall x | SingleLineTree(x)
      ensures '\n' !in Render(x)
    {
      RenderOneLine(x);
    }
    ArrowOneLine();
    forall key, id | '\n' !in key
      ensures '\n' !in KeySpan(key, id)
    {
      KeySpanOneLine(key, id);
    }
    forall id, items | items != ""
      ensures Lines(ItemsSpan(id, items)) == Lines(items)
    {
      ItemsSpanLines(id, items);
    }
  }

  /** The traversal of a single-line tree has one line per entry, at every
      level, and one header line per array or object; a scalar root has one
      line and a null root none. */
  lemma {:induction false} TraverseLines(m: Markup, v: Value, depth: nat, ids: IdStream, next: nat)
    requires OneLineMarkup(m) && SingleLineTree(v)
    ensures Lines(Traverse(m, v, depth, ids, next)) ==
      if IsContainer(v) then Draws(v) + Containers(v) else if v.Null? then 0 else 1
    decreases v, 1
  {
    if IsContainer(v) {
      NoBreakNoLines(m.render(v));
      IndentOneLine(depth);
      TraverseEntriesLines(m, v, 0, depth + 1, ids, next);
      var rest := TraverseEntries(m, v, 0, depth + 1, ids, next);
      LinesAppend(Indent(depth), m.render(v));
      LinesAppend(Indent(depth) + m.render(v), "\n");
      LinesAppend(Indent(depth) + m.render(v) + "\n", rest);
    } else if !v.Null? {
      NoBreakNoLines(m.render(v));
      LinesAppend(m.render(v), "\n");
    }
  }

  /** The entries from the `i`-th on: the `i`-th entry's lines, then the
      rest's. */
  lemma {:induction false} EntriesStepLines(m: Markup, v: Value, i: nat, depth: nat, ids: IdStream, next: nat)
    requires OneLineMarkup(m) && IsContainer(v) && i < Size(v) && SingleLineTree(v)
    ensures Lines(TraverseEntries(m, v, i, depth, ids, next)) ==
      1 + Draws(Child(v, i)) + Containers(Child(v, i))
      + Lines(TraverseEntries(m, v, i + 1, depth, ids, next + 1 + Draws(Child(v, i))))
    decreases v, 0, Size(v) - i, 0
  {
    var c := Child(v, i);
    var entry := TraverseEntry(m, Key(v, i), c, depth, ids(next), ids, next + 1);
    var rest := TraverseEntries(m, v, i + 1, depth, ids, next + 1 + Draws(c));
    assert TraverseEntries(m, v, i, depth, ids, next) == entry + rest;
    SingleLineParts(v, i);
    TraverseEntryLines(m, Key(v, i), c, depth, ids(next), ids, next + 1);
    LinesAppend(entry, rest);
  }

  lemma {:induction false} TraverseEntriesLines(m: Markup, v: Value, i: nat, depth: nat, ids: IdStream, next: nat)
    requires OneLineMarkup(m) && IsContainer(v) && i <= Size(v) && SingleLineTree(v)
    ensures Lines(TraverseEntries(m, v, i, depth, ids, next)) == DrawsFrom(v, i) + ContainersFrom(v, i)
    decreases v, 0, Size(v) - i, 1
  {
    if i < Size(v) {
      var c := Child(v, i);
      assert DrawsFrom(v, i) == 1 + Draws(c) + DrawsFrom(v, i + 1);
      assert ContainersFrom(v, i) == Containers(c) + ContainersFrom(v, i + 1);
      EntriesStepLines(m, v, i, depth, ids, next);
      TraverseEntriesLines(m, v, i + 1, depth, ids, next + 1 + Draws(c));
    } else {
      assert TraverseEntries(m, v, i, depth, ids, next) == "";
    }
  }

  /** One entry: its own line, plus the whole dump of a nested container. */
  lemma {:induction false} TraverseEntryLines(m: Markup, key: string, c: Value, depth: nat, id: RandId, ids: IdStream, next: nat)
    requires OneLineMarkup(m) && '\n' !in key && SingleLineTree(c)
    ensures Lines(TraverseEntry(m, key, c, depth, id, ids, next)) == 1 + Draws(c) + Containers(c)
    decreases c, 2
  {
    IndentOneLine(depth);
    var lead := if IsContainer(c) then "" else key + ChrSpace + m.arrow + ChrSpace;
    var body := if IsObjectType(c) then
         (if IsNull(c) then m.render(Null) else m.keySpan(key, id) + ChrSpace + m.arrow)
       else m.render(c) + ChrSpace;
    var items := if IsContainer(c) then m.itemsSpan(id, Traverse(m, c, depth + 1, ids, next)) else "";
    assert TraverseEntry(m, key, c, depth, id, ids, next) == Indent(depth) + lead + body + ChrNewline + items;
    assert '\n' !in lead;
    assert '\n' !in body by {
      if !IsContainer(c) {
        assert SingleLineTree(Null);
      }
    }
    NoBreakNoLines(lead);
    NoBreakNoLines(body);
    LinesAppend(Indent(depth), lead);
    LinesAppend(Indent(depth) + lead, body);
    LinesAppend(Indent(depth) + lead + body, ChrNewline);
    LinesAppend(Indent(depth) + lead + body + ChrNewline, items);
    if IsContainer(c) {
      TraverseLines(m, c, depth + 1, ids, next);
    } else {
      assert Lines(items) == 0;
    }
  }

  /** The dump of a single-line tree has one line per entry and one per
      container; a scalar root is one line and a null root none. */
  lemma DumperLines(v: Value, depth: nat, ids: IdStream, next: nat)
    requires SingleLineTree(v)
    ensures Lines(Dumper(v, depth, ids, next)) ==
      if IsContainer(v) then Draws(v) + Containers(v) else if v.Null? then 0 else 1
  {
    HtmlIsOneLine();
    TraverseLines(Html, v, depth, ids, next);
  }

  // Which ids a dump reads: the traversal of `v` starting at call number
  // `next` uses exactly the calls `next` to `next + Draws(v) - 1`.

  /** The streams `a` and `b` give the same ids for calls `lo` to `hi - 1`. */
  ghost predicate SameIds(a: IdStream, b: IdStream, lo: nat, hi: nat) {
    forall k :: lo <= k < hi ==> a(k) == b(k)
  }

  /** The entries from the `i`-th on: the `i`-th entry, then the rest. */
  lemma EntriesUnfold(m: Markup, v: Value, i: nat, depth: nat, ids: IdStream, next: nat)
    requires IsContainer(v) && i < Size(v)
    ensures TraverseEntries(m, v, i, depth, ids, next) ==
      TraverseEntry(m, Key(v, i), Child(v, i), depth, ids(next), ids, next + 1)
      + TraverseEntries(m, v, i + 1, depth, ids, next + 1 + Draws(Child(v, i)))
  {
    assert i != Size(v);
  }

  /** Two streams give the same entries from the `i`-th on when they give
      the `i`-th entry the same id, the same entry text and the same rest. */
  lemma EntriesCongruent(m: Markup, v: Value, i: nat, depth: nat, a: IdStream, b: IdStream, next: nat)
    requires IsContainer(v) && i < Size(v) && a(next) == b(next)
    requires TraverseEntry(m, Key(v, i), Child(v, i), depth, a(next), a, next + 1)
          == TraverseEntry(m, Key(v, i), Child(v, i), depth, a(next), b, next + 1)
    requires TraverseEntries(m, v, i + 1, depth, a, next + 1 + Draws(Child(v, i)))
          == TraverseEntries(m, v, i + 1, depth, b, next + 1 + Draws(Child(v, i)))
    ensures TraverseEntries(m, v, i, depth, a, next) == TraverseEntries(m, v, i, depth, b, next)
  {
    EntriesUnfold(m, v, i, depth, a, next);
    EntriesUnfold(m, v, i, depth, b, next);
  }

  /** Agreement on the calls of an entry covers its own call, its nested
      dump's calls and the calls of the entries after it. */
  lemma SameIdsSplit(a: IdStream, b: IdStream, next: nat, inner: nat, after: nat)
    requires SameIds(a, b, next, next + 1 + inner + after)
    ensures a(next) == b(next)
    ensures SameIds(a, b, next + 1, next + 1 + inner)
    ensures SameIds(a, b, next + 1 + inner, next + 1 + inner + after)
  {
  }

  /** The traversal of `v` depends on the id stream only through the
      `Draws(v)` calls from `next` on. */
  lemma {:induction false} TraverseIds(m: Markup, v: Value, depth: nat, a: IdStream, b: IdStream, next: nat)
    requires SameIds(a, b, next, next + Draws(v))
    ensures Traverse(m, v, depth, a, next) == Traverse(m, v, depth, b, next)
    decreases v, 1
  {
    if IsContainer(v) {
      TraverseEntriesIds(m, v, 0, depth + 1, a, b, next);
    }
  }

  lemma {:induction false} TraverseEntriesIds(m: Markup, v: Value, i: nat, depth: nat, a: IdStream, b: IdStream, next: nat)
    requires IsContainer(v) && i <= Size(v)
    requires SameIds(a, b, next, next + DrawsFrom(v, i))
    ensures TraverseEntries(m, v, i, depth, a, next) == TraverseEntries(m, v, i, depth, b, next)
    decreases v, 0, Size(v) - i
  {
    if i < Size(v) {
      var c := Child(v, i);
      var mid := next + 1 + Draws(c);
      assert DrawsFrom(v, i) == 1 + Draws(c) + DrawsFrom(v, i + 1);
      SameIdsSplit(a, b, next, Draws(c), DrawsFrom(v, i + 1));
      TraverseEntryIds(m, Key(v, i), c, depth, a(next), a, b, next + 1);
      TraverseEntriesIds(m, v, i + 1, depth, a, b, mid);
      EntriesCongruent(m, v, i, depth, a, b, next);
    }
  }

  lemma {:induction false} TraverseEntryIds(m: Markup, key: string, c: Value, depth: nat, id: RandId, a: IdStream, b: IdStream, next: nat)
    requires SameIds(a, b, next, next + Draws(c))
    ensures TraverseEntry(m, key, c, depth, id, a, next) == TraverseEntry(m, key, c, depth, id, b, next)
    decreases c, 2
  {
    if IsContainer(c) {
      TraverseIds(m, c, depth + 1, a, b, next);
    }
  }

  /** The dump of the root reads the first `Draws(root)` ids and no others. */
  lemma DumpIds(root: Value, a: IdStream, b: IdStream)
    requires SameIds(a, b, 0, Draws(root))
    ensures DumpHtml(root, a) == DumpHtml(root, b)
  {
    TraverseIds(Html, root, 0, a, b, 0);
  }

  /** A dump with no nested container reads no id into its text: the ids of
      scalar entries are drawn and discarded. */
  lemma FlatIds(v: Value, depth: nat, a: IdStream, b: IdStream, next: nat)
    requires IsContainer(v)
    requires forall i :: 0 <= i < Size(v) ==> !IsContainer(Child(v, i))
    ensures Dumper(v, depth, a, next) == Dumper(v, depth, b, next)
  {
    FlatEntriesIds(Html, v, 0, depth + 1, a, b, next);
  }

  lemma {:induction false} FlatEntriesIds(m: Markup, v: Value, i: nat, depth: nat, a: IdStream, b: IdStream, next: nat)
    requires IsContainer(v) && i <= Size(v)
    requires forall j :: i <= j < Size(v) ==> !IsContainer(Child(v, j))
    ensures TraverseEntries(m, v, i, depth, a, next) == TraverseEntries(m, v, i, depth, b, next)
    decreases Size(v) - i
  {
    if i < Size(v) {
      var c := Child(v, i);
      assert Draws(c) == 0;
      FlatEntriesIds(m, v, i + 1, depth, a, b, next + 1);
      assert TraverseEntry(m, Key(v, i), c, depth, a(next), a, next + 1)
          == TraverseEntry(m, Key(v, i), c, depth, b(next), b, next + 1);
    }
  }

  // The traversal step by step, for any markup.

  /** A container: its header line, then its entries one level deeper. */
  lemma ContainerShape(m: Markup, v: Value, depth: nat, ids: IdStream, next: nat)
    requires IsContainer(v)
    ensures Traverse(m, v, depth, ids, next) ==
      Indent(depth) + m.render(v) + "\n" + TraverseEntries(m, v, 0, depth + 1, ids, next)
  {
  }

  /** A scalar entry is one line: key, arrow, rendering and a trailing
      space; the entries after it start at the next call. */
  lemma ScalarStep(m: Markup, v: Value, i: nat, depth: nat, ids: IdStream, next: nat)
    requires IsContainer(v) && i < Size(v) && !IsObjectType(Child(v, i))
    ensures TraverseEntries(m, v, i, depth, ids, next) ==
      (Indent(depth) + Key(v, i) + " " + m.arrow + " " + m.render(Child(v, i)) + " " + "\n")
      + TraverseEntries(m, v, i + 1, depth, ids, next + 1)
  {
    EntriesUnfold(m, v, i, depth, ids, next);
    var c := Child(v, i);
    assert TraverseEntry(m, Key(v, i), c, depth, ids(next), ids, next + 1) ==
      Indent(depth) + (Key(v, i) + " " + m.arrow + " ") + (m.render(c) + " ") + "\n" + "";
  }

  /** A nested entry: the key span and arrow on one line, then the items
      span around the child's traversal one level deeper, which starts
      right after the entry's own call; the entries after it start after
      all of the child's calls. */
  lemma NestedStep(m: Markup, v: Value, i: nat, depth: nat, ids: IdStream, next: nat)
    requires IsContainer(v) && i < Size(v) && IsContainer(Child(v, i))
    ensures TraverseEntries(m, v, i, depth, ids, next) ==
      (Indent(depth) + m.keySpan(Key(v, i), ids(next)) + " " + m.arrow + "\n"
       + m.itemsSpan(ids(next), Traverse(m, Child(v, i), depth + 1, ids, next + 1)))
      + TraverseEntries(m, v, i + 1, depth, ids, next + 1 + Draws(Child(v, i)))
  {
    EntriesUnfold(m, v, i, depth, ids, next);
    var c := Child(v, i);
    assert TraverseEntry(m, Key(v, i), c, depth, ids(next), ids, next + 1) ==
      Indent(depth) + "" + (m.keySpan(Key(v, i), ids(next)) + " " + m.arrow) + "\n"
      + m.itemsSpan(ids(next), Traverse(m, c, depth + 1, ids, next + 1));
  }
}
