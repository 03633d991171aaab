/** The example of the documentation comment of dumper.js (lines 16-24):
    `{foo: 'bar', baz: [1,2,3]}`, here with any scalars in place of `'bar'`,
    `1`, `2` and `3`, and any markup. */
module Example {
  import opened Values
  import opened Renderer
  import opened Dumper

  /** The nested array at depth 2: its header and three scalar entries at
      indent 3, keyed "0", "1" and "2", drawing calls 2 to 4. */
  lemma InnerExample(m: Markup, a: Value, ids: IdStream)
    requires a.Arr? && |a.items| == 3 && !IsObjectType(a.items[0]) && !IsObjectType(a.items[1]) && !IsObjectType(a.items[2])
    ensures Traverse(m, a, 2, ids, 2) ==
      "  " + m.render(a) + "\n"
      + (("   " + "0" + " " + m.arrow + " " + m.render(a.items[0]) + " " + "\n")
      + (("   " + "1" + " " + m.arrow + " " + m.render(a.items[1]) + " " + "\n")
      + ("   " + "2" + " " + m.arrow + " " + m.render(a.items[2]) + " " + "\n")))
  {
    assert Indent(2) == "  " && Indent(3) == "   ";
    assert Key(a, 0) == "0" && Key(a, 1) == "1" && Key(a, 2) == "2";
    var l0 := "   " + "0" + " " + m.arrow + " " + m.render(a.items[0]) + " " + "\n";
    var l1 := "   " + "1" + " " + m.arrow + " " + m.render(a.items[1]) + " " + "\n";
    var l2 := "   " + "2" + " " + m.arrow + " " + m.render(a.items[2]) + " " + "\n";
    assert TraverseEntries(m, a, 3, 3, ids, 5) == "";
    ScalarStep(m, a, 2, 3, ids, 4);
    assert TraverseEntries(m, a, 2, 3, ids, 4) == l2 + "";
    assert l2 + "" == l2;
    ScalarStep(m, a, 1, 3, ids, 3);
    assert TraverseEntries(m, a, 1, 3, ids, 3) == l1 + l2;
    ScalarStep(m, a, 0, 3, ids, 2);
    assert TraverseEntries(m, a, 0, 3, ids, 2) == l0 + (l1 + l2);
    ContainerShape(m, a, 2, ids, 2);
  }

  /** The two entries of the root object at indent 1: the scalar entry
      `foo` on call 0, then the nested entry `baz` on call 1. */
  lemma OuterEntries(m: Markup, v: Value, s: Value, a: Value, ids: IdStream)
    requires !IsObjectType(s) && a.Arr? && v == Obj([("foo", s), ("baz", a)])
    ensures TraverseEntries(m, v, 0, 1, ids, 0) ==
      (" " + "foo" + " " + m.arrow + " " + m.render(s) + " " + "\n")
      + (" " + m.keySpan("baz", ids(1)) + " " + m.arrow + "\n" + m.itemsSpan(ids(1), Traverse(m, a, 2, ids, 2)))
  {
    assert Indent(1) == " ";
    assert Key(v, 0) == "foo" && Key(v, 1) == "baz" && Child(v, 0) == s && Child(v, 1) == a;
    var foo := " " + "foo" + " " + m.arrow + " " + m.render(s) + " " + "\n";
    var baz := " " + m.keySpan("baz", ids(1)) + " " + m.arrow + "\n" + m.itemsSpan(ids(1), Traverse(m, a, 2, ids, 2));
    assert TraverseEntries(m, v, 2, 1, ids, 2 + Draws(a)) == "";
    NestedStep(m, v, 1, 1, ids, 1);
    assert TraverseEntries(m, v, 1, 1, ids, 1) == baz + "";
    assert baz + "" == baz;
    ScalarStep(m, v, 0, 1, ids, 0);
  }

  /** The root object at depth 0: its header, the scalar entry `foo` (call
      0) and the nested entry `baz` (call 1) around the array's traversal. */
  lemma OuterExample(m: Markup, v: Value, s: Value, a: Value, ids: IdStream)
    requires !IsObjectType(s) && a.Arr? && v == Obj([("foo", s), ("baz", a)])
    ensures Traverse(m, v, 0, ids, 0) ==
      m.render(v) + "\n"
      + ((" " + "foo" + " " + m.arrow + " " + m.render(s) + " " + "\n")
      + (" " + m.keySpan("baz", ids(1)) + " " + m.arrow + "\n" + m.itemsSpan(ids(1), Traverse(m, a, 2, ids, 2))))
  {
    OuterEntries(m, v, s, a, ids);
    var r := m.render(v);
    assert Indent(0) + r == r;
    ContainerShape(m, v, 0, ids, 0);
  }

  /** The whole dump: the header, ` foo => ...`, ` baz =>` with its key
      span and items span sharing id `ids(1)`, and the array at indent 2
      with its entries at indent 3. */
  lemma DocumentedExample(m: Markup, s: Value, x: Value, y: Value, z: Value, ids: IdStream)
    requires !IsObjectType(s) && !IsObjectType(x) && !IsObjectType(y) && !IsObjectType(z)
    ensures var v := Obj([("foo", s), ("baz", Arr([x, y, z]))]);
      Traverse(m, v, 0, ids, 0) ==
      m.render(v) + "\n"
      + ((" " + "foo" + " " + m.arrow + " " + m.render(s) + " " + "\n")
      + (" " + m.keySpan("baz", ids(1)) + " " + m.arrow + "\n"
         + m.itemsSpan(ids(1),
             "  " + m.render(Arr([x, y, z])) + "\n"
             + (("   " + "0" + " " + m.arrow + " " + m.render(x) + " " + "\n")
             + (("   " + "1" + " " + m.arrow + " " + m.render(y) + " " + "\n")
             + ("   " + "2" + " " + m.arrow + " " + m.render(z) + " " + "\n"))))))
  {
    var a := Arr([x, y, z]);
    OuterExample(m, Obj([("foo", s), ("baz", a)]), s, a, ids);
    InnerExample(m, a, ids);
  }

  /** The documented call itself, `{foo: 'bar', baz: [1,2,3]}`, in the
      markup of dumper.js: the lines of `DocumentedExample` with the spans
      and renderings of the dump. */
  lemma DocumentedDump(s: Value, x: Value, y: Value, z: Value, ids: IdStream)
    requires s == Str("bar") && x == Num(1) && y == Num(2) && z == Num(3)
    ensures var v := Obj([("foo", s), ("baz", Arr([x, y, z]))]);
      Dumper.Dumper(v, 0, ids, 0) ==
      Render(v) + "\n"
      + ((" " + "foo" + " " + ArrowSpan() + " " + Render(s) + " " + "\n")
      + (" " + KeySpan("baz", ids(1)) + " " + ArrowSpan() + "\n"
         + ItemsSpan(ids(1),
             "  " + Render(Arr([x, y, z])) + "\n"
             + (("   " + "0" + " " + ArrowSpan() + " " + Render(x) + " " + "\n")
             + (("   " + "1" + " " + ArrowSpan() + " " + Render(y) + " " + "\n")
             + ("   " + "2" + " " + ArrowSpan() + " " + Render(z) + " " + "\n"))))))
  {
    DocumentedExample(Html, s, x, y, z, ids);
  }

  /** The renderings in the documented dump: the object of size 2, the
      array of size 3, the string `bar` with its length 3 and the numbers 1,
      2 and 3 in decimal. */
  lemma DocumentedRenderings(s: Value, x: Value, y: Value, z: Value)
    requires s == Str("bar") && x == Num(1) && y == Num(2) && z == Num(3)
    ensures Render(Obj([("foo", s), ("baz", Arr([x, y, z]))])) == ("<strong>" + "object" + "</strong> ") + ("<em>(size=" + "2" + ")</em>")
    ensures Render(Arr([x, y, z])) == ("<strong>" + "array" + "</strong> ") + ("<em>(size=" + "3" + ")</em>")
    ensures Render(s) == ("<small>" + "string" + "</small> ") + (SpanColor + ColorString + "\">'" + "bar" + StringMiddle + "3" + ")</em>")
    ensures Render(x) == ("<small>" + "number" + "</small> ") + (SpanColor + ColorNumber + TagEnd + "1" + SpanClose)
    ensures Render(y) == ("<small>" + "number" + "</small> ") + (SpanColor + ColorNumber + TagEnd + "2" + SpanClose)
    ensures Render(z) == ("<small>" + "number" + "</small> ") + (SpanColor + ColorNumber + TagEnd + "3" + SpanClose)
  {
    RenderContainer(Obj([("foo", s), ("baz", Arr([x, y, z]))]));
    RenderContainer(Arr([x, y, z]));
    assert Utf16Length("bar") == 3 by {
      Utf16LengthBmp("bar");
    }
    RenderString(s);
    RenderNumber(x);
    RenderNumber(y);
    RenderNumber(z);
  }
}
