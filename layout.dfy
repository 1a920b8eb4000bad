/**
 * The converter's output read as a flat list of logical lines. A nested
 * body is one entry of its parent's list, and entries are joined with
 * newlines, so the output is the same as writing every open tag, leaf,
 * close tag and (for an empty nested container) blank line on a line of
 * its own. On that view the open and close tags are balanced, each close
 * tag at its open tag's indentation, and every line of a nested body is
 * indented at least one tab deeper than its container's tags.
 *
 * Keys and string values are written verbatim, so a value holding a newline
 * spreads one logical line over several physical ones; the lines here are
 * the logical ones.
 */
module Layout {
  import opened JsonValue
  import opened TypeTag
  import opened Converter
  import opened ConverterProperties

  datatype Option<T> = None | Some(value: T)

  /** One logical line of output. A Leaf holds the whole element as written. */
  datatype Line =
    | Open(pad: string, name: string, origin: Origin)
    | Close(pad: string, name: string)
    | Leaf(pad: string, text: string)
    | Blank

  function Render(line: Line): string
  {
    match line
    case Open(pad, name, o) => OpenTag(pad, name, o)
    case Close(pad, name) => CloseTag(pad, name)
    case Leaf(_, text) => text
    case Blank => ""
  }

  function RenderAll(lines: seq<Line>): (texts: seq<string>)
    ensures |texts| == |lines|
    ensures forall i :: 0 <= i < |lines| ==> texts[i] == Render(lines[i])
  {
    seq(|lines|, i requires 0 <= i < |lines| => Render(lines[i]))
  }

  // ---------------------------------------------------------------------------
  // The lines of a conversion that succeeds.

  function Lines(v: Json, pad: string): seq<Line>
    requires ToXml(v, pad).Success?
    decreases v, 0
  {
    match v
    case Object(fields) => FieldLines(fields, pad)
    case Array(items) => ItemLines(items, pad)
    case _ => []
  }

  function FieldLines(fields: seq<(string, Json)>, pad: string): seq<Line>
    requires FieldEntries(fields, pad).Success?
    decreases fields, 0
  {
    if |fields| == 0 then []
    else
      var last := fields[|fields| - 1];
      assert fields decreases to last.1 by {
        assert last in fields;
        assert last decreases to last.1;
      }
      FieldLines(fields[..|fields| - 1], pad) + ChildLines(Field(last.0), last.1, pad)
  }

  function ItemLines(items: seq<Json>, pad: string): seq<Line>
    requires ItemEntries(items, pad).Success?
    decreases items, 0
  {
    if |items| == 0 then []
    else ItemLines(items[..|items| - 1], pad) + ChildLines(Element, items[|items| - 1], pad)
  }

  /** A container child's body lines sit between its open and close tags; an
      empty body still leaves one blank line there. */
  function ChildLines(o: Origin, child: Json, pad: string): seq<Line>
    requires ChildEntries(o, child, pad).Success?
    decreases child, 1
  {
    if IsContainer(child) then
      var inner := Lines(child, pad + INDENT);
      [Open(pad, ContainerName(child), o)]
      + (if inner == [] then [Blank] else inner)
      + [Close(pad, ContainerName(child))]
    else if child.Null? then
      [Leaf(pad, NullTag(pad, o))]
    else
      [Leaf(pad, LeafElement(pad, TypeToTag(child).value, o, LeafText(child)))]
  }

  // ---------------------------------------------------------------------------
  // The output is the lines joined with newlines.

  lemma RenderAllAppend(a: seq<Line>, b: seq<Line>)
    ensures RenderAll(a + b) == RenderAll(a) + RenderAll(b)
  {
  }

  /** Joining the rendered lines of two parts, when each part may be empty. */
  lemma JoinParts(a: seq<string>, b: seq<string>, x: seq<string>, y: seq<string>)
    requires Join(a) == Join(x) && (a == [] <==> x == [])
    requires Join(b) == Join(y) && (b == [] <==> y == [])
    ensures Join(a + b) == Join(x + y)
  {
    if a == [] {
      assert a + b == b && x + y == y;
    } else if b == [] {
      assert a + b == a && x + y == x;
    } else {
      JoinAppend(a, b);
      JoinAppend(x, y);
    }
  }

  lemma {:induction false} LinesRender(v: Json, pad: string)
    requires ToXml(v, pad).Success?
    ensures Join(RenderAll(Lines(v, pad))) == ToXml(v, pad).value
    ensures Lines(v, pad) == [] <==> ToXml(v, pad).value == ""
    decreases v, 0
  {
    EmptyOutput(v, pad);
    match v
    case Object(fields) =>
      FieldLinesRender(fields, pad);
      FieldShape(fields, pad);
    case Array(items) =>
      ItemLinesRender(items, pad);
      ItemShape(items, pad);
    case _ =>
  }

  lemma {:induction false} ChildLinesRender(o: Origin, child: Json, pad: string)
    requires ChildEntries(o, child, pad).Success?
    ensures Join(RenderAll(ChildLines(o, child, pad))) == Join(ChildEntries(o, child, pad).value)
    ensures ChildLines(o, child, pad) != []
    decreases child, 1
  {
    if IsContainer(child) {
      var inner := pad + INDENT;
      LinesRender(child, inner);
      var name := ContainerName(child);
      var body := ToXml(child, inner).value;
      var middle := if Lines(child, inner) == [] then [Blank] else Lines(child, inner);
      assert Join(RenderAll(middle)) == body by {
        if Lines(child, inner) == [] {
          assert RenderAll(middle) == [""];
        }
      }
      WrapRender(Open(pad, name, o), middle, Close(pad, name), body);
    }
  }

  /** Open tag, body lines, close tag render as the three entries open tag,
      joined body, close tag. */
  lemma WrapRender(first: Line, middle: seq<Line>, last: Line, body: string)
    requires middle != [] && Join(RenderAll(middle)) == body
    ensures Join(RenderAll([first] + middle + [last])) == Join([Render(first), body, Render(last)])
  {
    var a, c := Render(first), Render(last);
    RenderAllAppend([first], middle);
    RenderAllAppend([first] + middle, [last]);
    assert RenderAll([first]) == [a] && RenderAll([last]) == [c];
    assert RenderAll([first] + middle + [last]) == [a] + RenderAll(middle) + [c];
    JoinAppend([a], RenderAll(middle));
    assert Join([a]) == a && Join([c]) == c;
    assert Join([a] + RenderAll(middle)) == a + "\n" + body;
    JoinAppend([a] + RenderAll(middle), [c]);
    JoinThree(a, body, c);
  }

  lemma {:induction false} FieldLinesRender(fields: seq<(string, Json)>, pad: string)
    requires FieldEntries(fields, pad).Success?
    ensures Join(RenderAll(FieldLines(fields, pad))) == Join(FieldEntries(fields, pad).value)
    ensures FieldLines(fields, pad) == [] <==> FieldEntries(fields, pad).value == []
    decreases fields, 0
  {
    FieldShape(fields, pad);
    if fields != [] {
      var front := fields[..|fields| - 1];
      var last := fields[|fields| - 1];
      assert fields decreases to last.1 by {
        assert last in fields;
        assert last decreases to last.1;
      }
      FieldLinesRender(front, pad);
      ChildLinesRender(Field(last.0), last.1, pad);
      ChildShape(Field(last.0), last.1, pad);
      RenderAllAppend(FieldLines(front, pad), ChildLines(Field(last.0), last.1, pad));
      JoinParts(RenderAll(FieldLines(front, pad)), RenderAll(ChildLines(Field(last.0), last.1, pad)),
                FieldEntries(front, pad).value, ChildEntries(Field(last.0), last.1, pad).value);
    }
  }

  lemma {:induction false} ItemLinesRender(items: seq<Json>, pad: string)
    requires ItemEntries(items, pad).Success?
    ensures Join(RenderAll(ItemLines(items, pad))) == Join(ItemEntries(items, pad).value)
    ensures ItemLines(items, pad) == [] <==> ItemEntries(items, pad).value == []
    decreases items, 0
  {
    ItemShape(items, pad);
    if items != [] {
      var front := items[..|items| - 1];
      var last := items[|items| - 1];
      ItemLinesRender(front, pad);
      ChildLinesRender(Element, last, pad);
      ChildShape(Element, last, pad);
      RenderAllAppend(ItemLines(front, pad), ChildLines(Element, last, pad));
      JoinParts(RenderAll(ItemLines(front, pad)), RenderAll(ChildLines(Element, last, pad)),
                ItemEntries(front, pad).value, ChildEntries(Element, last, pad).value);
    }
  }

  // ---------------------------------------------------------------------------
  // Balanced tags.

  /** Reads lines with a stack of open tags (indentation and tag word): an
      open tag pushes, a close tag must match the innermost open tag and
      pops it; None when a close tag does not match. */
  function Scan(lines: seq<Line>, open: seq<(string, string)>): Option<seq<(string, string)>>
    decreases |lines|
  {
    if lines == [] then Some(open)
    else
      match lines[0]
      case Open(pad, name, _) => Scan(lines[1..], open + [(pad, name)])
      case Close(pad, name) =>
        if open != [] && open[|open| - 1] == (pad, name) then Scan(lines[1..], open[..|open| - 1])
        else None
      case _ => Scan(lines[1..], open)
  }

  /** Every close tag matches the innermost open tag, and all are closed. */
  predicate Balanced(lines: seq<Line>)
  {
    Scan(lines, []) == Some([])
  }

  lemma {:induction false} ScanAppend(a: seq<Line>, b: seq<Line>, open: seq<(string, string)>)
    ensures Scan(a + b, open) == match Scan(a, open) case None => None case Some(rest) => Scan(b, rest)
    decreases |a|
  {
    if a == [] {
      assert a + b == b;
    } else {
      assert (a + b)[1..] == a[1..] + b;
      match a[0]
      case Open(pad, name, _) => ScanAppend(a[1..], b, open + [(pad, name)]);
      case Close(pad, name) =>
        if open != [] && open[|open| - 1] == (pad, name) {
          ScanAppend(a[1..], b, open[..|open| - 1]);
        }
      case _ => ScanAppend(a[1..], b, open);
    }
  }

  lemma {:induction false} LinesBalanced(v: Json, pad: string, open: seq<(string, string)>)
    requires ToXml(v, pad).Success?
    ensures Scan(Lines(v, pad), open) == Some(open)
    decreases v, 0
  {
    match v
    case Object(fields) => FieldLinesBalanced(fields, pad, open);
    case Array(items) => ItemLinesBalanced(items, pad, open);
    case _ =>
  }

  lemma {:induction false} ChildLinesBalanced(o: Origin, child: Json, pad: string, open: seq<(string, string)>)
    requires ChildEntries(o, child, pad).Success?
    ensures Scan(ChildLines(o, child, pad), open) == Some(open)
    decreases child, 1
  {
    if IsContainer(child) {
      var inner := pad + INDENT;
      var name := ContainerName(child);
      var pushed := open + [(pad, name)];
      var middle := if Lines(child, inner) == [] then [Blank] else Lines(child, inner);
      assert Scan(middle, pushed) == Some(pushed) by {
        if Lines(child, inner) == [] {
          assert middle[1..] == [];
        } else {
          LinesBalanced(child, inner, pushed);
        }
      }
      var lines := [Open(pad, name, o)] + middle + [Close(pad, name)];
      assert lines[1..] == middle + [Close(pad, name)];
      ScanAppend(middle, [Close(pad, name)], pushed);
      assert pushed[..|pushed| - 1] == open;
      assert [Close(pad, name)][1..] == [];
    }
  }

  lemma {:induction false} FieldLinesBalanced(fields: seq<(string, Json)>, pad: string, open: seq<(string, string)>)
    requires FieldEntries(fields, pad).Success?
    ensures Scan(FieldLines(fields, pad), open) == Some(open)
    decreases fields, 0
  {
    if fields != [] {
      var front := fields[..|fields| - 1];
      var last := fields[|fields| - 1];
      assert fields decreases to last.1 by {
        assert last in fields;
        assert last decreases to last.1;
      }
      FieldLinesBalanced(front, pad, open);
      ChildLinesBalanced(Field(last.0), last.1, pad, open);
      ScanAppend(FieldLines(front, pad), ChildLines(Field(last.0), last.1, pad), open);
    }
  }

  lemma {:induction false} ItemLinesBalanced(items: seq<Json>, pad: string, open: seq<(string, string)>)
    requires ItemEntries(items, pad).Success?
    ensures Scan(ItemLines(items, pad), open) == Some(open)
    decreases items, 0
  {
    if items != [] {
      var front := items[..|items| - 1];
      ItemLinesBalanced(front, pad, open);
      ChildLinesBalanced(Element, items[|items| - 1], pad, open);
      ScanAppend(ItemLines(front, pad), ChildLines(Element, items[|items| - 1], pad), open);
    }
  }

  // ---------------------------------------------------------------------------
  // Indentation.

  /** Every non-blank line is indented by at least pad, and its text starts
      with its own indentation. */
  ghost predicate IndentedBy(lines: seq<Line>, pad: string)
  {
    forall i :: 0 <= i < |lines| && !lines[i].Blank? ==>
      pad <= lines[i].pad && lines[i].pad <= Render(lines[i])
  }

  lemma IndentedAppend(a: seq<Line>, b: seq<Line>, pad: string)
    requires IndentedBy(a, pad) && IndentedBy(b, pad)
    ensures IndentedBy(a + b, pad)
  {
    forall i | 0 <= i < |a + b| && !(a + b)[i].Blank?
      ensures pad <= (a + b)[i].pad && (a + b)[i].pad <= Render((a + b)[i])
    {
      if i >= |a| {
        assert (a + b)[i] == b[i - |a|];
      }
    }
  }

  lemma {:induction false} LinesIndented(v: Json, pad: string)
    requires ToXml(v, pad).Success?
    ensures IndentedBy(Lines(v, pad), pad)
    decreases v, 0
  {
    match v
    case Object(fields) => FieldLinesIndented(fields, pad);
    case Array(items) => ItemLinesIndented(items, pad);
    case _ =>
  }

  /** The lines open with first and close with last, and every line in
      between is indented by inner. */
  ghost predicate Framed(lines: seq<Line>, first: Line, last: Line, inner: string)
  {
    |lines| >= 3 && lines[0] == first && lines[|lines| - 1] == last
    && IndentedBy(lines[1..|lines| - 1], inner)
  }

  /** A child's lines are indented by the padding; a nested container's
      open and close tags sit at the padding and every line between them
      one tab deeper. */
  lemma {:induction false} ChildLinesIndented(o: Origin, child: Json, pad: string)
    requires ChildEntries(o, child, pad).Success?
    ensures IndentedBy(ChildLines(o, child, pad), pad)
    ensures IsContainer(child) ==>
      Framed(ChildLines(o, child, pad), Open(pad, ContainerName(child), o),
             Close(pad, ContainerName(child)), pad + INDENT)
    decreases child, 1
  {
    if IsContainer(child) {
      LinesIndented(child, pad + INDENT);
      NestedLinesIndented(o, child, pad);
    } else if child.Null? {
      TagsAtPad(pad, o, "", "", "");
    } else {
      TagsAtPad(pad, o, "", TypeToTag(child).value, LeafText(child));
    }
  }

  /** The container case of ChildLinesIndented, given the nested body's
      indentation. */
  lemma NestedLinesIndented(o: Origin, child: Json, pad: string)
    requires IsContainer(child) && ChildEntries(o, child, pad).Success?
    requires IndentedBy(Lines(child, pad + INDENT), pad + INDENT)
    ensures IndentedBy(ChildLines(o, child, pad), pad)
    ensures Framed(ChildLines(o, child, pad), Open(pad, ContainerName(child), o),
                   Close(pad, ContainerName(child)), pad + INDENT)
  {
    var inner := pad + INDENT;
    var name := ContainerName(child);
    var middle := if Lines(child, inner) == [] then [Blank] else Lines(child, inner);
    assert IndentedBy(middle, inner);
    assert ChildLines(o, child, pad) == [Open(pad, name, o)] + middle + [Close(pad, name)];
    TagsAtPad(pad, o, name, "", "");
    WrapShape(Open(pad, name, o), middle, Close(pad, name), pad, inner);
  }

  /** Lines indented by inner, between two tags at pad, where inner extends
      pad: the whole is indented by pad and the middle by inner. */
  lemma WrapShape(first: Line, middle: seq<Line>, last: Line, pad: string, inner: string)
    requires !first.Blank? && first.pad == pad && pad <= Render(first)
    requires !last.Blank? && last.pad == pad && pad <= Render(last)
    requires middle != [] && pad <= inner && IndentedBy(middle, inner)
    ensures IndentedBy([first] + middle + [last], pad)
    ensures Framed([first] + middle + [last], first, last, inner)
  {
    var lines := [first] + middle + [last];
    assert lines[1..|lines| - 1] == middle;
    Deeper(middle, pad, inner);
    WrapIndented(first, middle, last, pad);
  }

  /** Lines indented by a padding that extends pad are indented by pad. */
  lemma Deeper(lines: seq<Line>, pad: string, inner: string)
    requires pad <= inner && IndentedBy(lines, inner)
    ensures IndentedBy(lines, pad)
  {
  }

  lemma WrapIndented(first: Line, middle: seq<Line>, last: Line, pad: string)
    requires !first.Blank? && first.pad == pad && pad <= Render(first)
    requires !last.Blank? && last.pad == pad && pad <= Render(last)
    requires IndentedBy(middle, pad)
    ensures IndentedBy([first] + middle + [last], pad)
  {
    IndentedAppend([first], middle, pad);
    IndentedAppend([first] + middle, [last], pad);
  }

  lemma {:induction false} FieldLinesIndented(fields: seq<(string, Json)>, pad: string)
    requires FieldEntries(fields, pad).Success?
    ensures IndentedBy(FieldLines(fields, pad), pad)
    decreases fields, 0
  {
    if fields != [] {
      var front := fields[..|fields| - 1];
      var last := fields[|fields| - 1];
      assert fields decreases to last.1 by {
        assert last in fields;
        assert last decreases to last.1;
      }
      FieldLinesIndented(front, pad);
      ChildLinesIndented(Field(last.0), last.1, pad);
      IndentedAppend(FieldLines(front, pad), ChildLines(Field(last.0), last.1, pad), pad);
    }
  }

  lemma {:induction false} ItemLinesIndented(items: seq<Json>, pad: string)
    requires ItemEntries(items, pad).Success?
    ensures IndentedBy(ItemLines(items, pad), pad)
    decreases items, 0
  {
    if items != [] {
      var front := items[..|items| - 1];
      ItemLinesIndented(front, pad);
      ChildLinesIndented(Element, items[|items| - 1], pad);
      IndentedAppend(ItemLines(front, pad), ChildLines(Element, items[|items| - 1], pad), pad);
    }
  }

  // ---------------------------------------------------------------------------
  // Summary.

  /** Whenever the conversion succeeds, its output is the newline-joined
      logical lines; the open and close tags among them are balanced, each
      close tag at the indentation of its open tag; and every line written
      starts with the padding it was given. */
  lemma WellFormedOutput(v: Json, pad: string)
    requires ToXml(v, pad).Success?
    ensures ToXml(v, pad).value == Join(RenderAll(Lines(v, pad)))
    ensures Balanced(Lines(v, pad))
    ensures IndentedBy(Lines(v, pad), pad)
  {
    LinesRender(v, pad);
    LinesBalanced(v, pad, []);
    LinesIndented(v, pad);
  }
}
