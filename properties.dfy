/**
 * What the conversion promises: children come out in input order, every
 * entry a call writes is indented by its padding, empty input gives empty
 * output (with the blank line an empty nested container leaves behind), a
 * conversion fails exactly when an unsupported value sits inside a container,
 * and the shapes of the individual elements and of the whole document.
 */
module ConverterProperties {
  import opened JsonValue
  import opened TypeTag
  import opened Converter

  // ---------------------------------------------------------------------------
  // Joining entries with newlines.

  /** Joining two non-empty lists of entries puts one newline between them. */
  lemma {:induction false} JoinAppend(a: seq<string>, b: seq<string>)
    requires a != [] && b != []
    ensures Join(a + b) == Join(a) + "\n" + Join(b)
    decreases |b|
  {
    if |b| == 1 {
      assert (a + b)[..|a + b| - 1] == a;
    } else {
      var front := b[..|b| - 1];
      JoinAppend(a, front);
      assert (a + b)[..|a + b| - 1] == a + front;
    }
  }

  /** A joined list of entries starts with its first entry. */
  lemma {:induction false} JoinStartsWithFirst(a: seq<string>)
    requires a != []
    ensures a[0] <= Join(a)
    decreases |a|
  {
    if |a| > 1 {
      JoinStartsWithFirst(a[..|a| - 1]);
    }
  }

  // ---------------------------------------------------------------------------
  // Order: the entries of a dict or list are those of its parts, in order.

  /** Runs two conversions one after the other: the first error wins,
      otherwise the entries are concatenated. */
  function Then(first: Result<seq<string>>, second: Result<seq<string>>): Result<seq<string>>
  {
    match first
    case Failure(e) => Failure(e)
    case Success(x) =>
      match second
      case Failure(e) => Failure(e)
      case Success(y) => Success(x + y)
  }

  lemma ThenAssociative(x: Result<seq<string>>, y: Result<seq<string>>, z: Result<seq<string>>)
    ensures Then(Then(x, y), z) == Then(x, Then(y, z))
  {
    if x.Success? && y.Success? && z.Success? {
      assert x.value + y.value + z.value == x.value + (y.value + z.value);
    }
  }

  lemma {:induction false} FieldEntriesAppend(a: seq<(string, Json)>, b: seq<(string, Json)>, pad: string)
    ensures FieldEntries(a + b, pad) == Then(FieldEntries(a, pad), FieldEntries(b, pad))
    decreases |b|
  {
    if b == [] {
      assert a + b == a;
      if FieldEntries(a, pad).Success? {
        assert FieldEntries(a, pad).value + [] == FieldEntries(a, pad).value;
      }
    } else {
      var front := b[..|b| - 1];
      FieldEntriesAppend(a, front, pad);
      assert (a + b)[..|a + b| - 1] == a + front;
      assert (a + b)[|a + b| - 1] == b[|b| - 1];
      var block := ChildEntries(Field(b[|b| - 1].0), b[|b| - 1].1, pad);
      assert FieldEntries(b, pad) == Then(FieldEntries(front, pad), block);
      assert FieldEntries(a + b, pad) == Then(FieldEntries(a + front, pad), block);
      ThenAssociative(FieldEntries(a, pad), FieldEntries(front, pad), block);
    }
  }

  lemma {:induction false} ItemEntriesAppend(a: seq<Json>, b: seq<Json>, pad: string)
    ensures ItemEntries(a + b, pad) == Then(ItemEntries(a, pad), ItemEntries(b, pad))
    decreases |b|
  {
    if b == [] {
      assert a + b == a;
      if ItemEntries(a, pad).Success? {
        assert ItemEntries(a, pad).value + [] == ItemEntries(a, pad).value;
      }
    } else {
      var front := b[..|b| - 1];
      ItemEntriesAppend(a, front, pad);
      assert (a + b)[..|a + b| - 1] == a + front;
      assert (a + b)[|a + b| - 1] == b[|b| - 1];
      var block := ChildEntries(Element, b[|b| - 1], pad);
      assert ItemEntries(b, pad) == Then(ItemEntries(front, pad), block);
      assert ItemEntries(a + b, pad) == Then(ItemEntries(a + front, pad), block);
      ThenAssociative(ItemEntries(a, pad), ItemEntries(front, pad), block);
    }
  }

  // ---------------------------------------------------------------------------
  // Shape of the entries: none for no children, and each entry indented.

  /** Every entry is either an empty nested body or starts with the padding. */
  ghost predicate Indented(entries: seq<string>, pad: string)
  {
    forall e :: e in entries ==> e == "" || pad <= e
  }

  /** What ChildEntries writes: at least one entry, the first a tag at the
      padding, all of them indented. */
  ghost predicate BlockShape(entries: seq<string>, pad: string)
  {
    entries != [] && pad + "<" <= entries[0] && Indented(entries, pad)
  }

  /** What a list of children writes: nothing exactly when there are no
      children; otherwise the first entry is a tag at the padding. */
  ghost predicate ListShape(entries: seq<string>, children: nat, pad: string)
  {
    (entries == [] <==> children == 0)
    && (entries != [] ==> pad + "<" <= entries[0])
    && Indented(entries, pad)
  }

  lemma {:induction false} ChildShape(o: Origin, child: Json, pad: string)
    requires ChildEntries(o, child, pad).Success?
    ensures BlockShape(ChildEntries(o, child, pad).value, pad)
    decreases child, 1
  {
    var entries := ChildEntries(o, child, pad).value;
    if IsContainer(child) {
      var inner := pad + INDENT;
      var name := ContainerName(child);
      var body := ToXml(child, inner).value;
      assert body == "" || pad <= body by {
        OutputShape(child, inner);
        if body != "" {
          assert inner + "<" <= body;
          assert pad <= inner;
        }
      }
      TagsAtPad(pad, o, name, "", "");
      assert entries == [OpenTag(pad, name, o), body, CloseTag(pad, name)];
    } else if child.Null? {
      TagsAtPad(pad, o, "", "", "");
    } else {
      TagsAtPad(pad, o, "", TypeToTag(child).value, LeafText(child));
    }
  }

  /** Every tag the converter writes starts with the padding and "<". */
  lemma TagsAtPad(pad: string, o: Origin, name: string, tag: string, text: string)
    ensures pad + "<" <= OpenTag(pad, name, o) && pad + "<" <= CloseTag(pad, name)
    ensures pad + "<" <= NullTag(pad, o) && pad + "<" <= LeafElement(pad, tag, o, text)
  {
    match o
    case Field(k) =>
      assert "<null name=\"" == "<" + "null name=\"";
      assert NullTag(pad, o) == pad + "<" + "null name=\"" + k + "\" />";
    case Element =>
      assert "<null />" == "<" + "null />";
      assert NullTag(pad, o) == pad + "<" + "null />";
  }

  lemma {:induction false} OutputShape(v: Json, pad: string)
    requires ToXml(v, pad).Success?
    ensures ToXml(v, pad).value == "" || pad + "<" <= ToXml(v, pad).value
    decreases v, 0
  {
    match v
    case Object(fields) =>
      FieldShape(fields, pad);
      var entries := FieldEntries(fields, pad).value;
      if entries != [] {
        JoinStartsWithFirst(entries);
      }
    case Array(items) =>
      ItemShape(items, pad);
      var entries := ItemEntries(items, pad).value;
      if entries != [] {
        JoinStartsWithFirst(entries);
      }
    case _ =>
  }

  lemma {:induction false} FieldShape(fields: seq<(string, Json)>, pad: string)
    requires FieldEntries(fields, pad).Success?
    ensures ListShape(FieldEntries(fields, pad).value, |fields|, pad)
    decreases fields, 0
  {
    if fields != [] {
      var front := fields[..|fields| - 1];
      var last := fields[|fields| - 1];
      FieldShape(front, pad);
      assert fields decreases to last.1 by {
        assert last in fields;
        assert last decreases to last.1;
      }
      ChildShape(Field(last.0), last.1, pad);
    }
  }

  lemma {:induction false} ItemShape(items: seq<Json>, pad: string)
    requires ItemEntries(items, pad).Success?
    ensures ListShape(ItemEntries(items, pad).value, |items|, pad)
    decreases items, 0
  {
    if items != [] {
      ItemShape(items[..|items| - 1], pad);
      ChildShape(Element, items[|items| - 1], pad);
    }
  }

  /** A call returns "" exactly for an empty dict, an empty list, or a value
      that is neither; anything else starts with a tag at the padding. */
  lemma EmptyOutput(v: Json, pad: string)
    requires ToXml(v, pad).Success?
    ensures ToXml(v, pad).value == "" <==> v == Object([]) || v == Array([]) || !IsContainer(v)
    ensures ToXml(v, pad).value != "" ==> pad + "<" <= ToXml(v, pad).value
  {
    OutputShape(v, pad);
    match v
    case Object(fields) =>
      FieldShape(fields, pad);
    case Array(items) =>
      ItemShape(items, pad);
    case _ =>
  }

  /** Output for a dict is the output of its first items, a newline, then
      the output of the rest: items are written in input order. */
  lemma ObjectInOrder(a: seq<(string, Json)>, b: seq<(string, Json)>, pad: string)
    requires a != [] && b != []
    ensures ToXml(Object(a + b), pad).Success?
        <==> ToXml(Object(a), pad).Success? && ToXml(Object(b), pad).Success?
    ensures ToXml(Object(a + b), pad).Success? ==>
      ToXml(Object(a + b), pad).value == ToXml(Object(a), pad).value + "\n" + ToXml(Object(b), pad).value
  {
    FieldEntriesAppend(a, b, pad);
    if FieldEntries(a, pad).Success? && FieldEntries(b, pad).Success? {
      FieldShape(a, pad);
      FieldShape(b, pad);
      JoinAppend(FieldEntries(a, pad).value, FieldEntries(b, pad).value);
    }
  }

  /** Output for a list is the output of its first elements, a newline, then
      the output of the rest. */
  lemma ArrayInOrder(a: seq<Json>, b: seq<Json>, pad: string)
    requires a != [] && b != []
    ensures ToXml(Array(a + b), pad).Success?
        <==> ToXml(Array(a), pad).Success? && ToXml(Array(b), pad).Success?
    ensures ToXml(Array(a + b), pad).Success? ==>
      ToXml(Array(a + b), pad).value == ToXml(Array(a), pad).value + "\n" + ToXml(Array(b), pad).value
  {
    ItemEntriesAppend(a, b, pad);
    if ItemEntries(a, pad).Success? && ItemEntries(b, pad).Success? {
      ItemShape(a, pad);
      ItemShape(b, pad);
      JoinAppend(ItemEntries(a, pad).value, ItemEntries(b, pad).value);
    }
  }

  // ---------------------------------------------------------------------------
  // One child at a time.

  /** A dict with one item writes just that item's entries, joined. */
  lemma SingleField(key: string, child: Json, pad: string)
    ensures ToXml(Object([(key, child)]), pad)
         == match ChildEntries(Field(key), child, pad)
            case Success(block) => Success(Join(block))
            case Failure(e) => Failure(e)
  {
    var fields := [(key, child)];
    assert fields[..0] == [];
    assert FieldEntries(fields[..0], pad) == Success([]);
    if ChildEntries(Field(key), child, pad).Success? {
      var block := ChildEntries(Field(key), child, pad).value;
      assert [] + block == block;
    }
  }

  /** A list with one element writes just that element's entries, joined. */
  lemma SingleItem(child: Json, pad: string)
    ensures ToXml(Array([child]), pad)
         == match ChildEntries(Element, child, pad)
            case Success(block) => Success(Join(block))
            case Failure(e) => Failure(e)
  {
    var items := [child];
    assert items[..0] == [];
    assert ItemEntries(items[..0], pad) == Success([]);
    if ChildEntries(Element, child, pad).Success? {
      var block := ChildEntries(Element, child, pad).value;
      assert [] + block == block;
    }
  }

  lemma JoinThree(a: string, b: string, c: string)
    ensures Join([a, b, c]) == a + "\n" + b + "\n" + c
  {
    assert [a, b, c][..2] == [a, b];
    assert [a, b][..1] == [a];
    assert Join([a]) == a;
    assert Join([a, b]) == a + "\n" + b;
  }

  /** A nested dict or list is its open tag at the padding, its body one
      level deeper, and its close tag at the padding, on three entries. */
  lemma NestedContainer(o: Origin, child: Json, pad: string)
    requires IsContainer(child) && ToXml(child, pad + INDENT).Success?
    ensures var name := if child.Object? then "object" else "array";
      var body := ToXml(child, pad + INDENT).value;
      var out := OpenTag(pad, name, o) + "\n" + body + "\n" + CloseTag(pad, name);
      (o.Field? ==> ToXml(Object([(o.key, child)]), pad) == Success(out))
      && (o.Element? ==> ToXml(Array([child]), pad) == Success(out))
  {
    var name := if child.Object? then "object" else "array";
    var body := ToXml(child, pad + INDENT).value;
    assert ChildEntries(o, child, pad) == Success([OpenTag(pad, name, o), body, CloseTag(pad, name)]);
    JoinThree(OpenTag(pad, name, o), body, CloseTag(pad, name));
    if o.Field? {
      SingleField(o.key, child, pad);
    } else {
      SingleItem(child, pad);
    }
  }

  /** Regrouping the last three pieces of a concatenation. */
  lemma Regroup(x: string, a: string, b: string, c: string)
    ensures x + a + b + c == x + (a + b + c)
  {
  }

  /** An empty dict or list nested in a dict leaves a blank line between
      its open and close tags. */
  lemma NestedEmptyContainer(key: string, pad: string)
    ensures ToXml(Object([(key, Array([]))]), pad)
         == Success(pad + "<array name=\"" + key + "\">\n\n" + pad + "</array>")
    ensures ToXml(Object([(key, Object([]))]), pad)
         == Success(pad + "<object name=\"" + key + "\">\n\n" + pad + "</object>")
  {
    ContainerSpelling();
    assert ToXml(Object([(key, Array([]))]), pad)
        == Success(pad + ("<" + "array" + " name=\"") + key + "\">\n\n" + pad + ("</" + "array" + ">")) by {
      NestedContainer(Field(key), Array([]), pad);
      EmptyContainerText(pad, key, "array");
    }
    assert ToXml(Object([(key, Object([]))]), pad)
        == Success(pad + ("<" + "object" + " name=\"") + key + "\">\n\n" + pad + ("</" + "object" + ">")) by {
      NestedContainer(Field(key), Object([]), pad);
      EmptyContainerText(pad, key, "object");
    }
  }

  lemma EmptyContainerText(pad: string, key: string, name: string)
    ensures OpenTag(pad, name, Field(key)) + "\n" + "" + "\n" + CloseTag(pad, name)
         == pad + ("<" + name + " name=\"") + key + "\">\n\n" + pad + ("</" + name + ">")
  {
    var open := pad + ("<" + name + " name=\"") + key;
    Regroup(pad, "<", name, " name=\"");
    assert OpenTag(pad, name, Field(key)) == open + "\">";
    assert open + "\">" + "\n" + "" == open + "\">" + "\n";
    Regroup(open, "\">", "\n", "\n");
    assert "\">" + "\n" + "\n" == "\">\n\n";
    Regroup(pad, "</", name, ">");
    assert CloseTag(pad, name) == pad + ("</" + name + ">");
  }

  /** A scalar child is one entry: its element under the key or in the list. */
  lemma ScalarChild(key: string, child: Json, pad: string)
    requires child.Str? || child.Num? || child.Bool? || child.Null?
    ensures var line := if child.Null? then NullTag(pad, Field(key))
                        else LeafElement(pad, TypeToTag(child).value, Field(key), LeafText(child));
      ToXml(Object([(key, child)]), pad) == Success(line)
    ensures var line := if child.Null? then NullTag(pad, Element)
                        else LeafElement(pad, TypeToTag(child).value, Element, LeafText(child));
      ToXml(Array([child]), pad) == Success(line)
  {
    SingleField(key, child, pad);
    SingleItem(child, pad);
  }

  /** A leaf element's text, grouped as opening tag, key, text, closing tag. */
  lemma LeafPieces(pad: string, key: string, tag: string, text: string)
    ensures LeafElement(pad, tag, Field(key), text)
         == pad + ("<" + tag + " name=\"") + key + "\">" + text + ("</" + tag + ">")
    ensures LeafElement(pad, tag, Element, text) == pad + ("<" + tag + ">") + text + ("</" + tag + ">")
  {
    Regroup(pad, "<", tag, " name=\"");
    Regroup(pad, "<", tag, ">");
    Regroup(pad + ("<" + tag + " name=\"") + key + "\">" + text, "</", tag, ">");
    Regroup(pad + ("<" + tag + ">") + text, "</", tag, ">");
  }

  /** null is one self-closing tag, with the key as name="K" under a key. */
  lemma NullLeaf(key: string, pad: string)
    ensures ToXml(Object([(key, Null)]), pad) == Success(pad + "<null name=\"" + key + "\" />")
    ensures ToXml(Array([Null]), pad) == Success(pad + "<null />")
  {
    ScalarChild(key, Null, pad);
  }

  /** The text of a leaf with a literal tag, in the program's own spelling. */
  lemma LeafSpelling(pad: string, key: string, tag: string, text: string, named: string, plain: string, close: string)
    requires named == "<" + tag + " name=\"" && plain == "<" + tag + ">" && close == "</" + tag + ">"
    ensures LeafElement(pad, tag, Field(key), text) == pad + named + key + "\">" + text + close
    ensures LeafElement(pad, tag, Element, text) == pad + plain + text + close
  {
    LeafPieces(pad, key, tag, text);
  }

  // The tag spellings as single literals.

  lemma BooleanSpelling()
    ensures "<" + "boolean" + " name=\"" == "<boolean name=\""
    ensures "<" + "boolean" + ">" == "<boolean>" && "</" + "boolean" + ">" == "</boolean>"
  {
  }

  lemma StringSpelling()
    ensures "<" + "string" + " name=\"" == "<string name=\""
    ensures "<" + "string" + ">" == "<string>" && "</" + "string" + ">" == "</string>"
  {
  }

  lemma NumberSpelling()
    ensures "<" + "number" + " name=\"" == "<number name=\""
    ensures "<" + "number" + ">" == "<number>" && "</" + "number" + ">" == "</number>"
  {
  }

  lemma ContainerSpelling()
    ensures "<" + "array" + " name=\"" == "<array name=\"" && "</" + "array" + ">" == "</array>"
    ensures "<" + "object" + " name=\"" == "<object name=\"" && "</" + "object" + ">" == "</object>"
  {
  }

  /** A boolean is tagged boolean and written as lower-case true or false. */
  lemma BooleanLeaf(key: string, b: bool, pad: string)
    ensures var text := if b then "true" else "false";
      ToXml(Object([(key, Bool(b))]), pad)
        == Success(pad + "<boolean name=\"" + key + "\">" + text + "</boolean>")
      && ToXml(Array([Bool(b)]), pad) == Success(pad + "<boolean>" + text + "</boolean>")
  {
    var text := if b then "true" else "false";
    assert ToXml(Object([(key, Bool(b))]), pad) == Success(LeafElement(pad, "boolean", Field(key), text)) by {
      ScalarChild(key, Bool(b), pad);
    }
    assert ToXml(Array([Bool(b)]), pad) == Success(LeafElement(pad, "boolean", Element, text)) by {
      ScalarChild(key, Bool(b), pad);
    }
    BooleanSpelling();
    LeafSpelling(pad, key, "boolean", text, "<boolean name=\"", "<boolean>", "</boolean>");
  }

  /** A string is tagged string and written verbatim, without escaping. */
  lemma StringLeaf(key: string, s: string, pad: string)
    ensures ToXml(Object([(key, Str(s))]), pad)
         == Success(pad + "<string name=\"" + key + "\">" + s + "</string>")
    ensures ToXml(Array([Str(s)]), pad) == Success(pad + "<string>" + s + "</string>")
  {
    assert ToXml(Object([(key, Str(s))]), pad) == Success(LeafElement(pad, "string", Field(key), s)) by {
      ScalarChild(key, Str(s), pad);
    }
    assert ToXml(Array([Str(s)]), pad) == Success(LeafElement(pad, "string", Element, s)) by {
      ScalarChild(key, Str(s), pad);
    }
    StringSpelling();
    LeafSpelling(pad, key, "string", s, "<string name=\"", "<string>", "</string>");
  }

  /** A number is tagged number and written in decimal. */
  lemma NumberLeaf(key: string, n: int, pad: string)
    ensures ToXml(Object([(key, Num(n))]), pad)
         == Success(pad + "<number name=\"" + key + "\">" + IntToDecimal(n) + "</number>")
    ensures ToXml(Array([Num(n)]), pad) == Success(pad + "<number>" + IntToDecimal(n) + "</number>")
  {
    var text := IntToDecimal(n);
    assert ToXml(Object([(key, Num(n))]), pad) == Success(LeafElement(pad, "number", Field(key), text)) by {
      ScalarChild(key, Num(n), pad);
    }
    assert ToXml(Array([Num(n)]), pad) == Success(LeafElement(pad, "number", Element, text)) by {
      ScalarChild(key, Num(n), pad);
    }
    NumberSpelling();
    LeafSpelling(pad, key, "number", text, "<number name=\"", "<number>", "</number>");
  }

  // ---------------------------------------------------------------------------
  // Errors.

  /** The TypeError raised for a value of class c. */
  function UnsupportedError(c: string): Error
  {
    TypeError(UnsupportedMessage(Other(c)))
  }

  /** A value of unsupported class c occurs as a child somewhere inside v (a
      top-level value that is not a container is never looked at). */
  ghost predicate Unsupported(v: Json, c: string)
    decreases v, 0
  {
    match v
    case Object(fields) => exists i :: 0 <= i < |fields| && FieldHas(fields, i, c)
    case Array(items) => exists i :: 0 <= i < |items| && ItemHas(items, i, c)
    case _ => false
  }

  ghost predicate FieldHas(fields: seq<(string, Json)>, i: int, c: string)
    requires 0 <= i < |fields|
    decreases fields, 1
  {
    assert fields decreases to fields[i].1 by {
      assert fields[i] in fields;
      assert fields[i] decreases to fields[i].1;
    }
    ChildHas(fields[i].1, c)
  }

  ghost predicate ItemHas(items: seq<Json>, i: int, c: string)
    requires 0 <= i < |items|
    decreases items, 1
  {
    ChildHas(items[i], c)
  }

  /** The child is itself of class c, or contains such a value. */
  ghost predicate ChildHas(child: Json, c: string)
    decreases child, 2
  {
    child == Other(c) || Unsupported(child, c)
  }

  /** A conversion fails exactly when an unsupported value occurs inside the
      container, and its TypeError names the class of such a value. */
  lemma {:induction false} ConversionFails(v: Json, pad: string)
    ensures ToXml(v, pad).Failure? ==>
      exists c :: Unsupported(v, c) && ToXml(v, pad).error == UnsupportedError(c)
    ensures forall c :: Unsupported(v, c) ==> ToXml(v, pad).Failure?
    decreases v, 0
  {
    match v
    case Object(fields) =>
      FieldsFail(fields, pad);
      if ToXml(v, pad).Failure? {
        var i, c :| 0 <= i < |fields| && FieldHas(fields, i, c)
                    && FieldEntries(fields, pad).error == UnsupportedError(c);
        assert Unsupported(v, c);
      }
    case Array(items) =>
      ItemsFail(items, pad);
      if ToXml(v, pad).Failure? {
        var i, c :| 0 <= i < |items| && ItemHas(items, i, c)
                    && ItemEntries(items, pad).error == UnsupportedError(c);
        assert Unsupported(v, c);
      }
    case _ =>
  }

  lemma {:induction false} ChildFails(o: Origin, child: Json, pad: string)
    ensures ChildEntries(o, child, pad).Failure? ==>
      exists c :: ChildHas(child, c) && ChildEntries(o, child, pad).error == UnsupportedError(c)
    ensures forall c :: ChildHas(child, c) ==> ChildEntries(o, child, pad).Failure?
    decreases child, 1
  {
    if IsContainer(child) {
      ConversionFails(child, pad + INDENT);
    } else if child.Other? {
      assert ChildHas(child, child.className);
    }
  }

  lemma {:induction false} FieldsFail(fields: seq<(string, Json)>, pad: string)
    ensures FieldEntries(fields, pad).Failure? ==>
      exists i, c :: 0 <= i < |fields| && FieldHas(fields, i, c)
                     && FieldEntries(fields, pad).error == UnsupportedError(c)
    ensures forall i, c :: 0 <= i < |fields| && FieldHas(fields, i, c) ==> FieldEntries(fields, pad).Failure?
    decreases fields, 0
  {
    if fields != [] {
      var n := |fields|;
      var front := fields[..n - 1];
      var last := fields[n - 1];
      var block := ChildEntries(Field(last.0), last.1, pad);
      FieldsFail(front, pad);
      assert fields decreases to last.1 by {
        assert last in fields;
        assert last decreases to last.1;
      }
      ChildFails(Field(last.0), last.1, pad);
      forall i, c | 0 <= i < n - 1
        ensures FieldHas(front, i, c) == FieldHas(fields, i, c)
      {
        assert front[i] == fields[i];
      }
      assert FieldEntries(fields, pad) == Then(FieldEntries(front, pad), block);
      if FieldEntries(front, pad).Failure? {
        var i, c :| 0 <= i < n - 1 && FieldHas(front, i, c)
                    && FieldEntries(front, pad).error == UnsupportedError(c);
        assert FieldHas(fields, i, c);
      } else if block.Failure? {
        var c :| ChildHas(last.1, c) && block.error == UnsupportedError(c);
        assert FieldHas(fields, n - 1, c);
      }
      forall i, c | 0 <= i < n && FieldHas(fields, i, c)
        ensures FieldEntries(fields, pad).Failure?
      {
        if i < n - 1 {
          assert FieldHas(front, i, c);
        } else {
          assert ChildHas(last.1, c);
        }
      }
    }
  }

  lemma {:induction false} ItemsFail(items: seq<Json>, pad: string)
    ensures ItemEntries(items, pad).Failure? ==>
      exists i, c :: 0 <= i < |items| && ItemHas(items, i, c)
                     && ItemEntries(items, pad).error == UnsupportedError(c)
    ensures forall i, c :: 0 <= i < |items| && ItemHas(items, i, c) ==> ItemEntries(items, pad).Failure?
    decreases items, 0
  {
    if items != [] {
      var n := |items|;
      var front := items[..n - 1];
      var block := ChildEntries(Element, items[n - 1], pad);
      ItemsFail(front, pad);
      ChildFails(Element, items[n - 1], pad);
      forall i, c | 0 <= i < n - 1
        ensures ItemHas(front, i, c) == ItemHas(items, i, c)
      {
        assert front[i] == items[i];
      }
      assert ItemEntries(items, pad) == Then(ItemEntries(front, pad), block);
      if ItemEntries(front, pad).Failure? {
        var i, c :| 0 <= i < n - 1 && ItemHas(front, i, c)
                    && ItemEntries(front, pad).error == UnsupportedError(c);
        assert ItemHas(items, i, c);
      } else if block.Failure? {
        var c :| ChildHas(items[n - 1], c) && block.error == UnsupportedError(c);
        assert ItemHas(items, n - 1, c);
      }
      forall i, c | 0 <= i < n && ItemHas(items, i, c)
        ensures ItemEntries(items, pad).Failure?
      {
        if i < n - 1 {
          assert ItemHas(front, i, c);
        } else {
          assert ChildHas(items[n - 1], c);
        }
      }
    }
  }

  // ---------------------------------------------------------------------------
  // The document.

  /** The document is the root <object> line, the body at one tab, and the
      closing </object> line; it fails exactly when the body does. An empty
      dict, an empty list or a top-level scalar leaves the body empty, so the
      two root lines are separated by a blank line. */
  lemma DocumentShape(v: Json)
    ensures Document(v).Success? <==> ToXml(v, INDENT).Success?
    ensures Document(v).Success? ==>
      var doc := Document(v).value;
      var body := ToXml(v, INDENT).value;
      && doc == "<object>\n" + body + "\n</object>"
      && (body == "" <==> v == Object([]) || v == Array([]) || !IsContainer(v))
      && (body != "" ==> "\t<" <= body)
  {
    if ToXml(v, INDENT).Success? {
      EmptyOutput(v, INDENT);
    }
  }

  /** An empty top-level dict gives a root element around a blank line. */
  lemma EmptyDocument()
    ensures Document(Object([])) == Success("<object>\n\n</object>")
  {
    assert "<object>\n" + "" + "\n</object>" == "<object>\n\n</object>";
  }
}
