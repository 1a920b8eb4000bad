/**
 * Small documents worked through to their exact text: a dict holding a
 * string and a number, a dict holding an empty list, and a dict holding
 * null. The literal equalities each sit in a lemma of their own.
 */
module Scenarios {
  import opened JsonValue
  import opened TypeTag
  import opened Converter
  import opened ConverterProperties

  lemma NameElement()
    ensures ToXml(Object([("name", Str("John"))]), INDENT) == Success("\t<string name=\"name\">John</string>")
  {
    StringLeaf("name", "John", INDENT);
    NameText();
  }

  lemma NameText()
    ensures "\t" + "<string name=\"" + "name" + "\">" + "John" + "</string>" == "\t<string name=\"name\">John</string>"
  {
  }

  lemma AgeElement()
    ensures ToXml(Object([("age", Num(30))]), INDENT) == Success("\t<number name=\"age\">30</number>")
  {
    NumberLeaf("age", 30, INDENT);
    assert NatToDecimal(3) == "3";
    assert IntToDecimal(30) == "30";
    AgeText();
  }

  lemma AgeText()
    ensures "\t" + "<number name=\"" + "age" + "\">" + "30" + "</number>" == "\t<number name=\"age\">30</number>"
  {
  }

  /** A dict split in two non-empty parts: the document holds the first
      part's lines, a newline, then the second part's lines. */
  lemma TwoPartDocument(a: seq<(string, Json)>, b: seq<(string, Json)>, x: string, y: string)
    requires a != [] && b != []
    requires ToXml(Object(a), INDENT) == Success(x) && ToXml(Object(b), INDENT) == Success(y)
    ensures Document(Object(a + b)) == Success("<object>\n" + x + "\n" + y + "\n</object>")
  {
    ObjectInOrder(a, b, INDENT);
    Regroup("<object>\n", x, "\n", y);
  }

  /** {"name": "John", "age": 30}: both items one tab in, in order. */
  lemma SimpleObject()
    ensures Document(Object([("name", Str("John")), ("age", Num(30))]))
      == Success("<object>\n" + "\t<string name=\"name\">John</string>" + "\n" + "\t<number name=\"age\">30</number>" + "\n</object>")
  {
    NameElement();
    AgeElement();
    assert [("name", Str("John"))] + [("age", Num(30))] == [("name", Str("John")), ("age", Num(30))];
    TwoPartDocument([("name", Str("John"))], [("age", Num(30))],
                    "\t<string name=\"name\">John</string>", "\t<number name=\"age\">30</number>");
  }

  /** A nested empty list leaves a blank line between its tags. */
  lemma EmptyArrayDocument()
    ensures Document(Object([("empty", Array([]))]))
      == Success("<object>\n" + "\t<array name=\"empty\">\n\n\t</array>" + "\n</object>")
  {
    NestedEmptyContainer("empty", INDENT);
    EmptyArrayText();
  }

  lemma EmptyArrayText()
    ensures "\t" + "<array name=\"" + "empty" + "\">\n\n" + "\t" + "</array>" == "\t<array name=\"empty\">\n\n\t</array>"
  {
  }

  /** null under a key is one self-closing tag carrying the key. */
  lemma NullValueDocument()
    ensures Document(Object([("nullValue", Null)]))
      == Success("<object>\n" + "\t<null name=\"nullValue\" />" + "\n</object>")
  {
    NullLeaf("nullValue", INDENT);
    NullValueText();
  }

  lemma NullValueText()
    ensures "\t" + "<null name=\"" + "nullValue" + "\" />" == "\t<null name=\"nullValue\" />"
  {
  }
}
