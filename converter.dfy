/**
 * The recursive JSON-to-XML text transformation (json_to_xml) and the
 * document wrapper around it.
 *
 * ToXml and the functions below it say what a call returns; JsonToXml is the
 * conversion as the program performs it, collecting entries in a list inside
 * loops, and is proved to return exactly what ToXml says.
 */
module Converter {
  import opened JsonValue
  import opened TypeTag

  /** One level of indentation, added for every nested container. */
  const INDENT: string := "\t"

  /** Whether a child came from a dict (under a key) or from a list. */
  datatype Origin = Field(key: string) | Element

  /** "\n".join(entries). */
  function Join(entries: seq<string>): string
    decreases |entries|
  {
    if |entries| == 0 then ""
    else if |entries| == 1 then entries[0]
    else Join(entries[..|entries| - 1]) + "\n" + entries[|entries| - 1]
  }

  // The tags, piece by piece as the program formats them: a child under key K
  // carries name="K" with the key written verbatim (nothing is escaped), a
  // list element carries no attribute.

  function OpenTag(pad: string, name: string, o: Origin): string
  {
    match o
    case Field(k) => pad + "<" + name + " name=\"" + k + "\">"
    case Element => pad + "<" + name + ">"
  }

  function CloseTag(pad: string, name: string): string
  {
    pad + "</" + name + ">"
  }

  function NullTag(pad: string, o: Origin): string
  {
    match o
    case Field(k) => pad + "<null name=\"" + k + "\" />"
    case Element => pad + "<null />"
  }

  function LeafElement(pad: string, tag: string, o: Origin, text: string): string
  {
    match o
    case Field(k) => pad + "<" + tag + " name=\"" + k + "\">" + text + "</" + tag + ">"
    case Element => pad + "<" + tag + ">" + text + "</" + tag + ">"
  }

  /** The tag word of a container child. */
  function ContainerName(v: Json): string
    requires IsContainer(v)
  {
    if v.Object? then "object" else "array"
  }

  /** The entries one child appends to the list: open tag, nested body (one
      entry, however many lines it has) and close tag for a container; one
      self-closing tag for null; one element for any other scalar. */
  function ChildEntries(o: Origin, child: Json, pad: string): Result<seq<string>>
    decreases child, 1
  {
    if IsContainer(child) then
      var body :- ToXml(child, pad + INDENT);
      Success([OpenTag(pad, ContainerName(child), o), body, CloseTag(pad, ContainerName(child))])
    else if child.Null? then
      Success([NullTag(pad, o)])
    else
      var tag :- TypeToTag(child);
      Success([LeafElement(pad, tag, o, LeafText(child))])
  }

  /** The entries for the first |fields| items of a dict, in order; the first
      child that raises stops the conversion. */
  function FieldEntries(fields: seq<(string, Json)>, pad: string): Result<seq<string>>
    decreases fields, 0
  {
    if |fields| == 0 then Success([])
    else
      var front :- FieldEntries(fields[..|fields| - 1], pad);
      var last := fields[|fields| - 1];
      assert fields decreases to last.1 by {
        assert last in fields;
        assert last decreases to last.1;
      }
      var block :- ChildEntries(Field(last.0), last.1, pad);
      Success(front + block)
  }

  /** The entries for the elements of a list, in order. */
  function ItemEntries(items: seq<Json>, pad: string): Result<seq<string>>
    decreases items, 0
  {
    if |items| == 0 then Success([])
    else
      var front :- ItemEntries(items[..|items| - 1], pad);
      var block :- ChildEntries(Element, items[|items| - 1], pad);
      Success(front + block)
  }

  /** What json_to_xml(v, pad) returns: the joined entries of a dict or a
      list, and "" for any other value. */
  function ToXml(v: Json, pad: string): Result<string>
    decreases v, 0
  {
    match v
    case Object(fields) =>
      var entries :- FieldEntries(fields, pad);
      Success(Join(entries))
    case Array(items) =>
      var entries :- ItemEntries(items, pad);
      Success(Join(entries))
    case _ => Success("")
  }

  /** The output document: the converted top-level value, indented one level,
      inside a root <object> element. */
  function Document(v: Json): Result<string>
  {
    var body :- ToXml(v, INDENT);
    Success("<object>\n" + body + "\n</object>")
  }

  /** Adding one more dict item to the prefix converted so far appends that
      item's entries, or stops with its error. */
  lemma FieldEntriesStep(fields: seq<(string, Json)>, i: nat, pad: string, front: seq<string>)
    requires i < |fields| && FieldEntries(fields[..i], pad) == Success(front)
    ensures FieldEntries(fields[..i + 1], pad)
      == match ChildEntries(Field(fields[i].0), fields[i].1, pad)
         case Success(block) => Success(front + block)
         case Failure(e) => Failure(e)
  {
    assert fields[..i + 1][..i] == fields[..i];
  }

  /** Adding one more list element to the prefix converted so far. */
  lemma ItemEntriesStep(items: seq<Json>, i: nat, pad: string, front: seq<string>)
    requires i < |items| && ItemEntries(items[..i], pad) == Success(front)
    ensures ItemEntries(items[..i + 1], pad)
      == match ChildEntries(Element, items[i], pad)
         case Success(block) => Success(front + block)
         case Failure(e) => Failure(e)
  {
    assert items[..i + 1][..i] == items[..i];
  }

  /** Once a prefix of the dict fails, the whole dict fails with that error:
      the first unsupported child decides. */
  lemma {:induction false} FieldFailurePersists(fields: seq<(string, Json)>, j: nat, k: nat, pad: string)
    requires j <= k <= |fields| && FieldEntries(fields[..j], pad).Failure?
    ensures FieldEntries(fields[..k], pad) == FieldEntries(fields[..j], pad)
    decreases k
  {
    if j < k {
      FieldFailurePersists(fields, j, k - 1, pad);
      assert fields[..k][..k - 1] == fields[..k - 1];
    }
  }

  /** Once a prefix of the list fails, the whole list fails with that error. */
  lemma {:induction false} ItemFailurePersists(items: seq<Json>, j: nat, k: nat, pad: string)
    requires j <= k <= |items| && ItemEntries(items[..j], pad).Failure?
    ensures ItemEntries(items[..k], pad) == ItemEntries(items[..j], pad)
    decreases k
  {
    if j < k {
      ItemFailurePersists(items, j, k - 1, pad);
      assert items[..k][..k - 1] == items[..k - 1];
    }
  }

  /** json_to_xml as the program runs it: one pass over the dict's items or
      the list's elements, appending each child's entries to a list (a
      nested container's body by a recursive call one level deeper), then
      joining the list with newlines. An unsupported child aborts the whole
      call with its TypeError. */
  method JsonToXml(jsonObj: Json, linePadding: string) returns (r: Result<string>)
    ensures r == ToXml(jsonObj, linePadding)
    decreases jsonObj
  {
    var resultList: seq<string> := [];
    if jsonObj.Object? {
      var fields := jsonObj.fields;
      var i := 0;
      while i < |fields|
        invariant 0 <= i <= |fields|
        invariant FieldEntries(fields[..i], linePadding) == Success(resultList)
      {
        var (tagName, subObj) := fields[i];
        ghost var before := resultList;
        ghost var block := ChildEntries(Field(tagName), subObj, linePadding);
        FieldEntriesStep(fields, i, linePadding, resultList);
        assert jsonObj decreases to subObj by {
          assert fields[i] in fields;
        }
        if subObj.Object? {
          resultList := resultList + [OpenTag(linePadding, "object", Field(tagName))];
          var body := JsonToXml(subObj, linePadding + "\t");
          if body.Failure? {
            FieldFailurePersists(fields, i + 1, |fields|, linePadding);
            assert fields[..|fields|] == fields;
            return Failure(body.error);
          }
          resultList := resultList + [body.value];
          resultList := resultList + [CloseTag(linePadding, "object")];
          assert resultList == before + block.value;
        } else if subObj.Array? {
          resultList := resultList + [OpenTag(linePadding, "array", Field(tagName))];
          var body := JsonToXml(subObj, linePadding + "\t");
          if body.Failure? {
            FieldFailurePersists(fields, i + 1, |fields|, linePadding);
            assert fields[..|fields|] == fields;
            return Failure(body.error);
          }
          resultList := resultList + [body.value];
          resultList := resultList + [CloseTag(linePadding, "array")];
          assert resultList == before + block.value;
        } else if subObj.Null? {
          resultList := resultList + [NullTag(linePadding, Field(tagName))];
          assert resultList == before + block.value;
        } else {
          var tag := TypeToTag(subObj);
          if tag.Failure? {
            FieldFailurePersists(fields, i + 1, |fields|, linePadding);
            assert fields[..|fields|] == fields;
            return Failure(tag.error);
          }
          var text := if subObj.Bool? then Lower(PyStr(subObj)) else PyStr(subObj);
          resultList := resultList + [LeafElement(linePadding, tag.value, Field(tagName), text)];
          assert resultList == before + block.value;
        }
        i := i + 1;
      }
      assert fields[..i] == fields;
    } else if jsonObj.Array? {
      var items := jsonObj.items;
      var i := 0;
      while i < |items|
        invariant 0 <= i <= |items|
        invariant ItemEntries(items[..i], linePadding) == Success(resultList)
      {
        var subObj := items[i];
        ghost var before := resultList;
        ghost var block := ChildEntries(Element, subObj, linePadding);
        ItemEntriesStep(items, i, linePadding, resultList);
        if subObj.Object? {
          resultList := resultList + [OpenTag(linePadding, "object", Element)];
          var body := JsonToXml(subObj, linePadding + "\t");
          if body.Failure? {
            ItemFailurePersists(items, i + 1, |items|, linePadding);
            assert items[..|items|] == items;
            return Failure(body.error);
          }
          resultList := resultList + [body.value];
          resultList := resultList + [CloseTag(linePadding, "object")];
          assert resultList == before + block.value;
        } else if subObj.Array? {
          resultList := resultList + [OpenTag(linePadding, "array", Element)];
          var body := JsonToXml(subObj, linePadding + "\t");
          if body.Failure? {
            ItemFailurePersists(items, i + 1, |items|, linePadding);
            assert items[..|items|] == items;
            return Failure(body.error);
          }
          resultList := resultList + [body.value];
          resultList := resultList + [CloseTag(linePadding, "array")];
          assert resultList == before + block.value;
        } else if subObj.Null? {
          resultList := resultList + [NullTag(linePadding, Element)];
          assert resultList == before + block.value;
        } else {
          var tag := TypeToTag(subObj);
          if tag.Failure? {
            ItemFailurePersists(items, i + 1, |items|, linePadding);
            assert items[..|items|] == items;
            return Failure(tag.error);
          }
          var text := if subObj.Bool? then Lower(PyStr(subObj)) else PyStr(subObj);
          resultList := resultList + [LeafElement(linePadding, tag.value, Element, text)];
          assert resultList == before + block.value;
        }
        i := i + 1;
      }
      assert items[..i] == items;
    }
    r := Success(Join(resultList));
  }
}
