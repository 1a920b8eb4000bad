# json-to-xml converter, modelled in Dafny

The converter turns a decoded JSON value into indented XML text.
`json_to_xml(json_obj, line_padding)` walks a dict's items or a list's elements in order. For each child it appends entries to a list:

- a dict or list child gives an open tag, the child's own output one tab deeper (a single entry, however many lines it holds), and a close tag;
- `None` gives one self-closing `<null />` tag;
- any other value gives one element whose tag comes from `type_to_tag`.

The list is then joined with newlines. A child under a key carries the key verbatim as `name="K"`; list elements carry no attribute. Booleans are written as `true`/`false`. Strings and numbers are written as `str()` gives them, with no escaping. A top-level value that is neither a dict nor a list gives the empty string. An unsupported child raises `TypeError("Unsupported JSON type: <class 'X'>")`, which aborts the whole conversion. The program wraps the result as `"<object>\n" + json_to_xml(data, "\t") + "\n</object>"`.

The project has six files:

- `json_value.dfy` (module `JsonValue`): the value type.
  - `Json` has the variants `Object`, `Array`, `Str`, `Num`, `Bool`, `Null` and `Other(className)`. `Other` stands for any other Python object that can sit inside the structure.
  - The raised exception is `Error`; `Result` is either the text or that exception.
- `type_tag.dfy` (module `TypeTag`): `type_to_tag`, and the text between a scalar's tags. That text is `str(int)` written out as decimal digits, and `str(bool).lower()`.
- `converter.dfy` (module `Converter`) holds two things.
  - `ToXml` and its helpers are a functional statement of what `json_to_xml` returns. They process a dict or list prefix by prefix, and the first error wins.
  - `JsonToXml` is the loop-and-append procedure as the program runs it. It is proved to return exactly `ToXml`. `Document` is the wrapper.
- `properties.dfy` (module `ConverterProperties`): what the conversion promises.
  - order of children, indentation, when output is empty;
  - when and with which message it fails;
  - how each kind of element is spelled;
  - the document shape.
- `layout.dfy` (module `Layout`): the output read as a flat list of logical lines. On that view, open and close tags are balanced, each close tag matches its open tag's word and indentation, and every line is indented by the padding it was given.
- `scenarios.dfy` (module `Scenarios`): three documents from the repository's test cases, worked through to their exact text.

## Model

| member | source | states |
|---|---|---|
| TypeTag.TypeToTag | main.py:55-77 | Succeeds exactly for str, bool, number and None. The tags are "string", "boolean", "number" and "null", checked in that order, so a bool is "boolean" and never "number". Any other value fails with TypeError "Unsupported JSON type: <class 'X'>". |
| TypeTag.TagDeterminesKind | main.py:68-75 | Two supported scalars get the same tag exactly when they are of the same kind. |
| TypeTag.NatToDecimal | main.py:35 | The decimal text of a natural number is canonical: non-empty, all digits, and with no leading zero ("0" is the only text starting with '0'). |
| TypeTag.DecimalRoundTrip | main.py:35 | Reading the decimal digits back gives the original number. |
| TypeTag.DecimalUnique | main.py:35 | Conversely, any canonical digit text is the decimal text of the number it denotes, so the text of a number is unique. |
| TypeTag.IntToDecimal | main.py:35 | str(int): non-empty, starts with '-' exactly for negatives, then canonical digits (no leading zero), and parses back to the integer. |
| TypeTag.IntDecimalUnique | main.py:35 | Any text with those properties for i is IntToDecimal(i), so those properties pin down str(int) exactly. |
| TypeTag.Lower | main.py:35 | str.lower() on ASCII: same length, each capital letter replaced by its small letter (code point + 32), every other character unchanged, and no capital letter left. |
| TypeTag.LowerIdempotent | main.py:35 | Lower-casing an already lower-cased text changes nothing. |
| TypeTag.LeafText | main.py:35 | Element text is "true"/"false" for a bool and the string itself (unescaped) for a str. For a number it is a '-' exactly for negatives, then canonical digits, and it parses back to the value; by IntDecimalUnique that is exactly str(n). |
| Converter.Join | main.py:53 | "\n".join: "" for no entries, the entry itself for one, otherwise the join of all but the last, a newline, and the last. |
| Converter.ChildEntries | main.py:20-35 | The entries one dict item appends (the list branch at main.py:39-51 is the same without the name attribute). A dict or list child gives its open tag, its whole output one tab deeper as a single entry, and its close tag. None gives the self-closing null tag. Any other value gives one element with type_to_tag's tag and the leaf text, or that call's TypeError. |
| Converter.FieldEntries | main.py:19-35 | The entries of a dict's items in iteration order, each item's entries after those of the items before it. The first item that raises ends the conversion with its error. |
| Converter.ItemEntries | main.py:38-51 | The same for a list's elements. |
| Converter.ToXml | main.py:5-53 | What json_to_xml returns: the joined entries of a dict or list, "" for any other value, or the TypeError of the first unsupported child. |
| Converter.Document | main.py:117 | The output document: "<object>\n", then the conversion at one tab, then "\n</object>"; an error in the conversion is the document's error. |
| Converter.JsonToXml | main.py:5-53 | The looping procedure returns exactly ToXml for every input and padding. That includes the TypeError of the first unsupported child and "" for a value that is not a container. |
| Converter.FieldEntriesStep | main.py:19-35 | One more dict item appends that item's entries to those collected so far, or stops with its error. |
| Converter.ItemEntriesStep | main.py:38-51 | One more list element appends that element's entries, or stops with its error. |
| Converter.FieldFailurePersists | main.py:19-35 | Once an item of a dict raises, the dict's conversion fails with that same error. |
| Converter.ItemFailurePersists | main.py:38-51 | Once an element of a list raises, the list's conversion fails with that same error. |
| ConverterProperties.JoinAppend | main.py:53 | Joining two non-empty entry lists puts exactly one newline between their joins. |
| ConverterProperties.JoinStartsWithFirst | main.py:53 | A joined entry list starts with its first entry. |
| ConverterProperties.FieldEntriesAppend | main.py:19-35 | The entries of a concatenation of items are those of the first part followed by those of the second, and the first error wins. |
| ConverterProperties.ItemEntriesAppend | main.py:38-51 | The same for list elements. |
| ConverterProperties.ObjectInOrder | main.py:18-35 | A dict split into two non-empty parts converts iff both parts do. Its output is the first part's output, a newline, then the second's, so children keep input order. |
| ConverterProperties.ArrayInOrder | main.py:37-51 | The same for a list split into two non-empty parts. |
| ConverterProperties.ChildShape | main.py:20-35 | A child writes at least one entry, and the first is a tag at the padding. Every entry starts with the padding, except an empty nested body. |
| ConverterProperties.OutputShape | main.py:5-53 | A successful output is "" or starts with the padding followed by "<". |
| ConverterProperties.FieldShape | main.py:18-35 | A dict writes no entries exactly when it has no items. Otherwise the first entry is a tag at the padding, and all entries are indented. |
| ConverterProperties.ItemShape | main.py:37-51 | The same for a list. |
| ConverterProperties.EmptyOutput | main.py:16-53 | The output is "" exactly for {}, [] or a top-level value that is not a container. Any other output starts with a tag at the padding. |
| ConverterProperties.SingleField | main.py:18-35 | A one-item dict writes just that item's entries, joined. |
| ConverterProperties.SingleItem | main.py:37-51 | A one-element list writes just that element's entries, joined. |
| ConverterProperties.NestedContainer | main.py:20-47 | A nested dict or list is written as three parts joined by newlines: the open tag at the padding (with name="K" under a key), its body converted one tab deeper, and the close tag at the padding. |
| ConverterProperties.NestedEmptyContainer | main.py:22-29 | An empty list or dict under key K is written as its open tag, a blank line and its close tag. |
| ConverterProperties.ScalarChild | main.py:30-35 | A scalar child writes exactly one entry: the self-closing null tag, or its element with the tag type_to_tag gives. |
| ConverterProperties.NullLeaf | main.py:30-32 | null is `<null name="K" />` under a key and `<null />` in a list. |
| ConverterProperties.BooleanLeaf | main.py:33-35 | A bool is `<boolean name="K">true</boolean>` (or false), lower-cased, and `<boolean>…</boolean>` in a list. |
| ConverterProperties.StringLeaf | main.py:33-35 | A string is `<string name="K">s</string>` with s verbatim, and `<string>s</string>` in a list. |
| ConverterProperties.NumberLeaf | main.py:33-35 | A number is `<number name="K">` followed by its decimal text and `</number>`, and the same without the attribute in a list. |
| ConverterProperties.ConversionFails | main.py:68-77 | A conversion fails exactly when a value of some unsupported class c occurs as a child inside the input. The error is the TypeError for such a c. |
| ConverterProperties.ChildFails | main.py:20-35 | A child fails exactly when it is, or contains, an unsupported value, with that value's TypeError. |
| ConverterProperties.FieldsFail | main.py:19-35 | A run of dict items fails exactly when one of them holds an unsupported value, with that value's TypeError. |
| ConverterProperties.ItemsFail | main.py:38-51 | A run of list elements fails exactly when one of them holds an unsupported value, with that value's TypeError. |
| ConverterProperties.DocumentShape | main.py:117 | The document exists exactly when the conversion at one tab succeeds. It is the body framed by "<object>\n" and "\n</object>". The body is empty exactly for {}, [] or a non-container, and otherwise starts with "\t<". |
| ConverterProperties.EmptyDocument | main.py:117 | {} gives "<object>\n\n</object>". |
| Layout.LinesRender | main.py:5-53 | A successful output equals its logical lines rendered and joined with newlines. There are no lines exactly when the output is "". |
| Layout.ChildLinesRender | main.py:20-35 | A child's lines render to its joined entries. An empty nested body becomes one blank line. |
| Layout.FieldLinesRender | main.py:19-35 | A dict's lines render to its joined entries. |
| Layout.ItemLinesRender | main.py:38-51 | A list's lines render to its joined entries. |
| Layout.LinesBalanced | main.py:5-53 | Scanning a conversion's lines with any stack of open tags returns that same stack: every close tag matches the innermost open tag's word and indentation. |
| Layout.ChildLinesBalanced | main.py:20-29 | A nested child's close tag closes its own open tag, and its body is balanced in between. |
| Layout.FieldLinesBalanced | main.py:19-35 | A dict's children are balanced one after another. |
| Layout.ItemLinesBalanced | main.py:38-51 | A list's children are balanced one after another. |
| Layout.LinesIndented | main.py:5-53 | Every non-blank line is indented by at least the padding and starts with its own indentation. |
| Layout.ChildLinesIndented | main.py:20-35 | A child's lines are indented by the padding. For a nested dict or list, the first line is its open tag and the last its close tag, both at the padding, and every line between them is indented one tab deeper. |
| Layout.FieldLinesIndented | main.py:19-35 | A dict's lines are indented by the padding. |
| Layout.ItemLinesIndented | main.py:38-51 | A list's lines are indented by the padding. |
| Layout.WellFormedOutput | main.py:5-53 | A successful output is the newline-joined lines. Those lines have balanced tags and are indented by the padding. |
| Scenarios.NameElement | main.py:35 | {"name": "John"} at one tab is `\t<string name="name">John</string>`. |
| Scenarios.AgeElement | main.py:35 | {"age": 30} at one tab is `\t<number name="age">30</number>`. |
| Scenarios.TwoPartDocument | main.py:117 | The document of a dict split into two non-empty parts is the root element around the parts' outputs, joined by a newline. |
| Scenarios.SimpleObject | test_json_to_xml.py:41-53 | {"name": "John", "age": 30} gives the root element holding the string line, then the number line. |
| Scenarios.EmptyArrayDocument | test_json_to_xml.py:127-139 | {"empty": []} gives `<array name="empty">`, a blank line and `</array>`, one tab in. |
| Scenarios.NullValueDocument | test_json_to_xml.py:141-152 | {"nullValue": null} gives `\t<null name="nullValue" />` inside the root element. |

## Left out

- File and command-line handling (`main`, the argument checks, `json.load`, writing the file) is not modelled. The model starts from an already decoded value.
- Floating-point numbers are left out. `Num` holds a Python int, rendered as `str(int)`. A float would also be tagged "number", but with Python's float repr as its text.
- Python's limit on the number of digits `str(int)` will produce (a ValueError for huge integers) is not modelled.
- `Lower` lowercases ASCII letters only. It is only applied to "True" and "False", so nothing else is affected.
- Keys and strings are written verbatim, and no XML escaping happens; this is the program's behaviour, not an omission. A value holding a newline therefore spans several physical lines. `Layout` speaks of logical lines.
- Dict key order is the decoder's insertion order, given as the order of `Object`'s entries. Duplicate keys are resolved by the decoder before the converter runs, and are not modelled.
- `Other(className)` stands for every value of another class. The program reaches it only through a caller that builds the structure itself.
- test_json_to_xml.py:118-125 expects "<object>\n</object>" for {}. The code gives "<object>\n\n</object>": joining an empty list leaves a blank line. The model follows the code (`EmptyDocument`). The test compares whitespace-normalised text, so it accepts both.
