# Data-format converter and Protobuf playground: a Dafny model

The application converts between XML, JSON and YAML and keeps the three texts
in one Redux store. A Protobuf playground infers a proto3 schema from a JSON
sample and shows the sample's bytes as a hex dump, with a size comparison.
This project models the logic behind both, which is sequential and
deterministic, and proves what it promises.

- **Schema inference and generation** (`protobuf_utils.dfy`, module
  `ProtobufUtils`).
  - `inferProtobufType` is the pure function `InferType`.
  - `generateProtoSchema` has two forms. `Schema` (with its two branches
    `ArraySchema` and `ObjectSchema`) and `NestedTexts` specify it.
    `GenerateProtoSchema`, `GenerateArraySchema`, `GenerateObjectSchema`,
    `AppendFields` and `AppendNested` build it the way the source does: a
    string that grows, a field counter and a queue of nested messages. Each of
    these methods is proved equal to the specification.
  - `calculateSizeComparison` is `CalculateSizeComparison`.
- **XML-to-JSON coercion and the conversion entry points**
  (`use_converter.dfy`).
  - `xmlToJson` is specified by `XmlValue` and `ChildrenValue`. The methods
    `XmlToJson`, `CopyAttributes` and `FoldChildren` carry the source's loops.
  - `convertFromXml`, `convertFromJson`, `convertFromYaml` and `convert` are
    methods on the store. They issue the source's dispatches in the source's
    order.
  - `Applied` states what the dispatches leave behind, for each `Outcome`.
- **The store** (`converter_slice.dfy`). `ConverterStore` is a class whose
  fields are the slice's state, with one method per reducer. `State()` takes a
  snapshot of the fields as a `ConverterState` value, so contracts can compare
  old and new states.
- **An editor panel** (`editor_section.dfy`): the `canSwitchTo` guard, the chip
  label, and the three handlers.
- **The playground component** (`protobuf_converter.dfy`).
  - The component state is the class `Playground`.
  - `Pipeline` specifies the `try` block of `generateProtobuf`. `Generate`
    computes it.
  - The hex dump has an inverse, `ParseHex`.
  - `text_encoding.dfy` defines UTF-8 encoding and UTF-16 length. The size
    statistics can then be compared with the bytes.

The foreign libraries are the fields of one `Libs` value: DOMParser, the XML
builder, js-yaml, `JSON.parse`/`JSON.stringify` and `isNaN`/`parseInt`/`parseFloat`.
Every operation that calls them takes that value as a parameter, and nothing
is assumed about them beyond their types. A thrown error is an `Err` carrying
the error's `message`.

Behaviour of the code worth knowing:

- `xmlToJson` can throw. A tag whose first occurrence converted to `null` fails
  at the `push` probe on its second occurrence.
- `inferProtobufType` throws for an object reached without a field name, for
  example the first element of an array of objects. As a result, a field
  holding `[{...}]` makes schema generation throw instead of emitting a
  `repeated` field.
- Every message generated at indentation 0 carries its own `syntax` header.
  This includes nested and item messages.
- `visibleFormats` is an object of flags, not a set. Toggling a name that has
  no entry adds that name as shown.
- Numeric text in XML is recognised by `!isNaN(text)`. It is then parsed with
  `parseFloat` when it contains a dot and with `parseInt` otherwise.

## Model

| member | source | states |
|---|---|---|
| ProtobufUtils.InferType | src/utils/protobufUtils.js:1-39 | Throws exactly when the value's first-element chain ends in an object and no field name reaches it: an object with no name, or an array whose chain ends in an object. The error is the missing `fieldName`. An object with a field name is typed by the capitalised name. A successful result starts with a non-lower-case letter exactly for an object, so message names never collide with the scalar names |
| ProtobufUtils.ScalarTypeNames | src/utils/protobufUtils.js:2-32 | The proto3 scalar table: null and string give `string`, boolean gives `bool`, whole numbers give `int32` inside [-2147483648, 2147483647] and `int64` outside it, other numbers give `double`, and `[]` gives `repeated string` |
| ProtobufUtils.InferTypeClosedForm | src/utils/protobufUtils.js:26-32 | Only first elements are sampled. The type is the leaf's type under one `repeated` per array level, so `[[1]]` is `repeated repeated int32`. The leaf is typed without a field name once an array has been entered |
| ProtobufUtils.Capitalize | src/utils/protobufUtils.js:35 | The name keeps its length and every character after the first; the first is upper-cased. The result never starts with a lower-case ASCII letter |
| ProtobufUtils.Entries | src/utils/protobufUtils.js:73 | `Object.entries` throws only for null, with the null-conversion error. An object gives its own properties in order. Any other value gives string-valued entries, and a boolean or a number gives none |
| ProtobufUtils.EntriesOfString | src/utils/protobufUtils.js:73 | A string of n characters gives n entries, the k-th being k in decimal with the k-th character as a string |
| ProtobufUtils.Schema | src/utils/protobufUtils.js:41-104 | At indentation 0 every generated text starts with `syntax = "proto3";` and a blank line |
| ProtobufUtils.ArraySchema | src/utils/protobufUtils.js:45-65 | `[]` gives the header and a message holding only `// Empty array`. Otherwise the item schema of element 0 under `<name>Item` fails the branch with its error, or is followed by a line break and the wrapper with `repeated <name>Item items = 1;`. At indentation 0 the text starts with the syntax header |
| ProtobufUtils.ObjectSchema | src/utils/protobufUtils.js:45-103 | The object branch at indentation 0 starts with the syntax header |
| ProtobufUtils.GenerateProtoSchema | src/utils/protobufUtils.js:41-104 | The imperative generator returns exactly the specified schema text, or the specified error |
| ProtobufUtils.GenerateArraySchema | src/utils/protobufUtils.js:50-65 | The root-array branch equals the specification. `[]` gives a message holding only `// Empty array`. Otherwise it gives the `<name>Item` schema of element 0, a line break, and a wrapper with `repeated <name>Item items = 1;` |
| ProtobufUtils.GenerateObjectSchema | src/utils/protobufUtils.js:67-103 | The object branch equals the specification: the `message` line, the field loop, the closing brace, then the queued messages |
| ProtobufUtils.NestedFieldType | src/utils/protobufUtils.js:76-92 | An object field is typed by its capitalised key and queues itself under that name. An array of objects is typed `repeated` plus the item name (capitalised, one trailing `s` stripped) and queues its first element under that name. Any other field keeps the inferred type and queues nothing |
| ProtobufUtils.AppendFields | src/utils/protobufUtils.js:70-94 | The field loop with its counter produces exactly the specified field lines, or the first failing field's error. The queue it builds is exactly the specified queue |
| ProtobufUtils.AppendNested | src/utils/protobufUtils.js:98-101 | The nested loop produces each queued message, in queue order, at the caller's indentation, each preceded by a line break. The first failure wins |
| ProtobufUtils.FieldLinesStep | src/utils/protobufUtils.js:73-93 | One more typed entry appends its line, numbered one past the previous entries, and appends what it queues to the queue |
| ProtobufUtils.FieldLinesStepFails | src/utils/protobufUtils.js:74 | The type inference runs before any branch, so an entry it cannot type fails at that entry |
| ProtobufUtils.FieldLinesFailFrom | src/utils/protobufUtils.js:73-94 | Once a field fails, generation of the whole object fails with the same error |
| ProtobufUtils.FieldLinesOkIff | src/utils/protobufUtils.js:73-94 | The field lines succeed if and only if every field can be typed |
| ProtobufUtils.FieldLines | src/utils/protobufUtils.js:70-94 | The only error the field loop can raise is the missing field name |
| ProtobufUtils.FieldType | src/utils/protobufUtils.js:74-92 | A field's type fails exactly for an array whose first-element chain ends in an object, with the missing-field-name error. An object field's type is its capitalised key; an array of objects that does not fail is `repeated` plus the item name; any other field has the inferred type. A successful type starts with a non-lower-case letter exactly for an object field |
| ProtobufUtils.QueuedFor | src/utils/protobufUtils.js:76-89 | A field queues at most one message, and does so exactly when its value is an object or an array whose first element is `typeof 'object'`. An object is queued under its capitalised key; an array's first element under the item name |
| ProtobufUtils.Queue | src/utils/protobufUtils.js:71-94 | No more messages are queued than the object has fields |
| ProtobufUtils.NestedTexts | src/utils/protobufUtils.js:98-101 | Every queued message contributes at least its leading line break: the text is at least as long as the queue, and starts with a line break when the queue is non-empty |
| ProtobufUtils.StripTrailingS | src/utils/protobufUtils.js:84 | `replace(/s$/, '')` gives the input or the input minus its last character, and the shorter one exactly when the input ends with `s` |
| ProtobufUtils.ArrayItemTypeName | src/utils/protobufUtils.js:84 | The item message's name does not start with a lower-case ASCII letter. It is the key with its first character upper-cased and one trailing `s` removed, so it has the key's length or one less |
| ProtobufUtils.ErrorMessage | src/utils/protobufUtils.js:73-74 | Both errors generation can throw (from `Object.entries(null)` and from `fieldName.charAt` without a name) have a non-empty message |
| ProtobufUtils.FieldsNumberedInOrder | src/utils/protobufUtils.js:70-94 | When every field is typed, the field lines are one line per entry in entry order. Line k carries that entry's type and key and is numbered k+1, whatever its type |
| ProtobufUtils.SchemaOfObjectShape | src/utils/protobufUtils.js:68-96 | The successful text for an object starts with the header, then `message <name> {`, the numbered field lines and the closing brace |
| ProtobufUtils.ArrayOfObjectsFieldThrows | src/utils/protobufUtils.js:30-35 | A field whose value is an array with an object at the end of its first-element chain (`[{}]`, `[[{}]]`) makes generation of the enclosing object throw the missing-field-name error |
| ProtobufUtils.NullItemFieldFails | src/utils/protobufUtils.js:83-89 | A field holding an array whose first element is `null` passes the `typeof 'object'` test and queues `null`. Its generation throws, so the whole object fails |
| ProtobufUtils.QueueWithin | src/utils/protobufUtils.js:76-89 | Every queued message's data comes from a property of the value being generated. This is also the termination argument for the recursion |
| ProtobufUtils.QueueOrigins | src/utils/protobufUtils.js:79-88 | Every queue entry is the queued data of some entry of the object |
| ProtobufUtils.QueueCovers | src/utils/protobufUtils.js:79-88 | Every field that queues a message has that message's data in the queue |
| ProtobufUtils.NestedTextsOk | src/utils/protobufUtils.js:99-101 | A successful nested loop generated every queued message successfully |
| ProtobufUtils.NestedTextsStep | src/utils/protobufUtils.js:99-101 | The nested loop's remaining text is the next message's text, preceded by a line break, followed by the rest |
| ProtobufUtils.ThenStep | src/utils/protobufUtils.js:100 | Appending two pieces to the text one after the other is the same as appending their concatenation |
| ProtobufUtils.RootArrayRepeatsHeader | src/utils/protobufUtils.js:45-64 | A non-empty root array at indentation 0 starts with the syntax header twice: once for itself, once for the item message generated at the same indentation |
| ProtobufUtils.NestedTextsStartWithHeader | src/utils/protobufUtils.js:45-47 | At indentation 0 the nested messages' text starts with a line break and the first nested message's own syntax header |
| ProtobufUtils.NestedMessagesCarryHeader | src/utils/protobufUtils.js:45-47 | At indentation 0, right after the parent's closing brace, the text holds a line break and a second syntax header |
| ProtobufUtils.RoundedSavings | src/utils/protobufUtils.js:109 | `Math.round` of the percentage taken exactly: the nearest integer, with halves rounded up. The result is 0 when the JSON size is 0 |
| ProtobufUtils.CalculateSizeComparison | src/utils/protobufUtils.js:106-116 | `jsonSize` is the UTF-16 length of the compact JSON text. `binarySize` is the buffer's length, or 0 without a buffer. `savings` is the rounded percentage, or 0 when `jsonSize` is 0 |
| ProtobufUtils.SavingsBounds | src/utils/protobufUtils.js:109 | Savings never exceed 100. A buffer at least as long as the JSON text saves 0 or less, and one of equal length saves exactly 0. No buffer saves 100 |
| TextEncoding.Utf8Char | src/components/ProtobufConverter.js:53 | A code point takes 1 to 4 bytes. The lead byte is ASCII exactly when it is the only byte, and every other byte is a continuation byte |
| TextEncoding.Utf8NotShorter | src/components/ProtobufConverter.js:53-59 | The UTF-8 bytes are never fewer than the text's UTF-16 length. They are exactly as many if and only if the text is ASCII |
| TextEncoding.AsciiEncodesToCodePoints | src/components/ProtobufConverter.js:53 | ASCII text encodes to its own code points, byte for byte |
| ProtobufConverter.ToBase16 | src/components/ProtobufConverter.js:55 | `toString(16)` gives one or two lowercase hex digits, one exactly below 16, and they denote the byte |
| ProtobufConverter.PadStart | src/components/ProtobufConverter.js:55 | `padStart` gives a string of at least the width, ending with the original string, with only fill characters before it |
| ProtobufConverter.ByteHex | src/components/ProtobufConverter.js:55 | Each byte becomes exactly two lowercase hex digits that denote it |
| ProtobufConverter.ByteHexes | src/components/ProtobufConverter.js:54-55 | One two-digit piece per byte, in order |
| ProtobufConverter.HexOutput | src/components/ProtobufConverter.js:54-56 | The dump is empty exactly for no bytes, and otherwise starts with the first byte's two digits |
| ProtobufConverter.HexOutputLength | src/components/ProtobufConverter.js:54-56 | The hex dump of n ≥ 1 bytes has length 3n−1, and that of no bytes is empty |
| ProtobufConverter.ParseHexStep | src/components/ProtobufConverter.js:54-56 | Decoding two digits and a space yields their byte followed by the decoding of the rest, and fails exactly when the rest fails |
| ProtobufConverter.ParseHexCons | src/components/ProtobufConverter.js:55-56 | A byte's two digits decode to that byte. Followed by a space and more text, they decode to the byte before the rest's decoding |
| ProtobufConverter.HexRoundTrip | src/components/ProtobufConverter.js:53-56 | The hex dump decodes back to exactly the bytes it shows |
| ProtobufConverter.Encoded | src/components/ProtobufConverter.js:53-59 | The bytes are the UTF-8 encoding of the compact JSON text. The hex dump shows those bytes, and `binarySize` is their count |
| ProtobufConverter.Pipeline | src/components/ProtobufConverter.js:37-66 | A blank message name fails with "Message name is required" before the JSON is looked at. Otherwise a blank JSON input fails with "JSON input is required". Otherwise a parse error fails with its message; a schema error fails with its TypeError message; and when `Schema(messageName, parsed, 0)` succeeds, the run succeeds with that schema, starting with the syntax header, and the sample's encoding |
| ProtobufConverter.Generate | src/components/ProtobufConverter.js:37-60 | The `try` block computes exactly the specified result: the validation order, the parse, the schema, the hex dump and the stats, or the message of the first thing thrown |
| ProtobufConverter.EncodedStats | src/components/ProtobufConverter.js:53-59 | For any sample, the hex dump decodes to `binarySize` bytes, `binarySize` ≥ `jsonSize` and `savings` ≤ 0. The savings are 0 when the JSON text is ASCII |
| ProtobufConverter.StatsAgreeWithHex | src/components/ProtobufConverter.js:53-59 | After a successful generation the statistics describe the bytes the hex dump shows: `binarySize` ≥ `jsonSize`, `savings` ≤ 0, and 0 for ASCII data |
| ProtobufConverter.ToggledSection | src/components/ProtobufConverter.js:79-81 | Toggling a section gives none exactly when that section was the one in fullscreen, and that section otherwise |
| ProtobufConverter.ToggleTwice | src/components/ProtobufConverter.js:79-81 | Toggling the same section twice restores the state if and only if no section, or that same section, was in fullscreen |
| ProtobufConverter.Playground.constructor | src/components/ProtobufConverter.js:26-34 | Initial state: message name `User`, the sample user JSON, no schema, hex dump, error, stats or fullscreen section |
| ProtobufConverter.Playground.Display | src/components/ProtobufConverter.js:38-66 | On success: no error, and the schema, hex dump and stats of the generation. On a throw: its message as the error, with schema, hex dump and stats cleared. The inputs and the fullscreen section are unchanged |
| ProtobufConverter.Playground.GenerateProtobuf | src/components/ProtobufConverter.js:36-67 | The outputs show the pipeline's result for the current inputs, and the inputs are unchanged |
| ProtobufConverter.Playground.RegenerateEffect | src/components/ProtobufConverter.js:83-87 | With both inputs non-empty the outputs show the pipeline's result, even for whitespace-only inputs, which then report their error. With either input empty every output stays as it was |
| ProtobufConverter.Playground.EditMessageName | src/components/ProtobufConverter.js:83-87 | Typing a name stores it and then runs the effect's guard |
| ProtobufConverter.Playground.EditJsonInput | src/components/ProtobufConverter.js:83-87 | Typing JSON stores it and then runs the effect's guard |
| ProtobufConverter.Playground.ToggleFullscreen | src/components/ProtobufConverter.js:79-81 | Only the fullscreen section changes, as `ToggledSection` says |
| JsValues.IndexOf | src/hooks/useConverter.js:36 | A property lookup finds the first position holding the key, or reports absence |
| JsValues.IndexOfIsFirst | src/hooks/useConverter.js:36 | Any position holding the key with no earlier holder is the one found |
| JsValues.Lookup | src/hooks/useConverter.js:36 | `obj[key]` is defined exactly when the key is present, and it is the value stored under it |
| JsValues.Put | src/hooks/useConverter.js:26 | Assigning an existing key keeps every name in its place. Assigning a new key appends it at the end |
| JsValues.PutThenLookup | src/hooks/useConverter.js:37 | After an assignment the key reads back the new value and every other key reads back its old value. Unique names stay unique |
| Basics.TrimStart | src/hooks/useConverter.js:47 | A suffix of the input that does not start with JavaScript white space. Everything dropped was white space |
| Basics.TrimEnd | src/hooks/useConverter.js:47 | A prefix of the input that does not end with white space. Everything dropped was white space |
| Basics.Trim | src/hooks/useConverter.js:47 | `trim()` is empty exactly when the input is all white space |
| Basics.TrimEmptyIffBlank | src/hooks/useConverter.js:73 | Trimming both ends leaves nothing if and only if the text is all white space |
| Basics.NatToString | src/utils/protobufUtils.js:78 | A field number prints as decimal digits, with no leading zero, denoting the number |
| Basics.Spaces | src/utils/protobufUtils.js:42 | `'  '.repeat(n)` is 2n spaces |
| UseConverter.AttrPairs | src/hooks/useConverter.js:23-28 | The attribute loop gives unique property names, no more than there are attributes, each with a string value |
| UseConverter.AttrPairsLacks | src/hooks/useConverter.js:23-28 | A name that no attribute carries is not a property of the attribute object |
| UseConverter.XmlValue | src/hooks/useConverter.js:19-69 | The walk never returns an array at the top. A text node yields its trimmed text as a string, with no type coercion, or `{}` when it is blank; any other non-element node yields `{}`. The only errors are the two `push` TypeErrors |
| UseConverter.ChildrenValue | src/hooks/useConverter.js:30-60 | The child loop never returns an array, and it throws only the two `push` TypeErrors: on a stored `null`, or on a stored object with its own `push` |
| UseConverter.Scalar | src/hooks/useConverter.js:49-56 | A numeric text is a number, parsed with `parseFloat` when it contains a dot and `parseInt` otherwise. Otherwise `true` and `false` are booleans and `null` is null. Any other text stays the same string |
| UseConverter.XmlToJson | src/hooks/useConverter.js:19-69 | The imperative walk returns exactly the specified value, or the specified error |
| UseConverter.CopyAttributes | src/hooks/useConverter.js:23-28 | The attribute loop gives the attributes' string-valued properties, each assigned in document order |
| UseConverter.FoldChildren | src/hooks/useConverter.js:30-60 | The child loop equals the specified fold: tags stored, then promoted to arrays. The first meaningful text returns its scalar, and a `push` on a stored `null` throws |
| UseConverter.FoldElement | src/hooks/useConverter.js:35-45 | One element child of the loop: it throws what the specified fold throws at that child, or hands the fold on with the object it leaves |
| UseConverter.TypedText | src/hooks/useConverter.js:49-56 | The early return for meaningful text is the typed scalar |
| UseConverter.AttributesInOrder | src/hooks/useConverter.js:23-28 | With distinct names, the attributes are the first properties of the result, in document order, with their values as strings |
| UseConverter.FirstTextWins | src/hooks/useConverter.js:46-57 | The first child text whose trimmed content is non-empty decides the result. Everything collected before it is discarded, and white-space-only text is skipped |
| UseConverter.SkipChild | src/hooks/useConverter.js:31-58 | A child that is not meaningful text either throws or hands the fold to the next child |
| UseConverter.NoContentGivesAttributes | src/hooks/useConverter.js:20-30 | An element with no element children and no meaningful text converts to the object of its attributes |
| UseConverter.EmptyElementGivesEmptyObject | src/hooks/useConverter.js:20 | An element with no attributes, element children or meaningful text converts to `{}` |
| UseConverter.RepeatedTagsCollect | src/hooks/useConverter.js:30-60 | Element children that all share one tag, with any white-space-only text or non-element, non-text nodes between them, and no attribute of that name: the result is the attributes followed by the tag mapped to the array of all the occurrences' values, in document order (when the first value is neither `null` nor an object with its own `push`) |
| UseConverter.NullThenRepeatThrows | src/hooks/useConverter.js:30-44 | A tag whose first occurrence converted to `null` makes its next occurrence throw at the `push` probe, wherever the two sit, when every other child before the second is white-space-only text or a non-element, non-text node |
| UseConverter.SkipBlankChildren | src/hooks/useConverter.js:31-58 | Children that are white-space-only text, or neither element nor text, leave the collected object as it is |
| UseConverter.StoreFirst | src/hooks/useConverter.js:36-37 | The first occurrence of a tag stores its value under the tag's name, at the end of the object |
| UseConverter.PushNext | src/hooks/useConverter.js:38-44 | A later occurrence replaces the stored value, in its place, by the array of the stored values followed by the new one |
| UseConverter.PushOnNull | src/hooks/useConverter.js:39 | A later occurrence of a tag whose stored value is `null` throws at the `push` probe, whatever follows |
| UseConverter.ContainsElement | src/hooks/useConverter.js:84 | Only an element can contain a match, and an element named after the tag always does |
| UseConverter.Targets | src/hooks/useConverter.js:74-75 | Each entry point writes the two formats other than its own, and they differ from each other |
| UseConverter.FormatError | src/hooks/useConverter.js:97 | The stored error is the entry point's prefix followed by the caught message |
| UseConverter.XmlOutcome | src/hooks/useConverter.js:71-102 | A blank input counts as blank, and nothing else does. A document containing `parsererror` fails with "Invalid XML format: Invalid XML format". Otherwise a `push` error or a YAML dump error fails with the prefixed message. Otherwise the outcome is the pretty JSON and the YAML dump of `xmlToJson`'s value, in that order |
| UseConverter.JsonOutcome | src/hooks/useConverter.js:104-128 | Blank exactly for blank input. A parse, XML-build or YAML-dump error fails with "Invalid JSON format: " and its message, in that order of checking. Otherwise the outcome is the built XML and the YAML dump of the parsed value |
| UseConverter.YamlOutcome | src/hooks/useConverter.js:130-154 | Blank exactly for blank input. A load or XML-build error fails with "Invalid YAML format: " and its message. Otherwise the outcome is the built XML and the pretty JSON of the loaded value |
| UseConverter.OutcomeFor | src/hooks/useConverter.js:156-170 | The outcome of converting from a format is blank exactly for blank input |
| UseConverter.Applied | src/hooks/useConverter.js:73-101 | After a conversion the source's own text is untouched. The other two texts are the converted ones, or empty. The data is valid exactly on success. The error is the failure's message and null otherwise, and the status follows it. The active format, the flags and fullscreen are kept |
| UseConverter.RecordOutcome | src/hooks/useConverter.js:74-100 | The ordered dispatches for an outcome leave the store in the state `Applied` describes, and keep it well formed |
| UseConverter.ConvertFromXml | src/hooks/useConverter.js:71-102 | `convertFromXml` leaves the store as `Applied` says for the XML outcome |
| UseConverter.ConvertFromJson | src/hooks/useConverter.js:104-128 | `convertFromJson` leaves the store as `Applied` says for the JSON outcome |
| UseConverter.ConvertFromYaml | src/hooks/useConverter.js:130-154 | `convertFromYaml` leaves the store as `Applied` says for the YAML outcome |
| UseConverter.Convert | src/hooks/useConverter.js:156-170 | A known format converts from that format, and an unknown format leaves the store unchanged |
| UseConverter.FailureSetsErrorStatus | src/hooks/useConverter.js:96-101 | Every failure message is non-empty, so a failed conversion sets the status to `error` |
| ConverterSlice.ContentOf | src/components/EditorSection.js:36-43 | The matching text, and `''` for a name that is not a format |
| ConverterSlice.WithContent | src/store/converterSlice.js:20-33 | `setContent` changes exactly the named format's text. Every other text and field is kept, and a name that is not a format changes nothing |
| ConverterSlice.Flipped | src/store/converterSlice.js:39 | Only that format's flag is negated, in its place, and the other flags and the order of names are kept. A name without an entry is appended as shown. Names stay unique |
| ConverterSlice.FirstVisible | src/store/converterSlice.js:41-46 | The first name, in order, whose flag is set. None exactly when no flag is set |
| ConverterSlice.ErrorStatus | src/store/converterSlice.js:54 | The status is `'error'` exactly for a truthy (non-empty) error message, and null otherwise |
| ConverterSlice.ActiveAfterToggle | src/store/converterSlice.js:40-47 | The active format changes only when the toggled format was active and is now hidden, and then to the first format still shown. When such a format exists, it is chosen |
| ConverterSlice.Toggled | src/store/converterSlice.js:37-48 | The flags become the flipped flags, and only the flags and the active format can change. The active format changes only when the toggled format was active and is now hidden, and then to the first format still shown |
| ConverterSlice.FlipTwice | src/store/converterSlice.js:39-47 | Toggling a format twice restores the flags when the format had an entry |
| ConverterSlice.ToggleKeepsActiveVisible | src/store/converterSlice.js:37-48 | When a toggle moves the active format, it moves to a format that is shown |
| ConverterSlice.ConverterStore.constructor | src/store/converterSlice.js:4-14 | Initial state: three empty texts, `xml` active, all three formats shown, invalid, and no error, status or fullscreen |
| ConverterSlice.ConverterStore.SetContent | src/store/converterSlice.js:20-33 | The store becomes `setContent`'s state |
| ConverterSlice.ConverterStore.SetActiveFormat | src/store/converterSlice.js:34-36 | Only the active format changes, to the payload, with no guard |
| ConverterSlice.ConverterStore.ToggleFormatVisibility | src/store/converterSlice.js:37-48 | The format's flag is flipped. If that hides the active format, it becomes the first format still shown; it is unchanged when none is shown or when the toggled format was not active |
| ConverterSlice.ConverterStore.SetDataValid | src/store/converterSlice.js:49-51 | Only validity changes |
| ConverterSlice.ConverterStore.SetError | src/store/converterSlice.js:52-55 | The error is the payload, and the status follows its truthiness. Nothing else changes |
| ConverterSlice.ConverterStore.SetStatus | src/store/converterSlice.js:56-58 | Only the status changes |
| ConverterSlice.ConverterStore.ClearAll | src/store/converterSlice.js:59-66 | Texts, error, status and validity are reset. The active format, the flags and fullscreen are kept |
| ConverterSlice.ConverterStore.SetFullscreen | src/store/converterSlice.js:67-69 | Only the fullscreen format changes, to the payload |
| ConverterSlice.ConverterStore.ExitFullscreen | src/store/converterSlice.js:70-72 | Only the fullscreen format changes, to null |
| EditorSection.AllEmpty | src/components/EditorSection.js:47 | `isEmpty` holds exactly when each of the three formats' texts is empty |
| EditorSection.CanSwitchTo | src/components/EditorSection.js:45-48 | The active panel can always be switched to. A panel is locked exactly when the data is invalid, the panel is not active, and some format's text is non-empty |
| EditorSection.ChipLabel | src/components/EditorSection.js:70-107 | `Editable` exactly for the active format. `Disabled` exactly when the panel cannot be switched to. `Enable Edit` exactly when it can be switched to but is not active |
| EditorSection.IsEditable | src/components/EditorSection.js:158 | The text field is enabled exactly when the chip reads `Editable` |
| EditorSection.AfterEdit | src/components/EditorSection.js:50-54 | After an edit the user's text is kept, whatever the conversion does. A name that is not a format changes nothing |
| EditorSection.AfterChipClick | src/components/EditorSection.js:56-60 | The format becomes active exactly when `canSwitchTo` holds, and nothing else changes |
| EditorSection.AfterFullscreenToggle | src/components/EditorSection.js:62-68 | The panel in fullscreen leaves it, and any other panel enters it. Nothing else changes |
| EditorSection.HandleContentChange | src/components/EditorSection.js:50-54 | Storing the text and then converting from it gives the state `AfterEdit` describes |
| EditorSection.HandleChipClick | src/components/EditorSection.js:56-60 | The click applies the guard `isDataValid || allEmpty || isActive` |
| EditorSection.HandleFullscreenToggle | src/components/EditorSection.js:62-68 | `exitFullscreen` in fullscreen, and `setFullscreen(format)` otherwise |
| EditorSection.ClearingUnlocksEveryChip | src/components/EditorSection.js:47-54 | Emptying a panel empties all three texts, so every chip can be switched to |
| EditorSection.SuccessUnlocksEveryChip | src/components/EditorSection.js:48-54 | After a successful conversion every chip can be switched to |
| EditorSection.FailureLocksOtherChips | src/components/EditorSection.js:48-54 | After a failed conversion, exactly the active format's chip can be switched to |
| EditorSection.NotAllEmpty | src/components/EditorSection.js:47 | A store with a non-empty text is not all empty |
| EditorSection.FullscreenRoundTrip | src/components/EditorSection.js:62-68 | Entering and then leaving fullscreen from the same panel restores the state |

## Left out

- The parsers and serialisers are parameters (`Libs`), and nothing is assumed
  about them: DOMParser, fast-xml-parser's `XMLBuilder`, js-yaml's
  `dump`/`load`, `JSON.parse`/`JSON.stringify`, and `isNaN`/`parseInt`/`parseFloat`.
  What they produce is therefore not proved, and neither are round trips
  through them.
- UseConverter.YamlOutcome: `yaml.load` can return a cyclic structure (an anchor whose
  alias refers back to itself), on which `JSON.stringify` throws. Values here
  are finite trees and `jsonStringifyPretty` is total, so that failure is not
  modelled.
- DOMParser's `documentElement` is taken to be a node. A `null` document
  element, and `yaml.load` returning `undefined`, are not modelled separately.
  Both are part of what the library parameters return.
- Numbers are the abstract `Number` (whole, fractional, non-finite). Double
  precision is not modelled: integers beyond 2^53 and `-0` have no special
  treatment.
- RoundedSavings: `Math.round` of the floating-point quotient is modelled as
  exact rounding with halves rounded up. Floating-point error at a half is
  ignored.
- Objects are name/value lists in insertion order. JavaScript enumerates
  integer-like keys first, in ascending order; this model does not. Names
  inherited from `Object.prototype` (for example `constructor`, or `push` on an
  object) are treated as absent keys.
- `push` on an object that has its own `push` property is reported as a
  TypeError. A callable `push` in the data cannot occur in JSON-like values.
- ProtobufUtils.Capitalize: `toUpperCase` is modelled on ASCII letters only.
  JavaScript's full Unicode case mapping (é to É, ß to SS, Cyrillic letters)
  is not, so a name starting with any other letter keeps its first character.
- ProtobufUtils.ArrayItemTypeName: upper-cases the first character on ASCII
  letters only, for the same reason as Capitalize.
- ProtobufUtils.Entries: a string gives one entry per Unicode scalar value.
  JavaScript gives one per UTF-16 code unit, so a character outside the Basic
  Multilingual Plane gives two entries there and one here. A Dafny `char`
  cannot hold a lone surrogate.
- TextEncoding.Utf8Char: lone surrogate code units, which `TextEncoder`
  replaces with U+FFFD, are not modelled. A `char` here is a Unicode scalar
  value.
- React and Redux mechanics are left out: `useCallback`, effect dependency
  tracking, `dispatch` and Immer. Each dispatch is a method call on the store,
  in source order. The playground's effect runs after mount and after each
  edit: the first screen is the constructor followed by `RegenerateEffect`,
  and each edit method ends with it.
- JSX, styling and layout are left out, except the chip label and the text
  field's `disabled` flag.
- `downloadProto`, which creates a Blob and a download link, is I/O and is not
  modelled.
- ConverterSlice.FlipTwice: for a format with no entry, toggling twice leaves an
  entry set to hidden instead of restoring the flags. The contract states that
  outcome.
- ProtobufConverter.ToggleTwice: the identity holds only when no section, or the
  same section, was in fullscreen. Otherwise the second toggle clears
  fullscreen.
- ProtobufUtils.NestedMessagesCarryHeader: states the repeated header for the
  first nested message (and RootArrayRepeatsHeader for the item message). It
  does not count headers over the whole text.
- Basics.Trim: its own contract is only the blank test. TrimStart and TrimEnd
  state what each end keeps.
