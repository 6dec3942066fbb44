/** Protobuf schema inference: the proto3 type of a JSON value, the `.proto`
    text generated for a sample, and the size comparison shown beside it
    (src/utils/protobufUtils.js). */
module ProtobufUtils {
  import opened Basics
  import opened JsValues
  import opened TextEncoding
  import opened Libraries

  const MinInt32: int := -2147483648
  const MaxInt32: int := 2147483647

  /** The declaration every generated schema at indentation 0 starts with. */
  const SyntaxHeader: string := "syntax = \"proto3\";\n\n"

  /** The two errors generation can throw. */
  datatype SchemaError =
    | FieldNameUndefined  // `fieldName.charAt(0)` with no field name
    | NullToObject        // `Object.entries(null)`

  /** The `message` of the thrown TypeError, in V8's wording. */
  function ErrorMessage(e: SchemaError): (r: string)
    ensures r != ""
  {
    match e
    case FieldNameUndefined => "Cannot read properties of undefined (reading 'charAt')"
    case NullToObject => "Cannot convert undefined or null to object"
  }

  // ---------------------------------------------------------------------------
  // Names

  /** `c.toUpperCase()` on ASCII letters. */
  function UpperChar(c: char): char {
    if 'a' <= c <= 'z' then (c as int - 32) as char else c
  }

  predicate StartsWithLowerAscii(s: string) {
    |s| > 0 && 'a' <= s[0] <= 'z'
  }

  /** `s.charAt(0).toUpperCase() + s.slice(1)` */
  function Capitalize(s: string): (r: string)
    ensures !StartsWithLowerAscii(r)
    ensures |r| == |s|
    ensures s != [] ==> r[0] == UpperChar(s[0]) && r[1..] == s[1..]
  {
    if s == [] then "" else [UpperChar(s[0])] + s[1..]
  }

  /** `s.replace(/s$/, '')` */
  function StripTrailingS(s: string): (r: string)
    ensures |s| - 1 <= |r| <= |s| && r == s[..|r|]
    ensures |r| < |s| <==> s != [] && s[|s| - 1] == 's'
  {
    if s != [] && s[|s| - 1] == 's' then s[..|s| - 1] else s
  }

  /** The item type name of an array-of-objects field:
      `key.charAt(0).toUpperCase() + key.slice(1).replace(/s$/, '')`. */
  function ArrayItemTypeName(key: string): (r: string)
    ensures !StartsWithLowerAscii(r)
    ensures |key| - 1 <= |r| <= |key|
    ensures key != [] ==> |r| >= 1 && r[0] == UpperChar(key[0]) && r[1..] == StripTrailingS(key[1..])
  {
    if key == [] then "" else [UpperChar(key[0])] + StripTrailingS(key[1..])
  }

  // ---------------------------------------------------------------------------
  // Type inference

  /** The value reached by following first elements of non-empty arrays. */
  function FirstLeaf(v: Value): Value {
    if v.Arr? && |v.items| > 0 then FirstLeaf(v.items[0]) else v
  }

  /** How many non-empty arrays `FirstLeaf` goes through. */
  function ArrayDepth(v: Value): nat {
    if v.Arr? && |v.items| > 0 then 1 + ArrayDepth(v.items[0]) else 0
  }

  /** `inferProtobufType(value, fieldName)`. It throws exactly when it would
      name a message type without a field name: the value is an object and no
      name was given, or the value is an array whose first-element chain ends
      in an object (the recursive call passes no name). Message-type names
      never start with a lower-case letter, so they never collide with the
      scalar names. */
  function InferType(value: Value, fieldName: Option<string>): (r: Result<string, SchemaError>)
    ensures r.Err? <==> FirstLeaf(value).Obj? && (value.Arr? || fieldName.None?)
    ensures r.Err? ==> r.error == FieldNameUndefined
    ensures r.Ok? ==> (value.Obj? <==> !StartsWithLowerAscii(r.value))
    ensures value.Obj? && fieldName.Some? ==> r == Ok(Capitalize(fieldName.value))
  {
    match value
    case Null => Ok("string")
    case Str(_) => Ok("string")
    case Bool(_) => Ok("bool")
    case Num(n) =>
      if n.Int? then
        if MinInt32 <= n.i <= MaxInt32 then Ok("int32") else Ok("int64")
      else Ok("double")
    case Arr(items) =>
      if |items| == 0 then Ok("repeated string")
      else
        (match InferType(items[0], None)
         case Err(e) => Err(e)
         case Ok(t) => Ok("repeated " + t))
    case Obj(_) =>
      match fieldName
      case None => Err(FieldNameUndefined)
      case Some(f) => Ok(Capitalize(f))
  }

  /** The proto3 scalar names: `null` and strings are `string`, booleans
      `bool`, whole numbers `int32` inside the signed 32-bit range and `int64`
      outside it, other numbers `double`, and `[]` is `repeated string`. */
  lemma ScalarTypeNames(v: Value, f: Option<string>)
    ensures v.Null? || v.Str? ==> InferType(v, f) == Ok("string")
    ensures v.Bool? ==> InferType(v, f) == Ok("bool")
    ensures v.Num? && v.n.Int? && MinInt32 <= v.n.i <= MaxInt32 ==> InferType(v, f) == Ok("int32")
    ensures v.Num? && v.n.Int? && !(MinInt32 <= v.n.i <= MaxInt32) ==> InferType(v, f) == Ok("int64")
    ensures v.Num? && !v.n.Int? ==> InferType(v, f) == Ok("double")
    ensures v == Arr([]) ==> InferType(v, f) == Ok("repeated string")
  {
  }

  /** `"repeated "` written `n` times before `t`. */
  function Repeated(n: nat, t: string): string {
    if n == 0 then t else "repeated " + Repeated(n - 1, t)
  }

  /** Only the first element of each array is sampled: the type of a value is
      its leaf's type under one `repeated` per level of array, and the leaf is
      typed without a field name as soon as one array has been entered. */
  lemma {:induction false} InferTypeClosedForm(v: Value, f: Option<string>)
    ensures InferType(v, f) ==
      var leaf := InferType(FirstLeaf(v), if ArrayDepth(v) == 0 then f else None);
      if leaf.Ok? then Ok(Repeated(ArrayDepth(v), leaf.value)) else leaf
  {
    if v.Arr? && |v.items| > 0 {
      InferTypeClosedForm(v.items[0], None);
    }
  }

  // ---------------------------------------------------------------------------
  // Schema text, as a specification

  /** `Object.entries(v)` for a value that is not an array. */
  function Entries(v: Value): (r: Result<seq<(string, Value)>, SchemaError>)
    requires !v.Arr?
    ensures r.Err? <==> v.Null?
    ensures r.Err? ==> r.error == NullToObject
    ensures v.Obj? ==> r == Ok(v.pairs)
    ensures r.Ok? && !v.Obj? ==> forall k :: 0 <= k < |r.value| ==> r.value[k].1.Str?
    ensures v.Bool? || v.Num? ==> r == Ok([])
  {
    match v
    case Null => Err(NullToObject)
    case Obj(pairs) => Ok(pairs)
    case Str(s) => Ok(seq(|s|, i requires 0 <= i < |s| => (NatToString(i), Str([s[i]]))))
    case _ => Ok([])
  }

  /** A string's entries are its characters, each under its index written in
      decimal. */
  lemma EntriesOfString(s: string)
    ensures Entries(Str(s)).Ok? && |Entries(Str(s)).value| == |s|
    ensures forall k :: 0 <= k < |s| ==> Entries(Str(s)).value[k] == (NatToString(k), Str([s[k]]))
  {
  }

  /** `Array.isArray(v) && v.length > 0 && typeof v[0] === 'object'` */
  predicate IsArrayOfObjects(v: Value) {
    v.Arr? && |v.items| > 0 && TypeofObject(v.items[0])
  }

  /** The type written in a field's line: the nested message's name for an
      object, `repeated` and the item message's name for an array of
      objects, the inferred type otherwise. The inference runs first, so its
      error wins. */
  function FieldType(key: string, value: Value): (r: Result<string, SchemaError>)
    ensures r.Err? <==> value.Arr? && FirstLeaf(value).Obj?
    ensures r.Err? ==> r.error == FieldNameUndefined
    ensures r.Ok? ==> (value.Obj? <==> !StartsWithLowerAscii(r.value))
    ensures value.Obj? ==> r == Ok(Capitalize(key))
    ensures IsArrayOfObjects(value) && !FirstLeaf(value).Obj? ==> r == Ok("repeated " + ArrayItemTypeName(key))
    ensures !value.Obj? && !IsArrayOfObjects(value) ==> r == InferType(value, Some(key))
  {
    match InferType(value, Some(key))
    case Err(e) => Err(e)
    case Ok(t) =>
      if value.Obj? then Ok(Capitalize(key))
      else if IsArrayOfObjects(value) then Ok("repeated " + ArrayItemTypeName(key))
      else Ok(t)
  }

  function FieldLineText(indent: nat, typeName: string, key: string, number: nat): string {
    Spaces(indent) + "  " + typeName + " " + key + " = " + NatToString(number) + ";\n"
  }

  /** The field lines of `entries`, numbered from 1; the first failing field's
      error otherwise. */
  function FieldLines(indent: nat, entries: seq<(string, Value)>): (r: Result<string, SchemaError>)
    ensures r.Err? ==> r.error == FieldNameUndefined
  {
    if entries == [] then Ok("")
    else
      var n := |entries|;
      match FieldLines(indent, entries[..n - 1])
      case Err(e) => Err(e)
      case Ok(lines) =>
        match FieldType(entries[n - 1].0, entries[n - 1].1)
        case Err(e) => Err(e)
        case Ok(t) => Ok(lines + FieldLineText(indent, t, entries[n - 1].0, n))
  }

  /** A message queued for generation after its parent closes. */
  datatype Nested = Nested(name: string, data: Value)

  /** The data a field queues for nested generation: an object itself, the
      first element of an array of objects. */
  function QueuedData(value: Value): Option<Value> {
    if value.Obj? then Some(value)
    else if IsArrayOfObjects(value) then Some(value.items[0])
    else None
  }

  /** What one field adds to the queue. */
  function QueuedFor(key: string, value: Value): (r: seq<Nested>)
    ensures |r| <= 1
    ensures |r| == 1 <==> QueuedData(value).Some?
    ensures |r| == 1 ==> r[0].data == QueuedData(value).value && !StartsWithLowerAscii(r[0].name)
    ensures value.Obj? ==> r == [Nested(Capitalize(key), value)]
    ensures IsArrayOfObjects(value) && !value.Obj? ==> r == [Nested(ArrayItemTypeName(key), value.items[0])]
  {
    if value.Obj? then [Nested(Capitalize(key), value)]
    else if IsArrayOfObjects(value) then [Nested(ArrayItemTypeName(key), value.items[0])]
    else []
  }

  /** The nested messages queued by `entries`, in order. */
  function Queue(entries: seq<(string, Value)>): (r: seq<Nested>)
    ensures |r| <= |entries|
  {
    if entries == [] then []
    else Queue(entries[..|entries| - 1]) + QueuedFor(entries[|entries| - 1].0, entries[|entries| - 1].1)
  }

  /** `d` is queued by some property of `parent`: the property's value or its
      first element. */
  ghost predicate Within(d: Value, parent: Value) {
    parent.Obj? &&
    exists k :: 0 <= k < |parent.pairs| && QueuedData(parent.pairs[k].1) == Some(d)
  }

  function Header(indent: nat): string {
    if indent == 0 then SyntaxHeader else ""
  }

  function MessageOpen(indent: nat, name: string): string {
    Spaces(indent) + "message " + name + " {\n"
  }

  function MessageClose(indent: nat): string {
    Spaces(indent) + "}\n"
  }

  function EmptyArrayMessage(indent: nat, name: string): string {
    MessageOpen(indent, name) + Spaces(indent) + "  // Empty array\n" + MessageClose(indent)
  }

  function WrapperMessage(indent: nat, name: string): string {
    MessageOpen(indent, name) + Spaces(indent) + "  repeated " + name + "Item items = 1;\n" + MessageClose(indent)
  }

  /** `generateProtoSchema(name, data, indent)`. At indentation 0 the text
      starts with the syntax header. */
  function Schema(name: string, data: Value, indent: nat): (r: Result<string, SchemaError>)
    ensures r.Ok? && indent == 0 ==> |r.value| >= |SyntaxHeader| && r.value[..|SyntaxHeader|] == SyntaxHeader
    decreases data, 2
  {
    if data.Arr? then ArraySchema(name, data, indent) else ObjectSchema(name, data, indent)
  }

  /** The root-array branch: a message holding only a comment for `[]`, and
      otherwise the item message followed by a wrapper. */
  function ArraySchema(name: string, data: Value, indent: nat): (r: Result<string, SchemaError>)
    requires data.Arr?
    ensures r.Ok? && indent == 0 ==> |r.value| >= |SyntaxHeader| && r.value[..|SyntaxHeader|] == SyntaxHeader
    ensures data.items == [] ==> r == Ok(Header(indent) + EmptyArrayMessage(indent, name))
    ensures data.items != [] && Schema(name + "Item", data.items[0], indent).Err? ==>
      r == Err(Schema(name + "Item", data.items[0], indent).error)
    ensures data.items != [] && Schema(name + "Item", data.items[0], indent).Ok? ==>
      r == Ok(Header(indent) + Schema(name + "Item", data.items[0], indent).value + "\n" + WrapperMessage(indent, name))
    decreases data, 1
  {
    var header := Header(indent);
    if |data.items| == 0 then Ok(header + EmptyArrayMessage(indent, name))
    else
      match Schema(name + "Item", data.items[0], indent)
      case Err(e) => Err(e)
      case Ok(item) => Ok(header + item + "\n" + WrapperMessage(indent, name))
  }

  /** The object branch: the `message` line, the field lines and the closing
      brace, then the queued messages. */
  function ObjectSchema(name: string, data: Value, indent: nat): (r: Result<string, SchemaError>)
    requires !data.Arr?
    ensures r.Ok? && indent == 0 ==> |r.value| >= |SyntaxHeader| && r.value[..|SyntaxHeader|] == SyntaxHeader
    decreases data, 1
  {
    match Entries(data)
    case Err(e) => Err(e)
    case Ok(entries) =>
      match FieldLines(indent, entries)
      case Err(e) => Err(e)
      case Ok(lines) =>
        QueueWithin(data, entries);
        match NestedTexts(data, Queue(entries), indent)
        case Err(e) => Err(e)
        case Ok(nested) => Ok(Header(indent) + MessageOpen(indent, name) + lines + MessageClose(indent) + nested)
  }

  /** The queued messages, each generated and preceded by a line break; the
      first failure otherwise. */
  function NestedTexts(parent: Value, queue: seq<Nested>, indent: nat): (r: Result<string, SchemaError>)
    requires forall j :: 0 <= j < |queue| ==> Within(queue[j].data, parent)
    ensures r.Ok? ==> |r.value| >= |queue|
    decreases parent, 0, |queue|
  {
    if queue == [] then Ok("")
    else
      assert Within(queue[0].data, parent);
      ghost var k :| 0 <= k < |parent.pairs| && QueuedData(parent.pairs[k].1) == Some(queue[0].data);
      assert parent.pairs[k] in parent.pairs;
      match Schema(queue[0].name, queue[0].data, indent)
      case Err(e) => Err(e)
      case Ok(text) =>
        match NestedTexts(parent, queue[1..], indent)
        case Err(e) => Err(e)
        case Ok(rest) => Ok("\n" + text + rest)
  }

  /** Every queued message comes from a property of the value being
      generated (for a string, whose entries are characters, nothing is
      queued). */
  lemma QueueWithin(data: Value, entries: seq<(string, Value)>)
    requires !data.Arr? && Entries(data) == Ok(entries)
    ensures forall j :: 0 <= j < |Queue(entries)| ==> Within(Queue(entries)[j].data, data)
  {
    QueueOrigins(entries);
    forall j | 0 <= j < |Queue(entries)| ensures Within(Queue(entries)[j].data, data) {
      var k :| 0 <= k < |entries| && QueuedData(entries[k].1) == Some(Queue(entries)[j].data);
      assert data.Obj?;
    }
  }

  lemma {:induction false} QueueOrigins(entries: seq<(string, Value)>)
    ensures forall j :: 0 <= j < |Queue(entries)| ==>
      exists k :: 0 <= k < |entries| && QueuedData(entries[k].1) == Some(Queue(entries)[j].data)
  {
    if entries != [] {
      var n := |entries|;
      var init := entries[..n - 1];
      QueueOrigins(init);
      assert Queue(entries) == Queue(init) + QueuedFor(entries[n - 1].0, entries[n - 1].1);
      forall j | 0 <= j < |Queue(entries)|
        ensures exists k :: 0 <= k < n && QueuedData(entries[k].1) == Some(Queue(entries)[j].data)
      {
        if j < |Queue(init)| {
          var k :| 0 <= k < |init| && QueuedData(init[k].1) == Some(Queue(init)[j].data);
          assert init[k] == entries[k];
          assert Queue(entries)[j] == Queue(init)[j];
        } else {
          assert Queue(entries)[j] == QueuedFor(entries[n - 1].0, entries[n - 1].1)[0];
          assert QueuedData(entries[n - 1].1) == Some(Queue(entries)[j].data);
        }
      }
    } else {
      assert Queue(entries) == [];
    }
  }

  // ---------------------------------------------------------------------------
  // Schema text, as the source builds it

  /** The result of a failing step, or `done` followed by what follows. */
  function Then(done: string, rest: Result<string, SchemaError>): Result<string, SchemaError> {
    match rest
    case Err(e) => Err(e)
    case Ok(t) => Ok(done + t)
  }

  /** Once a field fails, every longer prefix of the entries fails with the
      same error. */
  lemma {:induction false} FieldLinesFailFrom(indent: nat, entries: seq<(string, Value)>, i: nat, e: SchemaError)
    requires i < |entries|
    requires FieldLines(indent, entries[..i + 1]) == Err(e)
    ensures FieldLines(indent, entries) == Err(e)
    decreases |entries| - i
  {
    if i + 1 < |entries| {
      assert entries[..i + 2][..i + 1] == entries[..i + 1];
      FieldLinesFailFrom(indent, entries, i + 1, e);
    } else {
      assert entries[..i + 1] == entries;
    }
  }

  /** `generateProtoSchema(messageName, jsonData, indent)`: the header, then
      the root-array branch or the object branch. */
  method GenerateProtoSchema(messageName: string, jsonData: Value, indent: nat) returns (r: Result<string, SchemaError>)
    ensures r == Schema(messageName, jsonData, indent)
    decreases jsonData, 2
  {
    var proto := "";
    if indent == 0 {
      proto := proto + SyntaxHeader;
    }
    assert proto == Header(indent);
    if jsonData.Arr? {
      r := GenerateArraySchema(messageName, jsonData, indent, proto);
    } else {
      r := GenerateObjectSchema(messageName, jsonData, indent, proto);
    }
  }

  /** The root-array branch: a message with only a comment for `[]`, else the
      item message generated from the first element followed by a wrapper
      with one repeated field. */
  method GenerateArraySchema(messageName: string, jsonData: Value, indent: nat, proto: string) returns (r: Result<string, SchemaError>)
    requires jsonData.Arr? && proto == Header(indent)
    ensures r == Schema(messageName, jsonData, indent)
    decreases jsonData, 0
  {
    var spaces := Spaces(indent);
    if |jsonData.items| == 0 {
      var emptySchema := spaces + "message " + messageName + " {\n" + spaces + "  // Empty array\n" + spaces + "}\n";
      assert emptySchema == EmptyArrayMessage(indent, messageName);
      return Ok(proto + emptySchema);
    }
    var itemName := messageName + "Item";
    var itemSchema := GenerateProtoSchema(itemName, jsonData.items[0], indent);
    if itemSchema.Err? {
      return Err(itemSchema.error);
    }
    var wrapperSchema := spaces + "message " + messageName + " {\n" + spaces + "  repeated " + itemName + " items = 1;\n" + spaces + "}\n";
    assert wrapperSchema == WrapperMessage(indent, messageName);
    return Ok(proto + itemSchema.value + "\n" + wrapperSchema);
  }

  /** The object branch: the `message` line, the field loop
      (`AppendFields`), the closing brace, then the queued messages
      (`AppendNested`). */
  method GenerateObjectSchema(messageName: string, jsonData: Value, indent: nat, header: string) returns (r: Result<string, SchemaError>)
    requires !jsonData.Arr? && header == Header(indent)
    ensures r == Schema(messageName, jsonData, indent)
    decreases jsonData, 1
  {
    var spaces := Spaces(indent);
    var proto := header + spaces + "message " + messageName + " {\n";
    assert proto == Header(indent) + MessageOpen(indent, messageName);
    var listed := Entries(jsonData);
    if listed.Err? {
      return Err(listed.error);
    }
    var entries := listed.value;
    var fields, nestedMessages := AppendFields(indent, entries);
    if fields.Err? {
      return Err(fields.error);
    }
    proto := proto + fields.value + spaces + "}\n";
    assert proto == Header(indent) + MessageOpen(indent, messageName) + fields.value + MessageClose(indent);
    QueueWithin(jsonData, entries);
    var nested := AppendNested(jsonData, nestedMessages, indent);
    if nested.Err? {
      return Err(nested.error);
    }
    return Ok(proto + nested.value);
  }

  /** One more entry: its line is appended under number `i + 1`, and what it
      queues is appended to the queue. */
  lemma FieldLinesStep(indent: nat, entries: seq<(string, Value)>, i: nat, lines: string, t: string)
    requires i < |entries| && FieldLines(indent, entries[..i]) == Ok(lines)
    requires FieldType(entries[i].0, entries[i].1) == Ok(t)
    ensures FieldLines(indent, entries[..i + 1]) == Ok(lines + FieldLineText(indent, t, entries[i].0, i + 1))
    ensures Queue(entries[..i + 1]) == Queue(entries[..i]) + QueuedFor(entries[i].0, entries[i].1)
  {
    assert entries[..i + 1][..i] == entries[..i];
  }

  /** An entry that cannot be typed fails the prefix it ends. */
  lemma FieldLinesStepFails(indent: nat, entries: seq<(string, Value)>, i: nat, lines: string, e: SchemaError)
    requires i < |entries| && FieldLines(indent, entries[..i]) == Ok(lines)
    requires InferType(entries[i].1, Some(entries[i].0)) == Err(e)
    ensures FieldLines(indent, entries[..i + 1]) == Err(e)
  {
    assert entries[..i + 1][..i] == entries[..i];
  }

  /** The branch of the field loop that handles nested data: an object is
      typed by its capitalised key, an array of objects as `repeated` of its
      item message, and either one queues that message. */
  method NestedFieldType(key: string, value: Value, inferred: string) returns (typeName: string, queued: seq<Nested>)
    requires InferType(value, Some(key)) == Ok(inferred)
    ensures FieldType(key, value) == Ok(typeName)
    ensures queued == QueuedFor(key, value)
    ensures value.Obj? ==> typeName == Capitalize(key) && queued == [Nested(Capitalize(key), value)]
    ensures IsArrayOfObjects(value) ==>
      typeName == "repeated " + ArrayItemTypeName(key) && queued == [Nested(ArrayItemTypeName(key), value.items[0])]
    ensures !value.Obj? && !IsArrayOfObjects(value) ==> typeName == inferred && queued == []
  {
    typeName, queued := inferred, [];
    if value.Obj? {
      var nestedMessageName := Capitalize(key);
      typeName := nestedMessageName;
      queued := [Nested(nestedMessageName, value)];
    } else if value.Arr? && |value.items| > 0 && TypeofObject(value.items[0]) {
      var nestedMessageName := ArrayItemTypeName(key);
      typeName := "repeated " + nestedMessageName;
      queued := [Nested(nestedMessageName, value.items[0])];
    }
  }

  /** The first loop of `generateProtoSchema`: one line per entry, numbered
      by a counter starting at 1, and the queue of nested messages. */
  method AppendFields(indent: nat, entries: seq<(string, Value)>) returns (r: Result<string, SchemaError>, nestedMessages: seq<Nested>)
    ensures r == FieldLines(indent, entries)
    ensures r.Ok? ==> nestedMessages == Queue(entries)
  {
    var spaces := Spaces(indent);
    var proto := "";
    var fieldNumber := 1;
    nestedMessages := [];
    var i := 0;
    while i < |entries|
      invariant 0 <= i <= |entries|
      invariant fieldNumber == i + 1
      invariant FieldLines(indent, entries[..i]) == Ok(proto)
      invariant nestedMessages == Queue(entries[..i])
    {
      var (key, value) := entries[i];
      var fieldType := InferType(value, Some(key));
      if fieldType.Err? {
        FieldLinesStepFails(indent, entries, i, proto, fieldType.error);
        FieldLinesFailFrom(indent, entries, i, fieldType.error);
        return Err(fieldType.error), nestedMessages;
      }
      var typeName, queued := NestedFieldType(key, value, fieldType.value);
      nestedMessages := nestedMessages + queued;
      FieldLinesStep(indent, entries, i, proto, typeName);
      var line := spaces + "  " + typeName + " " + key + " = " + NatToString(fieldNumber) + ";\n";
      assert line == FieldLineText(indent, typeName, key, i + 1);
      proto := proto + line;
      fieldNumber := fieldNumber + 1;
      i := i + 1;
    }
    assert entries[..i] == entries;
    return Ok(proto), nestedMessages;
  }

  lemma ThenStep(done: string, next: string, rest: Result<string, SchemaError>)
    ensures Then(done, Then(next, rest)) == Then(done + next, rest)
  {
    if rest.Ok? {
      assert done + (next + rest.value) == done + next + rest.value;
    }
  }

  /** `NestedTexts` on the suffix from `j`, unfolded once. */
  lemma NestedTextsStep(parent: Value, queue: seq<Nested>, j: nat, indent: nat)
    requires forall j :: 0 <= j < |queue| ==> Within(queue[j].data, parent)
    requires j < |queue|
    ensures NestedTexts(parent, queue[j..], indent) ==
      match Schema(queue[j].name, queue[j].data, indent)
      case Err(e) => Err(e)
      case Ok(text) => Then("\n" + text, NestedTexts(parent, queue[j + 1..], indent))
  {
    assert queue[j..][1..] == queue[j + 1..];
    assert queue[j..][0] == queue[j];
  }

  /** The second loop of `generateProtoSchema`: each queued message generated
      at the caller's indentation and appended after a line break. */
  method AppendNested(parent: Value, queue: seq<Nested>, indent: nat) returns (r: Result<string, SchemaError>)
    requires forall j :: 0 <= j < |queue| ==> Within(queue[j].data, parent)
    ensures r == NestedTexts(parent, queue, indent)
    decreases parent, 0
  {
    var proto := "";
    var j := 0;
    assert queue[j..] == queue;
    assert Then(proto, NestedTexts(parent, queue, indent)) == NestedTexts(parent, queue, indent) by {
      if NestedTexts(parent, queue, indent).Ok? { assert proto + NestedTexts(parent, queue, indent).value == NestedTexts(parent, queue, indent).value; }
    }
    while j < |queue|
      invariant 0 <= j <= |queue|
      invariant NestedTexts(parent, queue, indent) == Then(proto, NestedTexts(parent, queue[j..], indent))
    {
      var nested := queue[j];
      assert Within(nested.data, parent);
      ghost var k :| 0 <= k < |parent.pairs| && QueuedData(parent.pairs[k].1) == Some(nested.data);
      assert parent.pairs[k] in parent.pairs;
      var text := GenerateProtoSchema(nested.name, nested.data, indent);
      NestedTextsStep(parent, queue, j, indent);
      if text.Err? {
        return Err(text.error);
      }
      ThenStep(proto, "\n" + text.value, NestedTexts(parent, queue[j + 1..], indent));
      proto := proto + ("\n" + text.value);
      j := j + 1;
    }
    assert queue[j..] == [];
    assert proto + "" == proto;
    return Ok(proto);
  }

  // ---------------------------------------------------------------------------
  // What generation promises

  /** Every field of `entries` gets a type. */
  predicate AllFieldsTyped(entries: seq<(string, Value)>) {
    forall k :: 0 <= k < |entries| ==> FieldType(entries[k].0, entries[k].1).Ok?
  }

  /** The field lines fail exactly when some field cannot be typed. */
  lemma {:induction false} FieldLinesOkIff(indent: nat, entries: seq<(string, Value)>)
    ensures FieldLines(indent, entries).Ok? <==> AllFieldsTyped(entries)
  {
    if entries != [] {
      var n := |entries|;
      var init := entries[..n - 1];
      FieldLinesOkIff(indent, init);
      var last := FieldType(entries[n - 1].0, entries[n - 1].1);
      assert forall k :: 0 <= k < n - 1 ==> init[k] == entries[k];
      assert AllFieldsTyped(entries) <==> AllFieldsTyped(init) && last.Ok?;
      assert FieldLines(indent, entries).Ok? <==> FieldLines(indent, init).Ok? && last.Ok?;
    }
  }

  /** Line `k` of the fields: entry `k`'s type and key, numbered `k + 1`. */
  function NumberedLines(indent: nat, entries: seq<(string, Value)>): seq<string>
    requires AllFieldsTyped(entries)
  {
    seq(|entries|, k requires 0 <= k < |entries| =>
      FieldLineText(indent, FieldType(entries[k].0, entries[k].1).value, entries[k].0, k + 1))
  }

  /** When every field is typed, the field lines are one line per entry, in
      entry order, numbered 1 to n whatever the field's type. */
  lemma {:induction false} FieldsNumberedInOrder(indent: nat, entries: seq<(string, Value)>)
    requires AllFieldsTyped(entries)
    ensures FieldLines(indent, entries) == Ok(Concat(NumberedLines(indent, entries)))
  {
    if entries != [] {
      var n := |entries|;
      var init := entries[..n - 1];
      assert forall k :: 0 <= k < n - 1 ==> init[k] == entries[k];
      assert AllFieldsTyped(init);
      FieldsNumberedInOrder(indent, init);
      assert NumberedLines(indent, entries)[..n - 1] == NumberedLines(indent, init);
    }
  }

  /** A field whose value is a non-empty array with an object at the end of
      its first-element chain (`[{}]`, `[[{}]]`) makes generation of the
      enclosing object throw, before any nested message is generated. */
  lemma ArrayOfObjectsFieldThrows(name: string, data: Value, indent: nat, k: nat)
    requires data.Obj? && k < |data.pairs|
    requires data.pairs[k].1.Arr? && FirstLeaf(data.pairs[k].1).Obj?
    ensures Schema(name, data, indent) == Err(FieldNameUndefined)
  {
    FieldLinesOkIff(indent, data.pairs);
    assert FieldType(data.pairs[k].0, data.pairs[k].1).Err?;
  }

  /** A message's text up to its nested messages: the header, the `message`
      line, the numbered field lines and the closing brace. */
  function MessageHead(indent: nat, name: string, entries: seq<(string, Value)>): string
    requires AllFieldsTyped(entries)
  {
    Header(indent) + MessageOpen(indent, name) + Concat(NumberedLines(indent, entries)) + MessageClose(indent)
  }

  /** The text of an object (or any non-array value) begins with the header,
      the `message` line, the numbered field lines and the closing brace. */
  lemma SchemaOfObjectShape(name: string, data: Value, indent: nat)
    requires !data.Arr? && Schema(name, data, indent).Ok?
    ensures Entries(data).Ok? && AllFieldsTyped(Entries(data).value)
    ensures var r := Schema(name, data, indent).value;
      var p := MessageHead(indent, name, Entries(data).value);
      |p| <= |r| && r[..|p|] == p
  {
    var entries := Entries(data).value;
    FieldLinesOkIff(indent, entries);
    FieldsNumberedInOrder(indent, entries);
  }

  /** A message generated successfully had every queued message generated
      successfully. */
  lemma {:induction false} NestedTextsOk(parent: Value, queue: seq<Nested>, indent: nat, j: nat)
    requires forall j :: 0 <= j < |queue| ==> Within(queue[j].data, parent)
    requires NestedTexts(parent, queue, indent).Ok? && j < |queue|
    ensures Schema(queue[j].name, queue[j].data, indent).Ok?
    decreases j
  {
    if j > 0 {
      assert forall i :: 0 <= i < |queue| - 1 ==> queue[1..][i] == queue[i + 1];
      NestedTextsOk(parent, queue[1..], indent, j - 1);
    }
  }

  /** Every field that queues a message has its data in the queue. */
  lemma {:induction false} QueueCovers(entries: seq<(string, Value)>, k: nat) returns (j: nat)
    requires k < |entries| && QueuedData(entries[k].1).Some?
    ensures j < |Queue(entries)| && Queue(entries)[j].data == QueuedData(entries[k].1).value
  {
    var n := |entries|;
    var init := entries[..n - 1];
    var q := Queue(entries);
    assert q == Queue(init) + QueuedFor(entries[n - 1].0, entries[n - 1].1);
    if k < n - 1 {
      assert init[k] == entries[k];
      j := QueueCovers(init, k);
      assert q[j] == Queue(init)[j];
    } else {
      j := |Queue(init)|;
      assert q[j].data == QueuedData(entries[k].1).value;
    }
  }

  /** A field holding an array whose first element is `null` passes the
      array-of-objects test (`typeof null` is `'object'`), so `null` is queued
      as a message and its generation throws: the whole object fails. */
  lemma NullItemFieldFails(name: string, data: Value, indent: nat, k: nat)
    requires data.Obj? && k < |data.pairs|
    requires data.pairs[k].1.Arr? && |data.pairs[k].1.items| > 0 && data.pairs[k].1.items[0].Null?
    ensures Schema(name, data, indent).Err?
  {
    if Schema(name, data, indent).Ok? {
      var entries := data.pairs;
      assert ObjectSchema(name, data, indent).Ok?;
      assert Entries(data) == Ok(entries);
      QueueWithin(data, entries);
      var j := QueueCovers(entries, k);
      NestedTextsOk(data, Queue(entries), indent, j);
    }
  }

  /** A non-empty root array at indentation 0 starts with the syntax header
      twice: once for the wrapper, once for the item message generated at
      the same indentation. */
  lemma RootArrayRepeatsHeader(name: string, data: Value)
    requires data.Arr? && |data.items| > 0 && Schema(name, data, 0).Ok?
    ensures var r := Schema(name, data, 0).value;
      |r| >= 2 * |SyntaxHeader| && r[..2 * |SyntaxHeader|] == SyntaxHeader + SyntaxHeader
  {
    var item := Schema(name + "Item", data.items[0], 0).value;
    var r := Schema(name, data, 0).value;
    assert r == SyntaxHeader + item + "\n" + WrapperMessage(0, name);
    assert item[..|SyntaxHeader|] == SyntaxHeader;
  }

  /** At indentation 0 the queued messages' text starts with a line break
      and the first queued message's own syntax header. */
  lemma NestedTextsStartWithHeader(parent: Value, queue: seq<Nested>)
    requires forall j :: 0 <= j < |queue| ==> Within(queue[j].data, parent)
    requires queue != [] && NestedTexts(parent, queue, 0).Ok?
    ensures var t := NestedTexts(parent, queue, 0).value;
      1 + |SyntaxHeader| <= |t| && t[..1 + |SyntaxHeader|] == "\n" + SyntaxHeader
  {
    var first := Schema(queue[0].name, queue[0].data, 0).value;
    var t := NestedTexts(parent, queue, 0).value;
    assert t == "\n" + first + NestedTexts(parent, queue[1..], 0).value;
    assert first[..|SyntaxHeader|] == SyntaxHeader;
    assert t[..1 + |SyntaxHeader|] == ("\n" + first)[..1 + |SyntaxHeader|];
  }

  /** At indentation 0 the first queued message follows its parent's closing
      brace as a line break and a second syntax header. */
  lemma NestedMessagesCarryHeader(name: string, data: Value)
    requires data.Obj? && Schema(name, data, 0).Ok? && Queue(data.pairs) != []
    ensures AllFieldsTyped(data.pairs)
    ensures HeaderFollows(Schema(name, data, 0).value, |MessageHead(0, name, data.pairs)|)
  {
    SchemaOfObjectText(name, data);
    var p := MessageHead(0, name, data.pairs);
    var nested := NestedTexts(data, Queue(data.pairs), 0).value;
    assert HeaderFollows(nested, 0) by {
      NestedTextsStartWithHeader(data, Queue(data.pairs));
    }
    HeaderAfterPrefix(Schema(name, data, 0).value, p, nested);
  }

  /** A line break and the syntax header start at position `at` of `r`. */
  predicate HeaderFollows(r: string, at: nat) {
    at + 1 + |SyntaxHeader| <= |r| && r[at..at + 1 + |SyntaxHeader|] == "\n" + SyntaxHeader
  }

  lemma SchemaOfObjectText(name: string, data: Value)
    requires data.Obj? && Schema(name, data, 0).Ok?
    ensures AllFieldsTyped(data.pairs)
    ensures forall j :: 0 <= j < |Queue(data.pairs)| ==> Within(Queue(data.pairs)[j].data, data)
    ensures NestedTexts(data, Queue(data.pairs), 0).Ok?
    ensures Schema(name, data, 0).value ==
      MessageHead(0, name, data.pairs) +
      NestedTexts(data, Queue(data.pairs), 0).value
  {
    var entries := data.pairs;
    assert Entries(data) == Ok(entries);
    FieldLinesOkIff(0, entries);
    FieldsNumberedInOrder(0, entries);
    QueueWithin(data, entries);
  }

  lemma HeaderAfterPrefix(r: string, p: string, s: string)
    requires r == p + s && HeaderFollows(s, 0)
    ensures HeaderFollows(r, |p|)
  {
    assert r[|p|..|p| + 1 + |SyntaxHeader|] == s[0..1 + |SyntaxHeader|];
  }

  // ---------------------------------------------------------------------------
  // Size comparison

  datatype SizeStats = SizeStats(jsonSize: nat, binarySize: nat, savings: int)

  /** `Math.round((j - b) / j * 100)` taken exactly, and 0 when `j` is 0: the
      integer nearest to the percentage, halves rounded up. */
  function RoundedSavings(j: nat, b: nat): (s: int)
    ensures j > 0 ==> j * (2 * s - 1) <= 200 * (j - b) < j * (2 * s + 1)
    ensures j == 0 ==> s == 0
  {
    if j > 0 then
      var n := 200 * (j - b) + j;
      var s := n / (2 * j);
      assert n == 2 * j * s + n % (2 * j);
      s
    else 0
  }

  /** `calculateSizeComparison(jsonData, binaryData)`: the UTF-16 length of
      the compact JSON text, the buffer's length (0 without a buffer), and
      the rounded savings. */
  function CalculateSizeComparison(libs: Libs, jsonData: Value, binaryData: Option<seq<Byte>>): (r: SizeStats)
    ensures r.jsonSize == Utf16Length(libs.jsonStringify(jsonData))
    ensures r.binarySize == (if binaryData.Some? then |binaryData.value| else 0)
    ensures r.jsonSize > 0 ==> r.jsonSize * (2 * r.savings - 1) <= 200 * (r.jsonSize - r.binarySize) < r.jsonSize * (2 * r.savings + 1)
    ensures r.jsonSize == 0 ==> r.savings == 0
  {
    var jsonSize := Utf16Length(libs.jsonStringify(jsonData));
    var binarySize := if binaryData.Some? then |binaryData.value| else 0;
    SizeStats(jsonSize, binarySize, RoundedSavings(jsonSize, binarySize))
  }

  /** Savings never exceed 100%; a buffer at least as long as the JSON text
      saves nothing or less, one of the same length exactly nothing, and no
      buffer at all everything. */
  lemma SavingsBounds(j: nat, b: nat)
    ensures RoundedSavings(j, b) <= 100
    ensures j > 0 && b >= j ==> RoundedSavings(j, b) <= 0
    ensures b == j ==> RoundedSavings(j, b) == 0
    ensures j > 0 && b == 0 ==> RoundedSavings(j, b) == 100
  {
    var s := RoundedSavings(j, b);
    if j > 0 {
      MulCancel(j, 2 * s - 1, 201);
      if b >= j {
        MulCancel(j, 2 * s - 1, 1);
      }
      if b == j {
        MulCancel(j, 0, 2 * s + 1);
      }
      if b == 0 {
        MulCancel(j, 199, 2 * s + 1);
      }
    }
  }

  lemma MulCancel(j: nat, a: int, c: int)
    requires j > 0 && j * a < j * c
    ensures a < c
  {
    if a >= c {
      MulMonotone(j, c, a);
    }
  }

  lemma MulMonotone(j: nat, x: int, y: int)
    requires x <= y
    ensures j * x <= j * y
  {
  }
}
