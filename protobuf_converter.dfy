/** The Protobuf playground (src/components/ProtobufConverter.js): a message
    name and a JSON sample go in; the generated schema, the hex dump of the
    sample's UTF-8 bytes and the size comparison come out, or an error that
    clears all three. */
module ProtobufConverter {
  import opened Basics
  import opened JsValues
  import opened Libraries
  import opened TextEncoding
  import opened ProtobufUtils

  // ---------------------------------------------------------------------------
  // Hex output

  /** The value of a lowercase hex digit, and 16 for any other character. */
  function HexDigitValue(c: char): nat {
    if '0' <= c <= '9' then (c - '0') as nat
    else if 'a' <= c <= 'f' then (c - 'a') as nat + 10
    else 16
  }

  /** The lowercase hex digit for `d`. */
  function HexDigit(d: nat): (c: char)
    requires d < 16
    ensures HexDigitValue(c) == d
  {
    if d < 10 then ('0' as int + d) as char else ('a' as int + d - 10) as char
  }

  /** `b.toString(16)`: lowercase base-16 digits, no leading zero. */
  function ToBase16(b: Byte): (r: string)
    ensures 1 <= |r| <= 2 && (|r| == 1 <==> b < 16)
    ensures forall k :: 0 <= k < |r| ==> HexDigitValue(r[k]) < 16
    ensures if |r| == 1 then HexDigitValue(r[0]) == b else 16 * HexDigitValue(r[0]) + HexDigitValue(r[1]) == b
  {
    if b < 16 then [HexDigit(b)] else [HexDigit(b / 16), HexDigit(b % 16)]
  }

  /** `s.padStart(width, fill)`: `fill` repeated in front of `s` up to
      `width` characters; `s` itself when it is already that long. */
  function PadStart(s: string, width: nat, fill: char): (r: string)
    ensures |r| == if |s| >= width then |s| else width
    ensures r[|r| - |s|..] == s
    ensures forall k :: 0 <= k < |r| - |s| ==> r[k] == fill
  {
    if |s| >= width then s else seq(width - |s|, _ => fill) + s
  }

  /** `byte.toString(16).padStart(2, "0")`: two lowercase hex digits that
      denote the byte. */
  function ByteHex(b: Byte): (r: string)
    ensures |r| == 2 && HexDigitValue(r[0]) < 16 && HexDigitValue(r[1]) < 16
    ensures 16 * HexDigitValue(r[0]) + HexDigitValue(r[1]) == b
  {
    PadStart(ToBase16(b), 2, '0')
  }

  /** `Array.from(bytes).map(byteHex)` */
  function ByteHexes(bytes: seq<Byte>): (r: seq<string>)
    ensures |r| == |bytes|
    ensures forall k :: 0 <= k < |bytes| ==> r[k] == ByteHex(bytes[k])
  {
    if bytes == [] then [] else [ByteHex(bytes[0])] + ByteHexes(bytes[1..])
  }

  lemma ByteHexesRest(bytes: seq<Byte>)
    requires |bytes| > 0
    ensures ByteHexes(bytes)[1..] == ByteHexes(bytes[1..])
  {
    assert ByteHexes(bytes) == [ByteHex(bytes[0])] + ByteHexes(bytes[1..]);
  }

  /** `.join(" ")` of those pieces */
  function HexOutput(bytes: seq<Byte>): (r: string)
    ensures r == "" <==> bytes == []
    ensures bytes != [] ==> |r| >= 2 && r[..2] == ByteHex(bytes[0])
  {
    Join(ByteHexes(bytes), " ")
  }

  /** Reads a hex dump back: pairs of hex digits separated by single
      spaces; `None` for anything else. */
  function ParseHex(s: string): Option<seq<Byte>>
    decreases |s|
  {
    if s == [] then Some([])
    else if |s| < 2 || HexDigitValue(s[0]) >= 16 || HexDigitValue(s[1]) >= 16 then None
    else
      var b := 16 * HexDigitValue(s[0]) + HexDigitValue(s[1]);
      if |s| == 2 then Some([b])
      else if |s| == 3 || s[2] != ' ' then None
      else
        match ParseHex(s[3..])
        case None => None
        case Some(rest) => Some([b] + rest)
  }

  /** Three characters per byte, less the missing separator after the last. */
  lemma {:induction false} HexOutputLength(bytes: seq<Byte>)
    ensures |HexOutput(bytes)| == if bytes == [] then 0 else 3 * |bytes| - 1
  {
    if |bytes| > 1 {
      ByteHexesRest(bytes);
      HexOutputLength(bytes[1..]);
    }
  }

  /** `ParseHex` on a pair of digits followed by a space and more text. */
  lemma ParseHexStep(s: string, b: Byte)
    requires |s| > 3 && HexDigitValue(s[0]) < 16 && HexDigitValue(s[1]) < 16 && s[2] == ' '
    requires b == 16 * HexDigitValue(s[0]) + HexDigitValue(s[1])
    ensures ParseHex(s).Some? <==> ParseHex(s[3..]).Some?
    ensures ParseHex(s).Some? ==> ParseHex(s).value == [b] + ParseHex(s[3..]).value
  {
  }

  /** Reading one byte's two digits, then a space and the rest. */
  lemma ParseHexCons(b: Byte, rest: string)
    ensures ParseHex(ByteHex(b)) == Some([b])
    ensures rest != [] ==>
      ParseHex(ByteHex(b) + " " + rest) == (if ParseHex(rest).Some? then Some([b] + ParseHex(rest).value) else None)
  {
    var h := ByteHex(b);
    if rest != [] {
      var s := h + " " + rest;
      assert s[0] == h[0] && s[1] == h[1] && s[2] == ' ';
      assert s[3..] == rest;
      ParseHexStep(s, b);
    }
  }

  /** The hex dump decodes back to the bytes it shows. */
  lemma {:induction false} HexRoundTrip(bytes: seq<Byte>)
    ensures ParseHex(HexOutput(bytes)) == Some(bytes)
  {
    if |bytes| == 1 {
      assert HexOutput(bytes) == ByteHex(bytes[0]);
      ParseHexCons(bytes[0], "");
      FirstAndRest(bytes);
    } else if |bytes| > 1 {
      var rest := HexOutput(bytes[1..]);
      ByteHexesRest(bytes);
      assert HexOutput(bytes) == ByteHex(bytes[0]) + " " + rest;
      HexOutputLength(bytes[1..]);
      ParseHexCons(bytes[0], rest);
      HexRoundTrip(bytes[1..]);
      FirstAndRest(bytes);
    }
  }

  lemma FirstAndRest(bytes: seq<Byte>)
    requires |bytes| > 0
    ensures bytes == [bytes[0]] + bytes[1..]
    ensures |bytes| == 1 ==> bytes == [bytes[0]]
  {
  }

  // ---------------------------------------------------------------------------
  // Generation

  /** What a successful generation shows. */
  datatype Generation = Generation(schema: string, bytes: seq<Byte>, hex: string, stats: SizeStats)

  /** The outputs that come from the sample itself: its UTF-8 bytes, their
      hex dump and the size comparison. */
  function Encoded(libs: Libs, schema: string, jsonData: Value): (g: Generation)
    ensures g.schema == schema && g.bytes == Utf8Encode(libs.jsonStringify(jsonData))
    ensures g.hex == HexOutput(g.bytes) && g.stats.binarySize == |g.bytes|
  {
    var bytes := Utf8Encode(libs.jsonStringify(jsonData));
    Generation(schema, bytes, HexOutput(bytes), CalculateSizeComparison(libs, jsonData, Some(bytes)))
  }

  /** What `generateProtobuf` throws when a required input is blank. */
  const MessageNameRequired := "Message name is required"
  const JsonInputRequired := "JSON input is required"

  /** The try block of `generateProtobuf`: the message name is checked
      first, then the sample, then the sample is parsed and the schema
      generated; the bytes are the UTF-8 of the compact JSON text, shown as
      hex and measured against that text. A thrown error yields its
      message. */
  function Pipeline(libs: Libs, messageName: string, jsonInput: string): (r: Result<Generation, string>)
    ensures IsBlank(messageName) ==> r == Err(MessageNameRequired)
    ensures !IsBlank(messageName) && IsBlank(jsonInput) ==> r == Err(JsonInputRequired)
    ensures r.Ok? ==> libs.jsonParse(jsonInput).Ok? && r.value == Encoded(libs, r.value.schema, libs.jsonParse(jsonInput).value)
    ensures r.Ok? ==> |r.value.schema| >= |SyntaxHeader| && r.value.schema[..|SyntaxHeader|] == SyntaxHeader
    ensures !IsBlank(messageName) && !IsBlank(jsonInput) && libs.jsonParse(jsonInput).Err? ==>
      r == Err(libs.jsonParse(jsonInput).error)
    ensures !IsBlank(messageName) && !IsBlank(jsonInput) && libs.jsonParse(jsonInput).Ok? ==>
      var schema := Schema(messageName, libs.jsonParse(jsonInput).value, 0);
      (schema.Err? ==> r == Err(ErrorMessage(schema.error))) &&
      (schema.Ok? ==> r.Ok? && r.value.schema == schema.value)
  {
    if IsBlank(messageName) then Err(MessageNameRequired)
    else if IsBlank(jsonInput) then Err(JsonInputRequired)
    else
      match libs.jsonParse(jsonInput)
      case Err(m) => Err(m)
      case Ok(jsonData) =>
        match Schema(messageName, jsonData, 0)
        case Err(e) => Err(ErrorMessage(e))
        case Ok(schema) =>
          Ok(Encoded(libs, schema, jsonData))
  }

  /** The body of `generateProtobuf`'s `try`: what it computes before the
      state setters run, or the message of what it throws. */
  method Generate(libs: Libs, messageName: string, jsonInput: string) returns (r: Result<Generation, string>)
    ensures r == Pipeline(libs, messageName, jsonInput)
  {
    if IsBlank(messageName) {
      return Err(MessageNameRequired);
    }
    if IsBlank(jsonInput) {
      return Err(JsonInputRequired);
    }
    var parsed := libs.jsonParse(jsonInput);
    if parsed.Err? {
      return Err(parsed.error);
    }
    var jsonData := parsed.value;
    var schema := GenerateProtoSchema(messageName, jsonData, 0);
    if schema.Err? {
      return Err(ErrorMessage(schema.error));
    }
    var binaryData := Utf8Encode(libs.jsonStringify(jsonData));
    var hexOutput := HexOutput(binaryData);
    var sizeStats := CalculateSizeComparison(libs, jsonData, Some(binaryData));
    return Ok(Generation(schema.value, binaryData, hexOutput, sizeStats));
  }

  /** The statistics describe the bytes the hex output shows: decoding the
      hex gives a buffer of `binarySize` bytes; that buffer is never shorter
      than the JSON text, so the savings are never positive, and they are 0
      when the text is ASCII. */
  lemma StatsAgreeWithHex(libs: Libs, messageName: string, jsonInput: string)
    requires Pipeline(libs, messageName, jsonInput).Ok?
    ensures var g := Pipeline(libs, messageName, jsonInput).value;
      ParseHex(g.hex) == Some(g.bytes) && |g.bytes| == g.stats.binarySize &&
      g.stats.binarySize >= g.stats.jsonSize && g.stats.savings <= 0
    ensures var g := Pipeline(libs, messageName, jsonInput).value;
      IsAscii(libs.jsonStringify(libs.jsonParse(jsonInput).value)) ==> g.stats.savings == 0
  {
    EncodedStats(libs, Pipeline(libs, messageName, jsonInput).value.schema, libs.jsonParse(jsonInput).value);
  }

  /** The statistics of one sample's encoding, whatever the schema. */
  lemma EncodedStats(libs: Libs, schema: string, jsonData: Value)
    ensures var g := Encoded(libs, schema, jsonData);
      ParseHex(g.hex) == Some(g.bytes) && g.stats.binarySize == |g.bytes| &&
      g.stats.binarySize >= g.stats.jsonSize && g.stats.savings <= 0 &&
      (IsAscii(libs.jsonStringify(jsonData)) ==> g.stats.savings == 0)
  {
    var g := Encoded(libs, schema, jsonData);
    HexRoundTrip(g.bytes);
    Utf8NotShorter(libs.jsonStringify(jsonData));
    SavingsBounds(g.stats.jsonSize, g.stats.binarySize);
  }

  /** `setFullscreenSection(fullscreenSection === section ? null : section)` */
  function ToggledSection(current: Option<string>, section: string): (r: Option<string>)
    ensures r.None? <==> current == Some(section)
    ensures r.Some? ==> r.value == section
  {
    if current == Some(section) then None else Some(section)
  }

  /** Pressing the same section's button twice is the identity exactly when
      no section or that section was in fullscreen, which is when its button
      is on screen. */
  lemma ToggleTwice(current: Option<string>, section: string)
    ensures ToggledSection(ToggledSection(current, section), section) == current
      <==> current.None? || current == Some(section)
  {
  }

  // ---------------------------------------------------------------------------
  // The component

  /** The component's state. */
  class Playground {
    var messageName: string
    var jsonInput: string
    var protoSchema: string
    var binaryOutput: string
    var error: string
    var stats: Option<SizeStats>
    var fullscreenSection: Option<string>

    /** The first render: the sample user message, nothing generated yet. */
    constructor ()
      ensures messageName == "User"
      ensures jsonInput == "{\n  \"name\": \"John\",\n  \"age\": 30,\n  \"isActive\": true\n}"
      ensures protoSchema == "" && binaryOutput == "" && error == "" && stats.None? && fullscreenSection.None?
    {
      messageName := "User";
      jsonInput := "{\n  \"name\": \"John\",\n  \"age\": 30,\n  \"isActive\": true\n}";
      protoSchema := "";
      binaryOutput := "";
      error := "";
      stats := None;
      fullscreenSection := None;
    }

    /** The outputs show `Pipeline`'s result: the generation with no error,
        or the error with every output cleared. */
    predicate Shows(r: Result<Generation, string>)
      reads this
    {
      match r
      case Ok(g) => error == "" && protoSchema == g.schema && binaryOutput == g.hex && stats == Some(g.stats)
      case Err(m) => error == m && protoSchema == "" && binaryOutput == "" && stats.None?
    }

    /** The state setters `generateProtobuf` calls once the `try` body has
        finished or thrown: `setError("")` and the three outputs, or the
        `catch` block's error and cleared outputs. */
    method Display(outcome: Result<Generation, string>)
      modifies this
      ensures Shows(outcome)
      ensures messageName == old(messageName) && jsonInput == old(jsonInput)
      ensures fullscreenSection == old(fullscreenSection)
    {
      error := "";
      if outcome.Ok? {
        protoSchema := outcome.value.schema;
        binaryOutput := outcome.value.hex;
        stats := Some(outcome.value.stats);
      } else {
        error := outcome.error;
        protoSchema := "";
        binaryOutput := "";
        stats := None;
      }
    }

    /** `generateProtobuf()` */
    method GenerateProtobuf(libs: Libs)
      modifies this
      ensures Shows(Pipeline(libs, messageName, jsonInput))
      ensures messageName == old(messageName) && jsonInput == old(jsonInput)
      ensures fullscreenSection == old(fullscreenSection)
    {
      var outcome := Generate(libs, messageName, jsonInput);
      Display(outcome);
    }

    /** The effect on `[jsonInput, messageName]`: regenerates only when both
        are non-empty (a blank but non-empty value still runs and reports its
        error); otherwise the previous outputs stay. */
    method RegenerateEffect(libs: Libs)
      modifies this
      ensures messageName == old(messageName) && jsonInput == old(jsonInput)
      ensures fullscreenSection == old(fullscreenSection)
      ensures messageName != "" && jsonInput != "" ==> Shows(Pipeline(libs, messageName, jsonInput))
      ensures messageName == "" || jsonInput == "" ==>
        protoSchema == old(protoSchema) && binaryOutput == old(binaryOutput) && error == old(error) && stats == old(stats)
    {
      if jsonInput != "" && messageName != "" {
        GenerateProtobuf(libs);
      }
    }

    /** Typing in the message-name field, then the effect. */
    method EditMessageName(libs: Libs, name: string)
      modifies this
      ensures messageName == name && jsonInput == old(jsonInput)
      ensures fullscreenSection == old(fullscreenSection)
      ensures name != "" && jsonInput != "" ==> Shows(Pipeline(libs, name, jsonInput))
      ensures name == "" || jsonInput == "" ==>
        protoSchema == old(protoSchema) && binaryOutput == old(binaryOutput) && error == old(error) && stats == old(stats)
    {
      messageName := name;
      RegenerateEffect(libs);
    }

    /** Typing in the JSON field, then the effect. */
    method EditJsonInput(libs: Libs, text: string)
      modifies this
      ensures jsonInput == text && messageName == old(messageName)
      ensures fullscreenSection == old(fullscreenSection)
      ensures messageName != "" && text != "" ==> Shows(Pipeline(libs, messageName, text))
      ensures messageName == "" || text == "" ==>
        protoSchema == old(protoSchema) && binaryOutput == old(binaryOutput) && error == old(error) && stats == old(stats)
    {
      jsonInput := text;
      RegenerateEffect(libs);
    }

    /** `toggleFullscreen(section)` */
    method ToggleFullscreen(section: string)
      modifies this
      ensures fullscreenSection == ToggledSection(old(fullscreenSection), section)
      ensures messageName == old(messageName) && jsonInput == old(jsonInput)
      ensures protoSchema == old(protoSchema) && binaryOutput == old(binaryOutput)
      ensures error == old(error) && stats == old(stats)
    {
      fullscreenSection := if fullscreenSection == Some(section) then None else Some(section);
    }
  }
}
