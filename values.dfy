/** The values the converter passes around: what `JSON.parse`, `yaml.load`
    and the XML walk produce, the DOM nodes the XML walk reads, and the
    foreign libraries, which the model takes as parameters. */
module JsValues {
  import opened Basics

  /** A JavaScript number: a whole number (`Number.isInteger` holds), a finite
      number with a fractional part, or NaN and the infinities. */
  datatype Number = Int(i: int) | Fractional(x: NonIntegral) | NonFinite

  /** A real with a fractional part, so that every whole number is an `Int`. */
  type NonIntegral = x: real | x.Floor as real != x witness 1.0 / 2.0

  /** A JSON-like value. An object is its properties in enumeration order. */
  datatype Value =
    | Null
    | Bool(b: bool)
    | Num(n: Number)
    | Str(s: string)
    | Arr(items: seq<Value>)
    | Obj(pairs: seq<(string, Value)>)

  /** `typeof v === 'object'`, which holds for null and arrays as well. */
  predicate TypeofObject(v: Value) {
    v.Null? || v.Arr? || v.Obj?
  }

  // A JavaScript object's own properties, as a list of name/value pairs in
  // enumeration order.

  predicate HasKey<V>(pairs: seq<(string, V)>, key: string) {
    exists k :: 0 <= k < |pairs| && pairs[k].0 == key
  }

  predicate UniqueKeys<V>(pairs: seq<(string, V)>) {
    forall i, j :: 0 <= i < j < |pairs| ==> pairs[i].0 != pairs[j].0
  }

  /** The position of the property named `key`, or `|pairs|` if there is
      none: the first position holding that name. */
  function IndexOf<V>(pairs: seq<(string, V)>, key: string): (k: nat)
    ensures k <= |pairs|
    ensures k < |pairs| ==> pairs[k].0 == key
    ensures forall j :: 0 <= j < k ==> pairs[j].0 != key
  {
    if pairs == [] then 0
    else if pairs[0].0 == key then 0
    else 1 + IndexOf(pairs[1..], key)
  }

  /** Any position that holds `key` and is preceded by no other holder of
      `key` is the one `IndexOf` finds. */
  lemma {:induction false} IndexOfIsFirst<V>(pairs: seq<(string, V)>, key: string, k: nat)
    requires k < |pairs| && pairs[k].0 == key
    requires forall j :: 0 <= j < k ==> pairs[j].0 != key
    ensures IndexOf(pairs, key) == k
  {
    if k > 0 {
      IndexOfIsFirst(pairs[1..], key, k - 1);
    }
  }

  /** `obj[key]`, with `None` for `undefined`. */
  function Lookup<V>(pairs: seq<(string, V)>, key: string): (r: Option<V>)
    ensures r.Some? <==> HasKey(pairs, key)
    ensures r.Some? ==> exists k :: 0 <= k < |pairs| && pairs[k] == (key, r.value)
  {
    var k := IndexOf(pairs, key);
    if k < |pairs| then Some(pairs[k].1) else None
  }

  /** `obj[key] = v`: an existing property keeps its place and takes the new
      value, a new one is appended. */
  function Put<V>(pairs: seq<(string, V)>, key: string, v: V): (r: seq<(string, V)>)
    ensures HasKey(pairs, key) ==> |r| == |pairs| && forall j :: 0 <= j < |r| ==> r[j].0 == pairs[j].0
    ensures !HasKey(pairs, key) ==> r == pairs + [(key, v)]
  {
    var k := IndexOf(pairs, key);
    if k < |pairs| then pairs[k := (key, v)] else pairs + [(key, v)]
  }

  /** Reading back after `Put` gives the new value under `key` and the old
      value under every other name, and names stay unique. */
  lemma PutThenLookup<V>(pairs: seq<(string, V)>, key: string, v: V)
    ensures Lookup(Put(pairs, key, v), key) == Some(v)
    ensures forall other :: other != key ==> Lookup(Put(pairs, key, v), other) == Lookup(pairs, other)
    ensures UniqueKeys(pairs) ==> UniqueKeys(Put(pairs, key, v))
  {
    var r := Put(pairs, key, v);
    var k := IndexOf(pairs, key);
    IndexOfIsFirst(r, key, if k < |pairs| then k else |pairs|);
    forall other | other != key
      ensures Lookup(r, other) == Lookup(pairs, other)
    {
      var m := IndexOf(pairs, other);
      if m < |pairs| {
        assert r[m] == pairs[m];
        assert forall j :: 0 <= j < m ==> r[j].0 == pairs[j].0;
        IndexOfIsFirst(r, other, m);
      } else {
        assert forall j :: 0 <= j < |r| ==> r[j].0 != other;
      }
    }
  }
}

/** The libraries the conversions call, and the DOM they read. */
module Libraries {
  import opened Basics
  import opened JsValues

  datatype Attr = Attr(name: string, value: string)

  /** A DOM node: an element (`nodeType` 1), a text node (`nodeType` 3), or
      anything else (comments, CDATA sections, processing instructions). */
  datatype XmlNode =
    | Element(name: string, attrs: seq<Attr>, children: seq<XmlNode>)
    | Text(text: string)
    | Other

  /** The foreign calls, one field each. They are parameters of the model:
      nothing is assumed about them beyond their types.
      - parseXml: `new DOMParser().parseFromString(text, 'text/xml')
        .documentElement`; on malformed text the browser returns a document
        that contains a `parsererror` element.
      - isNumeric, parseInt, parseFloat: `!isNaN(text)`, `parseInt(text)`,
        `parseFloat(text)`.
      - jsonParse, jsonStringify, jsonStringifyPretty: `JSON.parse(text)`,
        `JSON.stringify(v)` and `JSON.stringify(v, null, 2)`.
      - buildXml: fast-xml-parser's `XMLBuilder.build(v)` with attribute
        prefix `@_`, text key `#text` and two-space indentation.
      - yamlDump, yamlLoad: js-yaml's `dump(v, { indent: 2, lineWidth: -1 })`
        and `load(text)`.
      A result `Err(m)` stands for a thrown error whose `message` is `m`. */
  datatype Libs = Libs(
    parseXml: string -> XmlNode,
    isNumeric: string -> bool,
    parseInt: string -> Number,
    parseFloat: string -> Number,
    jsonParse: string -> Result<Value, string>,
    jsonStringify: Value -> string,
    jsonStringifyPretty: Value -> string,
    buildXml: Value -> Result<string, string>,
    yamlDump: Value -> Result<string, string>,
    yamlLoad: string -> Result<Value, string>)
}
