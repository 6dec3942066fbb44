/** The conversion hook (src/hooks/useConverter.js): the walk that turns a
    DOM element into a JSON value, and the three entry points that convert
    one format's text into the other two and record the outcome in the
    store. */
module UseConverter {
  import opened Basics
  import opened JsValues
  import opened Libraries
  import opened ConverterSlice

  // ---------------------------------------------------------------------------
  // xmlToJson, as a specification

  /** The TypeError `result[nodeName].push` throws when the stored value is
      `null`, in V8's wording. */
  const NullPushError: string := "Cannot read properties of null (reading 'push')"

  /** The TypeError thrown when the stored value is an object with its own
      `push` property, which is then called. */
  const PushNotFunctionError: string := "result[nodeName].push is not a function"

  /** The attributes copied into the result in document order, each as a
      string-valued property (`result[attr.name] = attr.value`). */
  function AttrPairs(attrs: seq<Attr>): (r: seq<(string, Value)>)
    ensures UniqueKeys(r) && |r| <= |attrs|
    ensures forall k :: 0 <= k < |r| ==> r[k].1.Str?
  {
    if attrs == [] then []
    else
      var n := |attrs|;
      Put(AttrPairs(attrs[..n - 1]), attrs[n - 1].name, Str(attrs[n - 1].value))
  }

  /** The value of a meaningful text child, typed in order: a numeric text
      is a number (parsed as a float when it contains a dot), then the
      booleans, then `null`, and the text itself otherwise. */
  function Scalar(libs: Libs, text: string): (r: Value)
    ensures r.Str? <==> !(libs.isNumeric(text) && text != "") && text != "true" && text != "false" && text != "null"
    ensures r.Str? ==> r.s == text
    ensures !r.Arr? && !r.Obj?
    ensures libs.isNumeric(text) && text != "" ==>
      r == Num(if '.' in text then libs.parseFloat(text) else libs.parseInt(text))
    ensures !(libs.isNumeric(text) && text != "") && (text == "true" || text == "false") ==> r == Bool(text == "true")
    ensures !(libs.isNumeric(text) && text != "") && text == "null" ==> r == Null
  {
    if libs.isNumeric(text) && text != "" then
      Num(if '.' in text then libs.parseFloat(text) else libs.parseInt(text))
    else if text == "true" || text == "false" then Bool(text == "true")
    else if text == "null" then Null
    else Str(text)
  }

  /** `xmlToJson(node)`: an element's attributes and children folded into an
      object, or the scalar of its first meaningful text child; a text node's
      trimmed text; `{}` otherwise. It never yields an array. */
  function XmlValue(libs: Libs, node: XmlNode): (r: Result<Value, string>)
    ensures r.Ok? ==> !r.value.Arr?
    ensures r.Err? ==> r.error == NullPushError || r.error == PushNotFunctionError
    ensures !node.Element? ==> r.Ok?
    ensures node.Text? ==> r == Ok(if Trim(node.text) != "" then Str(Trim(node.text)) else Obj([]))
    ensures node.Other? ==> r == Ok(Obj([]))
    decreases node, 1
  {
    match node
    case Element(_, attrs, _) => ChildrenValue(libs, node, 0, AttrPairs(attrs))
    case Text(t) => if Trim(t) != "" then Ok(Str(Trim(t))) else Ok(Obj([]))
    case Other => Ok(Obj([]))
  }

  /** The child loop of `xmlToJson` from child `i` on, with `acc` collected so
      far. A first occurrence of a tag is stored as is; a later one is pushed
      onto an array, the stored value being first wrapped in one unless it is
      already an array. A stored `null` throws at the `push` probe, before the
      child is converted; a stored object with a `push` property throws when
      that property is called, after the child is converted. */
  function ChildrenValue(libs: Libs, node: XmlNode, i: nat, acc: seq<(string, Value)>): (r: Result<Value, string>)
    requires node.Element? && i <= |node.children|
    ensures r.Ok? ==> !r.value.Arr?
    ensures r.Err? ==> r.error == NullPushError || r.error == PushNotFunctionError
    decreases node, 0, |node.children| - i
  {
    if i == |node.children| then Ok(Obj(acc))
    else
      var item := node.children[i];
      assert item in node.children;
      match item
      case Element(name, _, _) =>
        var existing := Lookup(acc, name);
        if existing.Some? && existing.value.Null? then Err(NullPushError)
        else
          (match XmlValue(libs, item)
           case Err(e) => Err(e)
           case Ok(v) =>
             if existing.None? then ChildrenValue(libs, node, i + 1, Put(acc, name, v))
             else if existing.value.Obj? && HasKey(existing.value.pairs, "push") then Err(PushNotFunctionError)
             else ChildrenValue(libs, node, i + 1, Put(acc, name, Arr(Promoted(existing.value) + [v]))))
      case Text(t) =>
        if Trim(t) != "" then Ok(Scalar(libs, Trim(t))) else ChildrenValue(libs, node, i + 1, acc)
      case Other => ChildrenValue(libs, node, i + 1, acc)
  }

  /** The elements of a stored array, or a stored value wrapped in a new one. */
  function Promoted(v: Value): seq<Value> {
    if v.Arr? then v.items else [v]
  }

  // ---------------------------------------------------------------------------
  // xmlToJson, as the source computes it

  /** `xmlToJson(xml)`: fills `result` in two loops, returning early on the
      first meaningful text child. */
  method XmlToJson(libs: Libs, xml: XmlNode) returns (r: Result<Value, string>)
    ensures r == XmlValue(libs, xml)
    decreases xml, 1
  {
    if xml.Element? {
      var result := CopyAttributes(xml.attrs);
      r := FoldChildren(libs, xml, result);
      return;
    } else if xml.Text? {
      var text := Trim(xml.text);
      if text != "" {
        return Ok(Str(text));
      }
    }
    return Ok(Obj([]));
  }

  /** The attribute loop of `xmlToJson`. */
  method CopyAttributes(attrs: seq<Attr>) returns (result: seq<(string, Value)>)
    ensures result == AttrPairs(attrs)
  {
    result := [];
    var i := 0;
    while i < |attrs|
      invariant 0 <= i <= |attrs|
      invariant result == AttrPairs(attrs[..i])
    {
      assert attrs[..i + 1][..i] == attrs[..i];
      var attr := attrs[i];
      result := Put(result, attr.name, Str(attr.value));
      i := i + 1;
    }
    assert attrs[..i] == attrs;
  }

  /** The child loop of `xmlToJson`, starting from the copied attributes. */
  method FoldChildren(libs: Libs, xml: XmlNode, attributes: seq<(string, Value)>) returns (r: Result<Value, string>)
    requires xml.Element?
    ensures r == ChildrenValue(libs, xml, 0, attributes)
    decreases xml, 0
  {
    var result := attributes;
    var i := 0;
    ghost var goal := ChildrenValue(libs, xml, 0, attributes);
    while i < |xml.children|
      invariant 0 <= i <= |xml.children|
      invariant ChildrenValue(libs, xml, i, result) == goal
    {
      var item := xml.children[i];
      assert item in xml.children;
      if item.Element? {
        var next := FoldElement(libs, xml, i, result);
        if next.Err? {
          return Err(next.error);
        }
        result := next.value;
      } else if item.Text? {
        var text := Trim(item.text);
        if text != "" {
          var v := TypedText(libs, text);
          TextReturns(libs, xml, i, result);
          return Ok(v);
        }
        SkipOne(libs, xml, i, result);
      } else {
        SkipOne(libs, xml, i, result);
      }
      i := i + 1;
    }
    FoldEnds(libs, xml, result);
    return Ok(Obj(result));
  }

  /** The early return of the child loop for a meaningful text: a number,
      a boolean, `null`, or the text itself. */
  method TypedText(libs: Libs, text: string) returns (v: Value)
    ensures v == Scalar(libs, text)
  {
    if libs.isNumeric(text) && text != "" {
      return Num(if '.' in text then libs.parseFloat(text) else libs.parseInt(text));
    } else if text == "true" || text == "false" {
      return Bool(text == "true");
    } else if text == "null" {
      return Null;
    }
    return Str(text);
  }

  /** One element child of the loop: the collected object after it, or what
      it throws. */
  method FoldElement(libs: Libs, xml: XmlNode, i: nat, result: seq<(string, Value)>) returns (r: Result<seq<(string, Value)>, string>)
    requires xml.Element? && i < |xml.children| && xml.children[i].Element?
    ensures r.Err? ==> ChildrenValue(libs, xml, i, result) == Err(r.error)
    ensures r.Ok? ==> ChildrenValue(libs, xml, i, result) == ChildrenValue(libs, xml, i + 1, r.value)
    decreases xml, 0, 0
  {
    var item := xml.children[i];
    assert item in xml.children;
    var nodeName := item.name;
    var existing := Lookup(result, nodeName);
    if existing.None? {
      var v := XmlToJson(libs, item);
      if v.Err? {
        return Err(v.error);
      }
      return Ok(Put(result, nodeName, v.value));
    }
    var previous := existing.value;
    if previous.Null? {
      return Err(NullPushError);
    }
    var items := if previous.Arr? then previous.items else [previous];
    var v := XmlToJson(libs, item);
    if v.Err? {
      return Err(v.error);
    }
    if previous.Obj? && HasKey(previous.pairs, "push") {
      return Err(PushNotFunctionError);
    }
    return Ok(Put(result, nodeName, Arr(items + [v.value])));
  }

  // ---------------------------------------------------------------------------
  // What xmlToJson promises

  predicate UniqueAttrNames(attrs: seq<Attr>) {
    forall i, j :: 0 <= i < j < |attrs| ==> attrs[i].name != attrs[j].name
  }

  /** With distinct names (as the DOM guarantees), the attributes become the
      first properties of the result, in document order, with their values
      as strings. */
  lemma {:induction false} AttributesInOrder(attrs: seq<Attr>)
    requires UniqueAttrNames(attrs)
    ensures AttrPairs(attrs) == seq(|attrs|, k requires 0 <= k < |attrs| => (attrs[k].name, Str(attrs[k].value)))
  {
    if attrs != [] {
      var n := |attrs|;
      var init := attrs[..n - 1];
      assert UniqueAttrNames(init);
      AttributesInOrder(init);
      AttrPairsLacks(init, attrs[n - 1].name);
      assert AttrPairs(attrs) == AttrPairs(init) + [(attrs[n - 1].name, Str(attrs[n - 1].value))];
    }
  }

  /** A meaningful text child returns its scalar at once: once the children
      before it raised nothing, whatever they and the attributes contributed
      is discarded. */
  lemma {:induction false} FirstTextWins(libs: Libs, node: XmlNode, i: nat, j: nat, acc: seq<(string, Value)>)
    requires node.Element? && j <= i < |node.children|
    requires node.children[i].Text? && Trim(node.children[i].text) != ""
    requires forall k :: j <= k < i ==> !(node.children[k].Text? && Trim(node.children[k].text) != "")
    ensures ChildrenValue(libs, node, j, acc).Ok? ==>
      ChildrenValue(libs, node, j, acc).value == Scalar(libs, Trim(node.children[i].text))
    decreases i - j
  {
    if j == i {
      TextReturns(libs, node, i, acc);
    } else {
      var next := SkipChild(libs, node, j, acc);
      FirstTextWins(libs, node, i, j + 1, next);
    }
  }

  /** A child that is not meaningful text either raises or hands the fold on
      to the next child with some collected object `next`. */
  lemma SkipChild(libs: Libs, node: XmlNode, j: nat, acc: seq<(string, Value)>) returns (next: seq<(string, Value)>)
    requires node.Element? && j < |node.children|
    requires !(node.children[j].Text? && Trim(node.children[j].text) != "")
    ensures ChildrenValue(libs, node, j, acc).Ok? ==>
      ChildrenValue(libs, node, j, acc) == ChildrenValue(libs, node, j + 1, next)
  {
    next := acc;
    var item := node.children[j];
    if item.Element? {
      var existing := Lookup(acc, item.name);
      if !(existing.Some? && existing.value.Null?) && XmlValue(libs, item).Ok? {
        var v := XmlValue(libs, item).value;
        if existing.None? {
          next := Put(acc, item.name, v);
        } else {
          next := Put(acc, item.name, Arr(Promoted(existing.value) + [v]));
        }
      }
    }
  }

  /** An element with no element children and no meaningful text is the
      object of its attributes; `{}` when it has none. */
  lemma NoContentGivesAttributes(libs: Libs, node: XmlNode, j: nat)
    requires node.Element? && j <= |node.children|
    requires forall k :: 0 <= k < |node.children| ==> Skippable(node.children[k])
    ensures ChildrenValue(libs, node, j, AttrPairs(node.attrs)) == Ok(Obj(AttrPairs(node.attrs)))
  {
    SkipBlankChildren(libs, node, j, |node.children|, AttrPairs(node.attrs));
    FoldEnds(libs, node, AttrPairs(node.attrs));
  }

  /** An element without attributes, element children or meaningful text
      yields `{}`. */
  lemma EmptyElementGivesEmptyObject(libs: Libs, node: XmlNode)
    requires node.Element? && node.attrs == []
    requires forall k :: 0 <= k < |node.children| ==>
      !node.children[k].Element? && !(node.children[k].Text? && Trim(node.children[k].text) != "")
    ensures XmlValue(libs, node) == Ok(Obj([]))
  {
    forall k | 0 <= k < |node.children| ensures Skippable(node.children[k]) {
    }
    NoContentGivesAttributes(libs, node, 0);
  }

  /** A child the loop passes over: white-space-only text, or a node that is
      neither an element nor text. */
  predicate Skippable(c: XmlNode) {
    c.Other? || (c.Text? && Trim(c.text) == "")
  }

  /** Every child is skippable or an element named `name`. */
  predicate SameTagChildren(cs: seq<XmlNode>, name: string) {
    forall k :: 0 <= k < |cs| ==> Skippable(cs[k]) || (cs[k].Element? && cs[k].name == name)
  }

  /** The element children, in document order. */
  function ElementChildren(cs: seq<XmlNode>): (r: seq<XmlNode>)
    ensures |r| <= |cs|
  {
    if cs == [] then []
    else ElementChildren(cs[..|cs| - 1]) + (if cs[|cs| - 1].Element? then [cs[|cs| - 1]] else [])
  }

  lemma ElementChildrenStep(cs: seq<XmlNode>, i: nat)
    requires i < |cs|
    ensures ElementChildren(cs[..i + 1]) == ElementChildren(cs[..i]) + (if cs[i].Element? then [cs[i]] else [])
  {
    assert cs[..i + 1][..i] == cs[..i];
  }

  /** The element children of a prefix are a prefix of the element children. */
  lemma {:induction false} ElementChildrenPrefix(cs: seq<XmlNode>, i: nat)
    requires i <= |cs|
    ensures ElementChildren(cs[..i]) <= ElementChildren(cs)
  {
    if i < |cs| {
      var n := |cs|;
      var init := cs[..n - 1];
      ElementChildrenPrefix(init, i);
      assert init[..i] == cs[..i];
      var a, b := ElementChildren(cs[..i]), ElementChildren(init);
      assert ElementChildren(cs) == b + (if cs[n - 1].Element? then [cs[n - 1]] else []);
      assert (b + (if cs[n - 1].Element? then [cs[n - 1]] else []))[..|a|] == b[..|a|];
    } else {
      assert cs[..i] == cs;
    }
  }

  /** The keys of the attribute object are attribute names. */
  lemma {:induction false} AttrPairsLacks(attrs: seq<Attr>, name: string)
    requires forall k :: 0 <= k < |attrs| ==> attrs[k].name != name
    ensures !HasKey(AttrPairs(attrs), name)
  {
    if attrs != [] {
      var n := |attrs|;
      assert forall k :: 0 <= k < n - 1 ==> attrs[..n - 1][k] == attrs[k];
      AttrPairsLacks(attrs[..n - 1], name);
    }
  }

  /** Skippable children leave the collected object as it is. */
  lemma {:induction false} SkipBlankChildren(libs: Libs, node: XmlNode, i: nat, j: nat, acc: seq<(string, Value)>)
    requires node.Element? && i <= j <= |node.children|
    requires forall k :: i <= k < j ==> Skippable(node.children[k])
    ensures ChildrenValue(libs, node, i, acc) == ChildrenValue(libs, node, j, acc)
    decreases j - i
  {
    if i < j {
      assert ChildrenValue(libs, node, i, acc) == ChildrenValue(libs, node, j - 1, acc) by {
        SkipBlankChildren(libs, node, i, j - 1, acc);
      }
      SkipOne(libs, node, j - 1, acc);
    }
  }

  /** A meaningful text child ends the fold with its scalar. */
  lemma TextReturns(libs: Libs, node: XmlNode, i: nat, acc: seq<(string, Value)>)
    requires node.Element? && i < |node.children|
    requires node.children[i].Text? && Trim(node.children[i].text) != ""
    ensures ChildrenValue(libs, node, i, acc) == Ok(Scalar(libs, Trim(node.children[i].text)))
  {
  }

  /** Past the last child the fold yields the collected object. */
  lemma FoldEnds(libs: Libs, node: XmlNode, acc: seq<(string, Value)>)
    requires node.Element?
    ensures ChildrenValue(libs, node, |node.children|, acc) == Ok(Obj(acc))
  {
  }

  lemma SkipOne(libs: Libs, node: XmlNode, i: nat, acc: seq<(string, Value)>)
    requires node.Element? && i < |node.children| && Skippable(node.children[i])
    ensures ChildrenValue(libs, node, i, acc) == ChildrenValue(libs, node, i + 1, acc)
  {
  }

  /** A tag's first occurrence is stored under its name, at the end. */
  lemma StoreFirst(libs: Libs, node: XmlNode, i: nat, base: seq<(string, Value)>, name: string, v: Value)
    requires node.Element? && i < |node.children|
    requires node.children[i].Element? && node.children[i].name == name
    requires XmlValue(libs, node.children[i]) == Ok(v) && !HasKey(base, name)
    ensures ChildrenValue(libs, node, i, base) == ChildrenValue(libs, node, i + 1, base + [(name, v)])
  {
    assert Lookup(base, name).None?;
  }

  /** With `name` last and only there, a lookup finds the stored value and an
      assignment replaces it in place. */
  lemma LastEntry(base: seq<(string, Value)>, name: string, prev: Value, next: Value)
    requires !HasKey(base, name)
    ensures Lookup(base + [(name, prev)], name) == Some(prev)
    ensures Put(base + [(name, prev)], name, next) == base + [(name, next)]
  {
    IndexOfIsFirst(base + [(name, prev)], name, |base|);
  }

  /** A later occurrence is pushed onto what is stored. */
  lemma PushNext(libs: Libs, node: XmlNode, i: nat, base: seq<(string, Value)>, name: string, prev: Value, v: Value)
    requires node.Element? && i < |node.children|
    requires node.children[i].Element? && node.children[i].name == name
    requires XmlValue(libs, node.children[i]) == Ok(v) && !HasKey(base, name)
    requires !prev.Null? && !(prev.Obj? && HasKey(prev.pairs, "push"))
    ensures ChildrenValue(libs, node, i, base + [(name, prev)]) ==
      ChildrenValue(libs, node, i + 1, base + [(name, Arr(Promoted(prev) + [v]))])
  {
    LastEntry(base, name, prev, Arr(Promoted(prev) + [v]));
  }

  /** A stored `null` makes the next occurrence throw at the `push` probe. */
  lemma PushOnNull(libs: Libs, node: XmlNode, i: nat, base: seq<(string, Value)>, name: string)
    requires node.Element? && i < |node.children|
    requires node.children[i].Element? && node.children[i].name == name && !HasKey(base, name)
    ensures ChildrenValue(libs, node, i, base + [(name, Null)]) == Err(NullPushError)
  {
    LastEntry(base, name, Null, Null);
  }

  /** What the loop has stored under `name` after the occurrences with
      values `ws`: nothing, the first value itself, or the array of all. */
  function Collected(base: seq<(string, Value)>, name: string, ws: seq<Value>): seq<(string, Value)> {
    if ws == [] then base
    else if |ws| == 1 then base + [(name, ws[0])]
    else base + [(name, Arr(ws))]
  }

  /** Occurrence `m` of the tag, at child `i`, extends what is stored by its
      value. */
  lemma CollectOccurrence(libs: Libs, node: XmlNode, name: string, vs: seq<Value>, base: seq<(string, Value)>, i: nat, m: nat)
    requires node.Element? && i < |node.children| && m < |vs|
    requires node.children[i].Element? && node.children[i].name == name
    requires XmlValue(libs, node.children[i]) == Ok(vs[m])
    requires m >= 1 ==> !vs[0].Arr? && !vs[0].Null? && !(vs[0].Obj? && HasKey(vs[0].pairs, "push"))
    requires !HasKey(base, name)
    ensures ChildrenValue(libs, node, i, Collected(base, name, vs[..m])) ==
      ChildrenValue(libs, node, i + 1, Collected(base, name, vs[..m + 1]))
  {
    if m == 0 {
      assert Collected(base, name, vs[..m]) == base;
      assert Collected(base, name, vs[..m + 1]) == base + [(name, vs[0])];
      StoreFirst(libs, node, i, base, name, vs[0]);
    } else {
      CollectLater(libs, node, name, vs[..m + 1], base, i);
      assert vs[..m + 1][..m] == vs[..m];
    }
  }

  /** A later occurrence, with value the last of `ws`, pushes onto what the
      earlier ones stored. */
  lemma CollectLater(libs: Libs, node: XmlNode, name: string, ws: seq<Value>, base: seq<(string, Value)>, i: nat)
    requires node.Element? && i < |node.children| && |ws| >= 2
    requires node.children[i].Element? && node.children[i].name == name
    requires XmlValue(libs, node.children[i]) == Ok(ws[|ws| - 1])
    requires !ws[0].Arr? && !ws[0].Null? && !(ws[0].Obj? && HasKey(ws[0].pairs, "push"))
    requires !HasKey(base, name)
    ensures ChildrenValue(libs, node, i, Collected(base, name, ws[..|ws| - 1])) ==
      ChildrenValue(libs, node, i + 1, Collected(base, name, ws))
  {
    var m := |ws| - 1;
    var prev := if m == 1 then ws[0] else Arr(ws[..m]);
    assert Promoted(prev) == ws[..m];
    assert ws == ws[..m] + [ws[m]];
    assert Collected(base, name, ws[..m]) == base + [(name, prev)];
    PushNext(libs, node, i, base, name, prev, ws[m]);
  }

  /** Child `i` extends what is stored by its value if it is an occurrence,
      and leaves it as it is otherwise. */
  lemma CollectStep(libs: Libs, node: XmlNode, name: string, vs: seq<Value>, base: seq<(string, Value)>, i: nat)
    requires node.Element? && i < |node.children| && SameTagChildren(node.children, name)
    requires |ElementChildren(node.children)| == |vs|
    requires forall j :: 0 <= j < |vs| ==> XmlValue(libs, ElementChildren(node.children)[j]) == Ok(vs[j])
    requires |vs| >= 2 ==> !vs[0].Null? && !(vs[0].Obj? && HasKey(vs[0].pairs, "push"))
    requires !HasKey(base, name) && |ElementChildren(node.children[..i])| <= |vs|
    ensures |ElementChildren(node.children[..i + 1])| <= |vs|
    ensures ChildrenValue(libs, node, i, Collected(base, name, vs[..|ElementChildren(node.children[..i])|])) ==
      ChildrenValue(libs, node, i + 1, Collected(base, name, vs[..|ElementChildren(node.children[..i + 1])|]))
  {
    if node.children[i].Element? {
      CollectElementChild(libs, node, name, vs, base, i);
    } else {
      var m := |ElementChildren(node.children[..i])|;
      SkippedChild(libs, node, name, i, Collected(base, name, vs[..m]));
    }
  }

  /** An element child is the next occurrence of the tag. */
  lemma CollectElementChild(libs: Libs, node: XmlNode, name: string, vs: seq<Value>, base: seq<(string, Value)>, i: nat)
    requires node.Element? && i < |node.children| && SameTagChildren(node.children, name)
    requires node.children[i].Element?
    requires |ElementChildren(node.children)| == |vs|
    requires forall j :: 0 <= j < |vs| ==> XmlValue(libs, ElementChildren(node.children)[j]) == Ok(vs[j])
    requires |vs| >= 2 ==> !vs[0].Null? && !(vs[0].Obj? && HasKey(vs[0].pairs, "push"))
    requires !HasKey(base, name)
    ensures |ElementChildren(node.children[..i + 1])| == |ElementChildren(node.children[..i])| + 1 <= |vs|
    ensures ChildrenValue(libs, node, i, Collected(base, name, vs[..|ElementChildren(node.children[..i])|])) ==
      ChildrenValue(libs, node, i + 1, Collected(base, name, vs[..|ElementChildren(node.children[..i + 1])|]))
  {
    var cs := node.children;
    var m := |ElementChildren(cs[..i])|;
    ElementChildrenStep(cs, i);
    ElementChildrenPrefix(cs, i + 1);
    assert ElementChildren(cs[..i + 1]) == ElementChildren(cs[..i]) + [cs[i]];
    assert |ElementChildren(cs[..i + 1])| == m + 1;
    assert ElementChildren(cs)[m] == cs[i];
    assert m >= 1 ==> XmlValue(libs, ElementChildren(cs)[0]) == Ok(vs[0]);
    CollectOccurrence(libs, node, name, vs, base, i, m);
  }

  /** A child that is not an element is skippable here: it adds no element
      child and leaves the fold as it is. */
  lemma SkippedChild(libs: Libs, node: XmlNode, name: string, i: nat, acc: seq<(string, Value)>)
    requires node.Element? && i < |node.children| && SameTagChildren(node.children, name)
    requires !node.children[i].Element?
    ensures ElementChildren(node.children[..i + 1]) == ElementChildren(node.children[..i])
    ensures ChildrenValue(libs, node, i, acc) == ChildrenValue(libs, node, i + 1, acc)
  {
    ElementChildrenStep(node.children, i);
    assert Skippable(node.children[i]);
    SkipOne(libs, node, i, acc);
  }

  lemma {:induction false} CollectFrom(libs: Libs, node: XmlNode, name: string, vs: seq<Value>, base: seq<(string, Value)>, i: nat)
    requires node.Element? && i <= |node.children| && SameTagChildren(node.children, name)
    requires |ElementChildren(node.children)| == |vs|
    requires forall j :: 0 <= j < |vs| ==> XmlValue(libs, ElementChildren(node.children)[j]) == Ok(vs[j])
    requires |vs| >= 2 ==> !vs[0].Null? && !(vs[0].Obj? && HasKey(vs[0].pairs, "push"))
    requires !HasKey(base, name) && |ElementChildren(node.children[..i])| <= |vs|
    ensures ChildrenValue(libs, node, i, Collected(base, name, vs[..|ElementChildren(node.children[..i])|])) ==
      Ok(Obj(Collected(base, name, vs)))
    decreases |node.children| - i
  {
    if i < |node.children| {
      CollectStep(libs, node, name, vs, base, i);
      CollectFrom(libs, node, name, vs, base, i + 1);
    } else {
      assert node.children[..i] == node.children;
      assert vs[..|vs|] == vs;
    }
  }

  /** Children that are all one tag, between any amount of white space:
      the first value is stored as is, the second turns it into the pair of
      both, and the rest are appended, so the tag maps to the array of all
      their values, in document order, after the attributes. */
  lemma RepeatedTagsCollect(libs: Libs, node: XmlNode, name: string, vs: seq<Value>)
    requires node.Element? && SameTagChildren(node.children, name)
    requires forall k :: 0 <= k < |node.attrs| ==> node.attrs[k].name != name
    requires |ElementChildren(node.children)| == |vs| >= 2
    requires forall j :: 0 <= j < |vs| ==> XmlValue(libs, ElementChildren(node.children)[j]) == Ok(vs[j])
    requires !vs[0].Null? && !(vs[0].Obj? && HasKey(vs[0].pairs, "push"))
    ensures XmlValue(libs, node) == Ok(Obj(AttrPairs(node.attrs) + [(name, Arr(vs))]))
  {
    var base := AttrPairs(node.attrs);
    AttrPairsLacks(node.attrs, name);
    assert node.children[..0] == [];
    CollectFrom(libs, node, name, vs, base, 0);
  }

  /** A tag whose first occurrence converted to `null` (its text was `null`)
      makes its next occurrence throw at the `push` probe, whatever white
      space lies between them and whatever follows. */
  lemma NullThenRepeatThrows(libs: Libs, node: XmlNode, name: string, p: nat, q: nat)
    requires node.Element? && p < q < |node.children|
    requires forall k :: 0 <= k < |node.attrs| ==> node.attrs[k].name != name
    requires node.children[p].Element? && node.children[p].name == name
    requires XmlValue(libs, node.children[p]) == Ok(Null)
    requires node.children[q].Element? && node.children[q].name == name
    requires forall k :: 0 <= k < q && k != p ==> Skippable(node.children[k])
    ensures XmlValue(libs, node) == Err(NullPushError)
  {
    var base := AttrPairs(node.attrs);
    AttrPairsLacks(node.attrs, name);
    SkipBlankChildren(libs, node, 0, p, base);
    StoreFirst(libs, node, p, base, name, Null);
    SkipBlankChildren(libs, node, p + 1, q, base + [(name, Null)]);
    PushOnNull(libs, node, q, base, name);
  }

  // ---------------------------------------------------------------------------
  // The conversion entry points

  /** How a conversion ends: the input was blank, something threw (the
      message is the one stored as the error), or it produced the texts of
      the two other formats, in the order they are stored. */
  datatype Outcome = Blank | Failed(message: string) | Converted(first: string, second: string)

  /** The formats a conversion from `source` writes, in the order it writes
      them. */
  function Targets(source: string): (t: (string, string))
    requires source in Formats
    ensures t.0 in Formats && t.1 in Formats
    ensures t.0 != source && t.1 != source && t.0 != t.1
  {
    if source == "xml" then ("json", "yaml")
    else if source == "json" then ("xml", "yaml")
    else ("xml", "json")
  }

  /** What each entry point puts before the message of what it caught. */
  const XmlErrorPrefix: string := "Invalid XML format: "
  const JsonErrorPrefix: string := "Invalid JSON format: "
  const YamlErrorPrefix: string := "Invalid YAML format: "

  predicate StartsWith(s: string, prefix: string) {
    |prefix| <= |s| && s[..|prefix|] == prefix
  }

  /** The stored error: the entry point's prefix, then the caught message. */
  function FormatError(prefix: string, message: string): (r: string)
    ensures StartsWith(r, prefix) && r[|prefix|..] == message
  {
    assert (prefix + message)[..|prefix|] == prefix;
    prefix + message
  }

  /** `doc.getElementsByTagName(tag).length > 0`: the node or one of its
      descendants is an element named `tag`. */
  predicate ContainsElement(node: XmlNode, tag: string)
    ensures ContainsElement(node, tag) ==> node.Element?
    ensures node.Element? && node.name == tag ==> ContainsElement(node, tag)
  {
    node.Element? &&
    (node.name == tag || exists j :: 0 <= j < |node.children| && ContainsElement(node.children[j], tag))
  }

  /** `convertFromXml(text)` up to its dispatches. A parse error, as the
      browser reports it, is caught by the same handler that prefixes every
      message, so its stored error names the format twice; and a document
      that merely contains an element named `parsererror` is rejected alike. */
  function XmlOutcome(libs: Libs, text: string): (o: Outcome)
    ensures o.Blank? <==> IsBlank(text)
    ensures !IsBlank(text) && ContainsElement(libs.parseXml(text), "parsererror") ==>
      o == Failed(XmlErrorPrefix + "Invalid XML format")
    ensures o.Failed? ==> StartsWith(o.message, XmlErrorPrefix)
    ensures !IsBlank(text) && !ContainsElement(libs.parseXml(text), "parsererror") ==>
      var x := XmlValue(libs, libs.parseXml(text));
      (x.Err? ==> o == Failed(XmlErrorPrefix + x.error)) &&
      (x.Ok? && libs.yamlDump(x.value).Err? ==> o == Failed(XmlErrorPrefix + libs.yamlDump(x.value).error)) &&
      (x.Ok? && libs.yamlDump(x.value).Ok? ==>
        o == Converted(libs.jsonStringifyPretty(x.value), libs.yamlDump(x.value).value))
  {
    if IsBlank(text) then Blank
    else
      var root := libs.parseXml(text);
      if ContainsElement(root, "parsererror") then
        Failed(FormatError(XmlErrorPrefix, "Invalid XML format"))
      else
        match XmlValue(libs, root)
        case Err(m) => Failed(FormatError(XmlErrorPrefix, m))
        case Ok(v) =>
          var json := libs.jsonStringifyPretty(v);
          match libs.yamlDump(v)
          case Err(m) => Failed(FormatError(XmlErrorPrefix, m))
          case Ok(yaml) => Converted(json, yaml)
  }

  /** `convertFromJson(text)` up to its dispatches. */
  function JsonOutcome(libs: Libs, text: string): (o: Outcome)
    ensures o.Blank? <==> IsBlank(text)
    ensures o.Failed? ==> StartsWith(o.message, JsonErrorPrefix)
    ensures !IsBlank(text) && libs.jsonParse(text).Err? ==> o == Failed(JsonErrorPrefix + libs.jsonParse(text).error)
    ensures !IsBlank(text) && libs.jsonParse(text).Ok? ==>
      var v := libs.jsonParse(text).value;
      (libs.buildXml(v).Err? ==> o == Failed(JsonErrorPrefix + libs.buildXml(v).error)) &&
      (libs.buildXml(v).Ok? && libs.yamlDump(v).Err? ==> o == Failed(JsonErrorPrefix + libs.yamlDump(v).error)) &&
      (libs.buildXml(v).Ok? && libs.yamlDump(v).Ok? ==> o == Converted(libs.buildXml(v).value, libs.yamlDump(v).value))
  {
    if IsBlank(text) then Blank
    else
      match libs.jsonParse(text)
      case Err(m) => Failed(FormatError(JsonErrorPrefix, m))
      case Ok(v) =>
        match libs.buildXml(v)
        case Err(m) => Failed(FormatError(JsonErrorPrefix, m))
        case Ok(xml) =>
          match libs.yamlDump(v)
          case Err(m) => Failed(FormatError(JsonErrorPrefix, m))
          case Ok(yaml) => Converted(xml, yaml)
  }

  /** `convertFromYaml(text)` up to its dispatches. */
  function YamlOutcome(libs: Libs, text: string): (o: Outcome)
    ensures o.Blank? <==> IsBlank(text)
    ensures o.Failed? ==> StartsWith(o.message, YamlErrorPrefix)
    ensures !IsBlank(text) && libs.yamlLoad(text).Err? ==> o == Failed(YamlErrorPrefix + libs.yamlLoad(text).error)
    ensures !IsBlank(text) && libs.yamlLoad(text).Ok? ==>
      var v := libs.yamlLoad(text).value;
      (libs.buildXml(v).Err? ==> o == Failed(YamlErrorPrefix + libs.buildXml(v).error)) &&
      (libs.buildXml(v).Ok? ==> o == Converted(libs.buildXml(v).value, libs.jsonStringifyPretty(v)))
  {
    if IsBlank(text) then Blank
    else
      match libs.yamlLoad(text)
      case Err(m) => Failed(FormatError(YamlErrorPrefix, m))
      case Ok(v) =>
        var json := libs.jsonStringifyPretty(v);
        match libs.buildXml(v)
        case Err(m) => Failed(FormatError(YamlErrorPrefix, m))
        case Ok(xml) => Converted(xml, json)
  }

  /** The outcome of converting `text` from `format`. */
  function OutcomeFor(libs: Libs, format: string, text: string): (o: Outcome)
    requires format in Formats
    ensures o.Blank? <==> IsBlank(text)
  {
    if format == "xml" then XmlOutcome(libs, text)
    else if format == "json" then JsonOutcome(libs, text)
    else YamlOutcome(libs, text)
  }

  /** The store after the dispatches that record outcome `o` of a conversion
      from `source`: the two other texts are the converted ones, or emptied;
      the source's own text is never written; the data is valid exactly on
      success; the error is the failure's message and nothing otherwise,
      with the status following it; the active format, the flags and
      fullscreen are kept. */
  function Applied(s: ConverterState, source: string, o: Outcome): (r: ConverterState)
    requires source in Formats
    ensures ContentOf(r, source) == ContentOf(s, source)
    ensures ContentOf(r, Targets(source).0) == (if o.Converted? then o.first else "")
    ensures ContentOf(r, Targets(source).1) == (if o.Converted? then o.second else "")
    ensures r.isDataValid <==> o.Converted?
    ensures r.error == (if o.Failed? then Some(o.message) else None)
    ensures r.status == ErrorStatus(r.error)
    ensures r.activeFormat == s.activeFormat && r.visibleFormats == s.visibleFormats
    ensures r.fullscreenFormat == s.fullscreenFormat
  {
    var (a, b) := Targets(source);
    match o
    case Blank =>
      var cleared := WithContent(WithContent(s, a, ""), b, "");
      cleared.(isDataValid := false).(error := None, status := ErrorStatus(None))
    case Failed(m) =>
      var reported := s.(error := Some(m), status := ErrorStatus(Some(m)));
      WithContent(WithContent(reported, a, ""), b, "").(isDataValid := false)
    case Converted(first, second) =>
      var written := WithContent(WithContent(s, a, first), b, second);
      written.(isDataValid := true).(error := None, status := ErrorStatus(None))
  }

  /** The dispatches of a conversion from `source`, in the order each entry
      point issues them for each outcome. */
  method RecordOutcome(store: ConverterStore, source: string, o: Outcome)
    requires source in Formats && store.Valid()
    modifies store
    ensures store.Valid() && store.State() == Applied(old(store.State()), source, o)
  {
    var (a, b) := Targets(source);
    match o
    case Blank =>
      store.SetContent(a, "");
      store.SetContent(b, "");
      store.SetDataValid(false);
      store.SetError(None);
    case Failed(m) =>
      store.SetError(Some(m));
      store.SetContent(a, "");
      store.SetContent(b, "");
      store.SetDataValid(false);
    case Converted(first, second) =>
      store.SetContent(a, first);
      store.SetContent(b, second);
      store.SetDataValid(true);
      store.SetError(None);
  }

  /** `convertFromXml(xmlContent)`; a thrown error is caught into `Failed`. */
  method ConvertFromXml(store: ConverterStore, libs: Libs, xmlContent: string)
    requires store.Valid()
    modifies store
    ensures store.Valid() && store.State() == Applied(old(store.State()), "xml", XmlOutcome(libs, xmlContent))
  {
    var outcome: Outcome;
    if IsBlank(xmlContent) {
      outcome := Blank;
    } else {
      var xmlDoc := libs.parseXml(xmlContent);
      if ContainsElement(xmlDoc, "parsererror") {
        outcome := Failed(FormatError(XmlErrorPrefix, "Invalid XML format"));
      } else {
        var jsonObj := XmlToJson(libs, xmlDoc);
        if jsonObj.Err? {
          outcome := Failed(FormatError(XmlErrorPrefix, jsonObj.error));
        } else {
          var jsonContent := libs.jsonStringifyPretty(jsonObj.value);
          var yamlContent := libs.yamlDump(jsonObj.value);
          if yamlContent.Err? {
            outcome := Failed(FormatError(XmlErrorPrefix, yamlContent.error));
          } else {
            outcome := Converted(jsonContent, yamlContent.value);
          }
        }
      }
    }
    RecordOutcome(store, "xml", outcome);
  }

  /** `convertFromJson(jsonContent)` */
  method ConvertFromJson(store: ConverterStore, libs: Libs, jsonContent: string)
    requires store.Valid()
    modifies store
    ensures store.Valid() && store.State() == Applied(old(store.State()), "json", JsonOutcome(libs, jsonContent))
  {
    var outcome: Outcome;
    if IsBlank(jsonContent) {
      outcome := Blank;
    } else {
      var jsonObj := libs.jsonParse(jsonContent);
      if jsonObj.Err? {
        outcome := Failed(FormatError(JsonErrorPrefix, jsonObj.error));
      } else {
        var xmlContent := libs.buildXml(jsonObj.value);
        if xmlContent.Err? {
          outcome := Failed(FormatError(JsonErrorPrefix, xmlContent.error));
        } else {
          var yamlContent := libs.yamlDump(jsonObj.value);
          if yamlContent.Err? {
            outcome := Failed(FormatError(JsonErrorPrefix, yamlContent.error));
          } else {
            outcome := Converted(xmlContent.value, yamlContent.value);
          }
        }
      }
    }
    RecordOutcome(store, "json", outcome);
  }

  /** `convertFromYaml(yamlContent)` */
  method ConvertFromYaml(store: ConverterStore, libs: Libs, yamlContent: string)
    requires store.Valid()
    modifies store
    ensures store.Valid() && store.State() == Applied(old(store.State()), "yaml", YamlOutcome(libs, yamlContent))
  {
    var outcome: Outcome;
    if IsBlank(yamlContent) {
      outcome := Blank;
    } else {
      var jsonObj := libs.yamlLoad(yamlContent);
      if jsonObj.Err? {
        outcome := Failed(FormatError(YamlErrorPrefix, jsonObj.error));
      } else {
        var jsonContent := libs.jsonStringifyPretty(jsonObj.value);
        var xmlContent := libs.buildXml(jsonObj.value);
        if xmlContent.Err? {
          outcome := Failed(FormatError(YamlErrorPrefix, xmlContent.error));
        } else {
          outcome := Converted(xmlContent.value, jsonContent);
        }
      }
    }
    RecordOutcome(store, "yaml", outcome);
  }

  /** `convert(format, content)`: a name that is not a format does nothing. */
  method Convert(store: ConverterStore, libs: Libs, format: string, content: string)
    requires store.Valid()
    modifies store
    ensures store.Valid()
    ensures format in Formats ==> store.State() == Applied(old(store.State()), format, OutcomeFor(libs, format, content))
    ensures format !in Formats ==> store.State() == old(store.State())
  {
    if format == "xml" {
      assert OutcomeFor(libs, format, content) == XmlOutcome(libs, content);
      ConvertFromXml(store, libs, content);
    } else if format == "json" {
      assert OutcomeFor(libs, format, content) == JsonOutcome(libs, content);
      ConvertFromJson(store, libs, content);
    } else if format == "yaml" {
      assert OutcomeFor(libs, format, content) == YamlOutcome(libs, content);
      ConvertFromYaml(store, libs, content);
    } else {
      assert format !in Formats;
    }
  }

  /** Every failure is reported: its message is never empty, so the status
      becomes `'error'`. */
  lemma FailureSetsErrorStatus(libs: Libs, s: ConverterState, format: string, text: string)
    requires format in Formats && OutcomeFor(libs, format, text).Failed?
    ensures Applied(s, format, OutcomeFor(libs, format, text)).status == Some("error")
  {
    var o := OutcomeFor(libs, format, text);
    var prefix := if format == "xml" then XmlErrorPrefix else if format == "json" then JsonErrorPrefix else YamlErrorPrefix;
    assert StartsWith(o.message, prefix);
    assert |prefix| > 0;
    assert o.message != "";
  }
}
