/** The converter's Redux slice (src/store/converterSlice.js): the three
    texts, which format is being edited, which formats are shown, whether the
    texts agree, the error and status, and the fullscreen editor. Each
    reducer is a method that assigns the store's fields in place. */
module ConverterSlice {
  import opened Basics
  import opened JsValues

  /** The formats the store knows, in the order `visibleFormats` lists them. */
  const Formats: seq<string> := ["xml", "json", "yaml"]

  /** `state.visibleFormats`: a flag per format name, in insertion order. */
  type Visibility = seq<(string, bool)>

  const InitialVisibility: Visibility := [("xml", true), ("json", true), ("yaml", true)]

  /** A snapshot of every field of the store. */
  datatype ConverterState = ConverterState(
    xmlContent: string,
    jsonContent: string,
    yamlContent: string,
    activeFormat: string,
    visibleFormats: Visibility,
    isDataValid: bool,
    error: Option<string>,
    status: Option<string>,
    fullscreenFormat: Option<string>)

  /** `initialState` */
  const InitialState: ConverterState :=
    ConverterState("", "", "", "xml", InitialVisibility, false, None, None, None)

  /** The text held for `format`, and `''` for any other name. */
  function ContentOf(s: ConverterState, format: string): (r: string)
    ensures format !in Formats ==> r == ""
  {
    if format == "xml" then s.xmlContent
    else if format == "json" then s.jsonContent
    else if format == "yaml" then s.yamlContent
    else ""
  }

  /** The state after `setContent({ format, content })`: the named format's
      text is `content`, every other text and every other field is as it
      was, and a name that is not a format changes nothing. */
  function WithContent(s: ConverterState, format: string, content: string): (r: ConverterState)
    ensures format in Formats ==> ContentOf(r, format) == content
    ensures forall g :: g != format ==> ContentOf(r, g) == ContentOf(s, g)
    ensures r.(xmlContent := s.xmlContent, jsonContent := s.jsonContent, yamlContent := s.yamlContent) == s
    ensures format !in Formats ==> r == s
  {
    if format == "xml" then s.(xmlContent := content)
    else if format == "json" then s.(jsonContent := content)
    else if format == "yaml" then s.(yamlContent := content)
    else s
  }

  /** `!!visibleFormats[f]`: a name with no entry reads as `undefined`. */
  predicate IsVisible(vf: Visibility, f: string) {
    Lookup(vf, f) == Some(true)
  }

  /** `visibleFormats[f] = !visibleFormats[f]`: the flag of `f` is negated in
      its place, a name with no entry is appended as shown, and every other
      flag and the order of the names are kept. */
  function Flipped(vf: Visibility, f: string): (r: Visibility)
    ensures IsVisible(r, f) <==> !IsVisible(vf, f)
    ensures forall g :: g != f ==> Lookup(r, g) == Lookup(vf, g)
    ensures HasKey(vf, f) ==> |r| == |vf| && forall k :: 0 <= k < |r| ==> r[k].0 == vf[k].0
    ensures !HasKey(vf, f) ==> r == vf + [(f, true)]
    ensures UniqueKeys(vf) ==> UniqueKeys(r)
  {
    PutThenLookup(vf, f, !IsVisible(vf, f));
    Put(vf, f, !IsVisible(vf, f))
  }

  /** The first name whose flag is set, in the order of `vf`; `None` when no
      flag is set. */
  function FirstVisible(vf: Visibility): (r: Option<string>)
    ensures r.None? <==> forall k :: 0 <= k < |vf| ==> !vf[k].1
    ensures r.Some? ==> exists k :: 0 <= k < |vf| && vf[k] == (r.value, true) && forall j :: 0 <= j < k ==> !vf[j].1
  {
    if vf == [] then None
    else if vf[0].1 then
      assert vf[0] == (vf[0].0, true);
      Some(vf[0].0)
    else
      var r := FirstVisible(vf[1..]);
      if r.Some? then
        var k :| 0 <= k < |vf[1..]| && vf[1..][k] == (r.value, true) && forall j :: 0 <= j < k ==> !vf[1..][j].1;
        assert vf[k + 1] == (r.value, true);
        r
      else
        r
  }

  /** The active format after `toggleFormatVisibility(f)` has set the flags
      to `vf`: when `f` was active and is now hidden, the first format still
      shown; otherwise, or when none is shown, the same active format. */
  function ActiveAfterToggle(active: string, vf: Visibility, f: string): (r: string)
    ensures r != active ==> active == f && !IsVisible(vf, f) && FirstVisible(vf) == Some(r)
    ensures active == f && !IsVisible(vf, f) && FirstVisible(vf).Some? ==> FirstVisible(vf) == Some(r)
  {
    if active == f && !IsVisible(vf, f) && FirstVisible(vf).Some? then FirstVisible(vf).value else active
  }

  /** The state after `toggleFormatVisibility(f)`. */
  function Toggled(s: ConverterState, f: string): (r: ConverterState)
    ensures r.visibleFormats == Flipped(s.visibleFormats, f)
    ensures r.(activeFormat := s.activeFormat, visibleFormats := s.visibleFormats) == s
    ensures r.activeFormat != s.activeFormat ==>
      s.activeFormat == f && !IsVisible(r.visibleFormats, f) && FirstVisible(r.visibleFormats) == Some(r.activeFormat)
  {
    var vf := Flipped(s.visibleFormats, f);
    s.(visibleFormats := vf, activeFormat := ActiveAfterToggle(s.activeFormat, vf, f))
  }

  /** `action.payload ? 'error' : null` for the payload of `setError`. */
  function ErrorStatus(payload: Option<string>): (r: Option<string>)
    ensures r.Some? <==> payload.Some? && payload.value != ""
    ensures r.Some? ==> r.value == "error"
  {
    if payload.Some? && payload.value != "" then Some("error") else None
  }

  /** Toggling a format twice gives back the flags it started from, provided
      the format had an entry; a format without one is left hidden. */
  lemma FlipTwice(vf: Visibility, f: string)
    ensures HasKey(vf, f) ==> Flipped(Flipped(vf, f), f) == vf
    ensures !HasKey(vf, f) ==> Flipped(Flipped(vf, f), f) == vf + [(f, false)]
  {
    var once := Flipped(vf, f);
    var k := IndexOf(vf, f);
    if HasKey(vf, f) {
      IndexOfIsFirst(once, f, k);
      assert once == vf[k := (f, !IsVisible(vf, f))];
      assert Lookup(vf, f) == Some(vf[k].1);
      assert Flipped(once, f) == once[k := (f, IsVisible(vf, f))];
      assert IsVisible(vf, f) == vf[k].1;
      assert vf[k] == (vf[k].0, vf[k].1);
    } else {
      IndexOfIsFirst(once, f, |vf|);
    }
  }

  /** A format shown before a toggle is still shown after it unless it is the
      toggled one; and when the toggle hides the active format while another
      is still shown, the new active format is shown. */
  lemma ToggleKeepsActiveVisible(active: string, vf: Visibility, f: string)
    requires UniqueKeys(vf) && IsVisible(vf, active)
    ensures var after := Flipped(vf, f);
      FirstVisible(after).Some? ==> IsVisible(after, ActiveAfterToggle(active, after, f))
  {
    var after := Flipped(vf, f);
    var next := ActiveAfterToggle(active, after, f);
    if next != active {
      var k :| 0 <= k < |after| && after[k] == (next, true) && forall j :: 0 <= j < k ==> !after[j].1;
      forall j | 0 <= j < k ensures after[j].0 != next {
      }
      IndexOfIsFirst(after, next, k);
    }
  }

  /** The store. */
  class ConverterStore {
    var xmlContent: string
    var jsonContent: string
    var yamlContent: string
    var activeFormat: string
    var visibleFormats: Visibility
    var isDataValid: bool
    var error: Option<string>
    var status: Option<string>
    var fullscreenFormat: Option<string>

    function State(): ConverterState
      reads this
    {
      ConverterState(xmlContent, jsonContent, yamlContent, activeFormat, visibleFormats,
        isDataValid, error, status, fullscreenFormat)
    }

    /** Every format name appears once in `visibleFormats`, and xml, json and
        yaml come first, in that order. */
    predicate Valid()
      reads this
    {
      UniqueKeys(visibleFormats) && |visibleFormats| >= 3 &&
      forall k :: 0 <= k < 3 ==> visibleFormats[k].0 == Formats[k]
    }

    /** The store as `configureStore` creates it. */
    constructor ()
      ensures Valid() && State() == InitialState
    {
      xmlContent := "";
      jsonContent := "";
      yamlContent := "";
      activeFormat := "xml";
      visibleFormats := InitialVisibility;
      isDataValid := false;
      error := None;
      status := None;
      fullscreenFormat := None;
    }

    /** `setContent({ format, content })` */
    method SetContent(format: string, content: string)
      requires Valid()
      modifies this
      ensures Valid() && State() == WithContent(old(State()), format, content)
    {
      if format == "xml" {
        xmlContent := content;
      } else if format == "json" {
        jsonContent := content;
      } else if format == "yaml" {
        yamlContent := content;
      }
    }

    /** `setActiveFormat(format)`: no check of validity or visibility. */
    method SetActiveFormat(format: string)
      requires Valid()
      modifies this
      ensures Valid() && State() == old(State()).(activeFormat := format)
    {
      activeFormat := format;
    }

    /** `toggleFormatVisibility(format)` */
    method ToggleFormatVisibility(format: string)
      requires Valid()
      modifies this
      ensures Valid() && State() == Toggled(old(State()), format)
    {
      visibleFormats := Flipped(visibleFormats, format);
      if activeFormat == format && !IsVisible(visibleFormats, format) {
        var first := FirstVisible(visibleFormats);
        if first.Some? {
          activeFormat := first.value;
        }
      }
    }

    /** `setDataValid(valid)` */
    method SetDataValid(valid: bool)
      requires Valid()
      modifies this
      ensures Valid() && State() == old(State()).(isDataValid := valid)
    {
      isDataValid := valid;
    }

    /** `setError(message)`: the status follows the message's truthiness. */
    method SetError(message: Option<string>)
      requires Valid()
      modifies this
      ensures Valid() && State() == old(State()).(error := message, status := ErrorStatus(message))
    {
      error := message;
      status := if message.Some? && message.value != "" then Some("error") else None;
    }

    /** `setStatus(s)` */
    method SetStatus(s: Option<string>)
      requires Valid()
      modifies this
      ensures Valid() && State() == old(State()).(status := s)
    {
      status := s;
    }

    /** `clearAll()`: the texts, the error, the status and validity are reset;
        the active format, the flags and fullscreen are kept. */
    method ClearAll()
      requires Valid()
      modifies this
      ensures Valid()
      ensures State() == old(State()).(xmlContent := "", jsonContent := "", yamlContent := "",
        error := None, status := None, isDataValid := false)
    {
      xmlContent := "";
      jsonContent := "";
      yamlContent := "";
      error := None;
      status := None;
      isDataValid := false;
    }

    /** `setFullscreen(format)` */
    method SetFullscreen(format: string)
      requires Valid()
      modifies this
      ensures Valid() && State() == old(State()).(fullscreenFormat := Some(format))
    {
      fullscreenFormat := Some(format);
    }

    /** `exitFullscreen()` */
    method ExitFullscreen()
      requires Valid()
      modifies this
      ensures Valid() && State() == old(State()).(fullscreenFormat := None)
    {
      fullscreenFormat := None;
    }
  }
}
