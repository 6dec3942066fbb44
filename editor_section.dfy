/** One format's editor panel (src/components/EditorSection.js): when its
    status chip lets the user switch to it, what the chip says, and what an
    edit, a chip click and the fullscreen button dispatch. */
module EditorSection {
  import opened Basics
  import opened Libraries
  import opened ConverterSlice
  import opened UseConverter

  /** `isEmpty`: all three texts are empty. */
  predicate AllEmpty(s: ConverterState)
    ensures AllEmpty(s) <==> forall f :: f in Formats ==> ContentOf(s, f) == ""
  {
    assert ContentOf(s, "xml") == s.xmlContent && ContentOf(s, "json") == s.jsonContent;
    assert ContentOf(s, "yaml") == s.yamlContent;
    s.xmlContent == "" && s.jsonContent == "" && s.yamlContent == ""
  }

  /** `canSwitchTo` for the panel of `format`. */
  predicate CanSwitchTo(s: ConverterState, format: string)
    ensures s.activeFormat == format ==> CanSwitchTo(s, format)
    ensures !CanSwitchTo(s, format) <==>
      !s.isDataValid && s.activeFormat != format && exists f :: f in Formats && ContentOf(s, f) != ""
  {
    s.isDataValid || AllEmpty(s) || s.activeFormat == format
  }

  /** The label `getChipProps` chooses: the active panel's chip is
      `Editable`, a chip that cannot be switched to is `Disabled`, and every
      other chip offers `Enable Edit`. */
  function ChipLabel(s: ConverterState, format: string): (r: string)
    ensures r == "Editable" <==> s.activeFormat == format
    ensures r == "Disabled" <==> !CanSwitchTo(s, format)
    ensures r == "Enable Edit" <==> CanSwitchTo(s, format) && s.activeFormat != format
  {
    if s.activeFormat == format then "Editable"
    else if CanSwitchTo(s, format) then "Enable Edit"
    else "Disabled"
  }

  /** The text field is enabled exactly for the panel whose chip reads
      `Editable`. */
  function IsEditable(s: ConverterState, format: string): (r: bool)
    ensures r <==> ChipLabel(s, format) == "Editable"
  {
    s.activeFormat == format
  }

  /** The store after an edit of `format`'s text to `newContent`. Whatever
      the conversion does, the user's text is kept. */
  function AfterEdit(libs: Libs, s: ConverterState, format: string, newContent: string): (r: ConverterState)
    ensures format in Formats ==> ContentOf(r, format) == newContent
    ensures format !in Formats ==> r == s
  {
    var edited := WithContent(s, format, newContent);
    if format in Formats then Applied(edited, format, OutcomeFor(libs, format, newContent)) else edited
  }

  /** The store after a click on `format`'s chip: the format becomes active
      exactly when the chip allows it, and nothing else changes. */
  function AfterChipClick(s: ConverterState, format: string): (r: ConverterState)
    ensures r.activeFormat == format <==> CanSwitchTo(s, format)
    ensures r.(activeFormat := s.activeFormat) == s
  {
    if CanSwitchTo(s, format) then s.(activeFormat := format) else s
  }

  /** The store after the fullscreen button of a panel: the panel shown in
      fullscreen leaves it, any other panel enters it. */
  function AfterFullscreenToggle(s: ConverterState, format: string, isFullscreen: bool): (r: ConverterState)
    ensures r.fullscreenFormat.None? <==> isFullscreen
    ensures r.fullscreenFormat.Some? ==> r.fullscreenFormat.value == format
    ensures r.(fullscreenFormat := s.fullscreenFormat) == s
  {
    if isFullscreen then s.(fullscreenFormat := None) else s.(fullscreenFormat := Some(format))
  }

  /** `handleContentChange`: store the text, then convert from it. */
  method HandleContentChange(store: ConverterStore, libs: Libs, format: string, newContent: string)
    requires store.Valid()
    modifies store
    ensures store.Valid() && store.State() == AfterEdit(libs, old(store.State()), format, newContent)
  {
    store.SetContent(format, newContent);
    Convert(store, libs, format, newContent);
  }

  /** `handleChipClick` */
  method HandleChipClick(store: ConverterStore, format: string)
    requires store.Valid()
    modifies store
    ensures store.Valid() && store.State() == AfterChipClick(old(store.State()), format)
  {
    var s := store.State();
    if s.isDataValid || (s.xmlContent == "" && s.jsonContent == "" && s.yamlContent == "") || s.activeFormat == format {
      store.SetActiveFormat(format);
    }
  }

  /** `handleFullscreenToggle` */
  method HandleFullscreenToggle(store: ConverterStore, format: string, isFullscreen: bool)
    requires store.Valid()
    modifies store
    ensures store.Valid() && store.State() == AfterFullscreenToggle(old(store.State()), format, isFullscreen)
  {
    if isFullscreen {
      store.ExitFullscreen();
    } else {
      store.SetFullscreen(format);
    }
  }

  /** Emptying a panel's text empties all three (the blank branch clears the
      other two), so every chip can be switched to afterwards. */
  lemma ClearingUnlocksEveryChip(libs: Libs, s: ConverterState, format: string)
    requires format in Formats
    ensures AllEmpty(AfterEdit(libs, s, format, ""))
    ensures forall g :: CanSwitchTo(AfterEdit(libs, s, format, ""), g)
  {
    assert OutcomeFor(libs, format, "") == Blank by {
      assert IsBlank("");
    }
    BlankEditEmptiesAll(WithContent(s, format, ""), format);
  }

  /** The blank branch empties the two other texts; the edited one is
      already empty. */
  lemma BlankEditEmptiesAll(s: ConverterState, format: string)
    requires format in Formats && ContentOf(s, format) == ""
    ensures AllEmpty(Applied(s, format, Blank))
  {
    var r := Applied(s, format, Blank);
    var (a, b) := Targets(format);
    assert ContentOf(r, format) == "" && ContentOf(r, a) == "" && ContentOf(r, b) == "";
    if format == "xml" {
      assert r.xmlContent == "" && r.jsonContent == "" && r.yamlContent == "";
    } else if format == "json" {
      assert r.jsonContent == "" && r.xmlContent == "" && r.yamlContent == "";
    } else {
      assert r.yamlContent == "" && r.xmlContent == "" && r.jsonContent == "";
    }
  }

  /** After a successful conversion every chip can be switched to. */
  lemma SuccessUnlocksEveryChip(libs: Libs, s: ConverterState, format: string, newContent: string)
    requires format in Formats && OutcomeFor(libs, format, newContent).Converted?
    ensures forall g :: CanSwitchTo(AfterEdit(libs, s, format, newContent), g)
  {
  }

  /** After a failed conversion only the active format's chip can be
      switched to: the data is invalid and the failing text is not empty. */
  lemma FailureLocksOtherChips(libs: Libs, s: ConverterState, format: string, newContent: string)
    requires format in Formats && OutcomeFor(libs, format, newContent).Failed?
    ensures forall g :: CanSwitchTo(AfterEdit(libs, s, format, newContent), g) <==> g == s.activeFormat
  {
    var o := OutcomeFor(libs, format, newContent);
    var r := Applied(WithContent(s, format, newContent), format, o);
    assert AfterEdit(libs, s, format, newContent) == r;
    assert newContent != "" by {
      assert IsBlank("");
    }
    NotAllEmpty(r, format);
  }

  /** A store with a non-empty text is not empty. */
  lemma NotAllEmpty(s: ConverterState, format: string)
    requires ContentOf(s, format) != ""
    ensures !AllEmpty(s)
  {
  }

  /** Entering and then leaving fullscreen from the same panel gives back
      the state it started from. */
  lemma FullscreenRoundTrip(s: ConverterState, format: string)
    requires s.fullscreenFormat.None?
    ensures AfterFullscreenToggle(AfterFullscreenToggle(s, format, false), format, true) == s
  {
  }
}
