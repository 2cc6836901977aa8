/**
 * The settings page shell (`components/settings/SettingsPanel.tsx`): the
 * section navigation with its fallback, the import flow (a structure check
 * on the chosen file, a preview with a list of changes, then confirm or
 * cancel), and the reset confirmation. Toasts, dialogs' markup and the
 * file download of an export are not modelled.
 */
module SettingsPanel {
  import opened Wrappers
  import opened SettingsTypes
  import opened SettingsSchema
  import opened SettingsStore

  /** JavaScript truthiness of a value read from parsed JSON. */
  predicate Truthy(v: Json) {
    match v
    case JUndefined => false
    case JNull => false
    case JBool(b) => b
    case JNumber(n) => n != 0.0
    case JString(s) => s != ""
    case JSettings(_) => true
    case JObject => true
  }

  /** The structure check before a preview: `parsed.version` and `parsed.settings` are both truthy. */
  predicate Previewable(d: Document) {
    Truthy(d.version) && Truthy(d.settings)
  }

  /** Every document the store would import passes the structure check. */
  lemma ImportableIsPreviewable(parsed: Result<Document, string>)
    ensures Imported(parsed).Success? ==> parsed.Success? && Previewable(parsed.value)
  {
  }

  /**
   * The structure check is weaker than the store's: a file of version 2, or
   * of version "1" as a string, is previewed and then rejected on confirm.
   */
  lemma PreviewWeakerThanImport(s: Settings)
    ensures Previewable(Document(JNumber(2.0), JSettings(s)))
    ensures Imported(Success(Document(JNumber(2.0), JSettings(s)))) == Failure(UnsupportedVersion)
    ensures Previewable(Document(JString("1"), JSettings(s)))
    ensures Imported(Success(Document(JString("1"), JSettings(s)))) == Failure(UnsupportedVersion)
    ensures !Previewable(Document(JNumber(0.0), JSettings(s))) && !Previewable(Document(JNumber(1.0), JNull))
  {
  }

  /** The five fields the preview compares, in the order it lists them. */
  datatype DiffField = DisplayName | HeelHigh | AnkleHigh | Palette | SampleInterval

  function Rank(f: DiffField): nat {
    match f
    case DisplayName => 0
    case HeelHigh => 1
    case AnkleHigh => 2
    case Palette => 3
    case SampleInterval => 4
  }

  /** A compared value: `undefined` when the previewed settings lack the field. */
  datatype Value = Undefined | Text(text: string) | Number(x: real)

  /** The field's value in the current settings. */
  function CurrentValue(f: DiffField, s: Settings): Value {
    match f
    case DisplayName => Text(s.profile.displayName)
    case HeelHigh => Number(s.alerts.thresholds.heelHigh)
    case AnkleHigh => Number(s.alerts.thresholds.ankleHigh)
    case Palette => Text(s.visualization.palette)
    case SampleInterval => Number(s.device.sampleIntervalMs)
  }

  /**
   * The field read from the previewed settings with optional chaining:
   * anything but a settings record gives `undefined`.
   */
  function PreviewValue(f: DiffField, settings: Json): Value {
    if settings.JSettings? then CurrentValue(f, settings.settings) else Undefined
  }

  /** `!==` between the previewed and the current value. */
  predicate Differs(f: DiffField, preview: Json, current: Settings) {
    PreviewValue(f, preview) != CurrentValue(f, current)
  }

  /** One line of the preview: the field, its current value and its previewed value. */
  datatype Change = Change(field: DiffField, before: Value, after: Value)

  function ChangeOf(f: DiffField, preview: Json, current: Settings): Change {
    Change(f, CurrentValue(f, current), PreviewValue(f, preview))
  }

  function FieldsOf(changes: seq<Change>): (fields: seq<DiffField>)
    ensures |fields| == |changes|
    ensures forall k :: 0 <= k < |changes| ==> fields[k] == changes[k].field
  {
    if changes == [] then [] else [changes[0].field] + FieldsOf(changes[1..])
  }

  /** The compared fields, in the order the preview lists them. */
  const DiffOrder: seq<DiffField> := [DisplayName, HeelHigh, AnkleHigh, Palette, SampleInterval]

  /** One field's contribution to the preview: its change when it differs, else nothing. */
  function Step(f: DiffField, preview: Json, current: Settings): seq<Change> {
    if Differs(f, preview, current) then [ChangeOf(f, preview, current)] else []
  }

  /** The changes among `fields`, kept in their order. */
  function ChangesAmong(fields: seq<DiffField>, preview: Json, current: Settings): seq<Change>
    decreases |fields|
  {
    if fields == [] then []
    else ChangesAmong(fields[..|fields| - 1], preview, current) + Step(fields[|fields| - 1], preview, current)
  }

  /** The preview's list of changes: none without a preview, else the changes among the five fields. */
  function Diff(preview: Option<Document>, current: Settings): seq<Change> {
    if preview.None? then [] else ChangesAmong(DiffOrder, preview.value.settings, current)
  }

  /** Each change among some fields is one of them, with its current and previewed value. */
  lemma {:induction false} ChangesAmongEntries(fields: seq<DiffField>, preview: Json, current: Settings)
    ensures |ChangesAmong(fields, preview, current)| <= |fields|
    ensures forall k :: 0 <= k < |ChangesAmong(fields, preview, current)| ==>
              ChangesAmong(fields, preview, current)[k].field in fields
              && ChangesAmong(fields, preview, current)[k] ==
                 ChangeOf(ChangesAmong(fields, preview, current)[k].field, preview, current)
    decreases |fields|
  {
    if fields != [] {
      var init := fields[..|fields| - 1];
      ChangesAmongEntries(init, preview, current);
      assert forall f :: f in init ==> f in fields;
    }
  }

  /** A field has a change among some fields exactly when it is one of them and differs. */
  lemma {:induction false} ChangesAmongFields(fields: seq<DiffField>, preview: Json, current: Settings)
    ensures forall f :: f in FieldsOf(ChangesAmong(fields, preview, current)) <==> f in fields && Differs(f, preview, current)
    decreases |fields|
  {
    if fields != [] {
      var init, last := fields[..|fields| - 1], fields[|fields| - 1];
      assert fields == init + [last];
      ChangesAmongFields(init, preview, current);
      var r0 := ChangesAmong(init, preview, current);
      assert FieldsOf(r0 + Step(last, preview, current)) == FieldsOf(r0) + FieldsOf(Step(last, preview, current));
    }
  }

  /** Among fields of increasing rank, the changes come in increasing rank. */
  lemma {:induction false} ChangesAmongOrdered(fields: seq<DiffField>, preview: Json, current: Settings)
    requires forall i, j :: 0 <= i < j < |fields| ==> Rank(fields[i]) < Rank(fields[j])
    ensures forall i, j :: 0 <= i < j < |ChangesAmong(fields, preview, current)| ==>
              Rank(ChangesAmong(fields, preview, current)[i].field) < Rank(ChangesAmong(fields, preview, current)[j].field)
    decreases |fields|
  {
    if fields != [] {
      var init, last := fields[..|fields| - 1], fields[|fields| - 1];
      ChangesAmongOrdered(init, preview, current);
      ChangesAmongEntries(init, preview, current);
      var r0 := ChangesAmong(init, preview, current);
      forall k | 0 <= k < |r0|
        ensures Rank(r0[k].field) < Rank(last)
      {
        var i :| 0 <= i < |init| && init[i] == r0[k].field;
        assert fields[i] == init[i];
      }
    }
  }

  /** Without a preview nothing is listed; with one, at most five changes, each a field's current and previewed value. */
  lemma DiffEntries(preview: Option<Document>, current: Settings)
    ensures var d := Diff(preview, current);
      && (preview.None? ==> d == [])
      && |d| <= 5
      && (forall k :: 0 <= k < |d| ==> preview.Some? && d[k] == ChangeOf(d[k].field, preview.value.settings, current))
  {
    if preview.Some? {
      ChangesAmongEntries(DiffOrder, preview.value.settings, current);
    }
  }

  /** A field is listed exactly when there is a preview and the field differs in it. */
  lemma DiffFields(preview: Option<Document>, current: Settings)
    ensures forall f :: f in FieldsOf(Diff(preview, current)) <==> preview.Some? && Differs(f, preview.value.settings, current)
  {
    if preview.Some? {
      ChangesAmongFields(DiffOrder, preview.value.settings, current);
      forall f ensures f in DiffOrder {
        assert DiffOrder[Rank(f)] == f;
      }
    }
  }

  /** The listed changes follow the fixed order: display name, heel, ankle, palette, interval. */
  lemma DiffOrdered(preview: Option<Document>, current: Settings)
    ensures var d := Diff(preview, current);
      forall i, j :: 0 <= i < j < |d| ==> Rank(d[i].field) < Rank(d[j].field)
  {
    if preview.Some? {
      ChangesAmongOrdered(DiffOrder, preview.value.settings, current);
    }
  }

  /** `generateDiff`: the preview's list of changes, built by one comparison per field. */
  method GenerateDiff(preview: Option<Document>, current: Settings) returns (changes: seq<Change>)
    ensures changes == Diff(preview, current)
  {
    if preview.None? {
      return [];
    }
    var newSettings := preview.value.settings;
    changes := [];
    assert DiffOrder[..0] == [];
    if PreviewValue(DisplayName, newSettings) != Text(current.profile.displayName) {
      changes := changes + [Change(DisplayName, Text(current.profile.displayName), PreviewValue(DisplayName, newSettings))];
    }
    assert DiffOrder[..1][..0] == DiffOrder[..0];
    assert changes == ChangesAmong(DiffOrder[..1], newSettings, current);
    if PreviewValue(HeelHigh, newSettings) != Number(current.alerts.thresholds.heelHigh) {
      changes := changes + [Change(HeelHigh, Number(current.alerts.thresholds.heelHigh), PreviewValue(HeelHigh, newSettings))];
    }
    assert DiffOrder[..2][..1] == DiffOrder[..1];
    assert changes == ChangesAmong(DiffOrder[..2], newSettings, current);
    if PreviewValue(AnkleHigh, newSettings) != Number(current.alerts.thresholds.ankleHigh) {
      changes := changes + [Change(AnkleHigh, Number(current.alerts.thresholds.ankleHigh), PreviewValue(AnkleHigh, newSettings))];
    }
    assert DiffOrder[..3][..2] == DiffOrder[..2];
    assert changes == ChangesAmong(DiffOrder[..3], newSettings, current);
    if PreviewValue(Palette, newSettings) != Text(current.visualization.palette) {
      changes := changes + [Change(Palette, Text(current.visualization.palette), PreviewValue(Palette, newSettings))];
    }
    assert DiffOrder[..4][..3] == DiffOrder[..3];
    assert changes == ChangesAmong(DiffOrder[..4], newSettings, current);
    if PreviewValue(SampleInterval, newSettings) != Number(current.device.sampleIntervalMs) {
      changes := changes + [Change(SampleInterval, Number(current.device.sampleIntervalMs), PreviewValue(SampleInterval, newSettings))];
    }
    assert DiffOrder[..5][..4] == DiffOrder[..4];
    assert DiffOrder[..5] == DiffOrder;
  }

  /** A previewed record equal to the current one in the five fields shows no change. */
  lemma SameFieldsNoChange(p: Settings, current: Settings)
    requires p.profile.displayName == current.profile.displayName
    requires p.alerts.thresholds == current.alerts.thresholds
    requires p.visualization.palette == current.visualization.palette
    requires p.device.sampleIntervalMs == current.device.sampleIntervalMs
    ensures forall f :: !Differs(f, JSettings(p), current)
  {
  }

  /**
   * A previewed `settings` that is a boolean, a number or a string (the
   * truthy ones pass the structure check) has no properties, so every
   * optional-chained read is `undefined` and all five fields show as changed.
   */
  lemma NonRecordAllChange(v: Json, current: Settings)
    requires v.JBool? || v.JNumber? || v.JString?
    ensures forall f :: Differs(f, v, current)
  {
  }

  /** `${value}` in a preview line; `num` stands for JavaScript's number-to-string. */
  function ValueText(v: Value, num: real -> string): string {
    match v
    case Undefined => "undefined"
    case Text(t) => t
    case Number(x) => num(x)
  }

  function Caption(f: DiffField): string {
    match f
    case DisplayName => "Display Name"
    case HeelHigh => "Heel Threshold"
    case AnkleHigh => "Ankle Threshold"
    case Palette => "Color Palette"
    case SampleInterval => "Sample Interval"
  }

  /** The text of one preview line, such as `Heel Threshold: 300 → 320 kPa`. */
  function ChangeText(c: Change, num: real -> string): (t: string)
    ensures |t| > |Caption(c.field)| + 2 && t[..|Caption(c.field)| + 2] == Caption(c.field) + ": "
  {
    var before, after := ValueText(c.before, num), ValueText(c.after, num);
    var body :=
      match c.field
      case DisplayName => "\"" + before + "\" \U{2192} \"" + after + "\""
      case HeelHigh => before + " \U{2192} " + after + " kPa"
      case AnkleHigh => before + " \U{2192} " + after + " kPa"
      case Palette => before + " \U{2192} " + after
      case SampleInterval => before + "ms \U{2192} " + after + "ms";
    assert |body| > 0;
    var t := Caption(c.field) + ": " + body;
    assert t[..|Caption(c.field)| + 2] == Caption(c.field) + ": ";
    t
  }

  /** The section components the navigation shows. */
  datatype SectionComponent =
    | ProfileSection
    | AlertsSection
    | VisualizationSection
    | DeviceSection
    | CalibrationSection
    | HistoryDataSection
    | AccessibilitySection

  datatype SectionEntry = SectionEntry(id: string, caption: string, component: SectionComponent)

  /** `SECTIONS`. */
  const Sections: seq<SectionEntry> := [
    SectionEntry("profile", "Profile", ProfileSection),
    SectionEntry("alerts", "Alerts", AlertsSection),
    SectionEntry("visualization", "Visualization", VisualizationSection),
    SectionEntry("device", "Device", DeviceSection),
    SectionEntry("calibration", "Calibration", CalibrationSection),
    SectionEntry("history", "History & Data", HistoryDataSection),
    SectionEntry("accessibility", "Accessibility", AccessibilitySection)
  ]

  /** `entries.find((s) => s.id === id)`: the first entry with that id. */
  function FindSection(id: string, entries: seq<SectionEntry>): (r: Option<SectionEntry>)
    ensures r.None? <==> forall k :: 0 <= k < |entries| ==> entries[k].id != id
    ensures r.Some? ==> exists k :: 0 <= k < |entries| && entries[k] == r.value
                          && r.value.id == id && forall j :: 0 <= j < k ==> entries[j].id != id
  {
    if entries == [] then None
    else if entries[0].id == id then Some(entries[0])
    else
      var rest := FindSection(id, entries[1..]);
      assert rest.Some? ==> exists k :: (0 < k < |entries| && entries[k] == rest.value
               && forall j :: 0 <= j < k ==> entries[j].id != id) by {
        if rest.Some? {
          var k :| 0 <= k < |entries[1..]| && entries[1..][k] == rest.value
                   && forall j :: 0 <= j < k ==> entries[1..][j].id != id;
          assert entries[k + 1] == rest.value;
          assert forall j :: 0 < j < k + 1 ==> entries[j].id != id by {
            forall j | 0 < j < k + 1 ensures entries[j].id != id {
              assert entries[j] == entries[1..][j - 1];
            }
          }
        }
      }
      rest
  }

  /** The component shown for the active section id: Profile when no entry matches. */
  function ActiveComponent(activeSection: string): SectionComponent {
    var found := FindSection(activeSection, Sections);
    if found.Some? then found.value.component else ProfileSection
  }

  /** The card title: the matching entry's caption, or nothing for an unknown id. */
  function ActiveCaption(activeSection: string): Option<string> {
    var found := FindSection(activeSection, Sections);
    if found.Some? then Some(found.value.caption) else None
  }

  /** Every entry's id selects that entry's component and caption. */
  lemma EachSectionSelectable(k: nat)
    requires k < |Sections|
    ensures ActiveComponent(Sections[k].id) == Sections[k].component
    ensures ActiveCaption(Sections[k].id) == Some(Sections[k].caption)
  {
    var id := Sections[k].id;
    var found := FindSection(id, Sections);
    assert found.Some?;
    var i :| 0 <= i < |Sections| && Sections[i] == found.value && found.value.id == id;
    assert Sections[i].id == Sections[k].id;
    IdsDistinct(i, k);
  }

  /** No two entries share an id. */
  lemma IdsDistinct(i: nat, k: nat)
    requires i < |Sections| && k < |Sections| && Sections[i].id == Sections[k].id
    ensures i == k
  {
  }

  /** An unknown id shows the profile section under no title. */
  lemma UnknownSectionFallsBack(id: string)
    requires forall k :: 0 <= k < |Sections| ==> Sections[k].id != id
    ensures ActiveComponent(id) == ProfileSection && ActiveCaption(id) == None
  {
  }

  /** A chosen file: its name and what `JSON.parse` made of its text. */
  datatype File = File(name: string, parsed: Result<Document, string>)

  /** The panel's state, over the settings store it drives. */
  class Panel {
    const store: Store
    var activeSection: string
    var showImportDialog: bool
    var showResetDialog: bool
    var importPreview: Option<Document>
    var importFile: Option<File>

    /** A preview and its file are set together, from the same parse, and the preview passed the structure check. */
    ghost predicate PreviewMatchesFile()
      reads this
    {
      && (importPreview.Some? <==> importFile.Some?)
      && (importPreview.Some? ==>
            importFile.value.parsed == Success(importPreview.value) && Previewable(importPreview.value))
    }

    /** The store keeps its own invariant, and the preview matches its file. */
    ghost predicate Valid()
      reads this, store
    {
      store.Consistent() && PreviewMatchesFile()
    }

    constructor(store: Store)
      requires store.Consistent()
      ensures this.store == store && Valid()
      ensures activeSection == "profile" && !showImportDialog && !showResetDialog
      ensures importPreview.None? && importFile.None?
    {
      this.store := store;
      activeSection := "profile";
      showImportDialog := false;
      showResetDialog := false;
      importPreview := None;
      importFile := None;
    }

    /** A navigation button. */
    method SelectSection(id: string)
      requires Valid()
      modifies this
      ensures Valid()
      ensures activeSection == id
      ensures showImportDialog == old(showImportDialog) && showResetDialog == old(showResetDialog)
      ensures importPreview == old(importPreview) && importFile == old(importFile)
    {
      activeSection := id;
    }

    /**
     * `handleImport`'s change handler: with no file nothing happens; a file
     * that does not parse, or fails the structure check, gives an error
     * message and changes nothing; otherwise it is previewed.
     */
    method HandleImport(file: Option<File>) returns (error: Option<string>)
      requires Valid()
      modifies this
      ensures Valid()
      ensures activeSection == old(activeSection) && showResetDialog == old(showResetDialog)
      ensures file.None? ==> error.None? && unchanged(this)
      ensures file.Some? && file.value.parsed.Failure? ==>
                error == Some(file.value.parsed.error) && unchanged(this)
      ensures file.Some? && file.value.parsed.Success? && !Previewable(file.value.parsed.value) ==>
                error == Some("Invalid settings file format") && unchanged(this)
      ensures file.Some? && file.value.parsed.Success? && Previewable(file.value.parsed.value) ==>
                && error.None? && showImportDialog
                && importFile == file && importPreview == Some(file.value.parsed.value)
    {
      if file.None? {
        return None;
      }
      var parsed := file.value.parsed;
      if parsed.Failure? {
        return Some(parsed.error);
      }
      if !Truthy(parsed.value.version) || !Truthy(parsed.value.settings) {
        return Some("Invalid settings file format");
      }
      importFile := file;
      importPreview := Some(parsed.value);
      showImportDialog := true;
      return None;
    }

    /**
     * `confirmImport`: a no-op without a preview and a file; otherwise the
     * file is imported into the store, and on success the preview is
     * closed, while on failure the error is reported and the preview stays.
     */
    method ConfirmImport() returns (error: Option<ImportError>)
      requires Valid()
      modifies this, store
      ensures Valid()
      ensures activeSection == old(activeSection) && showResetDialog == old(showResetDialog)
      ensures old(importPreview).None? ==> error.None? && unchanged(this) && unchanged(store)
      ensures old(importPreview).Some? ==>
                var result := Imported(old(importFile).value.parsed);
                && store.settings == (if result.Success? then result.value else old(store.settings))
                && (result.Success? ==> error.None? && !showImportDialog && importPreview.None? && importFile.None?)
                && (result.Failure? ==> error == Some(result.error) && unchanged(this))
    {
      if importPreview.None? {
        return None;
      }
      var parsed := importFile.value.parsed;
      var r := store.ImportJson(parsed);
      if r.Failure? {
        return Some(r.error);
      }
      showImportDialog := false;
      importPreview := None;
      importFile := None;
      return None;
    }

    /**
     * `handleExport`: the store's export, which imports back to the
     * current settings whenever they satisfy the schema.
     */
    method HandleExport() returns (d: Document)
      requires Valid()
      ensures d == store.ExportJson()
      ensures SettingsSchema.Valid(store.settings) ==> Imported(Success(d)) == Success(store.settings)
    {
      d := store.ExportJson();
    }

    /** `cancelImport`: closes the dialog and drops the preview and the file. */
    method CancelImport()
      requires Valid()
      modifies this
      ensures Valid()
      ensures !showImportDialog && importPreview.None? && importFile.None?
      ensures activeSection == old(activeSection) && showResetDialog == old(showResetDialog)
    {
      showImportDialog := false;
      importPreview := None;
      importFile := None;
    }

    /** `handleReset`: asks for confirmation. */
    method HandleReset()
      requires Valid()
      modifies this
      ensures Valid()
      ensures showResetDialog
      ensures activeSection == old(activeSection) && showImportDialog == old(showImportDialog)
      ensures importPreview == old(importPreview) && importFile == old(importFile)
    {
      showResetDialog := true;
    }

    /** `confirmReset`: restores the store's defaults and closes the confirmation. */
    method ConfirmReset()
      requires Valid()
      modifies this, store
      ensures Valid()
      ensures store.settings == store.defaults && !showResetDialog
      ensures activeSection == old(activeSection) && showImportDialog == old(showImportDialog)
      ensures importPreview == old(importPreview) && importFile == old(importFile)
    {
      store.Reset();
      showResetDialog := false;
    }
  }
}
