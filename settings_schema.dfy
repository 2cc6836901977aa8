/**
 * `settingsSchema` of `lib/settings/schema.ts` as a validity predicate over
 * the settings record, section by section, together with the list of
 * issues a schema parse reports, in schema order, each named by its path.
 */
module SettingsSchema {
  import opened Wrappers
  import opened JsText
  import opened SettingsTypes

  const Palettes: seq<string> := ["clinical", "viridis", "inferno", "colorblindSafe"]
  const SmoothingWindows: seq<real> := [0.0, 5.0, 10.0]
  const ExportFormats: seq<string> := ["csv", "json"]
  const TextScales: seq<real> := [1.0, 1.1, 1.25, 1.5]
  const Themes: seq<string> := ["system", "light", "dark"]

  /** `/^\d{2}:\d{2}$/`: two ASCII digits, a colon, two ASCII digits. */
  predicate IsClockText(s: string) {
    |s| == 5 && IsDigit(s[0]) && IsDigit(s[1]) && s[2] == ':' && IsDigit(s[3]) && IsDigit(s[4])
  }

  /** `.min(1).max(50)` on a string counts UTF-16 code units. */
  predicate ValidDisplayName(name: string) {
    1 <= |CodeUnits(name)| <= 50
  }

  predicate ValidProfile(p: Profile) {
    ValidDisplayName(p.displayName)
  }

  predicate ValidThreshold(kPa: real) {
    100.0 <= kPa <= 600.0
  }

  /** `.nullable()` accepts `null` but not a missing key. */
  predicate ValidQuietHours(q: QuietField) {
    match q
    case QuietUnset => false
    case QuietNull => true
    case QuietSet(start, end) => IsClockText(start) && IsClockText(end)
  }

  predicate ValidAlerts(a: Alerts) {
    && ValidThreshold(a.thresholds.heelHigh)
    && ValidThreshold(a.thresholds.ankleHigh)
    && 0.0 <= a.repeatEveryMin <= 60.0
    && ValidQuietHours(a.quietHours)
  }

  predicate ValidVisualization(v: Visualization) {
    v.palette in Palettes && v.smoothingWindow in SmoothingWindows
  }

  predicate ValidDevice(d: Device) {
    1000.0 <= d.sampleIntervalMs <= 60000.0
  }

  predicate ValidCalibration(c: Calibration) {
    && 0.0 <= c.heelEnd <= 1.0
    && 0.0 <= c.ankleStart <= 1.0
    && 0.0 <= c.lateralGap <= 0.5
    && -100.0 <= c.zeroOffsetKPa <= 100.0
  }

  predicate ValidHistory(h: History) {
    h.retentionDays == 90.0 && h.exportFormat in ExportFormats
  }

  predicate ValidAccessibility(a: Accessibility) {
    a.textScale in TextScales && a.theme in Themes
  }

  /** The whole schema. */
  predicate Valid(s: Settings) {
    && ValidProfile(s.profile)
    && ValidAlerts(s.alerts)
    && ValidVisualization(s.visualization)
    && ValidDevice(s.device)
    && ValidCalibration(s.calibration)
    && ValidHistory(s.history)
    && ValidAccessibility(s.accessibility)
  }

  /** One issue, named by its path, when a check fails. */
  function Check(ok: bool, path: string): seq<string> {
    if ok then [] else [path]
  }

  function QuietHoursIssues(q: QuietField): (issues: seq<string>)
    ensures issues == [] <==> ValidQuietHours(q)
  {
    match q
    case QuietUnset => ["alerts.quietHours"]
    case QuietNull => []
    case QuietSet(start, end) =>
      Check(IsClockText(start), "alerts.quietHours.start") + Check(IsClockText(end), "alerts.quietHours.end")
  }

  function ProfileIssues(p: Profile): (issues: seq<string>)
    ensures issues == [] <==> ValidProfile(p)
  {
    Check(ValidDisplayName(p.displayName), "profile.displayName")
  }

  function AlertsIssues(a: Alerts): (issues: seq<string>)
    ensures issues == [] <==> ValidAlerts(a)
  {
    Check(ValidThreshold(a.thresholds.heelHigh), "alerts.thresholds.heelHigh")
    + Check(ValidThreshold(a.thresholds.ankleHigh), "alerts.thresholds.ankleHigh")
    + Check(0.0 <= a.repeatEveryMin <= 60.0, "alerts.repeatEveryMin")
    + QuietHoursIssues(a.quietHours)
  }

  function VisualizationIssues(v: Visualization): (issues: seq<string>)
    ensures issues == [] <==> ValidVisualization(v)
  {
    Check(v.palette in Palettes, "visualization.palette")
    + Check(v.smoothingWindow in SmoothingWindows, "visualization.smoothingWindow")
  }

  function DeviceIssues(d: Device): (issues: seq<string>)
    ensures issues == [] <==> ValidDevice(d)
  {
    Check(ValidDevice(d), "device.sampleIntervalMs")
  }

  function CalibrationIssues(c: Calibration): (issues: seq<string>)
    ensures issues == [] <==> ValidCalibration(c)
  {
    Check(0.0 <= c.heelEnd <= 1.0, "calibration.heelEnd")
    + Check(0.0 <= c.ankleStart <= 1.0, "calibration.ankleStart")
    + Check(0.0 <= c.lateralGap <= 0.5, "calibration.lateralGap")
    + Check(-100.0 <= c.zeroOffsetKPa <= 100.0, "calibration.zeroOffsetKPa")
  }

  function HistoryIssues(h: History): (issues: seq<string>)
    ensures issues == [] <==> ValidHistory(h)
  {
    Check(h.retentionDays == 90.0, "history.retentionDays")
    + Check(h.exportFormat in ExportFormats, "history.exportFormat")
  }

  function AccessibilityIssues(a: Accessibility): (issues: seq<string>)
    ensures issues == [] <==> ValidAccessibility(a)
  {
    Check(a.textScale in TextScales, "accessibility.textScale")
    + Check(a.theme in Themes, "accessibility.theme")
  }

  /** The issues a schema parse reports, in the order the schema lists the fields. */
  function Issues(s: Settings): seq<string> {
    ProfileIssues(s.profile)
    + AlertsIssues(s.alerts)
    + VisualizationIssues(s.visualization)
    + DeviceIssues(s.device)
    + CalibrationIssues(s.calibration)
    + HistoryIssues(s.history)
    + AccessibilityIssues(s.accessibility)
  }

  /**
   * `settingsSchema.parse`: the settings themselves when they satisfy the
   * schema, otherwise the issues it found.
   */
  function Parse(s: Settings): (r: Result<Settings, seq<string>>)
    ensures r.Success? <==> Valid(s)
    ensures r.Success? ==> r.value == s
    ensures r.Failure? ==> r.error != []
  {
    IssuesExactlyInvalid(s);
    if Issues(s) == [] then Success(s) else Failure(Issues(s))
  }

  /** A parse reports no issue exactly when the settings satisfy the schema. */
  lemma IssuesExactlyInvalid(s: Settings)
    ensures Issues(s) == [] <==> Valid(s)
  {
  }

  /** The clock pattern checks the shape only: "99:99" passes. */
  lemma ClockShapeOnly()
    ensures IsClockText("99:99") && IsClockText("07:00") && IsClockText("22:00")
    ensures !IsClockText("7:00") && !IsClockText("07:00:00")
  {
  }

  /**
   * The defaults fail the schema, and only on one field: the 500 ms sample
   * interval is below the 1000 ms minimum.
   */
  lemma DefaultsRejected()
    ensures !Valid(DefaultSettings) && !ValidDevice(DefaultSettings.device)
    ensures ValidProfile(DefaultSettings.profile) && ValidAlerts(DefaultSettings.alerts)
    ensures ValidVisualization(DefaultSettings.visualization) && ValidCalibration(DefaultSettings.calibration)
    ensures ValidHistory(DefaultSettings.history) && ValidAccessibility(DefaultSettings.accessibility)
  {
    DefaultNameValid();
    DefaultEnumsListed();
  }

  /** A schema parse of the defaults reports exactly one issue, the sample interval. */
  lemma DefaultIssues()
    ensures Issues(DefaultSettings) == ["device.sampleIntervalMs"]
  {
    DefaultsRejected();
  }

  /** The default display name, "Patient", is within 1..50 code units. */
  lemma DefaultNameValid()
    ensures ValidDisplayName(DefaultSettings.profile.displayName)
  {
    CodeUnitsAscii("Patient");
  }

  /** The default palette, smoothing window, export format, text scale and theme are listed values. */
  lemma DefaultEnumsListed()
    ensures DefaultSettings.visualization.palette in Palettes
    ensures DefaultSettings.visualization.smoothingWindow in SmoothingWindows
    ensures DefaultSettings.history.exportFormat in ExportFormats
    ensures DefaultSettings.accessibility.textScale in TextScales
    ensures DefaultSettings.accessibility.theme in Themes
  {
    assert Palettes[0] == "clinical";
    assert ExportFormats[0] == "csv";
    assert Themes[0] == "system";
  }

  /**
   * The defaults with the sample interval raised to the schema's 1000 ms
   * minimum, the smallest change that makes them valid.
   */
  const CorrectedDefaults: Settings :=
    DefaultSettings.(device := DefaultSettings.device.(sampleIntervalMs := 1000.0))

  /** The corrected defaults satisfy the schema and differ from the written ones only in the interval. */
  lemma CorrectedDefaultsValid()
    ensures Valid(CorrectedDefaults)
    ensures CorrectedDefaults.device.sampleIntervalMs == 1000.0
    ensures CorrectedDefaults.(device := DefaultSettings.device) == DefaultSettings
  {
    DefaultNameValid();
    DefaultEnumsListed();
  }
}
