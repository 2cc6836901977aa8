/**
 * The persisted user settings of `lib/settings/types.ts`: one record per
 * settings section, and the defaults the store starts from.
 *
 * Numbers are reals, as in JavaScript. Fields typed as string unions in
 * TypeScript (palette, export format, theme) are plain strings here: a
 * settings file can hold any string there, and the schema is what
 * restricts them.
 */
module SettingsTypes {
  import opened Wrappers

  datatype Profile = Profile(displayName: string, patientId: Option<string>, dateOfBirth: Option<string>)

  datatype Thresholds = Thresholds(heelHigh: real, ankleHigh: real)

  datatype Modes = Modes(banner: bool, sound: bool, push: bool)

  /**
   * `quietHours?: {start, end} | null`: the key may be missing
   * (`QuietUnset`), hold `null` (`QuietNull`) or hold both times.
   */
  datatype QuietField = QuietUnset | QuietNull | QuietSet(start: string, end: string)

  datatype Alerts = Alerts(
    enabled: bool,
    thresholds: Thresholds,
    modes: Modes,
    repeatEveryMin: real,
    quietHours: QuietField)

  datatype Visualization = Visualization(
    palette: string,
    pulseOnHigh: bool,
    showRegionBoundaries: bool,
    smoothingWindow: real)

  datatype Device = Device(preferredDeviceId: Option<string>, autoReconnect: bool, sampleIntervalMs: real)

  datatype Calibration = Calibration(
    heelEnd: real,
    ankleStart: real,
    lateralGap: real,
    swapLeftRight: bool,
    zeroOffsetKPa: real)

  datatype History = History(
    retentionDays: real,
    timezone: string,
    exportFormat: string,
    uploadEnabled: bool,
    uploadEndpoint: Option<string>)

  datatype Accessibility = Accessibility(textScale: real, highContrast: bool, haptics: bool, theme: string)

  datatype Settings = Settings(
    profile: Profile,
    alerts: Alerts,
    visualization: Visualization,
    device: Device,
    calibration: Calibration,
    history: History,
    accessibility: Accessibility)

  /** `DEFAULT_SETTINGS`, as written: note the 500 ms sample interval. */
  const DefaultSettings: Settings := Settings(
    Profile("Patient", None, None),
    Alerts(true, Thresholds(300.0, 350.0), Modes(true, true, false), 0.0, QuietNull),
    Visualization("clinical", true, false, 0.0),
    Device(None, true, 500.0),
    Calibration(0.18, 0.35, 0.12, false, 0.0),
    History(90.0, "UTC", "csv", false, None),
    Accessibility(1.0, false, false, "system"))
}
