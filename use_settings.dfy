/**
 * The field projections of `lib/settings/useSettings.ts` that the rest of
 * the application reads its settings through.
 */
module UseSettings {
  import opened SettingsTypes
  import opened SettingsSchema

  /** `getHeelThreshold`: within 100..600 kPa whenever the settings satisfy the schema. */
  function GetHeelThreshold(s: Settings): (kPa: real)
    ensures Valid(s) ==> 100.0 <= kPa <= 600.0
  {
    s.alerts.thresholds.heelHigh
  }

  /** `getAnkleThreshold`: the one threshold both ankles share. */
  function GetAnkleThreshold(s: Settings): (kPa: real)
    ensures Valid(s) ==> 100.0 <= kPa <= 600.0
  {
    s.alerts.thresholds.ankleHigh
  }

  /** `getHeatmapPalette`: one of the four palettes whenever the settings satisfy the schema. */
  function GetHeatmapPalette(s: Settings): (palette: string)
    ensures Valid(s) ==> palette in Palettes
  {
    s.visualization.palette
  }

  /** `getSmoothingWindow`: 0, 5 or 10 whenever the settings satisfy the schema. */
  function GetSmoothingWindow(s: Settings): (w: real)
    ensures Valid(s) ==> w == 0.0 || w == 5.0 || w == 10.0
  {
    s.visualization.smoothingWindow
  }

  /** `getCalibrationParams`: a fresh record copied field by field, equal to the calibration section. */
  function GetCalibrationParams(s: Settings): (c: Calibration)
    ensures c == s.calibration
    ensures Valid(s) ==> ValidCalibration(c)
  {
    var cal := s.calibration;
    Calibration(cal.heelEnd, cal.ankleStart, cal.lateralGap, cal.swapLeftRight, cal.zeroOffsetKPa)
  }

  /** Under the defaults, the getters give heel 300 kPa, ankle 350 kPa and no smoothing. */
  lemma DefaultReadings()
    ensures GetHeelThreshold(DefaultSettings) == 300.0
    ensures GetAnkleThreshold(DefaultSettings) == 350.0
    ensures GetSmoothingWindow(DefaultSettings) == 0.0
    ensures GetCalibrationParams(DefaultSettings) == Calibration(0.18, 0.35, 0.12, false, 0.0)
  {
  }
}
