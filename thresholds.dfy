/**
 * The chart's fixed thresholds (`lib/history/thresholds.ts`): 300 kPa for
 * the heel and 350 kPa for either ankle.  The statistics engine uses the
 * reference waveform's heel threshold instead, so the two disagree.
 */
module ChartThresholds {
  import opened Pressure
  import HistoryStats
  import HeelPressureTable

  const HeelHigh: real := 300.0
  const AnkleHigh: real := 350.0

  /** `getThreshold(region)`: total over the three regions, 300 or 350. */
  function GetThreshold(r: Region): (t: real)
    ensures t == 300.0 <==> r == Heel
    ensures t == 350.0 <==> r != Heel
  {
    if r == Heel then HeelHigh else AnkleHigh
  }

  /**
   * Both sides agree on the ankles, but a heel reading in
   * (168.945515, 300] is high for the statistics and not for the chart.
   */
  lemma ThresholdsDisagreeOnHeel()
    ensures HistoryStats.Threshold(LeftAnkle) == GetThreshold(LeftAnkle)
    ensures HistoryStats.Threshold(RightAnkle) == GetThreshold(RightAnkle)
    ensures HistoryStats.Threshold(Heel) < GetThreshold(Heel)
    ensures var s := PressureSample(0, 200.0, 0.0, 0.0);
            HistoryStats.IsHigh(s, Heel) && !(s.heel > GetThreshold(Heel))
  {
  }
}
