/**
 * The summary cards (`components/history/StatsCards.tsx`): the overall peak
 * and its region, the longest high event, and the colour band of each
 * region's time-in-high percentage.
 */
module StatsCards {
  import opened Wrappers
  import opened Pressure
  import opened DurationText

  /** The card order of the regions. */
  const Regions: seq<Region> := [Heel, LeftAnkle, RightAnkle]

  /** `regionLabels`. */
  function RegionLabel(r: Region): string {
    match r
    case Heel => "Heel"
    case LeftAnkle => "Left Ankle"
    case RightAnkle => "Right Ankle"
  }

  /** One step of the peak `reduce`: a strictly larger value replaces the peak. */
  function PeakStep(peak: MaxRecord, candidate: MaxRecord): MaxRecord {
    if candidate.value > peak.value then candidate else peak
  }

  /** The peak `reduce` over `rs`, left to right. */
  function FoldPeak(max: PerRegion<MaxRecord>, rs: seq<Region>, peak: MaxRecord): MaxRecord
    decreases |rs|
  {
    if rs == [] then peak else FoldPeak(max, rs[1..], PeakStep(peak, max.Get(rs[0])))
  }

  /** `overallPeak`: the reduce over the three regions, seeded with the heel's maximum. */
  function OverallPeak(max: PerRegion<MaxRecord>): MaxRecord {
    FoldPeak(max, Regions, max.heel)
  }

  /** `regions.find(...)`: the first region whose maximum has the peak's value and time. */
  function FindRegion(max: PerRegion<MaxRecord>, rs: seq<Region>, peak: MaxRecord): Option<Region>
    decreases |rs|
  {
    if rs == [] then None
    else if max.Get(rs[0]).value == peak.value && max.Get(rs[0]).ts == peak.ts then Some(rs[0])
    else FindRegion(max, rs[1..], peak)
  }

  /** `overallPeakRegion`, falling back to the heel when nothing matches. */
  function OverallPeakRegion(max: PerRegion<MaxRecord>): Region {
    match FindRegion(max, Regions, OverallPeak(max))
    case Some(r) => r
    case None => Heel
  }

  /** Reference: the first region, in card order, with the largest maximum. */
  function FirstMaxRegion(max: PerRegion<MaxRecord>): Region {
    var h, l, r := max.heel.value, max.leftAnkle.value, max.rightAnkle.value;
    if h >= l && h >= r then Heel else if l >= r then LeftAnkle else RightAnkle
  }

  /**
   * The peak is the maximum of the first region attaining the largest value,
   * no region exceeds it, and the region the card names is that region: the
   * fallback to the heel is never taken.
   */
  lemma OverallPeakIsFirstMax(max: PerRegion<MaxRecord>)
    ensures OverallPeak(max) == max.Get(FirstMaxRegion(max))
    ensures forall r: Region :: max.Get(r).value <= OverallPeak(max).value
    ensures FindRegion(max, Regions, OverallPeak(max)) == Some(FirstMaxRegion(max))
    ensures OverallPeakRegion(max) == FirstMaxRegion(max)
  {
    assert Regions[1..] == [LeftAnkle, RightAnkle] && Regions[1..][1..] == [RightAnkle];
    var peak := OverallPeak(max);
    assert peak == PeakStep(PeakStep(max.heel, max.leftAnkle), max.rightAnkle);
    forall r: Region ensures max.Get(r).value <= peak.value {
      match r
      case Heel =>
      case LeftAnkle =>
      case RightAnkle =>
    }
  }

  /** The `reduce` without a seed over `events[..n]`: a strictly longer event replaces the longest. */
  function LongestUpTo(events: seq<HighEvent>, n: nat): HighEvent
    requires 0 < n <= |events|
  {
    if n == 1 then events[0]
    else
      var longest := LongestUpTo(events, n - 1);
      if Duration(events[n - 1]) > Duration(longest) then events[n - 1] else longest
  }

  /** The longest event. */
  function LongestEvent(events: seq<HighEvent>): HighEvent
    requires events != []
  {
    LongestUpTo(events, |events|)
  }

  /** The reduce keeps the first event of largest duration among the first `n`. */
  lemma {:induction false} LongestUpToIsFirstMax(events: seq<HighEvent>, n: nat)
    requires 0 < n <= |events|
    ensures exists i :: 0 <= i < n && LongestUpTo(events, n) == events[i] &&
              (forall j :: 0 <= j < n ==> Duration(events[j]) <= Duration(events[i])) &&
              (forall j :: 0 <= j < i ==> Duration(events[j]) < Duration(events[i]))
  {
    if n > 1 {
      LongestUpToIsFirstMax(events, n - 1);
      var i :| 0 <= i < n - 1 && LongestUpTo(events, n - 1) == events[i] &&
                (forall j :: 0 <= j < n - 1 ==> Duration(events[j]) <= Duration(events[i])) &&
                (forall j :: 0 <= j < i ==> Duration(events[j]) < Duration(events[i]));
      if Duration(events[n - 1]) > Duration(events[i]) {
        assert LongestUpTo(events, n) == events[n - 1];
      } else {
        assert LongestUpTo(events, n) == events[i];
      }
    } else {
      assert LongestUpTo(events, 1) == events[0];
    }
  }

  /** The longest event is the first of the events of largest duration. */
  lemma LongestIsFirstMax(events: seq<HighEvent>)
    requires events != []
    ensures exists i :: 0 <= i < |events| && LongestEvent(events) == events[i] &&
              (forall j :: 0 <= j < |events| ==> Duration(events[j]) <= Duration(events[i])) &&
              (forall j :: 0 <= j < i ==> Duration(events[j]) < Duration(events[i]))
  {
    LongestUpToIsFirstMax(events, |events|);
  }

  /** The "Longest:" line, shown only when there is an event. */
  function LongestLabel(events: seq<HighEvent>): Option<string> {
    if events == [] then None else Some(FormatDuration(Duration(LongestEvent(events))))
  }

  /** The line is absent exactly without events, and it reads back as the longest duration in minutes. */
  lemma LongestLabelReads(events: seq<HighEvent>)
    ensures LongestLabel(events).None? <==> events == []
    ensures events != [] ==> ReadDuration(LongestLabel(events).value) == Some(Minutes(Duration(LongestEvent(events))))
  {
    if events != [] {
      FormatDurationReads(Duration(LongestEvent(events)));
    }
  }

  /** The text colour of a time-in-high percentage. */
  datatype Band = Destructive | Orange | Muted

  /** `timeInHighPct > 10 ? destructive : > 5 ? orange : muted`. */
  function TimeInHighBand(pct: real): Band {
    if pct > 10.0 then Destructive else if pct > 5.0 then Orange else Muted
  }

  /** The bands in increasing order of alarm. */
  function Severity(b: Band): nat {
    match b
    case Muted => 0
    case Orange => 1
    case Destructive => 2
  }

  /** Each band covers one interval: (10, ∞), (5, 10] and (-∞, 5]. */
  lemma BandIntervals(pct: real)
    ensures TimeInHighBand(pct) == Destructive <==> pct > 10.0
    ensures TimeInHighBand(pct) == Orange <==> 5.0 < pct <= 10.0
    ensures TimeInHighBand(pct) == Muted <==> pct <= 5.0
  {
  }

  /** A higher percentage never gets a calmer colour. */
  lemma BandMonotone(p: real, q: real)
    requires p <= q
    ensures Severity(TimeInHighBand(p)) <= Severity(TimeInHighBand(q))
  {
  }

  /** The labels tell the regions apart. */
  lemma RegionLabelsDistinct(r1: Region, r2: Region)
    ensures RegionLabel(r1) == RegionLabel(r2) <==> r1 == r2
  {
  }
}
