/**
 * The history chart's data path (`components/history/HistoryChart.tsx`).
 * The series is smoothed when a window is chosen, then downsampled with
 * LTTB to 1500 points when it is longer than 8000, then mapped to chart
 * points. Each point carries an "any region high" flag against the chart
 * thresholds, and the maximal blocks of flagged points become the shaded
 * high spans.
 */
module HistoryChart {
  import opened Wrappers
  import opened Pressure
  import opened Runs
  import opened ChartThresholds
  import RollingAverage
  import Downsample

  /** Above this many points the chart downsamples. */
  const MaxPoints: nat := 8000
  /** The number of points LTTB keeps. */
  const DownsampleTarget: nat := 1500

  /** A chart point: `ts` and `tsMs` are one timestamp here, in milliseconds. */
  datatype ChartPoint = ChartPoint(tsMs: int, heel: real, leftAnkle: real, rightAnkle: real, anyHigh: bool)

  /** A shaded span, from the first to the last timestamp of a run of high points. */
  datatype HighSpan = HighSpan(start: int, end: int)

  /** Some region is above its chart threshold. */
  predicate AnyHigh(s: PressureSample) {
    s.heel > GetThreshold(Heel) || s.leftAnkle > GetThreshold(LeftAnkle) || s.rightAnkle > GetThreshold(RightAnkle)
  }

  /** The `processed.map` callback. */
  function ToPoint(s: PressureSample): ChartPoint {
    ChartPoint(s.ts, s.heel, s.leftAnkle, s.rightAnkle, AnyHigh(s))
  }

  /** The series after the optional smoothing and the optional downsampling. */
  function Prepared(data: seq<PressureSample>, smoothing: int): seq<PressureSample> {
    var smoothed := if smoothing > 0 then RollingAverage.Smoothed(data, smoothing) else data;
    if |smoothed| > MaxPoints then Downsample.Downsampled(smoothed, DownsampleTarget) else smoothed
  }

  /** `processed.map(...)`: one chart point per sample, in order. */
  function Points(p: seq<PressureSample>): (points: seq<ChartPoint>)
    ensures |points| == |p|
    ensures forall i :: 0 <= i < |p| ==> points[i] == ToPoint(p[i])
  {
    seq(|p|, i requires 0 <= i < |p| => ToPoint(p[i]))
  }

  /** `processedData`, with the downsampler's next-bucket range clipped to the series. */
  function ProcessedData(data: seq<PressureSample>, smoothing: int): seq<ChartPoint> {
    if data == [] then [] else Points(Prepared(data, smoothing))
  }

  /** `processedData` as written: the downsampler it calls throws on every series it shortens. */
  function ProcessedDataAsWritten(data: seq<PressureSample>, smoothing: int): Result<seq<ChartPoint>, string> {
    if data == [] then Success([])
    else
      var smoothed := if smoothing > 0 then RollingAverage.Smoothed(data, smoothing) else data;
      if |smoothed| > MaxPoints then
        match Downsample.DownsampledAsWritten(smoothed, DownsampleTarget)
        case Failure(e) => Failure(e)
        case Success(p) => Success(Points(p))
      else Success(Points(smoothed))
  }

  /** `anyHigh` is set exactly when the heel is above 300 or an ankle above 350. */
  lemma AnyHighThresholds(s: PressureSample)
    ensures ToPoint(s).anyHigh <==> s.heel > 300.0 || s.leftAnkle > 350.0 || s.rightAnkle > 350.0
    ensures ToPoint(s).anyHigh <==> exists r: Region :: Channel(s, r) > GetThreshold(r)
  {
    if ToPoint(s).anyHigh {
      if s.heel > 300.0 {
        assert Channel(s, Heel) > GetThreshold(Heel);
      } else if s.leftAnkle > 350.0 {
        assert Channel(s, LeftAnkle) > GetThreshold(LeftAnkle);
      } else {
        assert Channel(s, RightAnkle) > GetThreshold(RightAnkle);
      }
    }
  }

  /** The mapping keeps the timestamp and the three readings of each sample. */
  lemma ToPointKeeps(s: PressureSample)
    ensures var p := ToPoint(s);
            p.tsMs == s.ts && p.heel == Channel(s, Heel) &&
            p.leftAnkle == Channel(s, LeftAnkle) && p.rightAnkle == Channel(s, RightAnkle)
  {
  }

  /** Nothing to draw exactly when there is no data. */
  lemma ProcessedEmpty(data: seq<PressureSample>, smoothing: int)
    ensures ProcessedData(data, smoothing) == [] <==> data == []
  {
    if data != [] {
      var smoothed := if smoothing > 0 then RollingAverage.Smoothed(data, smoothing) else data;
      if |smoothed| > MaxPoints {
        Downsample.DownsampledShape(smoothed, DownsampleTarget);
      }
    }
  }

  /**
   * Up to 8000 points the chart shows every sample: the raw one without
   * smoothing, the rolling average with it.
   */
  lemma ShortSeriesKept(data: seq<PressureSample>, smoothing: int)
    requires |data| <= MaxPoints
    ensures var points := ProcessedData(data, smoothing);
            var shown := if smoothing > 0 then RollingAverage.Smoothed(data, smoothing) else data;
            |points| == |data| && forall i :: 0 <= i < |data| ==> points[i] == ToPoint(shown[i])
  {
  }

  /**
   * Beyond 8000 points the chart shows 1500: the first and last smoothed
   * samples and, in between, smoothed samples at increasing indices, so the
   * smoothing is applied before the downsampling.
   */
  lemma LongSeriesDownsampled(data: seq<PressureSample>, smoothing: int)
    requires |data| > MaxPoints
    ensures var points := ProcessedData(data, smoothing);
            var shown := if smoothing > 0 then RollingAverage.Smoothed(data, smoothing) else data;
            var kept := Downsample.Kept(shown, DownsampleTarget);
            && |points| == DownsampleTarget
            && points[0] == ToPoint(shown[0])
            && points[DownsampleTarget - 1] == ToPoint(shown[|shown| - 1])
            && forall k :: 0 <= k < DownsampleTarget ==> points[k] == ToPoint(shown[kept[k]])
  {
    var shown := if smoothing > 0 then RollingAverage.Smoothed(data, smoothing) else data;
    Downsample.DownsampledShape(shown, DownsampleTarget);
  }

  /** Chart points in strictly increasing time order. */
  predicate PointsChronological(points: seq<ChartPoint>) {
    forall i, j :: 0 <= i < j < |points| ==> points[i].tsMs < points[j].tsMs
  }

  /** The chart keeps the time order of the series. */
  lemma ProcessedChronological(data: seq<PressureSample>, smoothing: int)
    requires Chronological(data)
    ensures PointsChronological(ProcessedData(data, smoothing))
  {
    if data != [] {
      var shown := if smoothing > 0 then RollingAverage.Smoothed(data, smoothing) else data;
      if smoothing > 0 {
        RollingAverage.SmoothedChronological(data, smoothing);
      }
      if |shown| > MaxPoints {
        Downsample.DownsampledChronological(shown, DownsampleTarget);
      }
      var prepared := Prepared(data, smoothing);
      assert Chronological(prepared);
      var points := Points(prepared);
      forall i, j | 0 <= i < j < |points| ensures points[i].tsMs < points[j].tsMs {
        assert points[i].tsMs == prepared[i].ts && points[j].tsMs == prepared[j].ts;
      }
    }
  }

  /** Every series the chart shortens makes `processedData` as written throw. */
  lemma ProcessedAsWrittenThrows(data: seq<PressureSample>, smoothing: int)
    ensures |data| > MaxPoints ==> ProcessedDataAsWritten(data, smoothing).Failure?
    ensures |data| <= MaxPoints ==> ProcessedDataAsWritten(data, smoothing) == Success(ProcessedData(data, smoothing))
  {
  }

  /** The `anyHigh` flags of the points. */
  function Flags(points: seq<ChartPoint>): (h: seq<bool>)
    ensures |h| == |points|
    ensures forall k :: 0 <= k < |points| ==> h[k] == points[k].anyHigh
  {
    seq(|points|, k requires 0 <= k < |points| => points[k].anyHigh)
  }

  /** Each run of flags as the span from its first to its last point's time. */
  function SpanTimes(points: seq<ChartPoint>, r: seq<Span>): (spans: seq<HighSpan>)
    requires forall k :: 0 <= k < |r| ==> r[k].start < r[k].end <= |points|
    ensures |spans| == |r|
  {
    if r == [] then []
    else [HighSpan(points[r[0].start].tsMs, points[r[0].end - 1].tsMs)] + SpanTimes(points, r[1..])
  }

  /** The spans the chart shades: one per maximal run of high points. */
  function HighSpansOf(points: seq<ChartPoint>): seq<HighSpan> {
    SpanTimes(points, MaximalRuns(Flags(points)))
  }

  /** Span `k` runs from the first to the last time of run `k`. */
  lemma {:induction false} SpanTimesAt(points: seq<ChartPoint>, r: seq<Span>, k: nat)
    requires forall j :: 0 <= j < |r| ==> r[j].start < r[j].end <= |points|
    requires k < |r|
    ensures SpanTimes(points, r)[k] == HighSpan(points[r[k].start].tsMs, points[r[k].end - 1].tsMs)
  {
    if k > 0 {
      SpanTimesAt(points, r[1..], k - 1);
    }
  }

  /** The span of a run put in front of later runs comes first. */
  lemma {:induction false} SpanTimesCons(points: seq<ChartPoint>, sp: Span, rest: seq<Span>)
    requires sp.start < sp.end <= |points|
    requires forall j :: 0 <= j < |rest| ==> rest[j].start < rest[j].end <= |points|
    ensures SpanTimes(points, [sp] + rest) ==
            [HighSpan(points[sp.start].tsMs, points[sp.end - 1].tsMs)] + SpanTimes(points, rest)
  {
    assert ([sp] + rest)[1..] == rest;
  }

  /** The state of the `highSpans` loop after the first `i` points. */
  ghost predicate Scanned(points: seq<ChartPoint>, i: nat, inSpan: bool, s: nat, spanStart: int, spans: seq<HighSpan>)
  {
    var h := Flags(points);
    && i <= |h|
    && if inSpan then
         && s < i
         && (forall k :: s <= k < i ==> h[k])
         && (s == 0 || !h[s - 1])
         && spanStart == points[s].tsMs
         && HighSpansOf(points) == spans + SpanTimes(points, RunsFrom(h, s))
       else
         && (i == 0 || !h[i - 1])
         && HighSpansOf(points) == spans + SpanTimes(points, RunsFrom(h, i))
  }

  /** Closing the span that started at `s` on the low point `i`. */
  lemma CloseSpan(points: seq<ChartPoint>, i: nat, s: nat, spans: seq<HighSpan>)
    requires s < i < |points| && !points[i].anyHigh
    requires Scanned(points, i, true, s, points[s].tsMs, spans)
    ensures Scanned(points, i + 1, false, s, points[s].tsMs,
                    spans + [HighSpan(points[s].tsMs, points[i - 1].tsMs)])
  {
    var h := Flags(points);
    RunAt(h, s, i);
    var rest := RunsFrom(h, i);
    SpanTimesCons(points, Span(s, i), rest);
    var closed := HighSpan(points[s].tsMs, points[i - 1].tsMs);
    assert rest == RunsFrom(h, i + 1);
    assert spans + ([closed] + SpanTimes(points, rest)) == (spans + [closed]) + SpanTimes(points, rest);
  }

  /** Closing the span still open after the last point. */
  lemma CloseAtEnd(points: seq<ChartPoint>, s: nat, spans: seq<HighSpan>)
    requires s < |points|
    requires Scanned(points, |points|, true, s, points[s].tsMs, spans)
    ensures HighSpansOf(points) == spans + [HighSpan(points[s].tsMs, points[|points| - 1].tsMs)]
  {
    var h := Flags(points);
    RunAt(h, s, |points|);
    var r := RunsFrom(h, s);
    assert r[0] == Span(s, |points|) && r[1..] == [];
  }

  /** `highSpans`: the `forEach` over the points and the final close. */
  method HighSpans(points: seq<ChartPoint>) returns (spans: seq<HighSpan>)
    ensures spans == HighSpansOf(points)
  {
    spans := [];
    var inSpan := false;
    var spanStart := 0;
    ghost var s: nat := 0;
    for index := 0 to |points|
      invariant Scanned(points, index, inSpan, s, spanStart, spans)
    {
      var point := points[index];
      if point.anyHigh && !inSpan {
        inSpan := true;
        spanStart := point.tsMs;
        s := index;
      } else if !point.anyHigh && inSpan {
        CloseSpan(points, index, s, spans);
        inSpan := false;
        spans := spans + [HighSpan(spanStart, points[index - 1].tsMs)];
      }
    }
    if inSpan && |points| > 0 {
      CloseAtEnd(points, s, spans);
      spans := spans + [HighSpan(spanStart, points[|points| - 1].tsMs)];
    }
  }

  /**
   * Span `k` is a maximal block of high points: it starts and ends at that
   * block's first and last times, every point of the block is high, and the
   * points just before and just after it are not.
   */
  lemma HighSpansAreRuns(points: seq<ChartPoint>, k: nat)
    requires k < |HighSpansOf(points)|
    ensures var r := MaximalRuns(Flags(points))[k];
            && r.start < r.end <= |points|
            && HighSpansOf(points)[k] == HighSpan(points[r.start].tsMs, points[r.end - 1].tsMs)
            && (forall j :: r.start <= j < r.end ==> points[j].anyHigh)
            && (r.start == 0 || !points[r.start - 1].anyHigh)
            && (r.end == |points| || !points[r.end].anyHigh)
  {
    var h := Flags(points);
    RunsFromMaximal(h, 0);
    SpanTimesAt(points, MaximalRuns(h), k);
    assert Maximal(h, MaximalRuns(h)[k]);
  }

  /** Span `k` is the time range of run `k`, and there are as many spans as runs. */
  lemma SpanOfRun(points: seq<ChartPoint>, k: nat)
    requires k < |HighSpansOf(points)|
    ensures |HighSpansOf(points)| == |MaximalRuns(Flags(points))|
    ensures var r := MaximalRuns(Flags(points))[k];
            && r.start < r.end <= |points|
            && HighSpansOf(points)[k] == HighSpan(points[r.start].tsMs, points[r.end - 1].tsMs)
  {
    SpanTimesAt(points, MaximalRuns(Flags(points)), k);
  }

  /** Consecutive runs are separated by at least one low point. */
  lemma RunsApart(points: seq<ChartPoint>, k: nat)
    requires k + 1 < |MaximalRuns(Flags(points))|
    ensures MaximalRuns(Flags(points))[k].end < MaximalRuns(Flags(points))[k + 1].start
  {
    RunsFromMaximal(Flags(points), 0);
  }

  /** On a chronological chart the spans are in time order, each non-empty and apart from the next. */
  lemma HighSpansOrdered(points: seq<ChartPoint>, k: nat)
    requires PointsChronological(points)
    requires k < |HighSpansOf(points)|
    ensures HighSpansOf(points)[k].start <= HighSpansOf(points)[k].end
    ensures k + 1 < |HighSpansOf(points)| ==> HighSpansOf(points)[k].end < HighSpansOf(points)[k + 1].start
  {
    var runs := MaximalRuns(Flags(points));
    var spans := HighSpansOf(points);
    SpanOfRun(points, k);
    var first, last := runs[k].start, runs[k].end - 1;
    if first < last {
      assert points[first].tsMs < points[last].tsMs;
    }
    if k + 1 < |spans| {
      SpanOfRun(points, k + 1);
      RunsApart(points, k);
      var next := runs[k + 1].start;
      assert points[last].tsMs < points[next].tsMs;
    }
  }

  /** On a chronological chart every high point lies inside a shaded span. */
  lemma HighPointsShaded(points: seq<ChartPoint>, p: nat)
    requires PointsChronological(points)
    requires p < |points| && points[p].anyHigh
    ensures exists k :: 0 <= k < |HighSpansOf(points)| &&
              HighSpansOf(points)[k].start <= points[p].tsMs <= HighSpansOf(points)[k].end
  {
    var h := Flags(points);
    var runs := MaximalRuns(h);
    var spans := HighSpansOf(points);
    RunsFromCover(h, 0, p);
    var k :| 0 <= k < |runs| && runs[k].start <= p < runs[k].end;
    SpanTimesAt(points, runs, k);
    assert spans[k] == HighSpan(points[runs[k].start].tsMs, points[runs[k].end - 1].tsMs);
    assert points[runs[k].start].tsMs <= points[p].tsMs <= points[runs[k].end - 1].tsMs;
  }

  /** A span still open after the last point closes at that point's time. */
  lemma OpenSpanClosesAtLast(points: seq<ChartPoint>)
    requires points != [] && points[|points| - 1].anyHigh
    ensures HighSpansOf(points) != []
    ensures HighSpansOf(points)[|HighSpansOf(points)| - 1].end == points[|points| - 1].tsMs
  {
    var h := Flags(points);
    var runs := MaximalRuns(h);
    RunsFromLast(h, 0);
    var spans := HighSpansOf(points);
    assert spans == SpanTimes(points, runs);
    var k := |runs| - 1;
    SpanTimesAt(points, runs, k);
    assert spans[k].end == points[runs[k].end - 1].tsMs;
  }

  /** No high point, nothing shaded. */
  lemma NoHighNoSpans(points: seq<ChartPoint>)
    requires forall k :: 0 <= k < |points| ==> !points[k].anyHigh
    ensures HighSpansOf(points) == []
  {
    NoFlagsNoRuns(Flags(points), 0);
  }
}
