/**
 * `computeStats`: per-region average, first-occurring maximum and share of
 * time above threshold, plus the list of high-pressure events, each a
 * maximal run of consecutive samples strictly above the region's threshold.
 */
module HistoryStats {
  import opened Wrappers
  import opened Rounding
  import opened Pressure
  import opened Runs
  import opened HeelPressureTable

  /** The ankle threshold of the statistics engine. */
  const AnkleHigh: real := 350.0

  /** `thresholds[region]`: the waveform's heel threshold, 350 for either ankle. */
  function Threshold(r: Region): real {
    if r == Heel then HeelPressureThreshold else AnkleHigh
  }

  /** `values.reduce((sum, val) => sum + val, 0)`. */
  function Sum(v: seq<real>): real {
    if v == [] then 0.0 else Sum(v[..|v| - 1]) + v[|v| - 1]
  }

  /** `Math.max(a, b)`. */
  function Max(a: real, b: real): real {
    if a >= b then a else b
  }

  /** `Math.max(...v)` for a non-empty list: its largest element. */
  function MaxOf(v: seq<real>): (m: real)
    requires v != []
    ensures m in v
    ensures forall k :: 0 <= k < |v| ==> v[k] <= m
  {
    if |v| == 1 then v[0] else Max(MaxOf(v[..|v| - 1]), v[|v| - 1])
  }

  /** The index `find` stops at: the first element equal to `x`. */
  function FirstIndex(v: seq<real>, x: real): (k: nat)
    requires x in v
    ensures k < |v| && v[k] == x
    ensures forall j :: 0 <= j < k ==> v[j] != x
  {
    if v[0] == x then 0 else 1 + FirstIndex(v[1..], x)
  }

  /** `values.filter((val) => val > threshold).length`. */
  function CountAbove(v: seq<real>, threshold: real): (c: nat)
    ensures c <= |v|
  {
    if v == [] then 0 else (if v[0] > threshold then 1 else 0) + CountAbove(v[1..], threshold)
  }

  /** `stats.avg[region]`. */
  function Average(v: seq<real>): real
    requires v != []
  {
    Round1(Sum(v) / |v| as real)
  }

  /** `stats.max[region]`: the largest value and the instant of the first sample reaching it. */
  function MaxRecordOf(data: seq<PressureSample>, r: Region): (m: MaxRecord)
    requires data != []
    ensures forall k :: 0 <= k < |data| ==> Channel(data[k], r) <= m.value
    ensures exists k :: 0 <= k < |data| && Channel(data[k], r) == m.value && data[k].ts == m.ts &&
              forall j :: 0 <= j < k ==> Channel(data[j], r) != m.value
  {
    var v := Values(data, r);
    var top := MaxOf(v);
    var k := FirstIndex(v, top);
    MaxRecord(top, data[k].ts)
  }

  /** `stats.timeInHighPct[region]`. */
  function HighPct(v: seq<real>, threshold: real): real
    requires v != []
  {
    Round1(CountAbove(v, threshold) as real / |v| as real * 100.0)
  }

  /** `sample[region] > thresholds[region]`. */
  predicate IsHigh(sample: PressureSample, r: Region) {
    Channel(sample, r) > Threshold(r)
  }

  /** Whether each sample is strictly above the region's threshold. */
  function HighFlags(data: seq<PressureSample>, r: Region): (h: seq<bool>)
    ensures |h| == |data|
    ensures forall k :: 0 <= k < |data| ==> h[k] == IsHigh(data[k], r)
  {
    seq(|data|, k requires 0 <= k < |data| => IsHigh(data[k], r))
  }

  /** Spans that are non-empty index ranges of a series of length `n`. */
  predicate SpansWithin(spans: seq<Span>, n: nat) {
    forall k :: 0 <= k < |spans| ==> spans[k].start < spans[k].end <= n
  }

  /**
   * The running `eventPeak` over samples [s, e): the first value, then
   * `Math.max` with each later one.
   */
  function Peak(data: seq<PressureSample>, r: Region, s: nat, e: nat): real
    requires s < e <= |data|
    decreases e
  {
    if e == s + 1 then Channel(data[s], r) else Max(Peak(data, r, s, e - 1), Channel(data[e - 1], r))
  }

  /** The running peak is the largest value of the run, and one of its values. */
  lemma {:induction false} PeakIsMax(data: seq<PressureSample>, r: Region, s: nat, e: nat)
    requires s < e <= |data|
    ensures forall k :: s <= k < e ==> Channel(data[k], r) <= Peak(data, r, s, e)
    ensures exists k :: s <= k < e && Channel(data[k], r) == Peak(data, r, s, e)
    decreases e
  {
    if e == s + 1 {
      assert Channel(data[s], r) == Peak(data, r, s, e);
    } else {
      PeakIsMax(data, r, s, e - 1);
      if Channel(data[e - 1], r) < Peak(data, r, s, e - 1) {
        var k :| s <= k < e - 1 && Channel(data[k], r) == Peak(data, r, s, e - 1);
        assert Channel(data[k], r) == Peak(data, r, s, e);
      } else {
        assert Channel(data[e - 1], r) == Peak(data, r, s, e);
      }
    }
  }

  /** The event a run of high samples produces. */
  function EventOf(data: seq<PressureSample>, r: Region, sp: Span): HighEvent
    requires sp.start < sp.end <= |data|
  {
    HighEvent(r, data[sp.start].ts, data[sp.end - 1].ts, Peak(data, r, sp.start, sp.end), sp.end - sp.start)
  }

  /** The events of a list of runs, in the same order. */
  function Emit(data: seq<PressureSample>, r: Region, spans: seq<Span>): (e: seq<HighEvent>)
    requires SpansWithin(spans, |data|)
    ensures |e| == |spans|
  {
    if spans == [] then [] else [EventOf(data, r, spans[0])] + Emit(data, r, spans[1..])
  }

  /** Event `k` is the event of run `k`. */
  lemma {:induction false} EmitAt(data: seq<PressureSample>, r: Region, spans: seq<Span>, k: nat)
    requires SpansWithin(spans, |data|) && k < |spans|
    ensures Emit(data, r, spans)[k] == EventOf(data, r, spans[k])
  {
    if k > 0 {
      EmitAt(data, r, spans[1..], k - 1);
    }
  }

  /** The runs from index `i` of a region's flags are valid spans of the series. */
  lemma RunsWithin(data: seq<PressureSample>, r: Region, i: nat)
    requires i <= |data|
    ensures SpansWithin(RunsFrom(HighFlags(data, r), i), |data|)
  {
  }

  /** The high events of one region, in time order. */
  function RegionEvents(data: seq<PressureSample>, r: Region): seq<HighEvent> {
    RunsWithin(data, r, 0);
    Emit(data, r, MaximalRuns(HighFlags(data, r)))
  }

  /** The merged event list over the given regions, region by region. */
  function EventsFor(data: seq<PressureSample>, regions: seq<Region>): seq<HighEvent> {
    if regions == [] then []
    else EventsFor(data, regions[..|regions| - 1]) + RegionEvents(data, regions[|regions| - 1])
  }

  /** The failure `computeStats` ends in on an empty series. */
  const EmptySeries: string := "no sample attains the maximum of an empty series"

  /** `stats.avg`. */
  function Averages(data: seq<PressureSample>): PerRegion<real>
    requires data != []
  {
    PerRegion(Average(Values(data, Heel)), Average(Values(data, LeftAnkle)), Average(Values(data, RightAnkle)))
  }

  /** `stats.max`. */
  function Maxima(data: seq<PressureSample>): PerRegion<MaxRecord>
    requires data != []
  {
    PerRegion(MaxRecordOf(data, Heel), MaxRecordOf(data, LeftAnkle), MaxRecordOf(data, RightAnkle))
  }

  /** `stats.timeInHighPct`. */
  function HighPcts(data: seq<PressureSample>): PerRegion<real>
    requires data != []
  {
    PerRegion(HighPct(Values(data, Heel), Threshold(Heel)), HighPct(Values(data, LeftAnkle), Threshold(LeftAnkle)),
              HighPct(Values(data, RightAnkle), Threshold(RightAnkle)))
  }

  /** What `computeStats(data, period)` returns, or the error it throws. */
  function Stats(data: seq<PressureSample>, period: string): (r: Result<PressureStats, string>)
    ensures r.Failure? <==> data == []
    ensures r.Success? ==> r.value.sampleCount == |data| && r.value.period == period
  {
    if data == [] then Failure(EmptySeries)
    else Success(PressureStats(period, |data|, Averages(data), Maxima(data), HighPcts(data), EventsFor(data, Regions)))
  }

  /** One region's `avg`, `max` and `timeInHighPct` entries. */
  function Summary(data: seq<PressureSample>, r: Region): (real, MaxRecord, real)
    requires data != []
  {
    (Average(Values(data, r)), MaxRecordOf(data, r), HighPct(Values(data, r), Threshold(r)))
  }

  /** The three records after the first pass has visited `regions`, in order. */
  function Filled(data: seq<PressureSample>, regions: seq<Region>): (PerRegion<real>, PerRegion<MaxRecord>, PerRegion<real>)
    requires data != []
  {
    if regions == [] then
      (PerRegion(0.0, 0.0, 0.0), PerRegion(MaxRecord(0.0, 0), MaxRecord(0.0, 0), MaxRecord(0.0, 0)),
       PerRegion(0.0, 0.0, 0.0))
    else
      var (a, m, p) := Filled(data, regions[..|regions| - 1]);
      var r := regions[|regions| - 1];
      var (average, maximum, share) := Summary(data, r);
      (a.Set(r, average), m.Set(r, maximum), p.Set(r, share))
  }

  /** Visiting all three regions fills every entry. */
  lemma FilledAll(data: seq<PressureSample>)
    requires data != []
    ensures Filled(data, Regions) == (Averages(data), Maxima(data), HighPcts(data))
  {
    var z := MaxRecord(0.0, 0);
    var (ah, mh, ph) := Summary(data, Heel);
    var (al, ml, pl) := Summary(data, LeftAnkle);
    var (ar, mr, pr) := Summary(data, RightAnkle);
    assert [Heel][..0] == [];
    assert Filled(data, [Heel]) == (PerRegion(ah, 0.0, 0.0), PerRegion(mh, z, z), PerRegion(ph, 0.0, 0.0));
    assert [Heel, LeftAnkle][..1] == [Heel];
    assert Filled(data, [Heel, LeftAnkle]) == (PerRegion(ah, al, 0.0), PerRegion(mh, ml, z), PerRegion(ph, pl, 0.0));
    assert Regions[..2] == [Heel, LeftAnkle];
  }

  /** A low sample is skipped by the run scan. */
  lemma SkipLow(h: seq<bool>, i: nat)
    requires i < |h| && !h[i]
    ensures RunsFrom(h, i) == RunsFrom(h, i + 1)
  {
  }

  /** A run of high samples from `s` that stops before `i` is the next event. */
  lemma CloseRun(data: seq<PressureSample>, region: Region, s: nat, i: nat)
    requires s < i <= |data|
    requires forall k :: s <= k < i ==> IsHigh(data[k], region)
    requires i == |data| || !IsHigh(data[i], region)
    ensures Emit(data, region, RunsFrom(HighFlags(data, region), s)) ==
            [HighEvent(region, data[s].ts, data[i - 1].ts, Peak(data, region, s, i), i - s)]
            + Emit(data, region, RunsFrom(HighFlags(data, region), i))
  {
    var h := HighFlags(data, region);
    RunAt(h, s, i);
    var rest := RunsFrom(h, i);
    var r := [Span(s, i)] + rest;
    assert r[0] == Span(s, i) && r[1..] == rest;
    assert Emit(data, region, r) == [EventOf(data, region, Span(s, i))] + Emit(data, region, rest);
  }

  /**
   * The scan's state after the samples before `index`: with no event open,
   * the events pushed so far followed by the runs from `index` are all the
   * region's events; with one open since sample `start`, the open run is
   * summarised by `eventStart`, `eventPeak` and `eventSamples`, and the
   * events pushed so far followed by the runs from `start` are all of them.
   */
  ghost predicate Scanned(data: seq<PressureSample>, region: Region, index: nat, inEvent: bool, start: nat,
                          eventStart: int, eventPeak: real, eventSamples: int, events: seq<HighEvent>)
  {
    var h := HighFlags(data, region);
    && index <= |data|
    && (!inEvent ==>
          && (index == 0 || !h[index - 1])
          && RegionEvents(data, region) == events + Emit(data, region, RunsFrom(h, index)))
    && (inEvent ==>
          && start < index
          && (start == 0 || !h[start - 1])
          && (forall k :: start <= k < index ==> h[k])
          && eventStart == data[start].ts && eventSamples == index - start
          && eventPeak == Peak(data, region, start, index)
          && RegionEvents(data, region) == events + Emit(data, region, RunsFrom(h, start)))
  }

  /** A low sample outside an event changes nothing. */
  lemma ScanLow(data: seq<PressureSample>, region: Region, index: nat, start: nat,
                eventStart: int, eventPeak: real, eventSamples: int, events: seq<HighEvent>)
    requires Scanned(data, region, index, false, start, eventStart, eventPeak, eventSamples, events)
    requires index < |data| && !IsHigh(data[index], region)
    ensures Scanned(data, region, index + 1, false, start, eventStart, eventPeak, eventSamples, events)
  {
    SkipLow(HighFlags(data, region), index);
  }

  /** A high sample outside an event opens one. */
  lemma ScanOpen(data: seq<PressureSample>, region: Region, index: nat, start: nat,
                 eventStart: int, eventPeak: real, eventSamples: int, events: seq<HighEvent>)
    requires Scanned(data, region, index, false, start, eventStart, eventPeak, eventSamples, events)
    requires index < |data| && IsHigh(data[index], region)
    ensures Scanned(data, region, index + 1, true, index, data[index].ts, Channel(data[index], region), 1, events)
  {
  }

  /** A high sample inside an event extends it and may raise its peak. */
  lemma ScanExtend(data: seq<PressureSample>, region: Region, index: nat, start: nat,
                   eventStart: int, eventPeak: real, eventSamples: int, events: seq<HighEvent>)
    requires Scanned(data, region, index, true, start, eventStart, eventPeak, eventSamples, events)
    requires index < |data| && IsHigh(data[index], region)
    ensures Scanned(data, region, index + 1, true, start, eventStart,
                    Max(eventPeak, Channel(data[index], region)), eventSamples + 1, events)
  {
  }

  /** A low sample inside an event closes it at the previous sample. */
  lemma ScanClose(data: seq<PressureSample>, region: Region, index: nat, start: nat,
                  eventStart: int, eventPeak: real, eventSamples: int, events: seq<HighEvent>)
    requires Scanned(data, region, index, true, start, eventStart, eventPeak, eventSamples, events)
    requires index < |data| && !IsHigh(data[index], region)
    ensures index > 0
    ensures Scanned(data, region, index + 1, false, start, eventStart, eventPeak, eventSamples,
                    events + [HighEvent(region, eventStart, data[index - 1].ts, eventPeak, eventSamples)])
  {
    CloseRun(data, region, start, index);
    SkipLow(HighFlags(data, region), index);
  }

  /** After the last sample, an event still open closes there. */
  lemma ScanEnd(data: seq<PressureSample>, region: Region, inEvent: bool, start: nat,
                eventStart: int, eventPeak: real, eventSamples: int, events: seq<HighEvent>)
    requires Scanned(data, region, |data|, inEvent, start, eventStart, eventPeak, eventSamples, events)
    ensures inEvent ==> |data| > 0
    ensures inEvent ==> events + [HighEvent(region, eventStart, data[|data| - 1].ts, eventPeak, eventSamples)]
                        == RegionEvents(data, region)
    ensures !inEvent ==> events == RegionEvents(data, region)
  {
    if inEvent {
      CloseRun(data, region, start, |data|);
    }
  }

  /**
   * The `data.forEach` callback of the event scan, on sample `index`: a high
   * sample opens an event or extends the open one (raising its peak); a low
   * sample closes the open event at the previous sample.
   */
  method ScanSample(data: seq<PressureSample>, region: Region, index: nat, inEvent: bool, ghost start: nat,
                    eventStart: int, eventPeak: real, eventSamples: int, events: seq<HighEvent>)
    returns (inEvent': bool, ghost start': nat, eventStart': int, eventPeak': real, eventSamples': int,
             events': seq<HighEvent>)
    requires index < |data|
    requires Scanned(data, region, index, inEvent, start, eventStart, eventPeak, eventSamples, events)
    ensures Scanned(data, region, index + 1, inEvent', start', eventStart', eventPeak', eventSamples', events')
  {
    inEvent', start', eventStart', eventPeak', eventSamples', events' :=
      inEvent, start, eventStart, eventPeak, eventSamples, events;
    var sample := data[index];
    var isHigh := IsHigh(sample, region);
    if isHigh && !inEvent {
      ScanOpen(data, region, index, start, eventStart, eventPeak, eventSamples, events);
      inEvent' := true;
      start' := index;
      eventStart' := sample.ts;
      eventPeak' := Channel(sample, region);
      eventSamples' := 1;
    } else if isHigh && inEvent {
      ScanExtend(data, region, index, start, eventStart, eventPeak, eventSamples, events);
      eventPeak' := Max(eventPeak, Channel(sample, region));
      eventSamples' := eventSamples + 1;
    } else if !isHigh && inEvent {
      ScanClose(data, region, index, start, eventStart, eventPeak, eventSamples, events);
      inEvent' := false;
      events' := events + [HighEvent(region, eventStart, data[index - 1].ts, eventPeak, eventSamples)];
    } else {
      ScanLow(data, region, index, start, eventStart, eventPeak, eventSamples, events);
    }
  }

  /**
   * The event scan of one region: `inEvent`, `eventStart`, `eventPeak` and
   * `eventSamples` carried across the samples; an event is pushed when a
   * run ends and, after the loop, when it is still open.
   */
  method DetectEvents(data: seq<PressureSample>, region: Region) returns (events: seq<HighEvent>)
    ensures events == RegionEvents(data, region)
  {
    ghost var start := 0;
    var inEvent := false;
    var eventStart := 0;
    var eventPeak := 0.0;
    var eventSamples := 0;
    events := [];
    for index := 0 to |data|
      invariant Scanned(data, region, index, inEvent, start, eventStart, eventPeak, eventSamples, events)
    {
      inEvent, start, eventStart, eventPeak, eventSamples, events :=
        ScanSample(data, region, index, inEvent, start, eventStart, eventPeak, eventSamples, events);
    }
    ScanEnd(data, region, inEvent, start, eventStart, eventPeak, eventSamples, events);
    if inEvent {
      events := events + [HighEvent(region, eventStart, data[|data| - 1].ts, eventPeak, eventSamples)];
    }
  }

  /**
   * The body of the first `regions.forEach`: the average, the maximum with
   * the first sample reaching it, and the time-in-high share of one region.
   * `None` stands for the throw on an empty series: `Math.max()` is
   * -Infinity, `find` returns undefined and reading its `ts` fails.
   */
  method SummariseRegion(data: seq<PressureSample>, region: Region) returns (s: Option<(real, MaxRecord, real)>)
    ensures s.None? <==> data == []
    ensures data != [] ==> s == Some(Summary(data, region))
  {
    var values := Values(data, region);
    if values == [] {
      return None;
    }
    var maxValue := MaxOf(values);
    var maxIndex := FirstIndex(values, maxValue);
    s := Some((Average(values), MaxRecord(maxValue, data[maxIndex].ts), HighPct(values, Threshold(region))));
  }

  /**
   * The first `regions.forEach`: `avg`, `max` and `timeInHighPct` filled in
   * region by region.
   */
  method SummariseAll(data: seq<PressureSample>)
    returns (s: Option<(PerRegion<real>, PerRegion<MaxRecord>, PerRegion<real>)>)
    ensures s.None? <==> data == []
    ensures data != [] ==> s == Some((Averages(data), Maxima(data), HighPcts(data)))
  {
    var avg := PerRegion(0.0, 0.0, 0.0);
    var max := PerRegion(MaxRecord(0.0, 0), MaxRecord(0.0, 0), MaxRecord(0.0, 0));
    var pct := PerRegion(0.0, 0.0, 0.0);
    for j := 0 to |Regions|
      invariant j > 0 ==> data != []
      invariant data != [] ==> (avg, max, pct) == Filled(data, Regions[..j])
    {
      var region := Regions[j];
      var summary := SummariseRegion(data, region);
      if summary.None? {
        return None;
      }
      var (average, maximum, share) := summary.value;
      assert Regions[..j + 1][..j] == Regions[..j];
      avg := avg.Set(region, average);
      max := max.Set(region, maximum);
      pct := pct.Set(region, share);
    }
    assert Regions[..|Regions|] == Regions;
    FilledAll(data);
    s := Some((avg, max, pct));
  }

  /** The second `regions.forEach`: each region's events appended in turn. */
  method DetectAll(data: seq<PressureSample>) returns (highEvents: seq<HighEvent>)
    ensures highEvents == EventsFor(data, Regions)
  {
    highEvents := [];
    for j := 0 to |Regions|
      invariant highEvents == EventsFor(data, Regions[..j])
    {
      var events := DetectEvents(data, Regions[j]);
      assert Regions[..j + 1][..j] == Regions[..j];
      highEvents := highEvents + events;
    }
    assert Regions[..|Regions|] == Regions;
  }

  /** `computeStats`: the two passes, or the throw of the first on an empty series. */
  method ComputeStats(data: seq<PressureSample>, period: string) returns (r: Result<PressureStats, string>)
    ensures r == Stats(data, period)
  {
    var summaries := SummariseAll(data);
    if summaries.None? {
      return Failure(EmptySeries);
    }
    var (avg, max, pct) := summaries.value;
    var highEvents := DetectAll(data);
    r := Success(PressureStats(period, |data|, avg, max, pct, highEvents));
  }

  // Properties of the statistics.

  /** A sum of values that are all at most `m` is at most `|v| * m`. */
  lemma {:induction false} SumAtMost(v: seq<real>, m: real)
    requires forall k :: 0 <= k < |v| ==> v[k] <= m
    ensures Sum(v) <= |v| as real * m
  {
    if v != [] {
      SumAtMost(v[..|v| - 1], m);
    }
  }

  /** A sum of values at least `m` is at least `|v| * m`. */
  lemma {:induction false} SumAtLeast(v: seq<real>, m: real)
    requires forall k :: 0 <= k < |v| ==> m <= v[k]
    ensures |v| as real * m <= Sum(v)
  {
    if v != [] {
      SumAtLeast(v[..|v| - 1], m);
    }
  }

  /** A sum of non-negative values is non-negative. */
  lemma {:induction false} SumNonNegative(v: seq<real>)
    requires forall k :: 0 <= k < |v| ==> v[k] >= 0.0
    ensures Sum(v) >= 0.0
  {
    if v != [] {
      SumNonNegative(v[..|v| - 1]);
    }
  }

  /** The sum of `|v|` copies of `c`. */
  lemma {:induction false} SumConstant(v: seq<real>, c: real)
    requires forall k :: 0 <= k < |v| ==> v[k] == c
    ensures Sum(v) == |v| as real * c
  {
    if v != [] {
      SumConstant(v[..|v| - 1], c);
    }
  }

  /** Dividing a total bounded by `n * m` by `n`. */
  lemma MeanAtMost(total: real, n: real, m: real)
    requires n > 0.0 && total <= n * m
    ensures total / n <= m
  {
  }

  /** The average never exceeds the rounded maximum. */
  lemma AverageAtMostMax(v: seq<real>)
    requires v != []
    ensures Average(v) <= Round1(MaxOf(v))
  {
    SumAtMost(v, MaxOf(v));
    MeanAtMost(Sum(v), |v| as real, MaxOf(v));
    Round1Monotone(Sum(v) / |v| as real, MaxOf(v));
  }

  /** The average of values in [lo, hi] lies between their rounded bounds. */
  lemma AverageWithin(v: seq<real>, lo: real, hi: real)
    requires v != []
    requires forall k :: 0 <= k < |v| ==> lo <= v[k] <= hi
    ensures Round1(lo) <= Average(v) <= Round1(hi)
  {
    var n := |v| as real;
    SumAtMost(v, hi);
    SumAtLeast(v, lo);
    MeanAtMost(Sum(v), n, hi);
    assert lo <= Sum(v) / n;
    Round1Monotone(lo, Sum(v) / n);
    Round1Monotone(Sum(v) / n, hi);
  }

  /** The average of non-negative values is non-negative. */
  lemma AverageNonNegative(v: seq<real>)
    requires v != []
    requires forall k :: 0 <= k < |v| ==> v[k] >= 0.0
    ensures Average(v) >= 0.0
  {
    SumNonNegative(v);
    Round1Monotone(0.0, Sum(v) / |v| as real);
    Round1Fixes(0.0);
  }

  /** A constant series with one decimal averages to that value. */
  lemma AverageOfConstant(v: seq<real>, c: real)
    requires v != [] && OneDecimal(c)
    requires forall k :: 0 <= k < |v| ==> v[k] == c
    ensures Average(v) == c
  {
    SumConstant(v, c);
    assert Sum(v) / |v| as real == c;
    Round1Fixes(c);
  }

  /** The time-in-high share is a percentage. */
  lemma HighPctRange(v: seq<real>, threshold: real)
    requires v != []
    ensures 0.0 <= HighPct(v, threshold) <= 100.0
  {
    var c := CountAbove(v, threshold) as real;
    var n := |v| as real;
    assert c / n <= 1.0;
    Round1Within(c / n * 100.0, 0.0, 100.0);
  }

  /** `values.filter(...).length` counts the flagged samples. */
  lemma {:induction false} CountAboveFlags(data: seq<PressureSample>, r: Region, i: nat)
    requires i <= |data|
    ensures CountAbove(Values(data, r)[i..], Threshold(r)) == CountFrom(HighFlags(data, r), i)
    decreases |data| - i
  {
    if i < |data| {
      CountAboveFlags(data, r, i + 1);
      var v := Values(data, r);
      assert v[i..][1..] == v[i + 1..];
    }
  }

  /** The total of the `samples` fields. */
  function SamplesOf(events: seq<HighEvent>): nat {
    if events == [] then 0 else events[0].samples + SamplesOf(events[1..])
  }

  /** Each run contributes its length to the total of the samples fields. */
  lemma {:induction false} SamplesOfEmit(data: seq<PressureSample>, r: Region, spans: seq<Span>)
    requires SpansWithin(spans, |data|)
    ensures SamplesOf(Emit(data, r, spans)) == TotalLength(spans)
  {
    if spans != [] {
      SamplesOfEmit(data, r, spans[1..]);
      assert Emit(data, r, spans)[1..] == Emit(data, r, spans[1..]);
    }
  }

  /** A region's events together last exactly as many samples as are high. */
  lemma EventSamplesAreHighCount(data: seq<PressureSample>, r: Region)
    ensures SamplesOf(RegionEvents(data, r)) == CountAbove(Values(data, r), Threshold(r))
  {
    var h := HighFlags(data, r);
    RunsWithin(data, r, 0);
    SamplesOfEmit(data, r, RunsFrom(h, 0));
    RunsFromCount(h, 0);
    CountAboveFlags(data, r, 0);
    assert Values(data, r)[0..] == Values(data, r);
  }

  /**
   * `ev` is the event of the maximal run of high samples [s, e): it starts
   * and ends at the run's first and last samples, counts its length, and its
   * peak is the largest value of the run, which is above the threshold.
   */
  predicate IsRunEvent(data: seq<PressureSample>, r: Region, ev: HighEvent, s: nat, e: nat)
    requires s < e <= |data|
  {
    && ev.region == r && ev.start == data[s].ts && ev.end == data[e - 1].ts && ev.samples == e - s
    && (forall i :: s <= i < e ==> IsHigh(data[i], r) && Channel(data[i], r) <= ev.peak)
    && (exists i :: s <= i < e && Channel(data[i], r) == ev.peak)
    && ev.peak > Threshold(r)
    && (s == 0 || !IsHigh(data[s - 1], r))
    && (e == |data| || !IsHigh(data[e], r))
  }

  /** Every event is the event of a maximal run of high samples. */
  lemma RegionEventIsRun(data: seq<PressureSample>, r: Region, k: nat)
    requires k < |RegionEvents(data, r)|
    ensures exists s: nat, e: nat :: s < e <= |data| && IsRunEvent(data, r, RegionEvents(data, r)[k], s, e)
  {
    var h := HighFlags(data, r);
    RunsWithin(data, r, 0);
    RunsFromMaximal(h, 0);
    var sp := MaximalRuns(h)[k];
    assert Maximal(h, sp);
    EmitAt(data, r, MaximalRuns(h), k);
    PeakIsMax(data, r, sp.start, sp.end);
    assert IsHigh(data[sp.start], r);
    assert IsRunEvent(data, r, RegionEvents(data, r)[k], sp.start, sp.end);
  }

  /** In a time-ordered series, a region's events are time-ordered and disjoint. */
  lemma RegionEventsChronological(data: seq<PressureSample>, r: Region)
    requires Chronological(data)
    ensures forall k :: 0 <= k < |RegionEvents(data, r)| ==>
              RegionEvents(data, r)[k].start <= RegionEvents(data, r)[k].end
    ensures forall k :: 0 <= k < |RegionEvents(data, r)| - 1 ==>
              RegionEvents(data, r)[k].end < RegionEvents(data, r)[k + 1].start
  {
    forall k | 0 <= k < |RegionEvents(data, r)| {
      EventOrdered(data, r, k);
    }
    forall k | 0 <= k < |RegionEvents(data, r)| - 1 {
      EventsApart(data, r, k);
    }
  }

  /** An event ends no earlier than it starts. */
  lemma EventOrdered(data: seq<PressureSample>, r: Region, k: nat)
    requires Chronological(data)
    requires k < |RegionEvents(data, r)|
    ensures RegionEvents(data, r)[k].start <= RegionEvents(data, r)[k].end
  {
    var runs := MaximalRuns(HighFlags(data, r));
    RunsWithin(data, r, 0);
    EmitAt(data, r, runs, k);
    EventSpansRun(data, r, runs[k], runs[k].start);
  }

  /** Consecutive events of a region are separated by at least one low sample. */
  lemma EventsApart(data: seq<PressureSample>, r: Region, k: nat)
    requires Chronological(data)
    requires k + 1 < |RegionEvents(data, r)|
    ensures RegionEvents(data, r)[k].end < RegionEvents(data, r)[k + 1].start
  {
    var h := HighFlags(data, r);
    var runs := MaximalRuns(h);
    RunsWithin(data, r, 0);
    RunsFromMaximal(h, 0);
    EmitAt(data, r, runs, k);
    EmitAt(data, r, runs, k + 1);
    assert runs[k].end < runs[k + 1].start;
    assert data[runs[k].end - 1].ts < data[runs[k + 1].start].ts;
  }

  /** In a time-ordered series, a run's event spans the instants of its samples. */
  lemma EventSpansRun(data: seq<PressureSample>, r: Region, sp: Span, p: nat)
    requires Chronological(data)
    requires sp.start <= p < sp.end <= |data|
    ensures EventOf(data, r, sp).start <= data[p].ts <= EventOf(data, r, sp).end
  {
    if sp.start < p {
      assert data[sp.start].ts < data[p].ts;
    }
    if p < sp.end - 1 {
      assert data[p].ts < data[sp.end - 1].ts;
    }
  }

  /** In a time-ordered series, every high sample falls inside one of the events. */
  lemma HighSampleInEvent(data: seq<PressureSample>, r: Region, p: nat)
    requires Chronological(data)
    requires p < |data| && IsHigh(data[p], r)
    ensures exists k :: 0 <= k < |RegionEvents(data, r)| &&
              RegionEvents(data, r)[k].start <= data[p].ts <= RegionEvents(data, r)[k].end
  {
    var h := HighFlags(data, r);
    var runs := MaximalRuns(h);
    RunsWithin(data, r, 0);
    RunsFromCover(h, 0, p);
    var k :| 0 <= k < |runs| && runs[k].start <= p < runs[k].end;
    EmitAt(data, r, runs, k);
    EventSpansRun(data, r, runs[k], p);
    assert RegionEvents(data, r)[k] == EventOf(data, r, runs[k]);
  }

  /** The merged list holds the heel events, then the left ankle's, then the right ankle's. */
  lemma EventsGrouped(data: seq<PressureSample>)
    ensures EventsFor(data, Regions) ==
            RegionEvents(data, Heel) + RegionEvents(data, LeftAnkle) + RegionEvents(data, RightAnkle)
  {
    assert [Heel][..0] == [];
    assert EventsFor(data, [Heel]) == RegionEvents(data, Heel);
    assert [Heel, LeftAnkle][..1] == [Heel];
    assert EventsFor(data, [Heel, LeftAnkle]) == RegionEvents(data, Heel) + RegionEvents(data, LeftAnkle);
    assert Regions[..2] == [Heel, LeftAnkle];
  }
}
