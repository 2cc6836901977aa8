/**
 * The `GET` handler of the history endpoint: query defaults, then the
 * generated series and its statistics.  URL parsing, logging and the JSON
 * response object are transport and are not modelled.
 */
module HistoryRoute {
  import opened Wrappers
  import opened Pressure
  import opened Runs
  import opened MockData
  import opened HistoryStats

  /** `searchParams.get(name) || fallback`: an absent or empty parameter takes the fallback. */
  function ParamOr(param: Option<string>, fallback: string): string {
    if param.Some? && param.value != "" then param.value else fallback
  }

  /** The default interval for a period: five minutes for 3d and 7d, an hour otherwise. */
  function DefaultInterval(period: string): (interval: string)
    ensures interval == "5m" <==> period == "3d" || period == "7d"
    ensures interval == "5m" || interval == "1h"
  {
    if period == "3d" then "5m" else if period == "7d" then "5m" else "1h"
  }

  /** The query the handler settles on. */
  datatype Query = Query(patientId: string, period: string, interval: string)

  /** The period (default "3d"), the interval (default by period) and the patient (default "demo"). */
  function Resolve(periodParam: Option<string>, intervalParam: Option<string>, patientParam: Option<string>): (q: Query)
    ensures q.period != "" && q.interval != "" && q.patientId != ""
    ensures periodParam.Some? && periodParam.value != "" ==> q.period == periodParam.value
    ensures periodParam.None? || periodParam.value == "" ==> q.period == "3d"
    ensures intervalParam.Some? && intervalParam.value != "" ==> q.interval == intervalParam.value
    ensures intervalParam.None? || intervalParam.value == "" ==> q.interval == DefaultInterval(q.period)
    ensures patientParam.Some? && patientParam.value != "" ==> q.patientId == patientParam.value
    ensures patientParam.None? || patientParam.value == "" ==> q.patientId == "demo"
  {
    var period := ParamOr(periodParam, "3d");
    Query(ParamOr(patientParam, "demo"), period, ParamOr(intervalParam, DefaultInterval(period)))
  }

  /** Without an interval parameter, the three periods give 864, 2016 and 720 samples. */
  lemma DefaultSampleCounts(period: string)
    ensures SampleCount(period, DefaultInterval(period))
            == if period == "3d" then 864 else if period == "7d" then 2016 else 720
  {
    SampleCounts();
    if period != "3d" && period != "7d" {
      assert PeriodMs(period) == PeriodMs("30d");
      assert IntervalMs("1h") == HourMs;
    }
  }

  /** `meta`: the period and interval actually used. */
  datatype Meta = Meta(period: string, interval: string)

  /** The body of a successful response. */
  datatype HistoryResponse = HistoryResponse(data: seq<PressureSample>, stats: PressureStats, meta: Meta)

  /** The handler's two outcomes: the history, or the 500 response of the catch block. */
  datatype Response = Ok(body: HistoryResponse) | ServerError(error: string, status: int)

  /**
   * The handler, given the three query parameters, the current instant and
   * the time-of-day curve.  The only throwing step it models, `computeStats`
   * on an empty series, cannot be reached: every query yields at least 72
   * samples, so the catch block never runs.
   */
  method Get(periodParam: Option<string>, intervalParam: Option<string>, patientParam: Option<string>,
             now: int, timeOfDay: int -> real) returns (resp: Response)
    ensures resp.Ok?
    ensures var q := Resolve(periodParam, intervalParam, patientParam);
            && resp.body.meta == Meta(q.period, q.interval)
            && resp.body.data == History(q.period, q.interval, now, timeOfDay, Stream(Seed(q.period, q.interval)),
                                         SampleCount(q.period, q.interval))
            && Stats(resp.body.data, q.period) == Success(resp.body.stats)
  {
    var q := Resolve(periodParam, intervalParam, patientParam);
    var data := GenerateMockData(q.period, q.interval, now, timeOfDay);
    SampleCountRange(q.period, q.interval);
    var stats := ComputeStats(data, q.period);
    match stats {
      case Success(s) =>
        resp := Ok(HistoryResponse(data, s, Meta(q.period, q.interval)));
      case Failure(_) =>
        assert false;
        resp := ServerError("Failed to fetch history data", 500);
    }
  }

  /**
   * With the time-of-day factor in [0.4, 1.2], no generated ankle reading
   * exceeds 350 kPa: the served history has no ankle events and reports no
   * time above the ankle threshold.
   */
  lemma GeneratedAnklesNeverHigh(period: string, interval: string, now: int, timeOfDay: int -> real, n: nat)
    requires forall t :: 0.4 <= timeOfDay(t) <= 1.2
    ensures var data := History(period, interval, now, timeOfDay, Stream(Seed(period, interval)), n);
            && RegionEvents(data, LeftAnkle) == [] && RegionEvents(data, RightAnkle) == []
            && CountAbove(Values(data, LeftAnkle), Threshold(LeftAnkle)) == 0
            && CountAbove(Values(data, RightAnkle), Threshold(RightAnkle)) == 0
  {
    var draw := Stream(Seed(period, interval));
    var data := History(period, interval, now, timeOfDay, draw, n);
    forall k | 0 <= k < n
      ensures !IsHigh(data[k], LeftAnkle) && !IsHigh(data[k], RightAnkle)
    {
      HistoryAt(period, interval, now, timeOfDay, draw, n, k);
      AnklesLowAt(period, interval, now, timeOfDay, draw, k);
    }
    AnkleQuiet(data, LeftAnkle);
    AnkleQuiet(data, RightAnkle);
  }

  /** Sample `i` never has an ankle above 350 kPa, lying or standing. */
  lemma AnklesLowAt(period: string, interval: string, now: int, timeOfDay: int -> real, draw: nat -> real, i: nat)
    requires forall t :: 0.4 <= timeOfDay(t) <= 1.2
    requires forall k :: 0.0 <= draw(k) < 1.0
    ensures !IsHigh(SampleAt(period, interval, now, timeOfDay, draw, i), LeftAnkle)
    ensures !IsHigh(SampleAt(period, interval, now, timeOfDay, draw, i), RightAnkle)
  {
    if HeelAt(i) == 0 {
      LyingLoadsAnkles(period, interval, now, timeOfDay, draw, i);
    } else {
      StandingUnloadsAnkles(period, interval, now, timeOfDay, draw, i);
    }
  }

  /** A region that is never high has no events and no high samples. */
  lemma AnkleQuiet(data: seq<PressureSample>, r: Region)
    requires forall k :: 0 <= k < |data| ==> !IsHigh(data[k], r)
    ensures RegionEvents(data, r) == []
    ensures CountAbove(Values(data, r), Threshold(r)) == 0
  {
    NoFlagsNoRuns(HighFlags(data, r), 0);
    EventSamplesAreHighCount(data, r);
  }
}
