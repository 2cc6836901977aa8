/**
 * The history data model shared by the API route and the chart components:
 * samples, regions, per-region records, events and statistics.
 *
 * A sample's `ts` is the ISO-8601 string of a millisecond instant; here it
 * is that instant, as an integer number of milliseconds.
 */
module Pressure {

  /** The closed set of body regions. */
  datatype Region = Heel | LeftAnkle | RightAnkle

  /** The scan order the route and the stats cards use. */
  const Regions: seq<Region> := [Heel, LeftAnkle, RightAnkle]

  /** One reading of all three regions, in kPa, at instant `ts`. */
  datatype PressureSample = PressureSample(ts: int, heel: real, leftAnkle: real, rightAnkle: real)

  /** `sample[region]`. */
  function Channel(s: PressureSample, r: Region): real {
    match r
    case Heel => s.heel
    case LeftAnkle => s.leftAnkle
    case RightAnkle => s.rightAnkle
  }

  /** A `Record<Region, T>`: one entry per region, never missing. */
  datatype PerRegion<T> = PerRegion(heel: T, leftAnkle: T, rightAnkle: T) {
    function Get(r: Region): T {
      match r
      case Heel => heel
      case LeftAnkle => leftAnkle
      case RightAnkle => rightAnkle
    }

    /** `record[r] = x`: the entry for `r` replaced, the others kept. */
    function Set(r: Region, x: T): (p: PerRegion<T>)
      ensures p.Get(r) == x
      ensures forall q :: q != r ==> p.Get(q) == Get(q)
    {
      match r
      case Heel => this.(heel := x)
      case LeftAnkle => this.(leftAnkle := x)
      case RightAnkle => this.(rightAnkle := x)
    }
  }

  /** The maximum of one region and the instant of the sample attaining it. */
  datatype MaxRecord = MaxRecord(value: real, ts: int)

  /** A maximal run of samples strictly above a region's threshold. */
  datatype HighEvent = HighEvent(region: Region, start: int, end: int, peak: real, samples: nat)

  /** The time from an event's first to its last sample, in milliseconds. */
  function Duration(e: HighEvent): int {
    e.end - e.start
  }

  /** `PressureStats`: derived from one sample series. */
  datatype PressureStats = PressureStats(
    period: string,
    sampleCount: nat,
    avg: PerRegion<real>,
    max: PerRegion<MaxRecord>,
    timeInHighPct: PerRegion<real>,
    highEvents: seq<HighEvent>)

  /** `data.map((sample) => sample[region])`. */
  function Values(data: seq<PressureSample>, r: Region): (v: seq<real>)
    ensures |v| == |data|
    ensures forall k :: 0 <= k < |data| ==> v[k] == Channel(data[k], r)
  {
    seq(|data|, k requires 0 <= k < |data| => Channel(data[k], r))
  }

  /** Timestamps strictly increase along the series. */
  predicate Chronological(data: seq<PressureSample>) {
    forall i, j :: 0 <= i < j < |data| ==> data[i].ts < data[j].ts
  }
}
