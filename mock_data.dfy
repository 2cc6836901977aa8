/**
 * `generateMockData`: the synthetic history the endpoint serves.  The heel
 * channel replays the reference heel waveform cyclically; while the heel reads
 * zero (lying down) both ankles get a time-of-day curve plus seeded noise,
 * otherwise they read zero.
 */
module MockData {
  import opened Pressure
  import opened Rounding
  import opened HistoryPrng
  import opened HeelPressureTable

  const MinuteMs: nat := 60 * 1000
  const HourMs: nat := 60 * MinuteMs
  const DayMs: nat := 24 * HourMs

  /** `"3d"` and `"7d"` are recognised; every other period means 30 days. */
  function PeriodMs(period: string): (ms: nat)
    ensures ms == 3 * DayMs <==> period == "3d"
    ensures ms == 7 * DayMs <==> period == "7d"
    ensures ms == 3 * DayMs || ms == 7 * DayMs || ms == 30 * DayMs
  {
    if period == "3d" then 3 * DayMs else if period == "7d" then 7 * DayMs else 30 * DayMs
  }

  /** `"1m"` and `"5m"` are recognised; every other interval means one hour. */
  function IntervalMs(interval: string): (ms: nat)
    ensures ms == MinuteMs <==> interval == "1m"
    ensures ms == 5 * MinuteMs <==> interval == "5m"
    ensures ms == MinuteMs || ms == 5 * MinuteMs || ms == HourMs
  {
    if interval == "1m" then MinuteMs else if interval == "5m" then 5 * MinuteMs else HourMs
  }

  /** `Math.ceil(a / b)` on naturals. */
  function CeilDiv(a: nat, b: nat): (q: nat)
    requires b > 0
    ensures q * b >= a
    ensures q == 0 || (q - 1) * b < a
  {
    (a + b - 1) / b
  }

  /** `totalSamples`. */
  function SampleCount(period: string, interval: string): nat {
    CeilDiv(PeriodMs(period), IntervalMs(interval))
  }

  /** The seed: the hash of `` `${period}-${interval}` ``. */
  function Seed(period: string, interval: string): nat {
    HashString(period + "-" + interval)
  }

  /** The heel reading of sample `i`: the reference waveform, cycled. */
  function HeelAt(i: nat): int {
    HeelPressureDataLength();
    HeelPressureData[i % |HeelPressureData|].value
  }

  /** How many samples before `i` have a zero heel, i.e. took two draws each. */
  function ZeroHeelsBefore(i: nat): (z: nat)
    ensures z <= i
  {
    if i == 0 then 0 else ZeroHeelsBefore(i - 1) + (if HeelAt(i - 1) == 0 then 1 else 0)
  }

  /** The left ankle while lying: `round1(200 + 80 f + 25 (u - 0.5))`. */
  function LeftAnkle(factor: real, u: real): real {
    Round1(200.0 + 80.0 * factor + 25.0 * (u - 0.5))
  }

  /** The right ankle while lying: `round1(190 + 75 f + 25 (u - 0.5))`. */
  function RightAnkle(factor: real, u: real): real {
    Round1(190.0 + 75.0 * factor + 25.0 * (u - 0.5))
  }

  /** The timestamp of sample `i`. */
  function SampleTime(period: string, interval: string, now: int, i: nat): int {
    now - PeriodMs(period) + i * IntervalMs(interval)
  }

  /** The values successive `rng()` calls return for a seed. */
  function Stream(seed: int): (draw: nat -> real)
    ensures forall k :: 0.0 <= draw(k) < 1.0
  {
    (k: nat) => Draw(seed, k)
  }

  /**
   * Sample `i` of the generated history, given the stream of `rng()` values.
   * `timeOfDay` stands for `0.8 + 0.4 sin((hour - 6) pi / 12)` with the
   * server's local hour of the timestamp.
   */
  function SampleAt(period: string, interval: string, now: int, timeOfDay: int -> real,
                    draw: nat -> real, i: nat): PressureSample {
    var ts := SampleTime(period, interval, now, i);
    var heel := HeelAt(i);
    if heel == 0 then
      var z := ZeroHeelsBefore(i);
      PressureSample(ts, 0.0, LeftAnkle(timeOfDay(ts), draw(2 * z)),
                     RightAnkle(timeOfDay(ts), draw(2 * z + 1)))
    else
      PressureSample(ts, heel as real, 0.0, 0.0)
  }

  /** The first `n` samples of the history, given the stream of `rng()` values. */
  function History(period: string, interval: string, now: int, timeOfDay: int -> real,
                   draw: nat -> real, n: nat): (h: seq<PressureSample>)
    ensures |h| == n
  {
    if n == 0 then [] else History(period, interval, now, timeOfDay, draw, n - 1)
                           + [SampleAt(period, interval, now, timeOfDay, draw, n - 1)]
  }

  /** Entry `i` of a history is sample `i`, however long the history. */
  lemma {:induction false} HistoryAt(period: string, interval: string, now: int, timeOfDay: int -> real,
                                     draw: nat -> real, n: nat, i: nat)
    requires i < n
    ensures History(period, interval, now, timeOfDay, draw, n)[i] == SampleAt(period, interval, now, timeOfDay, draw, i)
  {
    if i < n - 1 {
      HistoryAt(period, interval, now, timeOfDay, draw, n - 1, i);
    }
  }

  /** The generation loop, with its own generator instance. */
  method GenerateMockData(period: string, interval: string, now: int, timeOfDay: int -> real)
    returns (samples: seq<PressureSample>)
    ensures |samples| == SampleCount(period, interval)
    ensures samples == History(period, interval, now, timeOfDay, Stream(Seed(period, interval)), |samples|)
  {
    var periodMs := PeriodMs(period);
    var intervalMs := IntervalMs(interval);
    samples := [];
    var seed := HashString(period + "-" + interval);
    var rng := new Mulberry32(seed);
    var totalSamples := CeilDiv(periodMs, intervalMs);
    for i := 0 to totalSamples
      invariant samples == History(period, interval, now, timeOfDay, Stream(seed), i)
      invariant rng.Valid() && rng.seed == seed && rng.draws == 2 * ZeroHeelsBefore(i)
    {
      var sample := NextSample(rng, period, interval, now, timeOfDay, i);
      samples := samples + [sample];
    }
  }

  /** One pass of the generation loop: sample `i`, drawing from `rng` only while lying. */
  method NextSample(rng: Mulberry32, period: string, interval: string, now: int, timeOfDay: int -> real, i: nat)
    returns (sample: PressureSample)
    requires rng.Valid() && rng.draws == 2 * ZeroHeelsBefore(i)
    modifies rng
    ensures rng.Valid() && rng.draws == 2 * ZeroHeelsBefore(i + 1)
    ensures sample == SampleAt(period, interval, now, timeOfDay, Stream(rng.seed), i)
  {
    var timestamp := now - PeriodMs(period) + i * IntervalMs(interval);
    var heelValue := HeelAt(i);
    var leftAnkle := 0.0;
    var rightAnkle := 0.0;
    if heelValue == 0 {
      var factor := timeOfDay(timestamp);
      var u1 := rng.Next();
      var u2 := rng.Next();
      leftAnkle := LeftAnkle(factor, u1);
      rightAnkle := RightAnkle(factor, u2);
      LyingSample(period, interval, now, timeOfDay, rng.seed, i, u1, u2);
    } else {
      StandingSample(period, interval, now, timeOfDay, rng.seed, i);
    }
    sample := PressureSample(timestamp, heelValue as real, leftAnkle, rightAnkle);
  }

  /** A lying sample is built from the next two draws. */
  lemma LyingSample(period: string, interval: string, now: int, timeOfDay: int -> real,
                    seed: int, i: nat, u1: real, u2: real)
    requires HeelAt(i) == 0
    requires u1 == Draw(seed, 2 * ZeroHeelsBefore(i)) && u2 == Draw(seed, 2 * ZeroHeelsBefore(i) + 1)
    ensures ZeroHeelsBefore(i + 1) == ZeroHeelsBefore(i) + 1
    ensures var ts := SampleTime(period, interval, now, i);
            SampleAt(period, interval, now, timeOfDay, Stream(seed), i)
            == PressureSample(ts, 0.0, LeftAnkle(timeOfDay(ts), u1), RightAnkle(timeOfDay(ts), u2))
  {
    var z := ZeroHeelsBefore(i);
  }

  /** A standing sample takes no draws. */
  lemma StandingSample(period: string, interval: string, now: int, timeOfDay: int -> real, seed: int, i: nat)
    requires HeelAt(i) != 0
    ensures ZeroHeelsBefore(i + 1) == ZeroHeelsBefore(i)
    ensures SampleAt(period, interval, now, timeOfDay, Stream(seed), i)
            == PressureSample(SampleTime(period, interval, now, i), HeelAt(i) as real, 0.0, 0.0)
  {
  }

  /** The sample counts of the nine recognised period/interval pairs. */
  lemma SampleCounts()
    ensures SampleCount("3d", "1m") == 4320 && SampleCount("3d", "5m") == 864 && SampleCount("3d", "1h") == 72
    ensures SampleCount("7d", "1m") == 10080 && SampleCount("7d", "5m") == 2016 && SampleCount("7d", "1h") == 168
    ensures SampleCount("30d", "1m") == 43200 && SampleCount("30d", "5m") == 8640 && SampleCount("30d", "1h") == 720
  {
    assert PeriodMs("3d") == 259200000 && PeriodMs("7d") == 604800000 && PeriodMs("30d") == 2592000000;
    assert IntervalMs("1m") == 60000 && IntervalMs("5m") == 300000 && IntervalMs("1h") == 3600000;
  }

  /** Whatever strings arrive, between 72 and 43200 samples are produced. */
  lemma SampleCountRange(period: string, interval: string)
    ensures 72 <= SampleCount(period, interval) <= 43200
  {
    var p, d := PeriodMs(period), IntervalMs(interval);
    if p == 3 * DayMs {
      if d == MinuteMs {} else if d == 5 * MinuteMs {} else {}
    } else if p == 7 * DayMs {
      if d == MinuteMs {} else if d == 5 * MinuteMs {} else {}
    } else {
      if d == MinuteMs {} else if d == 5 * MinuteMs {} else {}
    }
  }

  /** The samples are evenly spaced, start one period before `now` and end before it. */
  lemma SampleTimes(period: string, interval: string, now: int, i: nat)
    requires i < SampleCount(period, interval)
    ensures SampleTime(period, interval, now, 0) == now - PeriodMs(period)
    ensures SampleTime(period, interval, now, i + 1) == SampleTime(period, interval, now, i) + IntervalMs(interval)
    ensures now - PeriodMs(period) <= SampleTime(period, interval, now, i) < now
  {
    var d := IntervalMs(interval);
    assert i <= SampleCount(period, interval) - 1;
    assert i * d <= (SampleCount(period, interval) - 1) * d;
  }

  /** Sample `i` carries timestamp `SampleTime(i)`. */
  lemma SampleAtTime(period: string, interval: string, now: int, timeOfDay: int -> real, draw: nat -> real, i: nat)
    ensures SampleAt(period, interval, now, timeOfDay, draw, i).ts == SampleTime(period, interval, now, i)
  {
  }

  /** The generated samples are in strictly increasing time order. */
  lemma GeneratedChronological(period: string, interval: string, now: int, timeOfDay: int -> real,
                               draw: nat -> real, samples: seq<PressureSample>)
    requires forall i :: 0 <= i < |samples| ==> samples[i] == SampleAt(period, interval, now, timeOfDay, draw, i)
    ensures Chronological(samples)
  {
    forall i, j | 0 <= i < j < |samples| ensures samples[i].ts < samples[j].ts {
      var d := IntervalMs(interval);
      SampleAtTime(period, interval, now, timeOfDay, draw, i);
      SampleAtTime(period, interval, now, timeOfDay, draw, j);
      assert j * d - i * d == (j - i) * d;
      assert (j - i) * d > 0;
    }
  }

  /** The heel channel repeats with the waveform's period of 3356 samples. */
  lemma HeelCycles(i: nat)
    ensures HeelAt(i + 3356) == HeelAt(i)
    ensures 0 <= HeelAt(i) <= 199
  {
    HeelPressureDataLength();
    HeelPressureDataWithin();
    assert (i + 3356) % 3356 == i % 3356;
  }

  /** The first 701 samples of every history lie down (zero heel). */
  lemma HistoryStartsLying(i: nat)
    requires i < 701
    ensures HeelAt(i) == 0
  {
    HeelLeadingZeros();
  }

  /** Standing (a non-zero heel) means both ankles read zero. */
  lemma StandingUnloadsAnkles(period: string, interval: string, now: int, timeOfDay: int -> real, draw: nat -> real, i: nat)
    requires HeelAt(i) != 0
    ensures SampleAt(period, interval, now, timeOfDay, draw, i).leftAnkle == 0.0
    ensures SampleAt(period, interval, now, timeOfDay, draw, i).rightAnkle == 0.0
    ensures SampleAt(period, interval, now, timeOfDay, draw, i).heel > 0.0
  {
    HeelCycles(i);
  }

  /**
   * Lying (a zero heel) loads both ankles: with the time-of-day factor in
   * [0.4, 1.2], the left ankle lies in [219.5, 308.5] and the right in
   * [207.5, 292.5], so neither reaches the 350 kPa ankle threshold.
   */
  lemma {:induction false} LyingLoadsAnkles(period: string, interval: string, now: int, timeOfDay: int -> real, draw: nat -> real, i: nat)
    requires HeelAt(i) == 0
    requires 0.4 <= timeOfDay(SampleTime(period, interval, now, i)) <= 1.2
    requires forall k :: 0.0 <= draw(k) < 1.0
    ensures 219.5 <= SampleAt(period, interval, now, timeOfDay, draw, i).leftAnkle <= 308.5
    ensures 207.5 <= SampleAt(period, interval, now, timeOfDay, draw, i).rightAnkle <= 292.5
  {
    var f := timeOfDay(SampleTime(period, interval, now, i));
    var z := ZeroHeelsBefore(i);
    var u1, u2 := draw(2 * z), draw(2 * z + 1);
    assert 219.5 <= SampleAt(period, interval, now, timeOfDay, draw, i).leftAnkle <= 308.5 by {
      assert SampleAt(period, interval, now, timeOfDay, draw, i).leftAnkle == LeftAnkle(f, u1);
      AnkleRanges(f, u1);
    }
    assert 207.5 <= SampleAt(period, interval, now, timeOfDay, draw, i).rightAnkle <= 292.5 by {
      assert SampleAt(period, interval, now, timeOfDay, draw, i).rightAnkle == RightAnkle(f, u2);
      AnkleRanges(f, u2);
    }
  }

  /** The ankle formulas' ranges for a factor in [0.4, 1.2] and a draw in [0, 1). */
  lemma AnkleRanges(f: real, u: real)
    requires 0.4 <= f <= 1.2 && 0.0 <= u < 1.0
    ensures 219.5 <= LeftAnkle(f, u) <= 308.5
    ensures 207.5 <= RightAnkle(f, u) <= 292.5
  {
    assert -12.5 <= 25.0 * (u - 0.5) <= 12.5;
    Round1Within(200.0 + 80.0 * f + 25.0 * (u - 0.5), 219.5, 308.5);
    Round1Within(190.0 + 75.0 * f + 25.0 * (u - 0.5), 207.5, 292.5);
  }

  /** Distinct lying samples use distinct pairs of draws. */
  lemma {:induction false} DrawsNotShared(i: nat, j: nat)
    requires i < j && HeelAt(i) == 0
    ensures ZeroHeelsBefore(i) < ZeroHeelsBefore(j)
    decreases j
  {
    if j > i + 1 {
      DrawsNotShared(i, j - 1);
    }
  }
}
