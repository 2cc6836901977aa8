/**
 * `applyRollingAverage`: a centred moving average.  Point `i` becomes the
 * rounded mean, channel by channel, of the points in its window, which
 * reaches `floor(w/2)` points back and `ceil(w/2) - 1` points ahead,
 * clipped to the series; the timestamp is kept.
 */
module RollingAverage {
  import opened Rounding
  import opened Pressure
  import opened HistoryStats

  /** `Math.max(0, i - Math.floor(window / 2))`. */
  function WindowStart(i: nat, window: int): nat
    requires window > 1
  {
    if i < window / 2 then 0 else i - window / 2
  }

  /** `Math.min(n, i + Math.ceil(window / 2))`. */
  function WindowEnd(n: nat, i: nat, window: int): nat
    requires window > 1
  {
    if i + (window + 1) / 2 < n then i + (window + 1) / 2 else n
  }

  /** The window holds point `i`, at most `window` points, and exactly `window` away from the ends. */
  lemma WindowBounds(n: nat, i: nat, window: int)
    requires window > 1 && i < n
    ensures WindowStart(i, window) <= i < WindowEnd(n, i, window) <= n
    ensures WindowEnd(n, i, window) - WindowStart(i, window) <= window
    ensures window / 2 <= i && i + (window + 1) / 2 <= n ==>
              WindowEnd(n, i, window) - WindowStart(i, window) == window
  {
  }

  /** The window of point `i`. */
  function Window(data: seq<PressureSample>, window: int, i: nat): (w: seq<PressureSample>)
    requires window > 1 && i < |data|
    ensures w != []
  {
    WindowBounds(|data|, i, window);
    data[WindowStart(i, window)..WindowEnd(|data|, i, window)]
  }

  /** Point `i` of the smoothed series. */
  function SmoothAt(data: seq<PressureSample>, window: int, i: nat): PressureSample
    requires window > 1 && i < |data|
  {
    var w := Window(data, window, i);
    PressureSample(data[i].ts, Average(Values(w, Heel)), Average(Values(w, LeftAnkle)), Average(Values(w, RightAnkle)))
  }

  /** The smoothed series: the input itself when `window <= 1` or the input is empty. */
  function Smoothed(data: seq<PressureSample>, window: int): (out: seq<PressureSample>)
    ensures |out| == |data|
    ensures forall i :: 0 <= i < |data| ==> out[i].ts == data[i].ts
    ensures window <= 1 ==> out == data
  {
    if window <= 1 || data == [] then data
    else seq(|data|, i requires 0 <= i < |data| => SmoothAt(data, window, i))
  }

  /** One iteration of the smoothing loop: the window's rounded means. */
  method SmoothPoint(data: seq<PressureSample>, window: int, i: nat) returns (p: PressureSample)
    requires window > 1 && i < |data|
    ensures p == SmoothAt(data, window, i)
  {
    var start := if i - window / 2 > 0 then i - window / 2 else 0;
    var end := if |data| < i + (window + 1) / 2 then |data| else i + (window + 1) / 2;
    var windowData := data[start..end];
    var avgHeel := Sum(Values(windowData, Heel)) / |windowData| as real;
    var avgLeftAnkle := Sum(Values(windowData, LeftAnkle)) / |windowData| as real;
    var avgRightAnkle := Sum(Values(windowData, RightAnkle)) / |windowData| as real;
    p := PressureSample(data[i].ts, Round1(avgHeel), Round1(avgLeftAnkle), Round1(avgRightAnkle));
  }

  /** The smoothing loop. */
  method ApplyRollingAverage(data: seq<PressureSample>, window: int) returns (smoothed: seq<PressureSample>)
    ensures smoothed == Smoothed(data, window)
  {
    if window <= 1 || |data| == 0 {
      return data;
    }
    smoothed := [];
    for i := 0 to |data|
      invariant |smoothed| == i
      invariant forall k :: 0 <= k < i ==> smoothed[k] == SmoothAt(data, window, k)
    {
      var p := SmoothPoint(data, window, i);
      smoothed := smoothed + [p];
    }
  }

  /** Smoothing keeps every timestamp, so it keeps the time order. */
  lemma SmoothedChronological(data: seq<PressureSample>, window: int)
    requires Chronological(data)
    ensures Chronological(Smoothed(data, window))
  {
    var out := Smoothed(data, window);
    forall i, j | 0 <= i < j < |out| ensures out[i].ts < out[j].ts {
      assert out[i].ts == data[i].ts && out[j].ts == data[j].ts;
    }
  }

  /** Channel `r` of a slice is the slice of channel `r`. */
  lemma ValuesSlice(data: seq<PressureSample>, r: Region, s: nat, e: nat)
    requires s <= e <= |data|
    ensures Values(data[s..e], r) == Values(data, r)[s..e]
  {
  }

  /** Each output channel depends on that channel of the input alone. */
  lemma ChannelsIndependent(a: seq<PressureSample>, b: seq<PressureSample>, window: int, r: Region)
    requires |a| == |b| && Values(a, r) == Values(b, r)
    ensures Values(Smoothed(a, window), r) == Values(Smoothed(b, window), r)
  {
    if window > 1 && a != [] {
      forall i | 0 <= i < |a|
        ensures Channel(Smoothed(a, window)[i], r) == Channel(Smoothed(b, window)[i], r)
      {
        WindowBounds(|a|, i, window);
        var s, e := WindowStart(i, window), WindowEnd(|a|, i, window);
        ValuesSlice(a, r, s, e);
        ValuesSlice(b, r, s, e);
      }
    }
  }

  /** A constant series whose values have one decimal comes back unchanged. */
  lemma SmoothConstant(data: seq<PressureSample>, window: int, heel: real, left: real, right: real)
    requires OneDecimal(heel) && OneDecimal(left) && OneDecimal(right)
    requires forall k :: 0 <= k < |data| ==>
               data[k].heel == heel && data[k].leftAnkle == left && data[k].rightAnkle == right
    ensures Smoothed(data, window) == data
  {
    if window > 1 && data != [] {
      forall i | 0 <= i < |data| ensures Smoothed(data, window)[i] == data[i] {
        var w := Window(data, window, i);
        AverageOfConstant(Values(w, Heel), heel);
        AverageOfConstant(Values(w, LeftAnkle), left);
        AverageOfConstant(Values(w, RightAnkle), right);
      }
    }
  }

  /** Each smoothed value lies between the rounded bounds of its window's values. */
  lemma SmoothWithinWindow(data: seq<PressureSample>, window: int, i: nat, r: Region, lo: real, hi: real)
    requires window > 1 && i < |data|
    requires forall k :: WindowStart(i, window) <= k < WindowEnd(|data|, i, window) ==>
               lo <= Channel(data[k], r) <= hi
    ensures Round1(lo) <= Channel(Smoothed(data, window)[i], r) <= Round1(hi)
  {
    WindowBounds(|data|, i, window);
    var w := Window(data, window, i);
    AverageWithin(Values(w, r), lo, hi);
  }

  /** Non-negative readings smooth to non-negative readings. */
  lemma SmoothNonNegative(data: seq<PressureSample>, window: int, i: nat, r: Region)
    requires i < |data|
    requires forall k :: 0 <= k < |data| ==> Channel(data[k], r) >= 0.0
    ensures Channel(Smoothed(data, window)[i], r) >= 0.0
  {
    if window > 1 {
      AverageNonNegative(Values(Window(data, window, i), r));
    }
  }
}
