/**
 * `downsampleLTTB`: Largest-Triangle-Three-Buckets.  The first and last
 * points are kept; the points between are cut into `T - 2` buckets and each
 * bucket contributes the point spanning the largest triangle with the
 * previous pick and the centroid of the next bucket.
 *
 * Bucket `k` starts at `floor(k * bs) + 1` with `bs = (n - 2) / (T - 2)`,
 * which on exact rationals is `(k * (n - 2)) / (T - 2) + 1`.  As written,
 * the next-bucket range of the last bucket is not clipped to the series and
 * the centroid loop reads past its end whenever `bs >= 2`;
 * `DownsampleLttbAsWritten` models that, `DownsampleLttb` clips the range.
 */
module Downsample {
  import opened Wrappers
  import opened Pressure

  /** `k * m`, by repeated addition. */
  function Times(k: nat, m: nat): nat {
    if k == 0 then 0 else Times(k - 1, m) + m
  }

  /** `Math.floor(a / d)`, by repeated subtraction. */
  function Quot(a: nat, d: nat): nat
    requires d > 0
    decreases a
  {
    if a < d then 0 else Quot(a - d, d) + 1
  }

  /** `k * (m + 1) == k * m + k`. */
  lemma {:induction false} TimesSuccRight(k: nat, m: nat)
    ensures Times(k, m + 1) == Times(k, m) + k
  {
    if k > 0 {
      TimesSuccRight(k - 1, m);
    }
  }

  /** `k * m == m * k`. */
  lemma {:induction false} TimesCommutes(k: nat, m: nat)
    ensures Times(k, m) == Times(m, k)
    decreases m
  {
    if m > 0 {
      TimesCommutes(k, m - 1);
      TimesSuccRight(k, m - 1);
    } else {
      TimesZero(k);
    }
  }

  /** `k * 0 == 0`. */
  lemma {:induction false} TimesZero(k: nat)
    ensures Times(k, 0) == 0
  {
    if k > 0 {
      TimesZero(k - 1);
    }
  }

  /** `Times` is multiplication. */
  lemma {:induction false} TimesIsProduct(k: nat, m: nat)
    ensures Times(k, m) == k * m
  {
    if k > 0 {
      TimesIsProduct(k - 1, m);
    }
  }

  /** `Quot` is floor division: `q * d <= a < (q + 1) * d`. */
  lemma {:induction false} QuotIsFloor(a: nat, d: nat)
    requires d > 0
    ensures Times(Quot(a, d), d) <= a < Times(Quot(a, d) + 1, d)
    decreases a
  {
    if a >= d {
      QuotIsFloor(a - d, d);
    }
  }

  /** `Math.floor(k * bucketSize) + 1`, with `bucketSize = (n - 2) / (t - 2)`. */
  function BucketBound(n: nat, t: int, k: nat): nat
    requires 2 < t < n
  {
    Quot(Times(k, n - 2), t - 2) + 1
  }

  /** A larger numerator never has a smaller quotient. */
  lemma {:induction false} QuotMonotone(a: nat, b: nat, d: nat)
    requires d > 0 && a <= b
    ensures Quot(a, d) <= Quot(b, d)
    decreases a
  {
    if a >= d {
      QuotMonotone(a - d, b - d, d);
    }
  }

  /** `floor((a + b) / d) >= floor(a / d) + floor(b / d)`. */
  lemma {:induction false} QuotAdd(a: nat, b: nat, d: nat)
    requires d > 0
    ensures Quot(a + b, d) >= Quot(a, d) + Quot(b, d)
    decreases a
  {
    if a < d {
      QuotMonotone(b, a + b, d);
    } else {
      QuotAdd(a - d, b, d);
    }
  }

  /** `floor((x * d + y) / d) == x + floor(y / d)`. */
  lemma {:induction false} QuotShift(x: nat, y: nat, d: nat)
    requires d > 0
    ensures Quot(Times(x, d) + y, d) == x + Quot(y, d)
  {
    if x > 0 {
      QuotShift(x - 1, y, d);
      assert Times(x, d) + y - d == Times(x - 1, d) + y;
    }
  }

  /** Consecutive bucket bounds are at least one apart, since `n - 2 > t - 2`. */
  lemma BucketStep(n: nat, t: int, k: nat)
    requires 2 < t < n
    ensures BucketBound(n, t, k) + 1 <= BucketBound(n, t, k + 1)
  {
    var m, d := n - 2, t - 2;
    assert Times(k + 1, m) == Times(k, m) + m;
    QuotAdd(Times(k, m), m, d);
    assert Quot(m, d) == Quot(m - d, d) + 1;
  }

  /** Bucket bounds grow with the bucket number. */
  lemma {:induction false} BucketMonotone(n: nat, t: int, j: nat, k: nat)
    requires 2 < t < n && j <= k
    ensures BucketBound(n, t, j) + (k - j) <= BucketBound(n, t, k)
    decreases k - j
  {
    if j < k {
      BucketStep(n, t, j);
      BucketMonotone(n, t, j + 1, k);
    }
  }

  /** The first bucket starts at 1 and bucket `t - 2` at `n - 1`. */
  lemma BucketEnds(n: nat, t: int)
    requires 2 < t < n
    ensures BucketBound(n, t, 0) == 1
    ensures BucketBound(n, t, t - 2) == n - 1
    ensures BucketBound(n, t, t - 1) == n - 1 + Quot(n - 2, t - 2)
  {
    var m, d := n - 2, t - 2;
    TimesCommutes(d, m);
    assert Times(d, m) == Times(m, d) + 0;
    QuotShift(m, 0, d);
    assert Times(d + 1, m) == Times(m, d) + m;
    QuotShift(m, m, d);
  }

  /**
   * The buckets are non-empty, adjacent and cover [1, n - 1); the next-bucket
   * range of every bucket but the last stays inside the series.
   */
  lemma BucketsPartition(n: nat, t: int, i: nat)
    requires 2 < t < n && i < t - 2
    ensures 1 <= BucketBound(n, t, i) < BucketBound(n, t, i + 1) <= n - 1
    ensures i < t - 3 ==> BucketBound(n, t, i + 2) <= n - 1
  {
    BucketEnds(n, t);
    BucketMonotone(n, t, 0, i);
    BucketStep(n, t, i);
    BucketMonotone(n, t, i + 1, t - 2);
    if i < t - 3 {
      BucketMonotone(n, t, i + 2, t - 2);
    }
  }

  /** The last next-bucket range ends inside the series exactly when `n - 2 < 2 (t - 2)`. */
  lemma LastRangeInBounds(n: nat, t: int)
    requires 2 < t < n
    ensures BucketBound(n, t, t - 1) <= n <==> n - 2 < 2 * (t - 2)
  {
    BucketEnds(n, t);
    var m, d := n - 2, t - 2;
    assert Quot(m, d) == Quot(m - d, d) + 1;
    if m >= 2 * d {
      assert Quot(m - d, d) == Quot(m - 2 * d, d) + 1;
    }
  }

  /** A point's x coordinate: `new Date(ts).getTime()`. */
  function X(p: PressureSample): real {
    p.ts as real
  }

  /** A point's y coordinate: the mean of its three channels. */
  function Y(p: PressureSample): real {
    (p.heel + p.leftAnkle + p.rightAnkle) / 3.0
  }

  /** The sum of x over `data[s..e]`. */
  function SumX(data: seq<PressureSample>, s: nat, e: nat): real
    requires s <= e <= |data|
    decreases e
  {
    if e == s then 0.0 else SumX(data, s, e - 1) + X(data[e - 1])
  }

  /** The sum of y over `data[s..e]`. */
  function SumY(data: seq<PressureSample>, s: nat, e: nat): real
    requires s <= e <= |data|
    decreases e
  {
    if e == s then 0.0 else SumY(data, s, e - 1) + Y(data[e - 1])
  }

  function Abs(x: real): (r: real)
    ensures r >= 0.0 && (r == x || r == -x)
  {
    if x < 0.0 then -x else x
  }

  /** The area of the triangle of point `pa`, centroid (`cx`, `cy`) and point `pb`. */
  function Area(pa: PressureSample, cx: real, cy: real, pb: PressureSample): real {
    Abs((X(pa) - cx) * (Y(pb) - Y(pa)) - (X(pa) - X(pb)) * (cy - Y(pa))) * 0.5
  }

  /** An area is never negative, so the first point of a bucket beats `maxArea = -1`. */
  lemma AreaNonNegative(pa: PressureSample, cx: real, cy: real, pb: PressureSample)
    ensures Area(pa, cx, cy, pb) >= 0.0
  {
  }

  /** The index in [s, e) of the largest triangle with `data[a]`, the first on ties. */
  function Best(data: seq<PressureSample>, a: nat, cx: real, cy: real, s: nat, e: nat): (b: nat)
    requires a < |data| && s < e <= |data|
    ensures s <= b < e
    decreases e
  {
    if e == s + 1 then s
    else
      var b := Best(data, a, cx, cy, s, e - 1);
      if Area(data[a], cx, cy, data[e - 1]) > Area(data[a], cx, cy, data[b]) then e - 1 else b
  }

  /** `Best` attains the largest area, and every earlier index has a strictly smaller one. */
  lemma {:induction false} BestIsFirstMax(data: seq<PressureSample>, a: nat, cx: real, cy: real, s: nat, e: nat)
    requires a < |data| && s < e <= |data|
    ensures forall k :: s <= k < e ==>
              Area(data[a], cx, cy, data[k]) <= Area(data[a], cx, cy, data[Best(data, a, cx, cy, s, e)])
    ensures forall k :: s <= k < Best(data, a, cx, cy, s, e) ==>
              Area(data[a], cx, cy, data[k]) < Area(data[a], cx, cy, data[Best(data, a, cx, cy, s, e)])
    decreases e
  {
    if e > s + 1 {
      BestIsFirstMax(data, a, cx, cy, s, e - 1);
    }
  }

  /** Where the (clipped) next-bucket range of bucket `i` ends. */
  function NextEnd(n: nat, t: int, i: nat): nat
    requires 2 < t < n
  {
    if BucketBound(n, t, i + 2) < n then BucketBound(n, t, i + 2) else n
  }

  /** The pick of bucket `i`, given the previous pick `a`. */
  function Chosen(data: seq<PressureSample>, t: int, i: nat, a: nat): (p: nat)
    requires 2 < t < |data| && i < t - 2 && a < |data|
    ensures BucketBound(|data|, t, i) <= p < BucketBound(|data|, t, i + 1)
    ensures 0 < p < |data| - 1
  {
    var n := |data|;
    BucketsPartition(n, t, i);
    BucketStep(n, t, i + 1);
    var s, e := BucketBound(n, t, i + 1), NextEnd(n, t, i);
    var len := (e - s) as real;
    Best(data, a, SumX(data, s, e) / len, SumY(data, s, e) / len, BucketBound(n, t, i), BucketBound(n, t, i + 1))
  }

  /** The picks of the first `k` buckets, each made against the previous pick (first: point 0). */
  function Picks(data: seq<PressureSample>, t: int, k: nat): (p: seq<nat>)
    requires 2 < t < |data| && k <= t - 2
    ensures |p| == k
    ensures forall j :: 0 <= j < k ==> p[j] < |data|
  {
    if k == 0 then []
    else
      var p := Picks(data, t, k - 1);
      p + [Chosen(data, t, k - 1, if k == 1 then 0 else p[k - 2])]
  }

  /** The points at the given indices. */
  function Project(data: seq<PressureSample>, idx: seq<nat>): (out: seq<PressureSample>)
    requires forall k :: 0 <= k < |idx| ==> idx[k] < |data|
    ensures |out| == |idx|
  {
    seq(|idx|, k requires 0 <= k < |idx| => data[idx[k]])
  }

  /** Pick `j` lies in bucket `j`. */
  lemma {:induction false} PicksInBuckets(data: seq<PressureSample>, t: int, k: nat, j: nat)
    requires 2 < t < |data| && j < k <= t - 2
    ensures BucketBound(|data|, t, j) <= Picks(data, t, k)[j] < BucketBound(|data|, t, j + 1)
  {
    var p := Picks(data, t, k - 1);
    if j < k - 1 {
      PicksInBuckets(data, t, k - 1, j);
      assert Picks(data, t, k)[j] == p[j];
    } else {
      var c := Chosen(data, t, k - 1, if k == 1 then 0 else p[k - 2]);
      assert Picks(data, t, k)[j] == c;
    }
  }

  /** Every pick lies strictly between the first and the last point. */
  lemma PicksInside(data: seq<PressureSample>, t: int, k: nat)
    requires 2 < t < |data| && k <= t - 2
    ensures forall j :: 0 <= j < k ==> 0 < Picks(data, t, k)[j] < |data| - 1
  {
    forall j | 0 <= j < k ensures 0 < Picks(data, t, k)[j] < |data| - 1 {
      BucketsPartition(|data|, t, j);
      PicksInBuckets(data, t, k, j);
    }
  }

  /** The indices kept: the first point, the picks, the last point. */
  function Kept(data: seq<PressureSample>, t: int): (idx: seq<nat>)
    requires 2 < t < |data|
    ensures |idx| == t
    ensures forall k :: 0 <= k < |idx| ==> idx[k] < |data|
    ensures idx[0] == 0 && idx[t - 1] == |data| - 1
    ensures forall k :: 0 < k < t - 1 ==> idx[k] == Picks(data, t, t - 2)[k - 1]
  {
    PicksInside(data, t, t - 2);
    [0] + Picks(data, t, t - 2) + [|data| - 1]
  }

  /** The downsampled series, with every next-bucket range clipped to the series. */
  function Downsampled(data: seq<PressureSample>, t: int): seq<PressureSample> {
    if |data| <= t || t < 3 then data else Project(data, Kept(data, t))
  }

  /** What `downsampleLTTB` as written returns, or the error it throws. */
  function DownsampledAsWritten(data: seq<PressureSample>, t: int): Result<seq<PressureSample>, string> {
    if |data| <= t || t < 3 then Success(data)
    else if |data| - 2 >= 2 * (t - 2) then Failure(ReadPastEnd)
    else Success(Downsampled(data, t))
  }

  /** The `TypeError` of reading `.ts` from `data[data.length]`. */
  const ReadPastEnd: string := "Cannot read properties of undefined (reading 'ts')"

  /** The centroid loop over `data[s..e]`. */
  method Centroid(data: seq<PressureSample>, s: nat, e: nat) returns (avgX: real, avgY: real)
    requires s < e <= |data|
    ensures avgX == SumX(data, s, e) / (e - s) as real
    ensures avgY == SumY(data, s, e) / (e - s) as real
  {
    var avgRangeLength := e - s;
    avgX, avgY := 0.0, 0.0;
    for j := s to e
      invariant avgX == SumX(data, s, j) && avgY == SumY(data, s, j)
    {
      avgX := avgX + X(data[j]);
      avgY := avgY + Y(data[j]);
    }
    avgX := avgX / avgRangeLength as real;
    avgY := avgY / avgRangeLength as real;
  }

  /** The largest-triangle loop over bucket [s, e), starting from `maxArea = -1`. */
  method PickInBucket(data: seq<PressureSample>, a: nat, s: nat, e: nat, avgX: real, avgY: real)
    returns (maxAreaPoint: nat)
    requires a < |data| && s < e <= |data|
    ensures maxAreaPoint == Best(data, a, avgX, avgY, s, e)
  {
    var maxArea := -1.0;
    maxAreaPoint := s;
    for j := s to e
      invariant j == s ==> maxArea == -1.0 && maxAreaPoint == s
      invariant j > s ==> maxAreaPoint == Best(data, a, avgX, avgY, s, j)
      invariant j > s ==> maxArea == Area(data[a], avgX, avgY, data[maxAreaPoint])
    {
      var area := Area(data[a], avgX, avgY, data[j]);
      AreaNonNegative(data[a], avgX, avgY, data[j]);
      if area > maxArea {
        maxArea := area;
        maxAreaPoint := j;
      }
    }
  }

  /** The picks so far and the carried point `a` after `i` buckets. */
  ghost predicate Sampled(data: seq<PressureSample>, t: int, i: nat, a: nat, sampled: seq<PressureSample>)
    requires 2 < t < |data| && i <= t - 2
  {
    PicksInside(data, t, i);
    var p := Picks(data, t, i);
    && a == (if i == 0 then 0 else p[i - 1])
    && a < |data|
    && sampled == [data[0]] + Project(data, p)
  }

  /** Appending one pick extends the projection by its point. */
  lemma ProjectSnoc(data: seq<PressureSample>, idx: seq<nat>, p: nat)
    requires forall k :: 0 <= k < |idx| ==> idx[k] < |data|
    requires p < |data|
    ensures Project(data, idx + [p]) == Project(data, idx) + [data[p]]
  {
  }

  /** One bucket of the loop: pick `p` appended, and carried as the next `a`. */
  lemma SampledStep(data: seq<PressureSample>, t: int, i: nat, a: nat, sampled: seq<PressureSample>, p: nat)
    requires 2 < t < |data| && i < t - 2
    requires Sampled(data, t, i, a, sampled)
    requires p == Chosen(data, t, i, a)
    ensures p < |data|
    ensures Sampled(data, t, i + 1, p, sampled + [data[p]])
  {
    var q := Picks(data, t, i);
    assert Picks(data, t, i + 1) == q + [p];
    PicksInside(data, t, i);
    PicksInside(data, t, i + 1);
    ProjectSnoc(data, q, p);
  }

  /** Closing the loop: the last point appended to the `T - 1` points picked so far. */
  lemma SampledEnd(data: seq<PressureSample>, t: int, a: nat, sampled: seq<PressureSample>)
    requires 2 < t < |data|
    requires Sampled(data, t, t - 2, a, sampled)
    ensures sampled + [data[|data| - 1]] == Downsampled(data, t)
  {
    var p := Picks(data, t, t - 2);
    PicksInside(data, t, t - 2);
    var idx := Kept(data, t);
    assert idx == [0] + p + [|data| - 1];
    var out := Project(data, idx);
    assert out == [data[0]] + Project(data, p) + [data[|data| - 1]];
  }

  /** One pass of the bucket loop, with the next-bucket range clipped to the series. */
  method PickBucket(data: seq<PressureSample>, t: int, i: nat, a: nat) returns (maxAreaPoint: nat)
    requires 2 < t < |data| && i < t - 2 && a < |data|
    ensures maxAreaPoint == Chosen(data, t, i, a)
  {
    var n := |data|;
    BucketsPartition(n, t, i);
    BucketStep(n, t, i + 1);
    var avgRangeStart := BucketBound(n, t, i + 1);
    var avgRangeEnd := BucketBound(n, t, i + 2);
    if avgRangeEnd > n {
      avgRangeEnd := n;
    }
    var avgX, avgY := Centroid(data, avgRangeStart, avgRangeEnd);
    var rangeOffs := BucketBound(n, t, i);
    var rangeTo := BucketBound(n, t, i + 1);
    maxAreaPoint := PickInBucket(data, a, rangeOffs, rangeTo, avgX, avgY);
  }

  /**
   * One pass of the bucket loop as written: the next-bucket range is not
   * clipped, and reading `data[j]` with `j >= n` yields `undefined`, whose
   * `.ts` throws.  The centroid loop of a range ending past the series
   * reaches such a `j`; that happens on the last bucket exactly when
   * `n - 2 >= 2 (T - 2)`.
   */
  method PickBucketAsWritten(data: seq<PressureSample>, t: int, i: nat, a: nat) returns (r: Option<nat>)
    requires 2 < t < |data| && i < t - 2 && a < |data|
    ensures r.None? <==> i == t - 3 && |data| - 2 >= 2 * (t - 2)
    ensures r.Some? ==> r.value == Chosen(data, t, i, a)
  {
    var n := |data|;
    BucketsPartition(n, t, i);
    BucketStep(n, t, i + 1);
    LastRangeInBounds(n, t);
    var avgRangeStart := BucketBound(n, t, i + 1);
    var avgRangeEnd := BucketBound(n, t, i + 2);
    if avgRangeEnd > n {
      return None;
    }
    var avgX, avgY := Centroid(data, avgRangeStart, avgRangeEnd);
    var rangeOffs := BucketBound(n, t, i);
    var rangeTo := BucketBound(n, t, i + 1);
    var maxAreaPoint := PickInBucket(data, a, rangeOffs, rangeTo, avgX, avgY);
    return Some(maxAreaPoint);
  }

  /** LTTB with the next-bucket range clipped to the series. */
  method DownsampleLttb(data: seq<PressureSample>, targetPoints: int) returns (sampled: seq<PressureSample>)
    ensures sampled == Downsampled(data, targetPoints)
  {
    if |data| <= targetPoints || targetPoints < 3 {
      return data;
    }
    var n, t := |data|, targetPoints;
    sampled := [data[0]];
    var a := 0;
    for i := 0 to t - 2
      invariant Sampled(data, t, i, a, sampled)
    {
      var maxAreaPoint := PickBucket(data, t, i, a);
      SampledStep(data, t, i, a, sampled, maxAreaPoint);
      sampled := sampled + [data[maxAreaPoint]];
      a := maxAreaPoint;
    }
    SampledEnd(data, t, a, sampled);
    sampled := sampled + [data[n - 1]];
  }

  /** LTTB as written: it throws on the last bucket when the bucket size is 2 or more. */
  method DownsampleLttbAsWritten(data: seq<PressureSample>, targetPoints: int)
    returns (r: Result<seq<PressureSample>, string>)
    ensures r == DownsampledAsWritten(data, targetPoints)
  {
    if |data| <= targetPoints || targetPoints < 3 {
      return Success(data);
    }
    var n, t := |data|, targetPoints;
    var sampled := [data[0]];
    var a := 0;
    for i := 0 to t - 2
      invariant Sampled(data, t, i, a, sampled)
      invariant i == t - 2 ==> n - 2 < 2 * (t - 2)
    {
      var pick := PickBucketAsWritten(data, t, i, a);
      if pick.None? {
        assert DownsampledAsWritten(data, t) == Failure(ReadPastEnd);
        return Failure(ReadPastEnd);
      }
      var maxAreaPoint := pick.value;
      SampledStep(data, t, i, a, sampled, maxAreaPoint);
      sampled := sampled + [data[maxAreaPoint]];
      a := maxAreaPoint;
    }
    SampledEnd(data, t, a, sampled);
    assert DownsampledAsWritten(data, t) == Success(Downsampled(data, t));
    return Success(sampled + [data[n - 1]]);
  }

  /**
   * The downsampled series has exactly `T` points, starts and ends with the
   * series' own ends, and is a subsequence of it: the kept indices strictly
   * increase, and pick `i` lies in bucket `i`.
   */
  lemma {:induction false} DownsampledShape(data: seq<PressureSample>, t: int)
    requires 2 < t < |data|
    ensures |Downsampled(data, t)| == t
    ensures Downsampled(data, t)[0] == data[0]
    ensures Downsampled(data, t)[t - 1] == data[|data| - 1]
    ensures forall k :: 0 <= k < t ==> Downsampled(data, t)[k] == data[Kept(data, t)[k]]
    ensures forall k :: 0 < k < t - 1 ==>
              BucketBound(|data|, t, k - 1) <= Kept(data, t)[k] < BucketBound(|data|, t, k)
  {
    var idx := Kept(data, t);
    assert Downsampled(data, t) == Project(data, idx);
    forall k | 0 < k < t - 1
      ensures BucketBound(|data|, t, k - 1) <= idx[k] < BucketBound(|data|, t, k)
    {
      PicksInBuckets(data, t, t - 2, k - 1);
    }
  }

  /** Picks strictly increase with the bucket number. */
  lemma PicksIncreasing(data: seq<PressureSample>, t: int, j: nat, k: nat)
    requires 2 < t < |data| && j < k < t - 2
    ensures Picks(data, t, t - 2)[j] < Picks(data, t, t - 2)[k]
  {
    PicksInBuckets(data, t, t - 2, j);
    PicksInBuckets(data, t, t - 2, k);
    BucketMonotone(|data|, t, j + 1, k);
  }

  /** The kept indices strictly increase: the output is an order-preserving subsequence. */
  lemma KeptIncreasing(data: seq<PressureSample>, t: int, j: nat, k: nat)
    requires 2 < t < |data| && j < k < t
    ensures Kept(data, t)[j] < Kept(data, t)[k]
  {
    if 0 < j && k < t - 1 {
      PicksIncreasing(data, t, j - 1, k - 1);
    } else {
      PicksInside(data, t, t - 2);
    }
  }

  /** A clipped range ends exactly where the unclipped one does when `n - 2 < 2 (T - 2)`. */
  lemma ClipIsIdle(n: nat, t: int, i: nat)
    requires 2 < t < n && i < t - 2 && n - 2 < 2 * (t - 2)
    ensures NextEnd(n, t, i) == BucketBound(n, t, i + 2)
  {
    LastRangeInBounds(n, t);
    BucketsPartition(n, t, i);
    if i == t - 3 {
      assert i + 2 == t - 1;
    }
  }

  /** Seven points to four: the last next-bucket range is [6, 8), one past the series. */
  lemma ReadPastEndExample()
    ensures BucketBound(7, 4, 3) == 8
  {
  }

  /** On the chart's path (more than 8000 points, target 1500) the as-written call always throws. */
  lemma ChartPathThrows(data: seq<PressureSample>)
    requires |data| > 8000
    ensures DownsampledAsWritten(data, 1500).Failure?
  {
  }

  /** Downsampling a chronological series gives a chronological series. */
  lemma DownsampledChronological(data: seq<PressureSample>, t: int)
    requires Chronological(data)
    ensures Chronological(Downsampled(data, t))
  {
    if 2 < t < |data| {
      DownsampledShape(data, t);
      var out := Downsampled(data, t);
      var idx := Kept(data, t);
      forall i, j | 0 <= i < j < |out| ensures out[i].ts < out[j].ts {
        KeptIncreasing(data, t, i, j);
        assert out[i] == data[idx[i]] && out[j] == data[idx[j]];
      }
    }
  }
}
