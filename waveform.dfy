/**
 * A run-length-encoded reference waveform and its decompression.  Both
 * pressure tables are written as `[value, count]` pairs and expanded once,
 * at module load, into entries numbered consecutively from 1.
 */
module Waveform {

  /** `[value, count]`: `value` repeated `count` times. */
  datatype Run = Run(value: int, count: nat)

  /** One decompressed reading: `{ relativeTime, value }`. */
  datatype Entry = Entry(relativeTime: int, value: int)

  /** `count` copies of `value`. */
  function Repeat(value: int, count: nat): (r: seq<int>)
    ensures |r| == count
    ensures forall k :: 0 <= k < count ==> r[k] == value
  {
    seq(count, _ => value)
  }

  /** The concatenation, in table order, of each run's repeated value. */
  function Expand(runs: seq<Run>): seq<int> {
    if runs == [] then [] else Repeat(runs[0].value, runs[0].count) + Expand(runs[1..])
  }

  /** The sum of the run counts. */
  function SumCounts(runs: seq<Run>): nat {
    if runs == [] then 0 else runs[0].count + SumCounts(runs[1..])
  }

  /** Values numbered from 1, as the `currentTime++` counter numbers them. */
  function Numbered(values: seq<int>): (t: seq<Entry>)
    ensures |t| == |values|
    ensures forall k :: 0 <= k < |t| ==> t[k] == Entry(k + 1, values[k])
  {
    seq(|values|, k requires 0 <= k < |values| => Entry(k + 1, values[k]))
  }

  /** The table the decompression loop builds. */
  function Decoded(runs: seq<Run>): seq<Entry> {
    Numbered(Expand(runs))
  }

  /** The decoded length is the sum of the run counts. */
  lemma {:induction false} ExpandLength(runs: seq<Run>)
    ensures |Expand(runs)| == SumCounts(runs)
  {
    if runs != [] {
      ExpandLength(runs[1..]);
    }
  }

  /** Decoding a concatenated table concatenates the decodings. */
  lemma {:induction false} ExpandAppend(a: seq<Run>, b: seq<Run>)
    ensures Expand(a + b) == Expand(a) + Expand(b)
  {
    if a == [] {
      assert a + b == b;
    } else {
      assert (a + b)[0] == a[0];
      assert (a + b)[1..] == a[1..] + b;
      ExpandAppend(a[1..], b);
    }
  }

  /** Run counts add up over a concatenation. */
  lemma {:induction false} SumCountsAppend(a: seq<Run>, b: seq<Run>)
    ensures SumCounts(a + b) == SumCounts(a) + SumCounts(b)
  {
    if a == [] {
      assert a + b == b;
    } else {
      assert (a + b)[0] == a[0];
      assert (a + b)[1..] == a[1..] + b;
      SumCountsAppend(a[1..], b);
    }
  }

  /** Every run value lies in [lo, hi]. */
  predicate ValuesWithin(runs: seq<Run>, lo: int, hi: int) {
    forall k :: 0 <= k < |runs| ==> lo <= runs[k].value <= hi
  }

  /** Bounds on the run values are bounds on the decoded values. */
  lemma {:induction false} ExpandWithin(runs: seq<Run>, lo: int, hi: int)
    requires ValuesWithin(runs, lo, hi)
    ensures forall p :: 0 <= p < |Expand(runs)| ==> lo <= Expand(runs)[p] <= hi
  {
    if runs != [] {
      assert ValuesWithin(runs[1..], lo, hi) by {
        forall k | 0 <= k < |runs[1..]| ensures lo <= runs[1..][k].value <= hi {
          assert runs[1..][k] == runs[k + 1];
        }
      }
      ExpandWithin(runs[1..], lo, hi);
    }
  }

  /** Bounds are kept by concatenating two tables. */
  lemma ValuesWithinAppend(a: seq<Run>, b: seq<Run>, lo: int, hi: int)
    requires ValuesWithin(a, lo, hi) && ValuesWithin(b, lo, hi)
    ensures ValuesWithin(a + b, lo, hi)
  {
  }

  /** A run with a non-zero count shows up in the decoding. */
  lemma {:induction false} ExpandContains(runs: seq<Run>, k: nat)
    requires k < |runs| && runs[k].count > 0
    ensures runs[k].value in Expand(runs)
  {
    if k == 0 {
      assert Expand(runs)[0] == runs[0].value;
    } else {
      assert runs[1..][k - 1] == runs[k];
      ExpandContains(runs[1..], k - 1);
      var p :| 0 <= p < |Expand(runs[1..])| && Expand(runs[1..])[p] == runs[k].value;
      assert Expand(runs)[runs[0].count + p] == runs[k].value;
    }
  }

  /** A value decoded from either part is decoded from their concatenation. */
  lemma ContainsAppend(a: seq<Run>, b: seq<Run>, v: int)
    requires v in Expand(a) || v in Expand(b)
    ensures v in Expand(a + b)
  {
    ExpandAppend(a, b);
  }

  /** The first run fills the start of the decoding. */
  lemma ExpandHead(runs: seq<Run>)
    requires runs != []
    ensures forall p :: 0 <= p < runs[0].count ==> Expand(runs)[p] == runs[0].value
  {
  }

  /** The last run fills the end of the decoding. */
  lemma ExpandTail(runs: seq<Run>)
    requires runs != []
    ensures |Expand(runs)| == SumCounts(runs)
    ensures forall p :: 0 <= SumCounts(runs) - runs[|runs| - 1].count <= p < SumCounts(runs) ==>
              Expand(runs)[p] == runs[|runs| - 1].value
  {
    var n := |runs|;
    var front, last := runs[..n - 1], runs[n - 1];
    assert runs == front + [last];
    ExpandAppend(front, [last]);
    ExpandLength(runs);
    ExpandLength(front);
    assert Expand([last]) == Repeat(last.value, last.count) + Expand([]);
    assert Expand(runs) == Expand(front) + Repeat(last.value, last.count);
  }

  /**
   * The module-level decompression loop: for each `[value, count]`, push
   * `count` entries `{ relativeTime: currentTime++, value }`.
   */
  method Decompress(runs: seq<Run>) returns (table: seq<Entry>)
    ensures table == Decoded(runs)
  {
    table := [];
    var currentTime := 1;
    var k := 0;
    while k < |runs|
      invariant 0 <= k <= |runs|
      invariant table == Numbered(Expand(runs[..k]))
      invariant currentTime == |table| + 1
    {
      var run := runs[k];
      var i := 0;
      while i < run.count
        invariant 0 <= i <= run.count
        invariant table == Numbered(Expand(runs[..k]) + Repeat(run.value, i))
        invariant currentTime == |table| + 1
      {
        assert Repeat(run.value, i + 1) == Repeat(run.value, i) + [run.value];
        table := table + [Entry(currentTime, run.value)];
        currentTime := currentTime + 1;
        i := i + 1;
      }
      assert runs[..k + 1] == runs[..k] + [run];
      ExpandAppend(runs[..k], [run]);
      assert Expand([run]) == Repeat(run.value, run.count) + Expand([]);
      k := k + 1;
    }
    assert runs[..|runs|] == runs;
  }
}
