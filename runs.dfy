/**
 * Maximal runs of `true` in a sequence of flags.  Both the statistics
 * engine (samples above a threshold) and the chart (points where any
 * region is high) group consecutive flagged positions into runs; this
 * module is the reference definition both are proved against.
 */
module Runs {

  /** The half-open index range [start, end). */
  datatype Span = Span(start: nat, end: nat)

  /** The first index at or after `i` whose flag is false (or |h|). */
  function RunEnd(h: seq<bool>, i: nat): (j: nat)
    requires i <= |h|
    ensures i <= j <= |h|
    ensures forall k :: i <= k < j ==> h[k]
    ensures j == |h| || !h[j]
    decreases |h| - i
  {
    if i < |h| && h[i] then RunEnd(h, i + 1) else i
  }

  /** Every flagged run that starts at or after `i`, left to right. */
  function RunsFrom(h: seq<bool>, i: nat): (r: seq<Span>)
    requires i <= |h|
    ensures forall k :: 0 <= k < |r| ==> i <= r[k].start < r[k].end <= |h|
    decreases |h| - i
  {
    if i == |h| then []
    else if !h[i] then RunsFrom(h, i + 1)
    else
      var j := RunEnd(h, i);
      [Span(i, j)] + RunsFrom(h, j)
  }

  /** All the maximal runs of the sequence. */
  function MaximalRuns(h: seq<bool>): seq<Span> {
    RunsFrom(h, 0)
  }

  /** The number of flagged positions in [i, |h|). */
  function CountFrom(h: seq<bool>, i: nat): nat
    requires i <= |h|
    decreases |h| - i
  {
    if i == |h| then 0 else (if h[i] then 1 else 0) + CountFrom(h, i + 1)
  }

  /** The sum of the run lengths. */
  function TotalLength(r: seq<Span>): int {
    if r == [] then 0 else (r[0].end - r[0].start) + TotalLength(r[1..])
  }

  /** Each span is a block of flagged positions that cannot be extended. */
  predicate Maximal(h: seq<bool>, sp: Span)
  {
    && sp.start < sp.end <= |h|
    && (forall k :: sp.start <= k < sp.end ==> h[k])
    && (sp.start == 0 || !h[sp.start - 1])
    && (sp.end == |h| || !h[sp.end])
  }

  /** Inside a run, the run's end does not depend on where one starts. */
  lemma {:induction false} RunEndFrom(h: seq<bool>, s: nat, i: nat)
    requires s <= i <= |h|
    requires forall k :: s <= k < i ==> h[k]
    ensures RunEnd(h, s) == RunEnd(h, i)
    decreases i - s
  {
    if s < i {
      RunEndFrom(h, s + 1, i);
    }
  }

  /** A block of flagged positions from `s` that stops at `i` is the next run. */
  lemma RunAt(h: seq<bool>, s: nat, i: nat)
    requires s < i <= |h|
    requires forall k :: s <= k < i ==> h[k]
    requires i == |h| || !h[i]
    ensures RunsFrom(h, s) == [Span(s, i)] + RunsFrom(h, i)
  {
    RunEndFrom(h, s, i);
  }

  /** Each span ends before the next one starts, with a gap between them. */
  predicate Separated(r: seq<Span>) {
    forall k :: 0 <= k < |r| - 1 ==> r[k].end < r[k + 1].start
  }

  /** Every span of `r` is a maximal run of `h`. */
  predicate AllMaximal(h: seq<bool>, r: seq<Span>) {
    forall k :: 0 <= k < |r| ==> Maximal(h, r[k])
  }

  /** Putting a maximal run in front of later ones keeps both properties. */
  lemma Prepend(h: seq<bool>, sp: Span, r: seq<Span>)
    requires Maximal(h, sp) && AllMaximal(h, r) && Separated(r)
    requires r == [] || sp.end < r[0].start
    ensures AllMaximal(h, [sp] + r) && Separated([sp] + r)
  {
    var r' := [sp] + r;
    forall k | 0 <= k < |r'| ensures Maximal(h, r'[k]) {
      if k > 0 {
        assert r'[k] == r[k - 1];
      }
    }
    forall k | 0 <= k < |r'| - 1 ensures r'[k].end < r'[k + 1].start {
      if k > 0 {
        assert r'[k] == r[k - 1] && r'[k + 1] == r[k];
      }
    }
  }

  /**
   * The runs from a position that is not inside a run are maximal,
   * strictly ordered and separated by at least one unflagged position.
   */
  lemma {:induction false} RunsFromMaximal(h: seq<bool>, i: nat)
    requires i <= |h|
    requires i == 0 || !h[i - 1]
    ensures AllMaximal(h, RunsFrom(h, i))
    ensures Separated(RunsFrom(h, i))
    decreases |h| - i
  {
    if i < |h| {
      if !h[i] {
        RunsFromMaximal(h, i + 1);
      } else {
        var j := RunEnd(h, i);
        var rest := RunsFrom(h, j);
        if j < |h| {
          RunsFromMaximal(h, j + 1);
          assert rest == RunsFrom(h, j + 1);
          if rest != [] {
            assert Maximal(h, rest[0]);
            assert rest[0].start != j by {
              assert h[rest[0].start];
            }
          }
        }
        Prepend(h, Span(i, j), rest);
      }
    }
  }

  /** The runs account for every flagged position exactly once. */
  lemma {:induction false} RunsFromCount(h: seq<bool>, i: nat)
    requires i <= |h|
    ensures TotalLength(RunsFrom(h, i)) == CountFrom(h, i)
    decreases |h| - i
  {
    if i < |h| {
      if !h[i] {
        RunsFromCount(h, i + 1);
      } else {
        var j := RunEnd(h, i);
        RunsFromCount(h, j);
        CountOfBlock(h, i, j);
        var r := RunsFrom(h, i);
        assert r[1..] == RunsFrom(h, j);
      }
    }
  }

  /** A block of flagged positions contributes its length to the count. */
  lemma {:induction false} CountOfBlock(h: seq<bool>, i: nat, j: nat)
    requires i <= j <= |h|
    requires forall k :: i <= k < j ==> h[k]
    ensures CountFrom(h, i) == (j - i) + CountFrom(h, j)
    decreases j - i
  {
    if i < j {
      CountOfBlock(h, i + 1, j);
    }
  }

  /** Every flagged position at or after `i` lies in one of the runs. */
  lemma {:induction false} RunsFromCover(h: seq<bool>, i: nat, p: nat)
    requires i <= p < |h| && h[p]
    ensures exists k :: 0 <= k < |RunsFrom(h, i)| &&
              RunsFrom(h, i)[k].start <= p < RunsFrom(h, i)[k].end
    decreases |h| - i
  {
    var r := RunsFrom(h, i);
    if !h[i] {
      RunsFromCover(h, i + 1, p);
    } else {
      var j := RunEnd(h, i);
      if p < j {
        assert r[0] == Span(i, j);
      } else {
        RunsFromCover(h, j, p);
        var k :| 0 <= k < |RunsFrom(h, j)| && RunsFrom(h, j)[k].start <= p < RunsFrom(h, j)[k].end;
        assert r[k + 1] == RunsFrom(h, j)[k];
      }
    }
  }

  /** Without a flagged position at or after `i` there is no run there. */
  lemma {:induction false} NoFlagsNoRuns(h: seq<bool>, i: nat)
    requires i <= |h|
    requires forall k :: i <= k < |h| ==> !h[k]
    ensures RunsFrom(h, i) == []
    decreases |h| - i
  {
    if i < |h| {
      NoFlagsNoRuns(h, i + 1);
    }
  }

  /** When the last flag is set, the last run reaches the end of the sequence. */
  lemma {:induction false} RunsFromLast(h: seq<bool>, i: nat)
    requires i < |h| && h[|h| - 1]
    ensures RunsFrom(h, i) != []
    ensures RunsFrom(h, i)[|RunsFrom(h, i)| - 1].end == |h|
    decreases |h| - i
  {
    if !h[i] {
      RunsFromLast(h, i + 1);
    } else {
      var j := RunEnd(h, i);
      var rest := RunsFrom(h, j);
      if j < |h| {
        RunsFromLast(h, j);
        assert RunsFrom(h, i) == [Span(i, j)] + rest;
      }
    }
  }
}
