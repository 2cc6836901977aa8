/**
 * The reference left-ankle waveform: a run-length table of 19 runs that
 * decompresses to 2360 readings numbered 1..2360.
 */
module AnklePressureTable {
  import opened Waveform

  /** The ankle threshold exported beside the waveform. */
  const AnklePressureThreshold: real := 643.0

  // The run-length table, one constant per line of anklePressureData.ts.
  const Line10: seq<Run> := [Run(0, 800)]
  const Line13: seq<Run> := [Run(320, 60), Run(345, 60), Run(352, 60), Run(365, 60), Run(340, 60)]
  const Line16: seq<Run> := [Run(0, 300)]
  const Line19: seq<Run> := [Run(330, 60), Run(347, 60), Run(362, 60), Run(355, 60), Run(338, 60)]
  const Line22: seq<Run> := [Run(0, 300)]
  const Line25: seq<Run> := [Run(342, 60), Run(357, 60), Run(348, 60), Run(339, 60), Run(335, 60), Run(370, 60)]

  /** The whole run-length table, in order. */
  const CompressedAnkleData: seq<Run> := Line10 + Line13 + Line16 + Line19 + Line22 + Line25

  /** The decompressed table. */
  const AnklePressureData: seq<Entry> := Decoded(CompressedAnkleData)

  lemma Line10Counts() ensures SumCounts(Line10) == 800 {}
  lemma Line13Counts() ensures SumCounts(Line13) == 300 {}
  lemma Line16Counts() ensures SumCounts(Line16) == 300 {}
  lemma Line19Counts() ensures SumCounts(Line19) == 300 {}
  lemma Line22Counts() ensures SumCounts(Line22) == 300 {}
  lemma Line25Counts() ensures SumCounts(Line25) == 360 {}

  /** The table decompresses to 2360 entries. */
  lemma {:induction false} AnklePressureDataLength()
    ensures SumCounts(CompressedAnkleData) == 2360
    ensures |AnklePressureData| == 2360
  {
    Line10Counts();
    Line13Counts();
    Line16Counts();
    Line19Counts();
    Line22Counts();
    Line25Counts();
    SumCountsAppend(Line10, Line13);
    SumCountsAppend(Line10 + Line13, Line16);
    SumCountsAppend(Line10 + Line13 + Line16, Line19);
    SumCountsAppend(Line10 + Line13 + Line16 + Line19, Line22);
    SumCountsAppend(Line10 + Line13 + Line16 + Line19 + Line22, Line25);
    ExpandLength(CompressedAnkleData);
  }

  /** Every entry lies in [0, 370]. */
  lemma {:induction false} AnklePressureDataWithin()
    ensures forall k :: 0 <= k < |AnklePressureData| ==> 0 <= AnklePressureData[k].value <= 370
  {
    assert ValuesWithin(Line10, 0, 370);
    assert ValuesWithin(Line13, 0, 370);
    assert ValuesWithin(Line16, 0, 370);
    assert ValuesWithin(Line19, 0, 370);
    assert ValuesWithin(Line22, 0, 370);
    assert ValuesWithin(Line25, 0, 370);
    ValuesWithinAppend(Line10, Line13, 0, 370);
    ValuesWithinAppend(Line10 + Line13, Line16, 0, 370);
    ValuesWithinAppend(Line10 + Line13 + Line16, Line19, 0, 370);
    ValuesWithinAppend(Line10 + Line13 + Line16 + Line19, Line22, 0, 370);
    ValuesWithinAppend(Line10 + Line13 + Line16 + Line19 + Line22, Line25, 0, 370);
    ExpandWithin(CompressedAnkleData, 0, 370);
  }

  /** The largest ankle value, 370, occurs in the table. */
  lemma {:induction false} AnklePeakReached()
    ensures exists k :: 0 <= k < |AnklePressureData| && AnklePressureData[k].value == 370
  {
    ExpandContains(Line25, 5);
    ContainsAppend(Line10 + Line13 + Line16 + Line19 + Line22, Line25, 370);
    var p :| 0 <= p < |Expand(CompressedAnkleData)| && Expand(CompressedAnkleData)[p] == 370;
    assert AnklePressureData[p].value == 370;
  }

  /** No ankle entry reaches the ankle threshold. */
  lemma AnkleBelowThreshold()
    ensures forall k :: 0 <= k < |AnklePressureData| ==> AnklePressureData[k].value as real < AnklePressureThreshold
  {
    AnklePressureDataWithin();
  }

  /** The table opens with 800 zeros (the patient standing). */
  lemma {:induction false} AnkleLeadingZeros()
    ensures |AnklePressureData| == 2360
    ensures forall k :: 0 <= k < 800 ==> AnklePressureData[k].value == 0
  {
    AnklePressureDataLength();
    assert CompressedAnkleData[0] == Run(0, 800);
    ExpandHead(CompressedAnkleData);
  }
}
