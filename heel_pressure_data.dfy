/**
 * The reference heel-pressure waveform: a run-length table of 98 runs that
 * decompresses to 3356 readings numbered 1..3356.
 */
module HeelPressureTable {
  import opened Waveform

  /** The heel threshold exported beside the waveform. */
  const HeelPressureThreshold: real := 168.945515

  // The run-length table, one constant per line of heelPressureData.ts.
  const Line09: seq<Run> := [Run(0, 701)]
  const Line10: seq<Run> := [Run(4, 1), Run(14, 1), Run(32, 1), Run(62, 1), Run(107, 1), Run(140, 1), Run(141, 1)]
  const Line11: seq<Run> := [Run(122, 1), Run(106, 1), Run(95, 1), Run(92, 1), Run(96, 1), Run(103, 1), Run(115, 1)]
  const Line12: seq<Run> := [Run(126, 1), Run(133, 1), Run(136, 2), Run(134, 1), Run(136, 1), Run(139, 1), Run(145, 1)]
  const Line13: seq<Run> := [Run(148, 1), Run(149, 1), Run(153, 2), Run(155, 1), Run(158, 1), Run(161, 2), Run(163, 1)]
  const Line14: seq<Run> := [Run(168, 1), Run(172, 1), Run(175, 1), Run(178, 1), Run(180, 1), Run(181, 2), Run(180, 1)]
  const Line15: seq<Run> := [Run(182, 1), Run(181, 1), Run(182, 2), Run(181, 1), Run(183, 4), Run(182, 1), Run(183, 1)]
  const Line16: seq<Run> := [Run(184, 2), Run(184, 1), Run(182, 1), Run(183, 3), Run(182, 1), Run(183, 1), Run(184, 2)]
  const Line17: seq<Run> := [Run(185, 2), Run(188, 1), Run(192, 1), Run(198, 1), Run(199, 1), Run(198, 1), Run(195, 1)]
  const Line18: seq<Run> := [Run(191, 1), Run(189, 1), Run(187, 1), Run(189, 1), Run(187, 1), Run(186, 1), Run(184, 1)]
  const Line19: seq<Run> := [Run(182, 1)]
  const Line21: seq<Run> := [Run(165, 100), Run(172, 100), Run(178, 100), Run(183, 100), Run(190, 100)]
  const Line22: seq<Run> := [Run(195, 100), Run(185, 100), Run(175, 100), Run(168, 100), Run(173, 100)]
  const Line23: seq<Run> := [Run(180, 100), Run(187, 100), Run(193, 100), Run(189, 100), Run(176, 100)]
  const Line24: seq<Run> := [Run(169, 100), Run(171, 63)]
  const Line25: seq<Run> := [Run(159, 1), Run(151, 1), Run(141, 1), Run(130, 1), Run(115, 1), Run(96, 1), Run(86, 1)]
  const Line26: seq<Run> := [Run(70, 1), Run(51, 1), Run(39, 1), Run(27, 1), Run(17, 1), Run(10, 1), Run(6, 1), Run(2, 1)]
  const Line27: seq<Run> := [Run(0, 900)]

  /** The whole run-length table, in order. */
  const CompressedData: seq<Run> := Line09 + Line10 + Line11 + Line12 + Line13 + Line14 + Line15 + Line16 + Line17 + Line18 + Line19 + Line21 + Line22 + Line23 + Line24 + Line25 + Line26 + Line27

  /** The decompressed table. */
  const HeelPressureData: seq<Entry> := Decoded(CompressedData)

  lemma Line09Counts() ensures SumCounts(Line09) == 701 {}
  lemma Line10Counts() ensures SumCounts(Line10) == 7 {}
  lemma Line11Counts() ensures SumCounts(Line11) == 7 {}
  lemma Line12Counts() ensures SumCounts(Line12) == 8 {}
  lemma Line13Counts() ensures SumCounts(Line13) == 9 {}
  lemma Line14Counts() ensures SumCounts(Line14) == 8 {}
  lemma Line15Counts() ensures SumCounts(Line15) == 11 {}
  lemma Line16Counts() ensures SumCounts(Line16) == 11 {}
  lemma Line17Counts() ensures SumCounts(Line17) == 8 {}
  lemma Line18Counts() ensures SumCounts(Line18) == 7 {}
  lemma Line19Counts() ensures SumCounts(Line19) == 1 {}
  lemma Line21Counts() ensures SumCounts(Line21) == 500 {}
  lemma Line22Counts() ensures SumCounts(Line22) == 500 {}
  lemma Line23Counts() ensures SumCounts(Line23) == 500 {}
  lemma Line24Counts() ensures SumCounts(Line24) == 163 {}
  lemma Line25Counts() ensures SumCounts(Line25) == 7 {}
  lemma Line26Counts() ensures SumCounts(Line26) == 8 {}
  lemma Line27Counts() ensures SumCounts(Line27) == 900 {}

  /** The table decompresses to 3356 entries. */
  lemma {:induction false} HeelPressureDataLength()
    ensures SumCounts(CompressedData) == 3356
    ensures |HeelPressureData| == 3356
  {
    Line09Counts();
    Line10Counts();
    Line11Counts();
    Line12Counts();
    Line13Counts();
    Line14Counts();
    Line15Counts();
    Line16Counts();
    Line17Counts();
    Line18Counts();
    Line19Counts();
    Line21Counts();
    Line22Counts();
    Line23Counts();
    Line24Counts();
    Line25Counts();
    Line26Counts();
    Line27Counts();
    SumCountsAppend(Line09, Line10);
    SumCountsAppend(Line09 + Line10, Line11);
    SumCountsAppend(Line09 + Line10 + Line11, Line12);
    SumCountsAppend(Line09 + Line10 + Line11 + Line12, Line13);
    SumCountsAppend(Line09 + Line10 + Line11 + Line12 + Line13, Line14);
    SumCountsAppend(Line09 + Line10 + Line11 + Line12 + Line13 + Line14, Line15);
    SumCountsAppend(Line09 + Line10 + Line11 + Line12 + Line13 + Line14 + Line15, Line16);
    SumCountsAppend(Line09 + Line10 + Line11 + Line12 + Line13 + Line14 + Line15 + Line16, Line17);
    SumCountsAppend(Line09 + Line10 + Line11 + Line12 + Line13 + Line14 + Line15 + Line16 + Line17, Line18);
    SumCountsAppend(Line09 + Line10 + Line11 + Line12 + Line13 + Line14 + Line15 + Line16 + Line17 + Line18, Line19);
    SumCountsAppend(Line09 + Line10 + Line11 + Line12 + Line13 + Line14 + Line15 + Line16 + Line17 + Line18 + Line19, Line21);
    SumCountsAppend(Line09 + Line10 + Line11 + Line12 + Line13 + Line14 + Line15 + Line16 + Line17 + Line18 + Line19 + Line21, Line22);
    SumCountsAppend(Line09 + Line10 + Line11 + Line12 + Line13 + Line14 + Line15 + Line16 + Line17 + Line18 + Line19 + Line21 + Line22, Line23);
    SumCountsAppend(Line09 + Line10 + Line11 + Line12 + Line13 + Line14 + Line15 + Line16 + Line17 + Line18 + Line19 + Line21 + Line22 + Line23, Line24);
    SumCountsAppend(Line09 + Line10 + Line11 + Line12 + Line13 + Line14 + Line15 + Line16 + Line17 + Line18 + Line19 + Line21 + Line22 + Line23 + Line24, Line25);
    SumCountsAppend(Line09 + Line10 + Line11 + Line12 + Line13 + Line14 + Line15 + Line16 + Line17 + Line18 + Line19 + Line21 + Line22 + Line23 + Line24 + Line25, Line26);
    SumCountsAppend(Line09 + Line10 + Line11 + Line12 + Line13 + Line14 + Line15 + Line16 + Line17 + Line18 + Line19 + Line21 + Line22 + Line23 + Line24 + Line25 + Line26, Line27);
    ExpandLength(CompressedData);
  }

  // The bound, established a few lines of the table at a time.
  lemma {:induction false} WithinToLine14()
    ensures ValuesWithin(Line09 + Line10 + Line11 + Line12 + Line13 + Line14, 0, 199)
  {
    assert ValuesWithin(Line09, 0, 199);
    assert ValuesWithin(Line10, 0, 199);
    assert ValuesWithin(Line11, 0, 199);
    assert ValuesWithin(Line12, 0, 199);
    assert ValuesWithin(Line13, 0, 199);
    assert ValuesWithin(Line14, 0, 199);
    ValuesWithinAppend(Line09, Line10, 0, 199);
    ValuesWithinAppend(Line09 + Line10, Line11, 0, 199);
    ValuesWithinAppend(Line09 + Line10 + Line11, Line12, 0, 199);
    ValuesWithinAppend(Line09 + Line10 + Line11 + Line12, Line13, 0, 199);
    ValuesWithinAppend(Line09 + Line10 + Line11 + Line12 + Line13, Line14, 0, 199);
  }

  lemma {:induction false} WithinToLine19()
    ensures ValuesWithin(Line09 + Line10 + Line11 + Line12 + Line13 + Line14 + Line15 + Line16 + Line17 + Line18 + Line19, 0, 199)
  {
    WithinToLine14();
    assert ValuesWithin(Line15, 0, 199);
    assert ValuesWithin(Line16, 0, 199);
    assert ValuesWithin(Line17, 0, 199);
    assert ValuesWithin(Line18, 0, 199);
    assert ValuesWithin(Line19, 0, 199);
    ValuesWithinAppend(Line09 + Line10 + Line11 + Line12 + Line13 + Line14, Line15, 0, 199);
    ValuesWithinAppend(Line09 + Line10 + Line11 + Line12 + Line13 + Line14 + Line15, Line16, 0, 199);
    ValuesWithinAppend(Line09 + Line10 + Line11 + Line12 + Line13 + Line14 + Line15 + Line16, Line17, 0, 199);
    ValuesWithinAppend(Line09 + Line10 + Line11 + Line12 + Line13 + Line14 + Line15 + Line16 + Line17, Line18, 0, 199);
    ValuesWithinAppend(Line09 + Line10 + Line11 + Line12 + Line13 + Line14 + Line15 + Line16 + Line17 + Line18, Line19, 0, 199);
  }

  lemma {:induction false} WithinToLine27()
    ensures ValuesWithin(Line09 + Line10 + Line11 + Line12 + Line13 + Line14 + Line15 + Line16 + Line17 + Line18 + Line19 + Line21 + Line22 + Line23 + Line24 + Line25 + Line26 + Line27, 0, 199)
  {
    WithinToLine19();
    assert ValuesWithin(Line21, 0, 199);
    assert ValuesWithin(Line22, 0, 199);
    assert ValuesWithin(Line23, 0, 199);
    assert ValuesWithin(Line24, 0, 199);
    assert ValuesWithin(Line25, 0, 199);
    assert ValuesWithin(Line26, 0, 199);
    assert ValuesWithin(Line27, 0, 199);
    ValuesWithinAppend(Line09 + Line10 + Line11 + Line12 + Line13 + Line14 + Line15 + Line16 + Line17 + Line18 + Line19, Line21, 0, 199);
    ValuesWithinAppend(Line09 + Line10 + Line11 + Line12 + Line13 + Line14 + Line15 + Line16 + Line17 + Line18 + Line19 + Line21, Line22, 0, 199);
    ValuesWithinAppend(Line09 + Line10 + Line11 + Line12 + Line13 + Line14 + Line15 + Line16 + Line17 + Line18 + Line19 + Line21 + Line22, Line23, 0, 199);
    ValuesWithinAppend(Line09 + Line10 + Line11 + Line12 + Line13 + Line14 + Line15 + Line16 + Line17 + Line18 + Line19 + Line21 + Line22 + Line23, Line24, 0, 199);
    ValuesWithinAppend(Line09 + Line10 + Line11 + Line12 + Line13 + Line14 + Line15 + Line16 + Line17 + Line18 + Line19 + Line21 + Line22 + Line23 + Line24, Line25, 0, 199);
    ValuesWithinAppend(Line09 + Line10 + Line11 + Line12 + Line13 + Line14 + Line15 + Line16 + Line17 + Line18 + Line19 + Line21 + Line22 + Line23 + Line24 + Line25, Line26, 0, 199);
    ValuesWithinAppend(Line09 + Line10 + Line11 + Line12 + Line13 + Line14 + Line15 + Line16 + Line17 + Line18 + Line19 + Line21 + Line22 + Line23 + Line24 + Line25 + Line26, Line27, 0, 199);
  }

  /** Every entry lies in [0, 199]. */
  lemma {:induction false} HeelPressureDataWithin()
    ensures forall k :: 0 <= k < |HeelPressureData| ==> 0 <= HeelPressureData[k].value <= 199
  {
    WithinToLine27();
    ExpandWithin(CompressedData, 0, 199);
  }

  /** The largest heel value, 199, occurs in the table. */
  lemma {:induction false} HeelPeakReached()
    ensures exists k :: 0 <= k < |HeelPressureData| && HeelPressureData[k].value == 199
  {
    ExpandContains(Line17, 4);
    ContainsAppend(Line09 + Line10 + Line11 + Line12 + Line13 + Line14 + Line15 + Line16, Line17, 199);
    ContainsAppend(Line09 + Line10 + Line11 + Line12 + Line13 + Line14 + Line15 + Line16 + Line17, Line18, 199);
    ContainsAppend(Line09 + Line10 + Line11 + Line12 + Line13 + Line14 + Line15 + Line16 + Line17 + Line18, Line19, 199);
    ContainsAppend(Line09 + Line10 + Line11 + Line12 + Line13 + Line14 + Line15 + Line16 + Line17 + Line18 + Line19, Line21, 199);
    ContainsAppend(Line09 + Line10 + Line11 + Line12 + Line13 + Line14 + Line15 + Line16 + Line17 + Line18 + Line19 + Line21, Line22, 199);
    ContainsAppend(Line09 + Line10 + Line11 + Line12 + Line13 + Line14 + Line15 + Line16 + Line17 + Line18 + Line19 + Line21 + Line22, Line23, 199);
    ContainsAppend(Line09 + Line10 + Line11 + Line12 + Line13 + Line14 + Line15 + Line16 + Line17 + Line18 + Line19 + Line21 + Line22 + Line23, Line24, 199);
    ContainsAppend(Line09 + Line10 + Line11 + Line12 + Line13 + Line14 + Line15 + Line16 + Line17 + Line18 + Line19 + Line21 + Line22 + Line23 + Line24, Line25, 199);
    ContainsAppend(Line09 + Line10 + Line11 + Line12 + Line13 + Line14 + Line15 + Line16 + Line17 + Line18 + Line19 + Line21 + Line22 + Line23 + Line24 + Line25, Line26, 199);
    ContainsAppend(Line09 + Line10 + Line11 + Line12 + Line13 + Line14 + Line15 + Line16 + Line17 + Line18 + Line19 + Line21 + Line22 + Line23 + Line24 + Line25 + Line26, Line27, 199);
    var p :| 0 <= p < |Expand(CompressedData)| && Expand(CompressedData)[p] == 199;
    assert HeelPressureData[p].value == 199;
  }

  /** Some heel entry is above the heel threshold (the 172 on line 14). */
  lemma HeelAboveThresholdSomewhere()
    ensures exists k :: 0 <= k < |HeelPressureData| && HeelPressureData[k].value as real > HeelPressureThreshold
  {
    HeelPeakReached();
  }

  /** The table opens with 701 zeros (the patient lying down). */
  lemma {:induction false} HeelLeadingZeros()
    ensures |HeelPressureData| == 3356
    ensures forall k :: 0 <= k < 701 ==> HeelPressureData[k].value == 0
  {
    HeelPressureDataLength();
    assert CompressedData[0] == Run(0, 701);
    ExpandHead(CompressedData);
  }

  /** The table closes with 900 zeros. */
  lemma {:induction false} HeelTrailingZeros()
    ensures |HeelPressureData| == 3356
    ensures forall k :: 3356 - 900 <= k < 3356 ==> HeelPressureData[k].value == 0
  {
    HeelPressureDataLength();
    assert CompressedData[|CompressedData| - 1] == Run(0, 900);
    ExpandTail(CompressedData);
  }
}
