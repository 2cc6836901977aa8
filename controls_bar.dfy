/**
 * The history controls (`components/history/ControlsBar.tsx`): the CSV
 * export and its file name, and the value mappings of the interval and
 * smoothing selects. Turning a timestamp or a reading into text is the
 * runtime's job (the sample's ISO string, JavaScript's number-to-string);
 * both are parameters here.
 */
module ControlsBar {
  import opened Wrappers
  import opened Pressure
  import opened JsText
  import RollingAverage

  /** The CSV column names. */
  const Header: seq<string> := ["timestamp", "heel", "leftAnkle", "rightAnkle"]

  /** A file handed to the browser for download. */
  datatype CsvFile = CsvFile(name: string, content: string)

  /** The rows exported: the rolling average when smoothing is on, else the samples. */
  function ExportRows(data: seq<PressureSample>, smoothing: int): seq<PressureSample> {
    if smoothing > 0 then RollingAverage.Smoothed(data, smoothing) else data
  }

  /** The four fields of a row, before they are joined with commas. */
  function Fields(s: PressureSample, tsText: int -> string, num: real -> string): seq<string> {
    [tsText(s.ts), num(s.heel), num(s.leftAnkle), num(s.rightAnkle)]
  }

  /** `[sample.ts, sample.heel, sample.leftAnkle, sample.rightAnkle].join(",")`. */
  function Row(s: PressureSample, tsText: int -> string, num: real -> string): string {
    Join(Fields(s, tsText, num), ',')
  }

  /** The header line followed by one row per sample. */
  function Lines(rows: seq<PressureSample>, tsText: int -> string, num: real -> string): (lines: seq<string>)
    ensures |lines| == |rows| + 1
    ensures lines[0] == Join(Header, ',')
    ensures forall k :: 0 <= k < |rows| ==> lines[k + 1] == Row(rows[k], tsText, num)
  {
    [Join(Header, ',')] + seq(|rows|, k requires 0 <= k < |rows| => Row(rows[k], tsText, num))
  }

  /** `csvContent`: the lines joined by newlines, with no trailing newline. */
  function CsvContent(rows: seq<PressureSample>, tsText: int -> string, num: real -> string): string {
    Join(Lines(rows, tsText, num), '\n')
  }

  /** The download name, with the window in it when smoothing is on. */
  function FileName(period: string, smoothing: int): string {
    "pressure-history-" + period + (if smoothing > 0 then "-smoothed-" + IntString(smoothing) else "") + ".csv"
  }

  /** `exportCSV`: nothing without data, else the file it offers for download. */
  function ExportCsv(data: Option<seq<PressureSample>>, period: string, smoothing: int,
                     tsText: int -> string, num: real -> string): Option<CsvFile>
  {
    match data
    case None => None
    case Some(d) => Some(CsvFile(FileName(period, smoothing), CsvContent(ExportRows(d, smoothing), tsText, num)))
  }

  /** Rendered timestamps and readings hold neither a comma nor a newline. */
  ghost predicate PlainText(tsText: int -> string, num: real -> string) {
    && (forall t :: ',' !in tsText(t) && '\n' !in tsText(t))
    && (forall x :: ',' !in num(x) && '\n' !in num(x))
  }

  /** The header line is `timestamp,heel,leftAnkle,rightAnkle`. */
  lemma HeaderLine()
    ensures Join(Header, ',') == "timestamp,heel,leftAnkle,rightAnkle"
  {
    assert Header[1..][1..][1..] == ["rightAnkle"];
  }

  /**
   * Without data nothing is exported; with data the file is always offered,
   * even for an empty series, which exports the header line alone.
   */
  lemma ExportNeedsData(data: Option<seq<PressureSample>>, period: string, smoothing: int,
                        tsText: int -> string, num: real -> string)
    ensures ExportCsv(data, period, smoothing, tsText, num).None? <==> data.None?
    ensures data == Some([]) ==>
              ExportCsv(data, period, smoothing, tsText, num).value.content == "timestamp,heel,leftAnkle,rightAnkle"
  {
    HeaderLine();
    if data == Some([]) {
      assert ExportRows([], smoothing) == [];
      assert Lines([], tsText, num) == [Join(Header, ',')];
    }
  }

  /**
   * One exported row per sample, timestamps kept: the samples themselves
   * unless the window exceeds 1, their rolling averages when it does.
   */
  lemma ExportedSeries(data: seq<PressureSample>, smoothing: int)
    ensures |ExportRows(data, smoothing)| == |data|
    ensures forall k :: 0 <= k < |data| ==> ExportRows(data, smoothing)[k].ts == data[k].ts
    ensures smoothing <= 1 ==> ExportRows(data, smoothing) == data
    ensures smoothing > 1 ==>
              forall k :: 0 <= k < |data| ==> ExportRows(data, smoothing)[k] == RollingAverage.SmoothAt(data, smoothing, k)
  {
  }

  /** A row splits back into its four fields, in column order. */
  lemma RowFields(s: PressureSample, tsText: int -> string, num: real -> string)
    requires PlainText(tsText, num)
    ensures Split(Row(s, tsText, num), ',') == [tsText(s.ts), num(s.heel), num(s.leftAnkle), num(s.rightAnkle)]
  {
    SplitJoin(Fields(s, tsText, num), ',');
  }

  /**
   * Splitting the CSV at newlines gives the header line and then each
   * sample's row in sample order: `n + 1` lines for `n` samples.
   */
  lemma CsvLines(rows: seq<PressureSample>, tsText: int -> string, num: real -> string)
    requires PlainText(tsText, num)
    ensures var lines := Split(CsvContent(rows, tsText, num), '\n');
            && |lines| == |rows| + 1
            && lines[0] == "timestamp,heel,leftAnkle,rightAnkle"
            && forall k :: 0 <= k < |rows| ==> lines[k + 1] == Row(rows[k], tsText, num)
  {
    HeaderLine();
    var lines := Lines(rows, tsText, num);
    forall k | 0 <= k < |lines| ensures '\n' !in lines[k] {
      if k > 0 {
        JoinWithout(Fields(rows[k - 1], tsText, num), ',', '\n');
      }
    }
    SplitJoin(lines, '\n');
  }

  /** The file name tells whether the export was smoothed, and with which window. */
  lemma FileNameSmoothing(period: string, s1: int, s2: int)
    requires FileName(period, s1) == FileName(period, s2)
    ensures s1 > 0 <==> s2 > 0
    ensures s1 > 0 ==> s1 == s2
  {
    var prefix := "pressure-history-" + period;
    var suffix1 := (if s1 > 0 then "-smoothed-" + IntString(s1) else "") + ".csv";
    var suffix2 := (if s2 > 0 then "-smoothed-" + IntString(s2) else "") + ".csv";
    assert FileName(period, s1) == prefix + suffix1;
    assert FileName(period, s2) == prefix + suffix2;
    assert suffix1 == FileName(period, s1)[|prefix|..];
    assert suffix2 == FileName(period, s2)[|prefix|..];
    if s1 > 0 && s2 > 0 {
      var d1, d2 := IntString(s1), IntString(s2);
      assert |d1| == |d2|;
      assert d1 == suffix1[10..|suffix1| - 4];
      assert d2 == suffix2[10..|suffix2| - 4];
      ParseIntString(s1);
      ParseIntString(s2);
    }
  }

  /** The smoothing select reports `Number.parseInt` of the option's text. */
  function SmoothingFromSelect(value: string): Option<int> {
    ParseInt(value)
  }

  /** Every smoothing option, written with `toString`, reads back as the same window. */
  lemma SmoothingSelectRoundTrip(smoothing: int)
    ensures SmoothingFromSelect(IntString(smoothing)) == Some(smoothing)
  {
    ParseIntString(smoothing);
  }

  /** The interval select shows `interval || "auto"`. */
  function IntervalSelectValue(interval: Option<string>): string {
    if interval == None || interval == Some("") then "auto" else interval.value
  }

  /** The interval select reports "auto" as no interval. */
  function IntervalFromSelect(value: string): Option<string> {
    if value == "auto" then None else Some(value)
  }

  /**
   * The interval select round-trips every interval except the two it
   * cannot tell from "auto": the empty string and "auto" itself.
   */
  lemma IntervalSelectRoundTrip(interval: Option<string>, value: string)
    ensures interval != Some("") && interval != Some("auto") ==>
              IntervalFromSelect(IntervalSelectValue(interval)) == interval
    ensures value != "" ==> IntervalSelectValue(IntervalFromSelect(value)) == value
    ensures IntervalFromSelect(IntervalSelectValue(Some(""))) == None
  {
  }
}
