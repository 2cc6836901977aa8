/**
 * `formatDuration`, defined the same way in `components/history/StatsCards.tsx`
 * and `components/history/EventsTable.tsx`: a duration in milliseconds is
 * rounded to whole minutes and written as `{m}m` below an hour, otherwise as
 * `{h}h {r}m`, or `{h}h` when no minutes remain.
 */
module DurationText {
  import opened Wrappers
  import opened Rounding
  import opened JsText

  const MinuteMs: int := 60000

  /** `Math.round(durationMs / (1000 * 60))`. */
  function Minutes(durationMs: int): int {
    MathRound(durationMs as real / 60000.0)
  }

  /** The duration label. */
  function FormatDuration(durationMs: int): string {
    MinutesLabel(Minutes(durationMs))
  }

  /** The label of a whole number of minutes. */
  function MinutesLabel(minutes: int): string {
    if minutes < 60 then IntString(minutes) + "m"
    else
      var hours := minutes / 60;
      var remainingMinutes := minutes % 60;
      if remainingMinutes > 0 then IntString(hours) + "h " + IntString(remainingMinutes) + "m"
      else IntString(hours) + "h"
  }

  /** A number followed by its unit letter, read back. */
  function ReadUnit(p: string, unit: char): Option<int> {
    if |p| >= 1 && p[|p| - 1] == unit then ParseInt(p[..|p| - 1]) else None
  }

  /** A one-part label: `{m}m` or `{h}h`. */
  function ReadSingle(p: string): Option<int> {
    if ReadUnit(p, 'm').Some? then ReadUnit(p, 'm')
    else if ReadUnit(p, 'h').Some? then Some(ReadUnit(p, 'h').value * 60)
    else None
  }

  /** A two-part label: `{h}h` then `{r}m`. */
  function ReadPair(a: string, b: string): Option<int> {
    if ReadUnit(a, 'h').Some? && ReadUnit(b, 'm').Some?
    then Some(ReadUnit(a, 'h').value * 60 + ReadUnit(b, 'm').value)
    else None
  }

  /** The minutes a label denotes: `{m}m`, `{h}h` or `{h}h {r}m`. */
  function ReadDuration(s: string): Option<int> {
    var parts := Split(s, ' ');
    if |parts| == 1 then ReadSingle(parts[0])
    else if |parts| == 2 then ReadPair(parts[0], parts[1])
    else None
  }

  /** The label's minutes are the duration to the nearest minute, halves rounded up. */
  lemma MinutesNearest(durationMs: int)
    ensures Minutes(durationMs) * MinuteMs - 30000 <= durationMs < Minutes(durationMs) * MinuteMs + 30000
  {
    var m := Minutes(durationMs);
    var x := durationMs as real / 60000.0;
    assert m as real - 0.5 <= x < m as real + 0.5;
    assert durationMs as real == x * 60000.0;
    assert (m * MinuteMs) as real == m as real * 60000.0;
  }

  /** A rendered integer holds no space. */
  lemma IntStringNoSpace(i: int)
    ensures ' ' !in IntString(i)
  {
    var d := DecimalString(if i < 0 then -i else i);
    assert forall k :: 0 <= k < |d| ==> IsDigit(d[k]);
  }

  /** A number with its unit letter reads back as the number. */
  lemma ReadUnitBack(i: int, unit: char)
    ensures ReadUnit(IntString(i) + [unit], unit) == Some(i)
  {
    var p := IntString(i) + [unit];
    assert p[..|p| - 1] == IntString(i);
    ParseIntString(i);
  }

  /** A label with no space is read as one part. */
  lemma OnePart(s: string)
    requires ' ' !in s
    ensures Split(s, ' ') == [s]
  {
    SplitJoin([s], ' ');
  }

  /** `{m}m` reads back as m minutes. */
  lemma ReadMinutesLabel(m: int)
    ensures ReadDuration(IntString(m) + "m") == Some(m)
  {
    IntStringNoSpace(m);
    OnePart(IntString(m) + "m");
    ReadUnitBack(m, 'm');
  }

  /** `{h}h` reads back as h hours. */
  lemma ReadHoursLabel(h: int)
    ensures ReadDuration(IntString(h) + "h") == Some(h * 60)
  {
    var p := IntString(h) + "h";
    IntStringNoSpace(h);
    OnePart(p);
    ReadUnitBack(h, 'h');
    assert p[|p| - 1] == 'h';
    assert ReadUnit(p, 'm') == None;
  }

  /** A label of two parts is read as hours then minutes. */
  lemma ReadTwoParts(s: string, a: string, b: string, h: int, r: int)
    requires Split(s, ' ') == [a, b]
    requires ReadUnit(a, 'h') == Some(h) && ReadUnit(b, 'm') == Some(r)
    ensures ReadDuration(s) == Some(h * 60 + r)
  {
    var parts := Split(s, ' ');
    assert |parts| == 2 && parts[0] == a && parts[1] == b;
    assert ReadDuration(s) == ReadPair(a, b);
  }

  /** `{h}h {r}m` reads back as h hours and r minutes. */
  lemma ReadHoursMinutesLabel(h: int, r: int)
    ensures ReadDuration(IntString(h) + "h " + IntString(r) + "m") == Some(h * 60 + r)
  {
    var a, b := IntString(h) + "h", IntString(r) + "m";
    var text := IntString(h) + "h " + IntString(r) + "m";
    IntStringNoSpace(h);
    IntStringNoSpace(r);
    var parts := [a, b];
    assert Split(text, ' ') == parts by {
      assert parts[1..] == [b];
      assert Join(parts, ' ') == text;
      SplitJoin(parts, ' ');
    }
    ReadUnitBack(h, 'h');
    ReadUnitBack(r, 'm');
    ReadTwoParts(text, a, b, h, r);
  }

  /** Every minutes label reads back as its minutes. */
  lemma MinutesLabelReads(m: int)
    ensures ReadDuration(MinutesLabel(m)) == Some(m)
  {
    var h, r := m / 60, m % 60;
    if m < 60 {
      ReadMinutesLabel(m);
    } else if r > 0 {
      assert MinutesLabel(m) == IntString(h) + "h " + IntString(r) + "m";
      ReadHoursMinutesLabel(h, r);
      assert h * 60 + r == m;
    } else {
      assert MinutesLabel(m) == IntString(h) + "h";
      ReadHoursLabel(h);
      assert h * 60 == m;
    }
  }

  /** Every label reads back as the rounded minutes: the label loses nothing. */
  lemma FormatDurationReads(durationMs: int)
    ensures ReadDuration(FormatDuration(durationMs)) == Some(Minutes(durationMs))
  {
    MinutesLabelReads(Minutes(durationMs));
  }

  /**
   * From an hour on, the label is `{h}h {r}m`, or `{h}h` when r is 0, for
   * the hours and minutes with `h * 60 + r` equal to the rounded minutes.
   */
  lemma FormatDurationHours(durationMs: int, h: int, r: int)
    requires h >= 1 && 0 <= r < 60 && Minutes(durationMs) == h * 60 + r
    ensures FormatDuration(durationMs) ==
              if r > 0 then IntString(h) + "h " + IntString(r) + "m" else IntString(h) + "h"
  {
    var m := Minutes(durationMs);
    assert m / 60 == h && m % 60 == r;
  }
}
