/**
 * The few JavaScript string operations the dashboard relies on: rendering an
 * integer in decimal, `parseInt`, `Array.prototype.join` / `String.prototype.split`
 * on a single-character separator, and `charCodeAt` (UTF-16 code units).
 */
module JsText {
  import opened Wrappers

  predicate IsDigit(c: char) { '0' <= c <= '9' }

  predicate AllDigits(s: string) { forall k :: 0 <= k < |s| ==> IsDigit(s[k]) }

  function DigitChar(d: nat): (c: char)
    requires d < 10
    ensures IsDigit(c)
  {
    ('0' as int + d) as char
  }

  /** The decimal rendering of a natural number, without leading zeros. */
  function DecimalString(n: nat): (s: string)
    ensures |s| >= 1 && AllDigits(s)
    ensures n >= 10 ==> s[0] != '0'
    ensures n < 10 <==> |s| == 1
  {
    if n < 10 then [DigitChar(n)] else DecimalString(n / 10) + [DigitChar(n % 10)]
  }

  /** `String(i)` for an integer `i`. */
  function IntString(i: int): (s: string)
    ensures |s| >= 1
    ensures s[0] == '-' <==> i < 0
  {
    if i < 0 then "-" + DecimalString(-i) else DecimalString(i)
  }

  /** Value of a digit in the given radix (10 or 16), or -1 when it is none. */
  function DigitValue(c: char, radix: nat): (v: int)
    requires radix == 10 || radix == 16
    ensures -1 <= v < radix
    ensures radix == 10 ==> (v >= 0 <==> IsDigit(c))
  {
    if '0' <= c <= '9' then c as int - '0' as int
    else if radix == 16 && 'a' <= c <= 'f' then c as int - 'a' as int + 10
    else if radix == 16 && 'A' <= c <= 'F' then c as int - 'A' as int + 10
    else -1
  }

  /** Length of the longest prefix of `s` made of radix digits. */
  function DigitRun(s: string, radix: nat): (n: nat)
    requires radix == 10 || radix == 16
    ensures n <= |s|
    ensures forall k :: 0 <= k < n ==> DigitValue(s[k], radix) >= 0
    ensures n == |s| || DigitValue(s[n], radix) < 0
  {
    if s == [] || DigitValue(s[0], radix) < 0 then 0 else 1 + DigitRun(s[1..], radix)
  }

  /** The number a string of radix digits denotes, most significant first. */
  function DigitsValue(s: string, radix: nat): nat
    requires radix == 10 || radix == 16
    requires forall k :: 0 <= k < |s| ==> DigitValue(s[k], radix) >= 0
  {
    if s == [] then 0
    else DigitsValue(s[..|s| - 1], radix) * radix + DigitValue(s[|s| - 1], radix)
  }

  /** The characters `parseInt` skips before the number (WhiteSpace and LineTerminator). */
  predicate IsJsSpace(c: char) {
    var v := c as int;
    (0x09 <= v <= 0x0D) || v == 0x20 || v == 0xA0 || v == 0x1680 || (0x2000 <= v <= 0x200A)
    || v == 0x2028 || v == 0x2029 || v == 0x202F || v == 0x205F || v == 0x3000 || v == 0xFEFF
  }

  /** `s` without its leading white space. */
  function TrimStart(s: string): (t: string)
    ensures |t| <= |s|
    ensures forall k :: 0 <= k < |s| - |t| ==> IsJsSpace(s[k])
    ensures t == [] || !IsJsSpace(t[0])
  {
    if s != [] && IsJsSpace(s[0]) then TrimStart(s[1..]) else s
  }

  /** What is left after trimming is the end of the original text. */
  lemma {:induction false} TrimStartSuffix(s: string)
    ensures TrimStart(s) == s[|s| - |TrimStart(s)|..]
  {
    if s != [] && IsJsSpace(s[0]) {
      TrimStartSuffix(s[1..]);
      assert s[1..][|s| - 1 - |TrimStart(s)|..] == s[|s| - |TrimStart(s)|..];
    }
  }

  /** An optional leading sign, split off: whether it was `-`, and the rest. */
  function SplitSign(t: string): (r: (bool, string))
    ensures |r.1| <= |t|
  {
    if t != [] && t[0] == '-' then (true, t[1..])
    else if t != [] && t[0] == '+' then (false, t[1..])
    else (false, t)
  }

  /** The unsigned part: a `0x`/`0X` prefix selects radix 16, otherwise 10. */
  function ParseUnsigned(u: string): Option<nat> {
    var hex := |u| >= 2 && u[0] == '0' && (u[1] == 'x' || u[1] == 'X');
    var radix := if hex then 16 else 10;
    var w := if hex then u[2..] else u;
    var n := DigitRun(w, radix);
    if n == 0 then None else Some(DigitsValue(w[..n], radix))
  }

  /**
   * `parseInt(s)` with no radix: leading white space is skipped, one sign is
   * taken, and the longest run of digits that follows is read; `None` stands
   * for `NaN` (no digits at all).
   */
  function ParseInt(s: string): Option<int> {
    var (negative, u) := SplitSign(TrimStart(s));
    match ParseUnsigned(u)
    case None => None
    case Some(m) =>
      var value: int := if negative then -(m as int) else m as int;
      Some(value)
  }

  /** Reading back the decimal rendering gives the number. */
  lemma {:induction false} DecimalValue(n: nat)
    ensures DigitsValue(DecimalString(n), 10) == n
  {
    if n >= 10 {
      var s := DecimalString(n);
      assert s[..|s| - 1] == DecimalString(n / 10);
      DecimalValue(n / 10);
    }
  }

  /** A decimal rendering reads back as itself. */
  lemma DecimalParses(n: nat)
    ensures ParseUnsigned(DecimalString(n)) == Some(n)
  {
    var d := DecimalString(n);
    assert DigitRun(d, 10) == |d|;
    assert d[..|d|] == d;
    DecimalValue(n);
  }

  /** Text that starts with a digit has no space or sign to skip. */
  lemma NoSpaceNoSign(d: string)
    requires d != [] && IsDigit(d[0])
    ensures TrimStart(d) == d && SplitSign(d) == (false, d)
  {
  }

  /** A leading minus sign is kept by trimming and then split off. */
  lemma MinusSign(d: string)
    ensures TrimStart("-" + d) == "-" + d && SplitSign("-" + d) == (true, d)
  {
    var s := "-" + d;
    assert s[0] == '-' && !IsJsSpace(s[0]);
    assert s[1..] == d;
  }

  /** Unsigned text that starts with a digit reads as its unsigned value. */
  lemma ParseIntPlain(d: string, m: nat)
    requires d != [] && IsDigit(d[0]) && ParseUnsigned(d) == Some(m)
    ensures ParseInt(d) == Some(m)
  {
    NoSpaceNoSign(d);
  }

  /** A minus sign in front of unsigned text negates its value. */
  lemma ParseIntMinus(d: string, m: nat)
    requires ParseUnsigned(d) == Some(m)
    ensures ParseInt("-" + d) == Some(-(m as int))
  {
    MinusSign(d);
  }

  /** A decimal rendering has no leading space or sign to skip. */
  lemma ParseIntDecimal(n: nat)
    ensures ParseInt(DecimalString(n)) == Some(n)
  {
    DecimalParses(n);
    ParseIntPlain(DecimalString(n), n);
  }

  /** A minus sign in front of a decimal rendering negates it. */
  lemma ParseIntNegated(n: nat)
    ensures ParseInt("-" + DecimalString(n)) == Some(-(n as int))
  {
    DecimalParses(n);
    ParseIntMinus(DecimalString(n), n);
  }

  /** `parseInt(String(i)) === i` for every integer. */
  lemma ParseIntString(i: int)
    ensures ParseInt(IntString(i)) == Some(i)
  {
    if i < 0 {
      ParseIntNegated(-i);
    } else {
      ParseIntDecimal(i);
    }
  }

  /** Text without leading digits is `NaN`; the empty field is the usual case. */
  lemma ParseIntEmpty()
    ensures ParseInt("") == None
    ensures ParseInt("abc") == None
  {
    assert TrimStart("") == "";
    assert SplitSign("") == (false, "");
    assert ParseUnsigned("") == None;
    assert !IsJsSpace('a');
    assert TrimStart("abc") == "abc";
    assert SplitSign("abc") == (false, "abc");
    assert DigitRun("abc", 10) == 0;
    assert ParseUnsigned("abc") == None;
  }

  /** `parseInt` stops at the first character that is not a digit. */
  lemma ParseIntStopsAtPoint()
    ensures ParseInt("12.5") == Some(12)
  {
    assert !IsJsSpace('1');
    assert TrimStart("12.5") == "12.5";
    assert SplitSign("12.5") == (false, "12.5");
    assert DigitRun("12.5", 10) == 2;
    assert "12.5"[..2] == "12";
    assert DigitsValue("12", 10) == 12 by {
      assert "12"[..1] == "1";
      assert "1"[..0] == "";
    }
    assert ParseUnsigned("12.5") == Some(12);
  }

  /** A `0x` prefix reads hexadecimal digits. */
  lemma ParseIntHex()
    ensures ParseInt("0x1F") == Some(31)
  {
    assert !IsJsSpace('0');
    assert TrimStart("0x1F") == "0x1F";
    assert SplitSign("0x1F") == (false, "0x1F");
    assert "0x1F"[2..] == "1F";
    assert DigitRun("1F", 16) == 2;
    assert "1F"[..2] == "1F";
    assert DigitsValue("1F", 16) == 31 by {
      assert "1F"[..1] == "1";
      assert "1"[..0] == "";
    }
    assert ParseUnsigned("0x1F") == Some(31);
  }

  /** `parts.join(sep)`. */
  function Join(parts: seq<string>, sep: char): string {
    if parts == [] then ""
    else if |parts| == 1 then parts[0]
    else parts[0] + [sep] + Join(parts[1..], sep)
  }

  /** Joining adds only separators: a character in no part and not the separator is not in the result. */
  lemma {:induction false} JoinWithout(parts: seq<string>, sep: char, c: char)
    requires c != sep
    requires forall k :: 0 <= k < |parts| ==> c !in parts[k]
    ensures c !in Join(parts, sep)
  {
    if |parts| > 1 {
      JoinWithout(parts[1..], sep, c);
      assert forall x :: x in Join(parts, sep) ==> x in parts[0] || x == sep || x in Join(parts[1..], sep);
    }
  }

  /** Index of the first `sep` in `s`, or `|s|`. */
  function IndexOf(s: string, sep: char): (i: nat)
    ensures i <= |s|
    ensures sep !in s[..i]
    ensures i < |s| ==> s[i] == sep
  {
    if s == [] then 0 else if s[0] == sep then 0 else 1 + IndexOf(s[1..], sep)
  }

  /** `s.split(sep)`: the pieces between separators, one more than separators. */
  function Split(s: string, sep: char): (r: seq<string>)
    ensures |r| >= 1
    ensures forall k :: 0 <= k < |r| ==> sep !in r[k]
    decreases |s|
  {
    var i := IndexOf(s, sep);
    if i == |s| then [s] else [s[..i]] + Split(s[i + 1..], sep)
  }

  /** Splitting a join recovers the parts when no part holds the separator. */
  lemma {:induction false} SplitJoin(parts: seq<string>, sep: char)
    requires |parts| >= 1
    requires forall k :: 0 <= k < |parts| ==> sep !in parts[k]
    ensures Split(Join(parts, sep), sep) == parts
  {
    var p := parts[0];
    assert IndexOfNoSep(p, sep, []) == |p|;
    if |parts| > 1 {
      var rest := Join(parts[1..], sep);
      var s := p + [sep] + rest;
      assert IndexOfNoSep(p, sep, [sep] + rest) == |p|;
      assert s == p + ([sep] + rest);
      assert s[..|p|] == p;
      assert s[|p| + 1..] == rest;
      SplitJoin(parts[1..], sep);
    }
  }

  /** `IndexOf` skips a prefix free of the separator. */
  function IndexOfNoSep(p: string, sep: char, rest: string): (i: nat)
    requires sep !in p
    requires rest == [] || rest[0] == sep
    ensures i == |p| && IndexOf(p + rest, sep) == |p|
  {
    if p == [] then
      assert p + rest == rest;
      0
    else
      assert (p + rest)[1..] == p[1..] + rest;
      1 + IndexOfNoSep(p[1..], sep, rest)
  }

  /** Joining a split gives back the string. */
  lemma {:induction false} JoinSplit(s: string, sep: char)
    ensures Join(Split(s, sep), sep) == s
    decreases |s|
  {
    var i := IndexOf(s, sep);
    if i < |s| {
      var rest := s[i + 1..];
      var parts := [s[..i]] + Split(rest, sep);
      assert Split(s, sep) == parts;
      assert parts[1..] == Split(rest, sep);
      JoinSplit(rest, sep);
      assert s == s[..i] + [sep] + rest;
    } else {
      assert Split(s, sep) == [s];
    }
  }

  /** `s.charCodeAt(k)` for every `k`: the UTF-16 encoding of `s`. */
  function CodeUnits(s: string): (u: seq<int>)
    ensures |u| >= |s|
    ensures forall k :: 0 <= k < |u| ==> 0 <= u[k] < 0x1_0000
  {
    if s == [] then [] else Utf16(s[0]) + CodeUnits(s[1..])
  }

  /** One character's UTF-16 code units: itself, or a surrogate pair. */
  function Utf16(c: char): (u: seq<int>)
    ensures 1 <= |u| <= 2
    ensures forall k :: 0 <= k < |u| ==> 0 <= u[k] < 0x1_0000
  {
    var v := c as int;
    if v < 0x1_0000 then [v]
    else [0xD800 + (v - 0x1_0000) / 0x400, 0xDC00 + (v - 0x1_0000) % 0x400]
  }

  /** Decoding well-formed UTF-16 back to characters. */
  function FromCodeUnits(u: seq<int>): Option<string>
    decreases |u|
  {
    if u == [] then Some([])
    else if 0xD800 <= u[0] < 0xDC00 then
      if |u| >= 2 && 0xDC00 <= u[1] < 0xE000 then
        match FromCodeUnits(u[2..])
        case None => None
        case Some(rest) => Some([(0x1_0000 + (u[0] - 0xD800) * 0x400 + (u[1] - 0xDC00)) as char] + rest)
      else None
    else if 0xDC00 <= u[0] < 0xE000 then None
    else if 0 <= u[0] < 0x1_0000 then
      match FromCodeUnits(u[1..])
      case None => None
      case Some(rest) => Some([u[0] as char] + rest)
    else None
  }

  /** The code units determine the string: decoding them recovers it. */
  lemma {:induction false} CodeUnitsRoundTrip(s: string)
    ensures FromCodeUnits(CodeUnits(s)) == Some(s)
  {
    if s != [] {
      var u := Utf16(s[0]);
      var rest := CodeUnits(s[1..]);
      CodeUnitsRoundTrip(s[1..]);
      if |u| == 2 {
        assert (u + rest)[2..] == rest;
      } else {
        assert (u + rest)[1..] == rest;
      }
      assert [s[0]] + s[1..] == s;
    }
  }

  /** An all-ASCII string's code units are its character codes. */
  lemma {:induction false} CodeUnitsAscii(s: string)
    requires forall k :: 0 <= k < |s| ==> s[k] as int < 0x80
    ensures |CodeUnits(s)| == |s|
    ensures forall k :: 0 <= k < |s| ==> CodeUnits(s)[k] == s[k] as int
  {
    if s != [] {
      CodeUnitsAscii(s[1..]);
    }
  }
}
