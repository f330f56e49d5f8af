/** The `hh:mm:ss` rendering of a log's fetch duration, with the decimal
    digits it is made of and a parser that reads it back. */
module TimeFormat {
  import opened Results

  predicate IsDigit(c: char) {
    '0' <= c <= '9'
  }

  predicate AllDigits(s: string) {
    forall i :: 0 <= i < |s| ==> IsDigit(s[i])
  }

  function DigitChar(d: nat): (c: char)
    requires d < 10
    ensures IsDigit(c)
  {
    ('0' as int + d) as char
  }

  function DigitValue(c: char): (d: nat)
    requires IsDigit(c)
    ensures d < 10
  {
    c as int - '0' as int
  }

  /** Python's `str` of a non-negative integer: decimal, no leading zero. */
  function Decimal(n: nat): (s: string)
    ensures 1 <= |s| && AllDigits(s)
    ensures n < 10 <==> |s| == 1
    ensures n >= 10 ==> s[0] != '0'
  {
    if n < 10 then [DigitChar(n)] else Decimal(n / 10) + [DigitChar(n % 10)]
  }

  /** The value of a string of decimal digits (leading zeros allowed). */
  function ParseDecimal(s: string): nat
    requires AllDigits(s)
  {
    if s == [] then 0 else ParseDecimal(s[..|s| - 1]) * 10 + DigitValue(s[|s| - 1])
  }

  lemma {:induction false} DecimalRoundTrip(n: nat)
    ensures ParseDecimal(Decimal(n)) == n
  {
    if n >= 10 {
      var s := Decimal(n);
      assert s[..|s| - 1] == Decimal(n / 10);
      DecimalRoundTrip(n / 10);
    }
  }

  /** The `{:02}` field: at least two digits, zero-padded on the left only
      up to two. */
  function ZeroPad2(n: nat): (s: string)
    ensures 2 <= |s| && AllDigits(s)
    ensures n < 100 <==> |s| == 2
    ensures n >= 10 ==> s[0] != '0'
    ensures ParseDecimal(s) == n
  {
    DecimalRoundTrip(n);
    if n < 10 then
      var s := "0" + Decimal(n);
      assert s[..1] == "0";
      s
    else
      Decimal(n)
  }

  /** Python's two `divmod` steps: seconds to (hours, minutes, seconds). */
  function Clock(seconds: nat): (hms: (nat, nat, nat))
    ensures hms.1 < 60 && hms.2 < 60
    ensures hms.0 * 3600 + hms.1 * 60 + hms.2 == seconds
  {
    var m, s := seconds / 60, seconds % 60;
    var h, m' := m / 60, m % 60;
    (h, m', s)
  }

  /** The decomposition is the only one with minutes and seconds below 60. */
  lemma ClockUnique(seconds: nat, h: nat, m: nat, s: nat)
    requires m < 60 && s < 60 && h * 3600 + m * 60 + s == seconds
    ensures Clock(seconds) == (h, m, s)
  {
    assert seconds == (h * 60 + m) * 60 + s;
    assert seconds / 60 == h * 60 + m;
    assert seconds % 60 == s;
  }

  /** `formatTimeOutput`: zero-padded `hh:mm:ss`, hours unbounded. */
  function FormatTimeOutput(seconds: nat): (r: string)
    ensures 8 <= |r|
    ensures r[|r| - 3] == ':' && r[|r| - 6] == ':'
    ensures seconds < 360000 <==> |r| == 8
    ensures seconds >= 36000 ==> r[0] != '0'
  {
    var hms := Clock(seconds);
    ZeroPad2(hms.0) + ":" + ZeroPad2(hms.1) + ":" + ZeroPad2(hms.2)
  }

  /** Reads `h:mm:ss` back into seconds; minutes and seconds are exactly two
      digits below 60, hours at least two digits. */
  function ParseTime(t: string): Option<nat> {
    if |t| < 8 || t[|t| - 6] != ':' || t[|t| - 3] != ':' then None
    else
      var hh, mm, ss := t[..|t| - 6], t[|t| - 5..|t| - 3], t[|t| - 2..];
      if !AllDigits(hh) || !AllDigits(mm) || !AllDigits(ss) then None
      else if ParseDecimal(mm) >= 60 || ParseDecimal(ss) >= 60 then None
      else Some(ParseDecimal(hh) * 3600 + ParseDecimal(mm) * 60 + ParseDecimal(ss))
  }

  /** The rendered duration reads back as the number of seconds it renders. */
  lemma FormatTimeRoundTrip(seconds: nat)
    ensures ParseTime(FormatTimeOutput(seconds)) == Some(seconds)
  {
    var hms := Clock(seconds);
    var hh, mm, ss := ZeroPad2(hms.0), ZeroPad2(hms.1), ZeroPad2(hms.2);
    assert FormatTimeOutput(seconds) == hh + ":" + mm + ":" + ss;
    JoinedFields(hh, mm, ss);
  }

  /** Three fields joined by colons, with the last two two characters wide,
      split back where they were joined. */
  lemma JoinedFields(hh: string, mm: string, ss: string)
    requires |mm| == 2 && |ss| == 2
    ensures var t := hh + ":" + mm + ":" + ss;
      && |t| == |hh| + 6 && t[|t| - 6] == ':' && t[|t| - 3] == ':'
      && t[..|t| - 6] == hh && t[|t| - 5..|t| - 3] == mm && t[|t| - 2..] == ss
  {
    var t := hh + ":" + mm + ":" + ss;
    assert t[..|t| - 6] == hh;
    assert t[|t| - 5..|t| - 3] == mm;
    assert t[|t| - 2..] == ss;
  }

  /** Distinct durations render distinctly. */
  lemma FormatTimeInjective(a: nat, b: nat)
    requires FormatTimeOutput(a) == FormatTimeOutput(b)
    ensures a == b
  {
    FormatTimeRoundTrip(a);
    FormatTimeRoundTrip(b);
  }

  lemma FormatTimeExampleHourMinuteSecond()
    ensures FormatTimeOutput(3661) == "01:01:01"
  {
    ClockUnique(3661, 1, 1, 1);
    assert ZeroPad2(1) == "01";
  }

  lemma FormatTimeExampleZero()
    ensures FormatTimeOutput(0) == "00:00:00"
  {
    ClockUnique(0, 0, 0, 0);
    assert ZeroPad2(0) == "00";
  }

  lemma FormatTimeExampleSeconds()
    ensures FormatTimeOutput(59) == "00:00:59"
  {
    ClockUnique(59, 0, 0, 59);
    assert ZeroPad2(0) == "00";
    assert Decimal(59) == "59";
  }

  /** Hours are not clamped: a hundred hours takes three digits. */
  lemma FormatTimeExampleHundredHours()
    ensures FormatTimeOutput(360000) == "100:00:00"
  {
    ClockUnique(360000, 100, 0, 0);
    assert ZeroPad2(0) == "00";
    assert Decimal(10) == "10";
    assert Decimal(100) == "100";
  }
}
