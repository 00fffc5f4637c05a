/** Time of day as the tracking routes use it: a session's start and end are
    "HH:mm:ss" times within one day, and the session's length is their
    difference taken modulo one day, rendered again as "HH:mm:ss". */
module Clock {
  import opened Common

  const SecondsPerDay: int := 86400

  /** A time of day, in seconds after midnight. */
  type SecondOfDay = s: int | 0 <= s < 86400

  /** Length of a session from `start` to `end`. The server subtracts the two
      parsed times and formats the difference as a UTC time of day, so a
      negative difference wraps around midnight instead of failing. */
  function Elapsed(start: SecondOfDay, end: SecondOfDay): (d: SecondOfDay)
    ensures start <= end ==> d == end - start
    ensures end < start ==> d == end - start + SecondsPerDay
  {
    (end - start) % SecondsPerDay
  }

  predicate IsDigit(c: char) {
    '0' <= c <= '9'
  }

  function Digit(d: nat): (c: char)
    requires d < 10
    ensures IsDigit(c)
  {
    (48 + d) as char
  }

  function DigitValue(c: char): (d: nat)
    requires IsDigit(c)
    ensures d < 10 && Digit(d) == c
  {
    c as int - 48
  }

  /** Value of the two decimal digits at `r[i]` and `r[i + 1]`. */
  function Field(r: string, i: nat): (n: nat)
    requires i + 1 < |r| && IsDigit(r[i]) && IsDigit(r[i + 1])
    ensures n < 100
  {
    DigitValue(r[i]) * 10 + DigitValue(r[i + 1])
  }

  /** `n` with two digits and a leading zero, as moment's "HH", "mm", "ss". */
  function TwoDigits(n: nat): (r: string)
    requires n < 100
    ensures |r| == 2 && IsDigit(r[0]) && IsDigit(r[1]) && Field(r, 0) == n
  {
    [Digit(n / 10), Digit(n % 10)]
  }

  /** Shape of a rendered time of day: "dd:dd:dd". */
  predicate ClockShaped(r: string) {
    && |r| == 8 && r[2] == ':' && r[5] == ':'
    && IsDigit(r[0]) && IsDigit(r[1]) && IsDigit(r[3])
    && IsDigit(r[4]) && IsDigit(r[6]) && IsDigit(r[7])
  }

  /** The "HH:mm:ss" rendering of a time of day. */
  function FormatClock(s: SecondOfDay): (r: string)
    ensures ClockShaped(r)
    ensures Field(r, 0) < 24 && Field(r, 3) < 60 && Field(r, 6) < 60
    ensures Field(r, 0) * 3600 + Field(r, 3) * 60 + Field(r, 6) == s
  {
    var hours, rest := s / 3600, s % 3600;
    var h, m, sec := TwoDigits(hours), TwoDigits(rest / 60), TwoDigits(rest % 60);
    var r := h + ":" + m + ":" + sec;
    assert r[0] == h[0] && r[1] == h[1] && r[3] == m[0] && r[4] == m[1] && r[6] == sec[0] && r[7] == sec[1];
    r
  }

  /** Reads an "HH:mm:ss" string back into a time of day; `None` unless it
      has exactly that shape with hours below 24 and minutes and seconds
      below 60. */
  function ParseClock(r: string): (s: Option<SecondOfDay>)
    ensures s.Some? <==> ClockShaped(r) && Field(r, 0) < 24 && Field(r, 3) < 60 && Field(r, 6) < 60
  {
    if ClockShaped(r) then
      var h, m, sec := Field(r, 0), Field(r, 3), Field(r, 6);
      if h < 24 && m < 60 && sec < 60 then Some(h * 3600 + m * 60 + sec) else None
    else
      None
  }

  /** Rendering a time of day and reading it back gives the same time. */
  lemma ParseFormat(s: SecondOfDay)
    ensures ParseClock(FormatClock(s)) == Some(s)
  {
  }

  /** Every string that reads as a time of day is the rendering of that
      time: the format has one spelling per time. */
  lemma FormatParse(r: string)
    requires ParseClock(r).Some?
    ensures FormatClock(ParseClock(r).value) == r
  {
    var s := ParseClock(r).value;
    var h, m, sec := Field(r, 0), Field(r, 3), Field(r, 6);
    var f := FormatClock(s);
    FieldsDetermineClock(h, m, sec, Field(f, 0), Field(f, 3), Field(f, 6));
    DigitsDetermineField(r, f, 0);
    DigitsDetermineField(r, f, 3);
    DigitsDetermineField(r, f, 6);
  }

  lemma FieldsDetermineClock(h: nat, m: nat, s: nat, h': nat, m': nat, s': nat)
    requires h < 24 && m < 60 && s < 60 && h' < 24 && m' < 60 && s' < 60
    requires h * 3600 + m * 60 + s == h' * 3600 + m' * 60 + s'
    ensures h == h' && m == m' && s == s'
  {
  }

  lemma DigitsDetermineField(r: string, f: string, i: nat)
    requires i + 1 < |r| && i + 1 < |f|
    requires IsDigit(r[i]) && IsDigit(r[i + 1]) && IsDigit(f[i]) && IsDigit(f[i + 1])
    requires Field(r, i) == Field(f, i)
    ensures r[i] == f[i] && r[i + 1] == f[i + 1]
  {
    var a, b := DigitValue(r[i]), DigitValue(r[i + 1]);
    var c, d := DigitValue(f[i]), DigitValue(f[i + 1]);
    assert a * 10 + b == c * 10 + d;
    assert a == c && b == d;
  }

  /** The "HH:mm:ss" session length the server stores, or moment's
      "Invalid date" when the record has no start time to subtract. */
  function Duration(start: Option<SecondOfDay>, end: SecondOfDay): (r: string)
    ensures start.None? ==> r == "Invalid date"
    ensures start.Some? ==> ParseClock(r) == Some(Elapsed(start.value, end))
  {
    match start
    case None => "Invalid date"
    case Some(s) =>
      ParseFormat(Elapsed(s, end));
      FormatClock(Elapsed(s, end))
  }
}
