/** The formatted-duration sensors: `_format_time` renders whole seconds as
    `H:MM:SS`, and two sensors apply it to the elapsed and remaining print
    time held in the record. */
module Sensor {

  import opened Options
  import opened Json
  import opened PrinterState

  /** The argument `_format_time` accepts: None, an int or a float. */
  datatype Seconds = Missing | WholeSeconds(n: int) | FloatSeconds(r: real)

  function DigitChar(d: nat): (c: char)
    requires d < 10
    ensures '0' <= c <= '9' && (c - '0') as int == d
  {
    ('0' as int + d) as char
  }

  predicate IsDigits(s: string)
  {
    forall k :: 0 <= k < |s| ==> '0' <= s[k] <= '9'
  }

  /** The number a string of decimal digits denotes. */
  function DigitsValue(s: string): nat
    requires IsDigits(s)
  {
    if s == [] then 0
    else DigitsValue(s[..|s| - 1]) * 10 + (s[|s| - 1] - '0') as nat
  }

  /** Python's `str(n)` of a non-negative int: decimal, without padding. */
  function Digits(n: nat): (r: string)
    ensures r != [] && IsDigits(r)
    ensures r[0] == '0' ==> n == 0
  {
    if n < 10 then [DigitChar(n)]
    else Digits(n / 10) + [DigitChar(n % 10)]
  }

  /** `f"{k:02d}"` for 0 <= k < 100: exactly two digits. */
  function TwoDigits(k: nat): (r: string)
    requires k < 100
    ensures |r| == 2 && IsDigits(r) && DigitsValue(r) == k
  {
    var r := [DigitChar(k / 10), DigitChar(k % 10)];
    assert r[..1] == [DigitChar(k / 10)];
    assert DigitsValue(r[..1]) == k / 10 by {
      assert r[..1][..0] == [];
    }
    r
  }

  /** `f"{hours}:{minutes:02d}:{secs:02d}"` for n whole seconds. */
  function Clock(n: nat): string
  {
    Digits(n / 3600) + ":" + TwoDigits(n % 3600 / 60) + ":" + TwoDigits(n % 60)
  }

  /** `_format_time`: "0:00:00" for None, zero and negative input; otherwise
      the input truncated to whole seconds and rendered as a clock. */
  function FormatTime(s: Seconds): (r: string)
    ensures r == Clock(Truncate(s))
  {
    ClockZero();
    match s
    case Missing => "0:00:00"
    case WholeSeconds(n) => if n <= 0 then "0:00:00" else Clock(n)
    case FloatSeconds(r) => if r <= 0.0 then "0:00:00" else Clock(TruncTowardZero(r))
  }

  /** The whole seconds the input stands for: the floor of a positive
      number, and zero for None and for anything not positive. */
  function Truncate(s: Seconds): nat
  {
    match s
    case Missing => 0
    case WholeSeconds(n) => if n > 0 then n else 0
    case FloatSeconds(r) => if r > 0.0 then r.Floor else 0
  }

  /** Reads `H:MM:SS` back: one or more hour digits, then two minute and two
      second digits, both below 60. */
  function ParseClock(t: string): Option<nat>
  {
    if |t| < 7 || t[|t| - 6] != ':' || t[|t| - 3] != ':' then None
    else
      var h, m, s := t[..|t| - 6], t[|t| - 5..|t| - 3], t[|t| - 2..];
      if IsDigits(h) && IsDigits(m) && IsDigits(s) && DigitsValue(m) < 60 && DigitsValue(s) < 60
      then Some(DigitsValue(h) * 3600 + DigitsValue(m) * 60 + DigitsValue(s))
      else None
  }

  /** Reading back the decimal rendering of n gives n. */
  lemma {:induction false} DigitsRoundTrip(n: nat)
    ensures DigitsValue(Digits(n)) == n
  {
    if n >= 10 {
      var r := Digits(n);
      assert r[..|r| - 1] == Digits(n / 10);
      DigitsRoundTrip(n / 10);
    }
  }

  /** Hours are n div 3600, and minutes and seconds are each below 60 and
      together with the hours make up n; no other split renders n. */
  lemma ClockFields(n: nat, h: nat, m: nat, s: nat)
    requires m < 60 && s < 60 && h * 3600 + m * 60 + s == n
    ensures Clock(n) == Digits(h) + ":" + TwoDigits(m) + ":" + TwoDigits(s)
  {
    assert n / 3600 == h;
    assert n % 3600 == m * 60 + s;
    assert n % 3600 / 60 == m;
    assert n % 60 == s;
  }

  /** Where the pieces of `d:mm:ss` sit, counted from the end. */
  lemma ClockPieces(d: string, mm: string, ss: string)
    requires |mm| == 2 && |ss| == 2
    ensures var t := d + ":" + mm + ":" + ss;
      |t| == |d| + 6 && t[..|t| - 6] == d && t[|t| - 6] == ':' && t[|t| - 3] == ':' &&
      t[|t| - 5..|t| - 3] == mm && t[|t| - 2..] == ss
  {
  }

  /** The remainder by 60 of a number written as a multiple of 60 plus a
      remainder. */
  lemma ModSixty(n: nat, q: nat, r: nat)
    requires r < 60 && n == q * 60 + r
    ensures n % 60 == r && n / 60 == q
  {
  }

  /** Hours, minutes and seconds make up the input, with minutes below 60. */
  lemma ClockArithmetic(n: nat)
    ensures n % 3600 / 60 < 60
    ensures n / 3600 * 3600 + n % 3600 / 60 * 60 + n % 60 == n
  {
    var h, r := n / 3600, n % 3600;
    var m, s := r / 60, r % 60;
    assert r == m * 60 + s;
    assert n == (h * 60 + m) * 60 + s;
    ModSixty(n, h * 60 + m, s);
  }

  /** The clock reads back as the seconds it renders. */
  lemma ClockRoundTrip(n: nat)
    ensures ParseClock(Clock(n)) == Some(n)
  {
    var h, m, s := n / 3600, n % 3600 / 60, n % 60;
    ClockArithmetic(n);
    var d, mm, ss := Digits(h), TwoDigits(m), TwoDigits(s);
    ClockPieces(d, mm, ss);
    DigitsRoundTrip(h);
    var t := Clock(n);
    assert t == d + ":" + mm + ":" + ss;
    assert t[..|t| - 6] == d && t[|t| - 5..|t| - 3] == mm && t[|t| - 2..] == ss;
    assert DigitsValue(d) == h && DigitsValue(mm) == m && DigitsValue(ss) == s;
  }

  /** No seconds render as "0:00:00". */
  lemma ClockZero()
    ensures Clock(0) == "0:00:00"
  {
  }

  /** `_format_time` renders the whole seconds its input stands for: the
      rendering reads back as `Truncate(s)`. */
  lemma FormatTimeRoundTrip(s: Seconds)
    ensures ParseClock(FormatTime(s)) == Some(Truncate(s))
  {
    ClockZero();
    ClockRoundTrip(0);
    match s
    case Missing =>
    case WholeSeconds(n) => if n > 0 { ClockRoundTrip(n); }
    case FloatSeconds(r) =>
      if r > 0.0 {
        assert TruncTowardZero(r) == r.Floor;
        ClockRoundTrip(r.Floor);
      }
  }

  /** The output is "0:00:00" exactly when the input stands for no whole
      second: None, zero, a negative number or a fraction below one. */
  lemma FormatTimeZero(s: Seconds)
    ensures FormatTime(s) == "0:00:00" <==> Truncate(s) == 0
  {
    ClockZero();
    if FormatTime(s) == "0:00:00" {
      FormatTimeRoundTrip(s);
      ClockRoundTrip(0);
    }
    if s.FloatSeconds? && s.r > 0.0 {
      assert TruncTowardZero(s.r) == s.r.Floor;
    }
  }

  /** The two formatted-duration sensors. */
  datatype DurationSensor = PrintDurationFormatted | TimeRemainingFormatted

  function SourceField(sensor: DurationSensor): Field
  {
    match sensor
    case PrintDurationFormatted => PrintDuration
    case TimeRemainingFormatted => PrintTimeRemaining
  }

  /** What `_format_time` makes of a stored value. An empty string, list or
      dict is falsy and formats like None; a non-empty one makes `<= 0`
      raise TypeError (None). A rounded reading is never stored in the two
      duration fields, and is not modelled here (None). */
  function SecondsOf(d: Datum): Option<Seconds>
  {
    match d
    case Plain(v) =>
      (match v
       case Null => Some(Missing)
       case Boolean(b) => Some(WholeSeconds(if b then 1 else 0))
       case Integer(i) => Some(WholeSeconds(i))
       case Number(r) => Some(FloatSeconds(r))
       case Text(s) => if s == [] then Some(Missing) else None
       case List(items) => if items == [] then Some(Missing) else None
       case Object(fields) => if fields == map[] then Some(Missing) else None)
    case Rounded(_, _) => None
  }

  /** The sensor's value: `_format_time(data.get(<field>, 0))`; None where
      that call raises. */
  function FormattedValue(data: Record, sensor: DurationSensor): (r: Option<string>)
    ensures r.Some? ==> ParseClock(r.value).Some?
    ensures SourceField(sensor) !in data ==> r == Some("0:00:00")
  {
    var d := if SourceField(sensor) in data then data[SourceField(sensor)] else Whole(0);
    match SecondsOf(d)
    case None => None
    case Some(s) =>
      FormatTimeRoundTrip(s);
      Some(FormatTime(s))
  }

  /** A missing duration shows as "0:00:00"; a stored whole number of
      seconds shows as the clock of that many seconds (none if negative). */
  lemma FormattedDurations(data: Record, sensor: DurationSensor)
    ensures SourceField(sensor) !in data ==> FormattedValue(data, sensor) == Some("0:00:00")
    ensures SourceField(sensor) in data && data[SourceField(sensor)].Plain? && data[SourceField(sensor)].v.Integer? ==>
      var n := data[SourceField(sensor)].v.i;
      FormattedValue(data, sensor).Some? &&
      ParseClock(FormattedValue(data, sensor).value) == Some(if n > 0 then n else 0)
  {
    if SourceField(sensor) in data && data[SourceField(sensor)].Plain? && data[SourceField(sensor)].v.Integer? {
      FormatTimeRoundTrip(WholeSeconds(data[SourceField(sensor)].v.i));
    }
    ClockZero();
  }
}
