/** `get_test_run_duration` of subunit2sql/db/api.py: the elapsed time of a
    test run as `<whole seconds>.<six-digit microseconds>s`, computed from a
    normalised time delta, together with a reader of that format that shows
    the rendering loses nothing. */
module Duration {
  import opened Wrappers
  import opened Model

  /** DAY_SECONDS, 60 * 60 * 24. */
  const DaySeconds: int := 86400
  const MicrosPerSecond: int := 1000000
  const MicrosPerDay: int := 86400000000

  /** A time delta in the normal form of Python's timedelta: any number of
      days, then seconds within a day, then microseconds within a second. */
  datatype TimeDelta = TimeDelta(days: int, seconds: int, microseconds: int)
  {
    predicate Normal() {
      0 <= seconds < DaySeconds && 0 <= microseconds < MicrosPerSecond
    }

    function TotalMicroseconds(): int {
      (days * DaySeconds + seconds) * MicrosPerSecond + microseconds
    }
  }

  /** `end - start` on two timestamps. */
  function Subtract(end: Timestamp, start: Timestamp): (td: TimeDelta)
    ensures td.Normal() && td.TotalMicroseconds() == end - start
  {
    var d := end - start;
    var rem := d % MicrosPerDay;
    var td := TimeDelta(d / MicrosPerDay, rem / MicrosPerSecond, rem % MicrosPerSecond);
    assert rem == td.seconds * MicrosPerSecond + td.microseconds;
    assert d == td.days * MicrosPerDay + rem;
    assert td.TotalMicroseconds() == td.days * DaySeconds * MicrosPerSecond + td.seconds * MicrosPerSecond + td.microseconds;
    td
  }

  /** Euclidean division is determined by its quotient/remainder equation. */
  lemma DivModUnique(x: int, q: int, r: int, m: int)
    requires m > 0 && 0 <= r < m && x == q * m + r
    ensures x / m == q && x % m == r
  {
    var q', r' := x / m, x % m;
    assert x == q' * m + r';
    assert (q - q') * m == r' - r;
    if q > q' {
      MultipleAtLeast(q - q', m);
    } else if q < q' {
      MultipleAtLeast(q' - q, m);
    }
  }

  lemma MultipleAtLeast(k: int, m: int)
    requires k >= 1 && m > 0
    ensures k * m >= m
  {
    assert k * m == (k - 1) * m + m;
  }

  /** What the format prints: `days * DAY_SECONDS + seconds` is the floor of
      the delta in seconds and `microseconds` its remainder. */
  lemma NormalDeltaParts(td: TimeDelta)
    requires td.Normal()
    ensures td.days * DaySeconds + td.seconds == td.TotalMicroseconds() / MicrosPerSecond
    ensures td.microseconds == td.TotalMicroseconds() % MicrosPerSecond
  {
    DivModUnique(td.TotalMicroseconds(), td.days * DaySeconds + td.seconds, td.microseconds, MicrosPerSecond);
  }

  predicate IsDigit(c: char) {
    '0' <= c <= '9'
  }

  predicate AllDigits(s: string) {
    forall i :: 0 <= i < |s| ==> IsDigit(s[i])
  }

  function DigitChar(n: nat): (c: char)
    requires n < 10
    ensures IsDigit(c) && (c as int) - ('0' as int) == n
  {
    (('0' as int) + n) as char
  }

  /** The number a string of decimal digits denotes. */
  function DigitsValue(s: string): nat
    requires AllDigits(s)
  {
    if s == [] then 0 else DigitsValue(s[..|s| - 1]) * 10 + ((s[|s| - 1] as int) - ('0' as int))
  }

  /** The decimal digits of a natural number, without leading zeros. */
  function NatToString(n: nat): (s: string)
    ensures 1 <= |s| && AllDigits(s) && DigitsValue(s) == n
    ensures |s| > 1 ==> s[0] != '0'
    decreases n
  {
    if n < 10 then [DigitChar(n)]
    else
      var s := NatToString(n / 10) + [DigitChar(n % 10)];
      assert s[..|s| - 1] == NatToString(n / 10);
      s
  }

  function Pow10(k: nat): nat {
    if k == 0 then 1 else 10 * Pow10(k - 1)
  }

  lemma {:induction false} NatToStringLength(n: nat, k: nat)
    requires 1 <= k && n < Pow10(k)
    ensures |NatToString(n)| <= k
  {
    if n >= 10 {
      assert k >= 2;
      NatToStringLength(n / 10, k - 1);
    }
  }

  /** `%d`: the decimal digits with a leading minus sign when negative. It
      reads back as `i`, and its digits carry no leading zero. */
  function FormatInt(i: int): (r: string)
    ensures ParseInt(r) == Some(i)
    ensures |r| >= 1 && (r[0] == '-' <==> i < 0)
    ensures var digits := if i < 0 then r[1..] else r;
            |digits| >= 1 && AllDigits(digits) && (|digits| > 1 ==> digits[0] != '0')
  {
    if i < 0 then
      var r := "-" + NatToString(-i);
      assert r[1..] == NatToString(-i);
      r
    else
      var r := NatToString(i);
      assert IsDigit(r[0]);
      r
  }

  function Zeros(k: nat): (s: string)
    ensures |s| == k && AllDigits(s) && DigitsValue(s) == 0
  {
    if k == 0 then "" else
      var s := Zeros(k - 1) + "0";
      assert s[..|s| - 1] == Zeros(k - 1);
      s
  }

  lemma {:induction false} LeadingZerosValue(k: nat, s: string)
    requires AllDigits(s)
    ensures AllDigits(Zeros(k) + s) && DigitsValue(Zeros(k) + s) == DigitsValue(s)
  {
    if s != [] {
      var init := s[..|s| - 1];
      LeadingZerosValue(k, init);
      assert (Zeros(k) + s)[..|Zeros(k) + s| - 1] == Zeros(k) + init;
    } else {
      assert Zeros(k) + s == Zeros(k);
    }
  }

  /** `%06d` of a microsecond count: its digits left-padded with zeros to
      exactly six characters. */
  function ZeroPad6(n: nat): (s: string)
    requires n < MicrosPerSecond
    ensures |s| == 6 && AllDigits(s) && DigitsValue(s) == n
  {
    var digits := NatToString(n);
    NatToStringLength(n, 6);
    LeadingZerosValue(6 - |digits|, digits);
    Zeros(6 - |digits|) + digits
  }

  /** The rendering of a delta: its whole seconds (the days counted in
      seconds, plus the seconds) with `%d`, a dot, its microseconds with
      `%06d`, and `s`. It is the text FormatMicros gives for the delta's
      total, and it reads back as that total. */
  function FormatDelta(td: TimeDelta): (r: string)
    requires td.Normal()
    ensures r == FormatMicros(td.TotalMicroseconds())
    ensures ParseDuration(r) == Some(td.TotalMicroseconds())
  {
    DeltaText(td);
    ParseFormatMicros(td.TotalMicroseconds());
    FormatInt(td.days * DaySeconds + td.seconds) + "." + ZeroPad6(td.microseconds) + "s"
  }

  lemma DeltaText(td: TimeDelta)
    requires td.Normal()
    ensures FormatInt(td.days * DaySeconds + td.seconds) + "." + ZeroPad6(td.microseconds) + "s"
            == FormatMicros(td.TotalMicroseconds())
  {
    NormalDeltaParts(td);
  }

  lemma ParseFormatMicros(d: int)
    ensures ParseDuration(FormatMicros(d)) == Some(d)
  {
    var q, m := d / MicrosPerSecond, d % MicrosPerSecond;
    ParseRendered(FormatInt(q), ZeroPad6(m), q, m);
    assert q * MicrosPerSecond + m == d;
  }

  /** A whole part that reads back as `q`, a dot, six digits reading back as
      `m`, and `s` read back as `q` seconds and `m` microseconds. */
  lemma ParseRendered(w: string, f: string, q: int, m: nat)
    requires ParseInt(w) == Some(q) && |f| == 6 && AllDigits(f) && DigitsValue(f) == m
    ensures ParseDuration(w + "." + f + "s") == Some(q * MicrosPerSecond + m)
  {
    var r := w + "." + f + "s";
    var n := |r|;
    assert r[n - 1] == 's' && r[n - 8] == '.';
    assert r[..n - 8] == w;
    assert r[n - 7..n - 1] == f;
  }

  /** `get_test_run_duration` on the two timestamps of a test run: empty when
      either is missing, otherwise `end - start` rendered so that it reads
      back as the elapsed microseconds (its exact text is given by
      TestRunDurationFormat). */
  function TestRunDuration(start: Option<Timestamp>, end: Option<Timestamp>): (r: string)
    ensures r == "" <==> start.None? || end.None?
    ensures ParseDuration(r) == if start.Some? && end.Some? then Some(end.value - start.value) else None
  {
    if start.None? || end.None? then ""
    else
      var td := Subtract(end.value, start.value);
      var r := FormatDelta(td);
      assert ParseDuration(r) == Some(end.value - start.value);
      assert r != "" by { assert ParseDuration(r).Some?; }
      r
  }

  /** The delta of D microseconds as printed: `D div 10^6`, a dot,
      `D mod 10^6` on six digits, and `s`. */
  function FormatMicros(d: int): string {
    FormatInt(d / MicrosPerSecond) + "." + ZeroPad6(d % MicrosPerSecond) + "s"
  }

  /** The non-empty duration is exactly the elapsed time D = end - start
      printed by FormatMicros. */
  lemma TestRunDurationFormat(start: Option<Timestamp>, end: Option<Timestamp>, d: int)
    ensures start.Some? && end.Some? && d == end.value - start.value ==>
              TestRunDuration(start, end) == FormatMicros(d)
  {
    if start.Some? && end.Some? && d == end.value - start.value {
      RenderingOfTotal(TestRunDuration(start, end), Subtract(end.value, start.value), d);
    }
  }

  lemma RenderingOfTotal(r: string, td: TimeDelta, d: int)
    requires td.Normal() && td.TotalMicroseconds() == d && r == FormatDelta(td)
    ensures r == FormatMicros(d)
  {
  }

  /** Reads `%d` back. */
  function ParseInt(s: string): Option<int> {
    if |s| >= 2 && s[0] == '-' && AllDigits(s[1..]) then Some(0 - DigitsValue(s[1..]))
    else if |s| >= 1 && AllDigits(s) then Some(DigitsValue(s))
    else None
  }

  /** Reads a rendered duration back into microseconds. */
  function ParseDuration(s: string): Option<int> {
    var n := |s|;
    if n >= 9 && s[n - 1] == 's' && s[n - 8] == '.' && AllDigits(s[n - 7..n - 1]) then
      match ParseInt(s[..n - 8])
      case Some(whole) => Some(whole * MicrosPerSecond + DigitsValue(s[n - 7..n - 1]))
      case None => None
    else None
  }

  lemma HalfSecondDigits()
    ensures ZeroPad6(500000) == "500000"
  {
    assert NatToString(5) == "5";
    assert NatToString(50) == "50";
    assert NatToString(500) == "500";
    assert NatToString(5000) == "5000";
    assert NatToString(50000) == "50000";
    assert NatToString(500000) == "500000";
    assert Zeros(0) + "500000" == "500000";
  }

  /** The example of one and a half seconds. */
  lemma OneAndAHalfSeconds(t: Timestamp)
    ensures TestRunDuration(Some(t), Some(t + 1500000)) == "1.500000s"
  {
    var start, end := Some(t), Some(t + 1500000);
    TestRunDurationFormat(start, end, 1500000);
    OneAndAHalfSecondsFormat();
  }

  lemma OneAndAHalfSecondsFormat()
    ensures FormatMicros(1500000) == "1.500000s"
  {
    HalfSecondDigits();
    assert FormatInt(1) == "1";
    assert 1500000 / MicrosPerSecond == 1 && 1500000 % MicrosPerSecond == 500000;
  }
}
