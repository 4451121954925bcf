/**
 * The elapsed-time formatter of the player: `formatDuration` renders a number of
 * seconds as `M:SS` below one hour and `H:MM:SS` from one hour on, every component
 * below the leading one zero-padded to two digits.
 *
 * Times are `real` here: exact arithmetic standing in for the source's binary
 * floating point. `Math.floor` is `.Floor`, and the source's `%` on a non-negative
 * number is `Rem` below (JavaScript's remainder truncates; for non-negative operands
 * that is the same as flooring).
 *
 * The partner of the formatter is `ParseDuration`, which reads a clock string back;
 * `ParseFormatted` proves that it recovers the whole number of seconds shown.
 */
module Format {
  import opened Wrappers

  predicate IsDigit(c: char) {
    '0' <= c <= '9'
  }

  predicate AllDigits(s: string) {
    forall i :: 0 <= i < |s| ==> IsDigit(s[i])
  }

  function DigitChar(d: nat): (c: char)
    requires d < 10
    ensures IsDigit(c)
  {
    ('0' as int + d) as char
  }

  function DigitValue(c: char): (d: nat)
    requires IsDigit(c)
    ensures d < 10 && DigitChar(d) == c
  {
    c as int - '0' as int
  }

  /** Decimal rendering of a natural number, as a template literal `${n}` prints it. */
  function NatToString(n: nat): (r: string)
    ensures |r| >= 1 && AllDigits(r)
    ensures (r[0] == '0') == (n == 0)
    ensures n < 10 <==> |r| == 1
    decreases n
  {
    if n < 10 then [DigitChar(n)] else NatToString(n / 10) + [DigitChar(n % 10)]
  }

  /** The value of a string of decimal digits, most significant digit first. */
  function DigitsValue(s: string): nat
    requires AllDigits(s)
    decreases |s|
  {
    if s == [] then 0 else DigitsValue(s[..|s| - 1]) * 10 + DigitValue(s[|s| - 1])
  }

  lemma {:induction false} DigitsValueOfNatToString(n: nat)
    ensures DigitsValue(NatToString(n)) == n
    decreases n
  {
    var r := NatToString(n);
    if n >= 10 {
      DigitsValueOfNatToString(n / 10);
      assert r[..|r| - 1] == NatToString(n / 10);
    }
  }

  /** `NatToString` loses nothing: different numbers print differently. */
  lemma NatToStringInjective(m: nat, n: nat)
    requires NatToString(m) == NatToString(n)
    ensures m == n
  {
    DigitsValueOfNatToString(m);
    DigitsValueOfNatToString(n);
  }

  /**
   * The source's `leadingZeroFormatter` (an `Intl.NumberFormat` with at least two
   * integer digits), used only on clock components below 60.
   */
  function Pad2(n: nat): (r: string)
    requires n < 60
    ensures |r| == 2 && AllDigits(r) && DigitsValue(r) == n
  {
    DigitsValueOfNatToString(n);
    if n < 10 then
      var r := "0" + NatToString(n);
      assert r[..1] == "0";
      r
    else
      NatToString(n)
  }

  /** JavaScript's `x % m` for `x >= 0` and `m > 0`. */
  function Rem(x: real, m: real): real
    requires x >= 0.0 && m > 0.0
  {
    x - m * (x / m).Floor as real
  }

  lemma FloorOfQuotient(t: real, k: nat)
    requires t >= 0.0 && k > 0
    ensures (t / k as real).Floor == t.Floor / k
  {
    var n := t.Floor;
    var q, r := n / k, n % k;
    assert n == q * k + r && 0 <= r < k;
    var kr := k as real;
    assert (q * k) as real == q as real * kr;
    assert q as real * kr <= t < (q + 1) as real * kr;
    assert q as real <= t / kr by {
      assert q as real * kr / kr == q as real;
    }
    assert t / kr < (q + 1) as real by {
      assert (q + 1) as real * kr / kr == (q + 1) as real;
    }
  }

  /** `Math.floor(time % 60)`: the seconds component. */
  function Seconds(time: real): (s: nat)
    requires time >= 0.0
    ensures s < 60 && s == time.Floor % 60
  {
    FloorOfQuotient(time, 60);
    Rem(time, 60.0).Floor
  }

  /** `Math.floor(time / 60) % 60`: the minutes component. */
  function Minutes(time: real): (m: nat)
    requires time >= 0.0
    ensures m < 60 && m == (time.Floor / 60) % 60
  {
    FloorOfQuotient(time, 60);
    (time / 60.0).Floor % 60
  }

  /** `Math.floor(time / 3600)`: the hours component. */
  function Hours(time: real): (h: nat)
    requires time >= 0.0
    ensures h == time.Floor / 3600
  {
    FloorOfQuotient(time, 3600);
    (time / 3600.0).Floor
  }

  /** `formatDuration`: `M:SS` when there are no whole hours, `H:MM:SS` otherwise. */
  function FormatDuration(time: real): string
    requires time >= 0.0
  {
    var seconds := Seconds(time);
    var minutes := Minutes(time);
    var hours := Hours(time);
    if hours == 0 then
      NatToString(minutes) + ":" + Pad2(seconds)
    else
      NatToString(hours) + ":" + Pad2(minutes) + ":" + Pad2(seconds)
  }

  /** The three components of a whole number of seconds always recompose to it. */
  lemma ClockComponents(n: nat)
    ensures n == (n / 3600) * 3600 + ((n / 60) % 60) * 60 + n % 60
  {
    var m := n / 60;
    assert n == m * 60 + n % 60;
    assert m == (m / 60) * 60 + m % 60;
    assert m / 60 == n / 3600;
  }

  /** Splits a string at every `:`; there is always at least one field. */
  function Fields(s: string): (r: seq<string>)
    ensures |r| >= 1
    decreases |s|
  {
    if s == [] then [[]]
    else
      var rest := Fields(s[1..]);
      if s[0] == ':' then [[]] + rest else [[s[0]] + rest[0]] + rest[1..]
  }

  lemma {:induction false} FieldsOfDigits(a: string, b: string)
    requires AllDigits(a)
    ensures Fields(a + ":" + b) == [a] + Fields(b)
    ensures Fields(a) == [a]
    decreases |a|
  {
    if a == [] {
      assert (a + ":" + b)[1..] == b;
    } else {
      FieldsOfDigits(a[1..], b);
      assert (a + ":" + b)[1..] == a[1..] + ":" + b;
      assert [a[0]] + a[1..] == a;
    }
  }

  /** Splitting digit groups joined by `:` gives the groups back. */
  lemma FieldsOfClock(a: string, b: string, c: string)
    requires AllDigits(a) && AllDigits(b) && AllDigits(c)
    ensures Fields(a + ":" + b) == [a, b]
    ensures Fields(a + ":" + b + ":" + c) == [a, b, c]
  {
    FieldsOfDigits(b, []);
    FieldsOfDigits(a, b);
    FieldsOfDigits(c, []);
    FieldsOfDigits(b, c);
    FieldsOfDigits(a, b + ":" + c);
    assert a + ":" + b + ":" + c == a + ":" + (b + ":" + c);
  }

  /** A clock component the formatter can have produced at a position below the leading one. */
  predicate IsPadded(s: string) {
    |s| == 2 && AllDigits(s) && DigitsValue(s) < 60
  }

  /** A leading clock component: one or more digits. */
  predicate IsLeading(s: string) {
    |s| >= 1 && AllDigits(s)
  }

  /**
   * Reads `M:SS` or `H:MM:SS` back into a number of seconds; `None` for any other
   * shape.
   */
  function ParseDuration(s: string): Option<nat> {
    var f := Fields(s);
    if |f| == 2 && IsLeading(f[0]) && IsPadded(f[1]) then
      Some(DigitsValue(f[0]) * 60 + DigitsValue(f[1]))
    else if |f| == 3 && IsLeading(f[0]) && IsPadded(f[1]) && IsPadded(f[2]) then
      Some(DigitsValue(f[0]) * 3600 + DigitsValue(f[1]) * 60 + DigitsValue(f[2]))
    else
      None
  }

  /** The formatter loses nothing but the fraction of a second. */
  lemma ParseFormatted(time: real)
    requires time >= 0.0
    ensures ParseDuration(FormatDuration(time)) == Some(time.Floor as nat)
  {
    var hours, minutes, seconds := Hours(time), Minutes(time), Seconds(time);
    ClockComponents(time.Floor);
    if hours == 0 {
      assert FormatDuration(time) == NatToString(minutes) + ":" + Pad2(seconds);
      ParseShort(minutes, seconds);
    } else {
      assert FormatDuration(time) == NatToString(hours) + ":" + Pad2(minutes) + ":" + Pad2(seconds);
      ParseLong(hours, minutes, seconds);
    }
  }

  /** The short form `M:SS` reads back as its number of seconds. */
  lemma ParseShort(minutes: nat, seconds: nat)
    requires seconds < 60
    ensures ParseDuration(NatToString(minutes) + ":" + Pad2(seconds)) == Some(minutes * 60 + seconds)
  {
    var m, s := NatToString(minutes), Pad2(seconds);
    FieldsOfClock(m, s, s);
    DigitsValueOfNatToString(minutes);
  }

  /** The long form `H:MM:SS` reads back as its number of seconds. */
  lemma ParseLong(hours: nat, minutes: nat, seconds: nat)
    requires minutes < 60 && seconds < 60
    ensures ParseDuration(NatToString(hours) + ":" + Pad2(minutes) + ":" + Pad2(seconds))
         == Some(hours * 3600 + minutes * 60 + seconds)
  {
    var h, m, s := NatToString(hours), Pad2(minutes), Pad2(seconds);
    FieldsOfClock(h, m, s);
    DigitsValueOfNatToString(hours);
  }

  /** Two times format alike exactly when they have the same whole number of seconds. */
  lemma FormatDurationEqual(s: real, t: real)
    requires s >= 0.0 && t >= 0.0
    ensures FormatDuration(s) == FormatDuration(t) <==> s.Floor == t.Floor
  {
    ParseFormatted(s);
    ParseFormatted(t);
  }

  /**
   * The shape: the short form exactly below one hour. Every padded component is two
   * digits below 60, and the leading component carries no leading zero unless it is 0.
   */
  lemma FormatDurationShape(time: real)
    requires time >= 0.0
    ensures var f := Fields(FormatDuration(time));
      && (|f| == 2 <==> time < 3600.0)
      && (|f| == 3 <==> time >= 3600.0)
      && IsLeading(f[0]) && (f[0][0] == '0' ==> f[0] == "0")
      && forall i :: 1 <= i < |f| ==> IsPadded(f[i])
  {
    var seconds, minutes, hours := Seconds(time), Minutes(time), Hours(time);
    FloorOfQuotient(time, 3600);
    if hours == 0 {
      FieldsOfClock(NatToString(minutes), Pad2(seconds), []);
      assert time < 3600.0;
    } else {
      FieldsOfClock(NatToString(hours), Pad2(minutes), Pad2(seconds));
      assert time >= 3600.0;
    }
  }

  /** The three worked examples of the formatter. */
  lemma FormatDurationExamples()
    ensures FormatDuration(65.0) == "1:05"
    ensures FormatDuration(3605.0) == "1:00:05"
    ensures FormatDuration(0.0) == "0:00"
  {
    assert Seconds(65.0) == 5 && Minutes(65.0) == 1 && Hours(65.0) == 0;
    assert Seconds(3605.0) == 5 && Minutes(3605.0) == 0 && Hours(3605.0) == 1;
    assert Seconds(0.0) == 0 && Minutes(0.0) == 0 && Hours(0.0) == 0;
  }
}
