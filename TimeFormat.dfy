/**
 * The `formatTime` helper of the player: a number of seconds rendered as `m:ss`,
 * with JavaScript's `Math.floor`, its truncating `%` and its integer-to-text
 * conversion written out over exact reals.
 */
module TimeFormat {
  import opened Optional

  /** The character of one decimal digit. */
  function DigitChar(d: nat): (c: char)
    requires d < 10
    ensures '0' <= c <= '9'
  {
    (('0' as int) + d) as char
  }

  /** The value of one decimal digit character. */
  function DigitValue(c: char): (d: nat)
    requires '0' <= c <= '9'
    ensures d < 10
  {
    (c as int) - ('0' as int)
  }

  predicate IsDigits(s: string) {
    forall i :: 0 <= i < |s| ==> '0' <= s[i] <= '9'
  }

  /** The decimal text of a natural number, without leading zeros. */
  function Digits(n: nat): (r: string)
    ensures |r| >= 1 && IsDigits(r)
    ensures (n < 10) == (|r| == 1)
    ensures r[0] != '0' || n == 0
  {
    if n < 10 then [DigitChar(n)] else Digits(n / 10) + [DigitChar(n % 10)]
  }

  /** Reads a string of decimal digits back as a number: the partner of `Digits`. */
  function ValueOf(s: string): nat
    requires IsDigits(s)
  {
    if s == [] then 0 else ValueOf(s[..|s| - 1]) * 10 + DigitValue(s[|s| - 1])
  }

  lemma {:induction false} ValueOfDigits(n: nat)
    ensures ValueOf(Digits(n)) == n
  {
    if n >= 10 {
      var r := Digits(n);
      assert r[..|r| - 1] == Digits(n / 10);
      ValueOfDigits(n / 10);
    }
  }

  /** JavaScript's rendering of an integral number (below 10^21): a minus sign, then the digits. */
  function IntText(i: int): string {
    if i < 0 then "-" + Digits(-i) else Digits(i)
  }

  /** JavaScript's `Math.trunc`: rounds toward zero. */
  function Trunc(x: real): (t: int)
    ensures t as real <= x < t as real + 1.0 || t as real - 1.0 < x <= t as real
  {
    if x >= 0.0 then x.Floor else -((-x).Floor)
  }

  /** JavaScript's `%` on numbers: the remainder takes the sign of the dividend. */
  function JsRemainder(x: real, d: real): real
    requires d != 0.0
  {
    x - d * (Trunc(x / d) as real)
  }

  /** `formatTime(seconds)`: whole minutes, a colon, and the whole seconds padded to two places when below 10. */
  function FormatTime(seconds: real): string {
    var minutes := (seconds / 60.0).Floor;
    var remainingSeconds := JsRemainder(seconds, 60.0).Floor;
    IntText(minutes) + ":" + (if remainingSeconds < 10 then "0" else "") + IntText(remainingSeconds)
  }

  /** The two-character seconds field of a clock reading. */
  function TwoDigits(n: nat): (r: string)
    requires n < 100
    ensures |r| == 2 && IsDigits(r) && ValueOf(r) == n
  {
    var r := [DigitChar(n / 10), DigitChar(n % 10)];
    assert r[..1] == [DigitChar(n / 10)];
    assert r[..1][..0] == [];
    assert DigitValue(r[0]) == n / 10 && DigitValue(r[1]) == n % 10;
    assert ValueOf(r[..1]) == n / 10;
    r
  }

  /**
   * For a non-negative number of seconds the text is the minutes `floor(s / 60)`
   * in decimal, a colon, and the seconds `floor(s) - 60 * minutes`, which lie in 0..59,
   * always in exactly two digits.
   */
  lemma FormatTimeShape(seconds: real)
    requires seconds >= 0.0
    ensures var m := (seconds / 60.0).Floor;
            var sec := seconds.Floor - 60 * m;
            0 <= m && 0 <= sec < 60 &&
            FormatTime(seconds) == Digits(m) + ":" + TwoDigits(sec)
  {
    var m := (seconds / 60.0).Floor;
    var rem := JsRemainder(seconds, 60.0);
    assert Trunc(seconds / 60.0) == m;
    assert rem == seconds - 60.0 * (m as real);
    assert 0.0 <= rem < 60.0;
    var sec := rem.Floor;
    assert sec == seconds.Floor - 60 * m;
    if sec < 10 {
      assert Digits(sec) == [DigitChar(sec)];
    } else {
      assert Digits(sec) == Digits(sec / 10) + [DigitChar(sec % 10)];
    }
  }

  /** Reads `m:ss` back as a total of whole seconds; `None` when the text has another shape. */
  function ParseTime(text: string): Option<int> {
    if |text| < 4 || text[|text| - 3] != ':' then None
    else
      var mins := text[..|text| - 3];
      var secs := text[|text| - 2..];
      if IsDigits(mins) && IsDigits(secs) && ValueOf(secs) < 60
      then Some(60 * ValueOf(mins) + ValueOf(secs))
      else None
  }

  /** The formatted time loses exactly the fraction of a second: reading it back gives `floor(seconds)`. */
  lemma FormatTimeRoundTrip(seconds: real)
    requires seconds >= 0.0
    ensures ParseTime(FormatTime(seconds)) == Some(seconds.Floor)
  {
    FormatTimeShape(seconds);
    var m := (seconds / 60.0).Floor;
    var sec := seconds.Floor - 60 * m;
    var text := FormatTime(seconds);
    assert text[..|text| - 3] == Digits(m);
    assert text[|text| - 2..] == TwoDigits(sec);
    ValueOfDigits(m);
  }

  /** A time under ten seconds gets its leading zero. */
  lemma FormatTimeShortExample()
    ensures FormatTime(5.0) == "0:05"
  {
    assert (5.0 / 60.0).Floor == 0;
    assert Digits(0) == "0" && Digits(5) == "5";
  }

  /** Whole minutes are split off and the fraction of a second is dropped. */
  lemma FormatTimeMinuteExample()
    ensures FormatTime(75.5) == "1:15"
  {
    assert (75.5 / 60.0).Floor == 1;
    assert JsRemainder(75.5, 60.0) == 15.5;
    assert Digits(15) == Digits(1) + [DigitChar(5)] == "15";
  }

  /** A negative input keeps JavaScript's signs: floored minutes, a truncated remainder, and a stray '0'. */
  lemma FormatTimeNegativeExample()
    ensures FormatTime(-30.0) == "-1:0-30"
  {
    assert (-30.0 / 60.0).Floor == -1;
    assert Trunc(-30.0 / 60.0) == 0;
    assert JsRemainder(-30.0, 60.0) == -30.0;
    assert Digits(1) == "1";
    assert Digits(30) == Digits(3) + [DigitChar(0)] == "30";
  }
}
