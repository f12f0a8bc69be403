/**
 * The call-duration display of the calling context: a whole number of
 * seconds rendered as minutes and seconds, each left-padded with zeros
 * to at least two digits and joined by a colon ("07:05", "123:59").
 */
module Duration {

  predicate IsDigit(c: char) {
    '0' <= c <= '9'
  }

  predicate AllDigits(s: string) {
    forall i :: 0 <= i < |s| ==> IsDigit(s[i])
  }

  function DigitChar(d: nat): (c: char)
    requires d < 10
    ensures IsDigit(c) && DigitValue(c) == d
  {
    "0123456789"[d]
  }

  function DigitValue(c: char): nat
    requires IsDigit(c)
  {
    c as int - '0' as int
  }

  /** The number a string of decimal digits denotes (leading zeros allowed). */
  function ValueOf(s: string): nat
    requires AllDigits(s)
  {
    if s == [] then 0 else 10 * ValueOf(s[..|s| - 1]) + DigitValue(s[|s| - 1])
  }

  /** JavaScript's `String(n)` for a non-negative integer. */
  function DecimalString(n: nat): (r: string)
    ensures |r| > 0 && AllDigits(r)
    ensures n < 10 ==> |r| == 1
    ensures n >= 10 ==> |r| >= 2
    ensures n > 0 ==> r[0] != '0'
    ensures ValueOf(r) == n
  {
    if n < 10 then [DigitChar(n)]
    else
      var r := DecimalString(n / 10) + [DigitChar(n % 10)];
      assert r[..|r| - 1] == DecimalString(n / 10);
      r
  }

  /** `s.padStart(2, "0")`. */
  function PadStart2(s: string): (r: string)
    ensures |r| == if |s| >= 2 then |s| else 2
    ensures AllDigits(s) ==> AllDigits(r) && ValueOf(r) == ValueOf(s)
  {
    if |s| >= 2 then s
    else
      var r := (if |s| == 1 then "0" else "00") + s;
      if AllDigits(s) then LeadingZeros(if |s| == 1 then 1 else 2, s); r else r
  }

  /** Zeros in front of a digit string do not change its value. */
  lemma {:induction false} LeadingZeros(k: nat, s: string)
    requires AllDigits(s)
    ensures AllDigits(Zeros(k) + s) && ValueOf(Zeros(k) + s) == ValueOf(s)
  {
    if s == [] {
      if k > 0 {
        assert Zeros(k) == Zeros(k - 1) + "0";
        assert (Zeros(k) + s)[..k - 1] == Zeros(k - 1) + s;
        LeadingZeros(k - 1, s);
      }
    } else {
      var t := Zeros(k) + s;
      assert t[..|t| - 1] == Zeros(k) + s[..|s| - 1];
      LeadingZeros(k, s[..|s| - 1]);
    }
  }

  function Zeros(k: nat): (z: string)
    ensures |z| == k && forall i :: 0 <= i < k ==> z[i] == '0'
  {
    if k == 0 then "" else Zeros(k - 1) + "0"
  }

  /** formatDuration: minutes, a colon, the seconds within the minute. */
  function FormatDuration(durationInSeconds: nat): (r: string)
  {
    PadStart2(DecimalString(durationInSeconds / 60)) + ":" + PadStart2(DecimalString(durationInSeconds % 60))
  }

  /** The text before the final ":SS" of a formatted duration. */
  function MinutesPart(r: string): string
    requires |r| >= 3
  {
    r[..|r| - 3]
  }

  /** The two characters after the colon of a formatted duration. */
  function SecondsPart(r: string): string
    requires |r| >= 3
  {
    r[|r| - 2..]
  }

  /** A string in the shape FormatDuration produces. */
  predicate WellFormed(r: string) {
    |r| >= 5 && r[|r| - 3] == ':' && AllDigits(MinutesPart(r)) && AllDigits(SecondsPart(r))
  }

  /** Reads a formatted duration back as a number of seconds. */
  function ParseDuration(r: string): nat
    requires WellFormed(r)
  {
    60 * ValueOf(MinutesPart(r)) + ValueOf(SecondsPart(r))
  }

  /**
   * The shape of formatDuration's output: at least two minute digits
   * denoting floor(s / 60), a colon, and exactly two second digits
   * denoting s mod 60, which lies in 00..59. The minutes carry a leading
   * zero only when padded to two digits.
   */
  lemma FormatDurationShape(s: nat)
    ensures WellFormed(FormatDuration(s))
    ensures |MinutesPart(FormatDuration(s))| >= 2
    ensures ValueOf(MinutesPart(FormatDuration(s))) == s / 60
    ensures ValueOf(SecondsPart(FormatDuration(s))) == s % 60 < 60
    ensures |MinutesPart(FormatDuration(s))| > 2 ==> MinutesPart(FormatDuration(s))[0] != '0'
  {
    var m := PadStart2(DecimalString(s / 60));
    var sec := PadStart2(DecimalString(s % 60));
    var r := FormatDuration(s);
    assert r == m + ":" + sec;
    assert |sec| == 2;
    assert MinutesPart(r) == m;
    assert SecondsPart(r) == sec;
  }

  /** Below 100 minutes the display is exactly "MM:SS". */
  lemma FormatDurationLength(s: nat)
    requires s < 6000
    ensures |FormatDuration(s)| == 5
  {
  }

  /** Minutes times sixty plus seconds gives back the input. */
  lemma ParseFormatDuration(s: nat)
    ensures WellFormed(FormatDuration(s)) && ParseDuration(FormatDuration(s)) == s
  {
    FormatDurationShape(s);
  }

  /** Distinct durations are displayed differently. */
  lemma FormatDurationInjective(s: nat, t: nat)
    requires FormatDuration(s) == FormatDuration(t)
    ensures s == t
  {
    ParseFormatDuration(s);
    ParseFormatDuration(t);
  }

  /** The reset text of the timer display is the formatted zero duration. */
  lemma ResetDisplayIsZero()
    ensures FormatDuration(0) == "00:00"
  {
  }
}
