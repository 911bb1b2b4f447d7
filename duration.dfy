/** `formatDuration` (App.tsx:115-119): a leak's age in whole seconds shown as
    minutes and seconds, `"<m>m <s>s"`. Its partner is `ParseDuration`, which
    reads such a text back; the round trip shows the text determines the age. */
module DurationFormat {
  import opened Options

  predicate IsDigit(c: char) {
    '0' <= c <= '9'
  }

  predicate AllDigits(s: string) {
    forall i :: 0 <= i < |s| ==> IsDigit(s[i])
  }

  function DigitChar(d: nat): (c: char)
    requires d < 10
    ensures IsDigit(c)
  {
    "0123456789"[d]
  }

  function DigitValue(c: char): (d: nat)
    requires IsDigit(c)
    ensures d < 10
  {
    c as int - '0' as int
  }

  lemma DigitValueOfDigitChar(d: nat)
    requires d < 10
    ensures DigitValue(DigitChar(d)) == d
  {
  }

  /** How a JavaScript template literal prints a non-negative integer: its
      decimal digits, with no leading zero unless the number is 0. */
  function DecimalString(n: nat): (s: string)
    ensures 0 < |s| && AllDigits(s)
    ensures s[0] == '0' ==> n == 0
    decreases n
  {
    if n < 10 then [DigitChar(n)] else DecimalString(n / 10) + [DigitChar(n % 10)]
  }

  /** The value of a string of decimal digits. */
  function ParseDecimal(s: string): nat
    requires AllDigits(s)
    decreases |s|
  {
    if s == [] then 0 else ParseDecimal(s[..|s| - 1]) * 10 + DigitValue(s[|s| - 1])
  }

  lemma {:induction false} DecimalRoundTrip(n: nat)
    ensures ParseDecimal(DecimalString(n)) == n
    decreases n
  {
    var s := DecimalString(n);
    DigitValueOfDigitChar(n % 10);
    if n >= 10 {
      var p := DecimalString(n / 10);
      assert s[..|s| - 1] == p;
      DecimalRoundTrip(n / 10);
    }
  }

  /** `Math.floor(secs / 60)` and `secs % 60`: whole minutes and the seconds left over. */
  function SplitDuration(secs: nat): (r: (nat, nat))
    ensures r.0 * 60 + r.1 == secs && r.1 < 60
  {
    (secs / 60, secs % 60)
  }

  function FormatDuration(secs: nat): string {
    var (m, s) := SplitDuration(secs);
    DecimalString(m) + "m " + DecimalString(s) + "s"
  }

  /** The length of the run of digits that starts a string. */
  function DigitRun(t: string): (k: nat)
    ensures k <= |t| && AllDigits(t[..k])
    ensures k < |t| ==> !IsDigit(t[k])
    decreases |t|
  {
    if t == [] || !IsDigit(t[0]) then 0 else 1 + DigitRun(t[1..])
  }

  /** Reads `"<m>m <s>s"` back into seconds; `None` for any other text,
      including a seconds part of 60 or more. */
  function ParseDuration(t: string): Option<nat> {
    var k := DigitRun(t);
    if k == 0 || |t| < k + 4 || t[k] != 'm' || t[k + 1] != ' ' || t[|t| - 1] != 's' then None
    else
      var secs := t[k + 2..|t| - 1];
      if !AllDigits(secs) then None
      else
        var m, s := ParseDecimal(t[..k]), ParseDecimal(secs);
        if s < 60 then Some(m * 60 + s) else None
  }

  lemma {:induction false} DigitRunOfDigits(p: string, rest: string)
    requires AllDigits(p) && rest != [] && !IsDigit(rest[0])
    ensures DigitRun(p + rest) == |p|
    decreases |p|
  {
    var t := p + rest;
    if p == [] {
      assert t == rest && !IsDigit(t[0]);
    } else {
      assert t[0] == p[0] && IsDigit(t[0]);
      assert t[1..] == p[1..] + rest;
      assert AllDigits(p[1..]) by {
        forall i | 0 <= i < |p| - 1 ensures IsDigit(p[1..][i]) {
          assert p[1..][i] == p[i + 1];
        }
      }
      DigitRunOfDigits(p[1..], rest);
      assert DigitRun(t) == 1 + DigitRun(t[1..]);
    }
  }

  /** The text `formatDuration` shows reads back as the same number of
      seconds, so no two ages share a text. */
  lemma FormatDurationRoundTrip(secs: nat)
    ensures ParseDuration(FormatDuration(secs)) == Some(secs)
  {
    var (m, s) := SplitDuration(secs);
    var a, b := DecimalString(m), DecimalString(s);
    var t := FormatDuration(secs);
    assert t == a + ("m " + b + "s");
    DigitRunOfDigits(a, "m " + b + "s");
    var k := |a|;
    assert t[k] == 'm' && t[k + 1] == ' ' && t[|t| - 1] == 's';
    assert t[..k] == a;
    assert t[k + 2..|t| - 1] == b;
    DecimalRoundTrip(m);
    DecimalRoundTrip(s);
  }

  lemma FormatDurationInjective(x: nat, y: nat)
    requires FormatDuration(x) == FormatDuration(y)
    ensures x == y
  {
    FormatDurationRoundTrip(x);
    FormatDurationRoundTrip(y);
  }
}
