/** The value `getCaptcha` stores in the session: the decimal text of a
    random integer between 1000 and 9999. */
module Captcha {
  import opened Options
  import opened State
  import opened CharClasses

  function DigitChar(d: int): (ch: char)
    requires 0 <= d <= 9
    ensures IsAsciiDigit(ch) && ch as int - '0' as int == d
  {
    (d + '0' as int) as char
  }

  function DigitValue(ch: char): (d: int)
    requires IsAsciiDigit(ch)
    ensures 0 <= d <= 9 && DigitChar(d) == ch
  {
    ch as int - '0' as int
  }

  predicate AllDigits(s: string) {
    forall k :: 0 <= k < |s| ==> IsAsciiDigit(s[k])
  }

  /** Decimal value of a string of ASCII digits. */
  function ParseDecimal(s: string): (n: nat)
    requires AllDigits(s)
    decreases |s|
  {
    if |s| == 0 then 0
    else ParseDecimal(s[..|s| - 1]) * 10 + DigitValue(s[|s| - 1])
  }

  lemma ParseDecimalAppend(s: string, d: int)
    requires AllDigits(s) && 0 <= d <= 9
    ensures AllDigits(s + [DigitChar(d)])
    ensures ParseDecimal(s + [DigitChar(d)]) == ParseDecimal(s) * 10 + d
  {
  }

  /** `val.toString()` for a four-digit `val`. */
  function CaptchaText(n: int): (s: string)
    requires 1000 <= n <= 9999
    ensures |s| == 4 && AllDigits(s) && s[0] != '0'
    ensures ParseDecimal(s) == n
  {
    var d0, d1, d2, d3 := n / 1000, n / 100 % 10, n / 10 % 10, n % 10;
    var s1 := [DigitChar(d0)];
    ParseDecimalAppend([], d0);
    assert [] + [DigitChar(d0)] == s1;
    var s2 := s1 + [DigitChar(d1)];
    ParseDecimalAppend(s1, d1);
    var s3 := s2 + [DigitChar(d2)];
    ParseDecimalAppend(s2, d2);
    var s4 := s3 + [DigitChar(d3)];
    ParseDecimalAppend(s3, d3);
    assert d0 * 10 + d1 == n / 100;
    assert n / 100 * 10 + d2 == n / 10;
    assert n / 10 * 10 + d3 == n;
    s4
  }

  /** `getCaptcha`: `draw` is the random integer the image shows. Only the
      session's expected answer changes. */
  function IssueCaptcha(session: Session, draw: int): (s: Session)
    requires 1000 <= draw <= 9999
    ensures s.xsrfToken == session.xsrfToken
    ensures s.captcha.Some? && AllDigits(s.captcha.value) && |s.captcha.value| == 4
    ensures ParseDecimal(s.captcha.value) == draw
  {
    session.(captcha := Some(CaptchaText(draw)))
  }

  /** Different draws give different expected answers. */
  lemma CaptchaTextInjective(m: int, n: int)
    requires 1000 <= m <= 9999 && 1000 <= n <= 9999
    ensures CaptchaText(m) == CaptchaText(n) <==> m == n
  {
  }
}
