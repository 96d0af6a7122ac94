/** The character classes of the registration checks, as the JavaScript
    regular expressions (without the `u` flag) define them. */
module CharClasses {

  predicate IsAsciiUpper(ch: char) { 'A' <= ch <= 'Z' }
  predicate IsAsciiLower(ch: char) { 'a' <= ch <= 'z' }
  predicate IsAsciiDigit(ch: char) { '0' <= ch <= '9' }

  /** `[A-Z]` under the `i` flag: without `u`, case folding never maps a
      non-ASCII character onto an ASCII letter, so this is exactly `[A-Za-z]`. */
  predicate IsAsciiLetter(ch: char) { IsAsciiUpper(ch) || IsAsciiLower(ch) }

  /** The line terminators, which `.` does not match. */
  predicate IsLineTerminator(ch: char) {
    ch == '\n' || ch == '\r' || ch as int == 0x2028 || ch as int == 0x2029
  }

  /** `\s`: the WhiteSpace and LineTerminator characters of ECMAScript. */
  predicate IsJsWhitespace(ch: char) {
    var c := ch as int;
    c == 0x09 || c == 0x0B || c == 0x0C || c == 0x20 || c == 0xA0 || c == 0x1680
    || (0x2000 <= c <= 0x200A) || c == 0x202F || c == 0x205F || c == 0x3000 || c == 0xFEFF
    || IsLineTerminator(ch)
  }

  /** `validator.isAlphanumeric(s, 'en-US')`, i.e. `/^[0-9A-Z]+$/i`. */
  predicate IsAlphanumeric(s: string) {
    |s| > 0 && forall k :: 0 <= k < |s| ==> IsAsciiLetter(s[k]) || IsAsciiDigit(s[k])
  }

  /** One character of `[A-Z'\-\s]` under the `i` flag. */
  predicate IsNameChar(ch: char) {
    IsAsciiLetter(ch) || ch == '\'' || ch == '-' || IsJsWhitespace(ch)
  }

  /** `/^[A-Z'\-\s]+$/i`: a non-empty string of letters, apostrophes,
      hyphens and whitespace. */
  predicate IsName(s: string) {
    |s| > 0 && forall k :: 0 <= k < |s| ==> IsNameChar(s[k])
  }

  /** `n` consecutive characters from index `i`, none a line terminator. */
  predicate RunAt(s: string, i: int, n: nat) {
    0 <= i && i + n <= |s| && forall k :: i <= k < i + n ==> !IsLineTerminator(s[k])
  }

  /** `/.{8,}/` matches somewhere in `s`. */
  predicate HasRunOfEight(s: string) {
    exists i :: 0 <= i <= |s| - 8 && RunAt(s, i, 8)
  }

  predicate HasLower(s: string) { exists k :: 0 <= k < |s| && IsAsciiLower(s[k]) }
  predicate HasUpper(s: string) { exists k :: 0 <= k < |s| && IsAsciiUpper(s[k]) }
  predicate HasDigit(s: string) { exists k :: 0 <= k < |s| && IsAsciiDigit(s[k]) }

  /** The strength rule of registration: `/.{8,}/`, `/[a-z]/`, `/[A-Z]/` and
      `/[\d]/` all match. */
  predicate IsStrongPassword(s: string) {
    HasRunOfEight(s) && HasLower(s) && HasUpper(s) && HasDigit(s)
  }

  /** One left-to-right pass that decides the strength rule, tracking the
      length of the current run of non-terminators and which classes were seen. */
  method CheckPasswordStrength(s: string) returns (strong: bool)
    ensures strong <==> IsStrongPassword(s)
  {
    var run: nat := 0;
    var long, lower, upper, digit := false, false, false, false;
    var i := 0;
    while i < |s|
      invariant 0 <= i <= |s|
      invariant run <= i && RunAt(s, i - run, run)
      invariant run < i ==> IsLineTerminator(s[i - run - 1])
      invariant long <==> exists j :: 0 <= j <= i - 8 && RunAt(s, j, 8)
      invariant lower <==> exists k :: 0 <= k < i && IsAsciiLower(s[k])
      invariant upper <==> exists k :: 0 <= k < i && IsAsciiUpper(s[k])
      invariant digit <==> exists k :: 0 <= k < i && IsAsciiDigit(s[k])
    {
      var ch := s[i];
      if IsLineTerminator(ch) {
        run := 0;
        forall j | 0 <= j <= i + 1 - 8 && j + 8 == i + 1
          ensures !RunAt(s, j, 8)
        {
          assert !(!IsLineTerminator(s[i]));
        }
      } else {
        run := run + 1;
        if run >= 8 {
          assert RunAt(s, i + 1 - 8, 8);
        } else if i + 1 - 8 >= 0 {
          var t := i + 1 - run - 1;
          assert i + 1 - 8 <= t < i + 1 && IsLineTerminator(s[t]);
          assert !RunAt(s, i + 1 - 8, 8);
        }
      }
      long := long || run >= 8;
      lower := lower || IsAsciiLower(ch);
      upper := upper || IsAsciiUpper(ch);
      digit := digit || IsAsciiDigit(ch);
      i := i + 1;
    }
    strong := long && lower && upper && digit;
  }

  /** "abcdefgh" has no upper-case letter and no digit. */
  lemma LowercaseOnlyIsWeak()
    ensures !IsStrongPassword("abcdefgh")
  {
  }

  /** "Abcdefg1" satisfies every part of the rule. */
  lemma MixedEightIsStrong()
    ensures IsStrongPassword("Abcdefg1")
  {
    var s := "Abcdefg1";
    assert RunAt(s, 0, 8);
    assert IsAsciiLower(s[1]) && IsAsciiUpper(s[0]) && IsAsciiDigit(s[7]);
  }

  /** Eight characters split by a line break are not a run of eight, even
      when the whole string is long enough. */
  lemma LineBreakBreaksTheRun()
    ensures !HasRunOfEight("Abcd\nef1")
  {
    var s := "Abcd\nef1";
    forall i | 0 <= i <= |s| - 8 ensures !RunAt(s, i, 8) {
      assert IsLineTerminator(s[4]);
    }
  }

  /** The username class admits ASCII letters and digits only, and not the
      empty string. */
  lemma UsernameClassExamples()
    ensures IsAlphanumeric("bob1") && IsAlphanumeric("BOB")
    ensures !IsAlphanumeric("") && !IsAlphanumeric("bob_1") && !IsAlphanumeric("bob 1")
    ensures !IsAlphanumeric("b\U{F3}b")
  {
    assert "bob_1"[3] == '_';
    assert "bob 1"[3] == ' ';
    assert "b\U{F3}b"[1] as int == 0xF3;
  }

  /** The name class admits letters, apostrophes, hyphens and whitespace,
      and nothing else. */
  lemma NameClassExamples()
    ensures IsName("O'Brien-Smith") && IsName("Anne Marie") && IsName("anne\tmarie")
    ensures !IsName("") && !IsName("Bob1") && !IsName("J.")
  {
    assert "Bob1"[3] == '1';
    assert "J."[1] == '.';
  }
}
