/**
 * The form validators: each returns a status and the message the form
 * shows, checking its rules in a fixed order.
 */
module Validators {
  import opened Strings

  /** `{status, msg}`. */
  datatype Check = Check(status: bool, msg: string)

  const Valid := Check(true, "")

  // ---------------------------------------------------------------- email

  /** `[_A-Za-z0-9+-]`: the first label of the local part. */
  predicate LocalHeadChar(c: char) { IsAlphaNum(c) || c == '_' || c == '+' || c == '-' }
  /** `[_A-Za-z0-9-]`: the later labels of the local part. */
  predicate LocalTailChar(c: char) { IsAlphaNum(c) || c == '_' || c == '-' }
  /** `[A-Za-z0-9-]`: the first label of the domain. */
  predicate DomainHeadChar(c: char) { IsAlphaNum(c) || c == '-' }

  predicate NonEmptyOf(s: string, ok: char -> bool) {
    |s| > 0 && forall i :: 0 <= i < |s| ==> ok(s[i])
  }

  /** The local part: dot-separated non-empty labels, the first of which may also hold `+`. */
  predicate LocalPart(s: string) {
    var labels := Split(s, '.');
    NonEmptyOf(labels[0], LocalHeadChar)
    && forall k :: 1 <= k < |labels| ==> NonEmptyOf(labels[k], LocalTailChar)
  }

  /** The domain: a first label that may hold `-`, alphanumeric middle labels, and a final label of two or more letters. */
  predicate DomainPart(s: string) {
    var labels := Split(s, '.');
    |labels| >= 2
    && NonEmptyOf(labels[0], DomainHeadChar)
    && (forall k :: 1 <= k < |labels| - 1 ==> NonEmptyOf(labels[k], IsAlphaNum))
    && |labels[|labels| - 1]| >= 2 && NonEmptyOf(labels[|labels| - 1], IsLetter)
  }

  /**
   * The language of the anchored pattern
   * `^[_A-Za-z0-9+-]+(\.[_A-Za-z0-9-]+)*@[A-Za-z0-9-]+(\.[A-Za-z0-9]+)*(\.[A-Za-z]{2,})$`:
   * no label character is `@` or `.`, so the string splits uniquely.
   */
  predicate EmailPattern(s: string) {
    var halves := Split(s, '@');
    |halves| == 2 && LocalPart(halves[0]) && DomainPart(halves[1])
  }

  /** `useValidators.email`. */
  function Email(email: string): (r: Check)
    ensures r.status <==> r.msg == ""
  {
    if Trim(email) == [] then Check(false, "Email ID should not be empty.")
    else if ' ' in email then Check(false, "Email ID should not contain any spaces")
    else if !EmailPattern(email) then Check(false, "Email ID is not valid")
    else Valid
  }

  /** Every character a label of the pattern may hold, and the two separators. */
  predicate EmailChar(c: char) { IsAlphaNum(c) || c in "_+-.@" }

  predicate AllEmailChars(s: string) { forall i :: 0 <= i < |s| ==> EmailChar(s[i]) }

  /** Joining strings of pattern characters with a separator that is one gives a string of pattern characters. */
  lemma {:induction false} JoinEmailChars(parts: seq<string>, sep: char)
    requires |parts| >= 1 && EmailChar(sep)
    requires forall k :: 0 <= k < |parts| ==> AllEmailChars(parts[k])
    ensures AllEmailChars(Join(parts, sep)) && |Join(parts, sep)| >= |parts[0]|
  {
    if |parts| > 1 {
      JoinEmailChars(parts[1..], sep);
    }
  }

  lemma LocalPartChars(s: string)
    requires LocalPart(s)
    ensures AllEmailChars(s) && s != []
  {
    var labels := Split(s, '.');
    JoinSplit(s, '.');
    forall k | 0 <= k < |labels| ensures AllEmailChars(labels[k]) {
      if k > 0 { assert NonEmptyOf(labels[k], LocalTailChar); }
    }
    JoinEmailChars(labels, '.');
  }

  lemma DomainPartChars(s: string)
    requires DomainPart(s)
    ensures AllEmailChars(s)
  {
    var labels := Split(s, '.');
    JoinSplit(s, '.');
    forall k | 0 <= k < |labels| ensures AllEmailChars(labels[k]) {
      if 0 < k < |labels| - 1 {
        assert NonEmptyOf(labels[k], IsAlphaNum);
      } else if k == |labels| - 1 {
        assert NonEmptyOf(labels[k], IsLetter);
      }
    }
    JoinEmailChars(labels, '.');
  }

  /** A string matching the pattern holds no space and is not all white space. */
  lemma PatternHasNoSpace(s: string)
    requires EmailPattern(s)
    ensures ' ' !in s && s != [] && !AllJsSpace(s)
  {
    var halves := Split(s, '@');
    JoinSplit(s, '@');
    LocalPartChars(halves[0]);
    DomainPartChars(halves[1]);
    JoinEmailChars(halves, '@');
    assert AllEmailChars(s) && s != [];
    assert !IsJsSpace(s[0]);
  }

  /** The emptiness and space checks only choose the message: the email is valid exactly when it matches the pattern. */
  lemma EmailValidIffPattern(s: string)
    ensures Email(s).status <==> EmailPattern(s)
    ensures !EmailPattern(s) && Trim(s) != [] && ' ' !in s ==> Email(s).msg == "Email ID is not valid"
  {
    if EmailPattern(s) {
      PatternHasNoSpace(s);
      TrimEmpty(s);
    }
  }

  // ---------------------------------------------------------------- phone

  predicate AllDigits(s: string) { forall i :: 0 <= i < |s| ==> IsDigit(s[i]) }

  /** `useValidators.phoneNumber`. */
  function PhoneNumber(phoneNo: string): (r: Check)
    ensures r.status <==> r.msg == ""
  {
    if |phoneNo| != 10 then Check(false, "Mobile No. should contain 10 digits.")
    else if !AllDigits(phoneNo) then Check(false, "Mobile No. should contain only digits.")
    else if !('6' <= phoneNo[0] <= '9') then Check(false, "Mobile No. should start with digits 6, 7, 8, or 9.")
    else if forall i :: 0 <= i < |phoneNo| ==> phoneNo[i] == phoneNo[0] then Check(false, "Enter valid mobile number.")
    else Valid
  }

  function Pow10(n: nat): nat { if n == 0 then 1 else 10 * Pow10(n - 1) }

  /** A string of `n` digits has a value below `10^n`, and at least its first digit times `10^(n-1)`. */
  lemma {:induction false} DecimalValueBounds(s: string)
    requires AllDigits(s) && |s| >= 1
    ensures DecimalValue(s) < Pow10(|s|)
    ensures DecimalValue(s) >= (s[0] as int - '0' as int) * Pow10(|s| - 1)
    decreases |s|
  {
    if |s| > 1 {
      var init := s[..|s| - 1];
      DecimalValueBounds(init);
      assert init[0] == s[0];
    }
  }

  /**
   * A valid mobile number, read as a number, lies between 6000000000 and
   * 9999999999 and does not repeat one digit ten times.
   */
  lemma PhoneNumberRange(s: string)
    requires PhoneNumber(s).status
    ensures AllDigits(s) && 6000000000 <= DecimalValue(s) <= 9999999999
    ensures exists i :: 0 <= i < 10 && s[i] != s[0]
  {
    DecimalValueBounds(s);
    assert Pow10(9) == 1000000000 && Pow10(10) == 10000000000;
  }

  /** The rules in order: length, digits only, leading digit, not one repeated digit. */
  lemma PhoneNumberRules(s: string)
    ensures PhoneNumber(s).status <==>
      |s| == 10 && AllDigits(s) && '6' <= s[0] <= '9' && exists i :: 0 <= i < |s| && s[i] != s[0]
  {
  }

  // ---------------------------------------------------------------- password

  /** `[!@#$%^&*(),.?":{}|<>]`. */
  predicate IsSpecial(c: char) { c in "!@#$%^&*(),.?\":{}|<>" }

  predicate HasUpper(s: string) { exists i :: 0 <= i < |s| && IsUpper(s[i]) }
  predicate HasDigit(s: string) { exists i :: 0 <= i < |s| && IsDigit(s[i]) }
  predicate HasSpecial(s: string) { exists i :: 0 <= i < |s| && IsSpecial(s[i]) }

  const SHORT_PASSWORD := "Password should be at least 6 characters long."

  /** `useValidators.password`, as written: nine characters or more are required. */
  function Password(password: string): (r: Check)
    ensures r.status <==> r.msg == ""
  {
    if |password| <= 8 then Check(false, SHORT_PASSWORD)
    else if !HasUpper(password) then Check(false, "Password should have 1 uppercase letter.")
    else if !HasDigit(password) then Check(false, "Password should have 1 numeric value.")
    else if !HasSpecial(password) then Check(false, "Password should have 1 sepcial character.")
    else Valid
  }

  /** A password is accepted exactly when it is longer than eight characters and has an upper-case letter, a digit and a listed special character. */
  lemma PasswordRules(s: string)
    ensures Password(s).status <==> |s| >= 9 && HasUpper(s) && HasDigit(s) && HasSpecial(s)
  {
  }

  /** An eight-character password meeting every other rule is rejected with a message that asks for six. */
  lemma PasswordMessageMismatch()
    ensures var pw := "Abcdef1!";
      |pw| == 8 && HasUpper(pw) && HasDigit(pw) && HasSpecial(pw)
      && Password(pw) == Check(false, SHORT_PASSWORD)
  {
    var pw := "Abcdef1!";
    assert IsUpper(pw[0]) && IsDigit(pw[6]) && IsSpecial(pw[7]);
  }

  /** The length rule the message states: six characters or more. */
  function PasswordAsStated(password: string): (r: Check)
    ensures r.status <==> r.msg == ""
  {
    if |password| < 6 then Check(false, SHORT_PASSWORD)
    else if !HasUpper(password) then Check(false, "Password should have 1 uppercase letter.")
    else if !HasDigit(password) then Check(false, "Password should have 1 numeric value.")
    else if !HasSpecial(password) then Check(false, "Password should have 1 sepcial character.")
    else Valid
  }

  /** With the stated rule the length message is shown exactly to passwords shorter than six characters, and everything the written rule accepts is still accepted. */
  lemma PasswordAsStatedConsistent(s: string)
    ensures PasswordAsStated(s).msg == SHORT_PASSWORD <==> |s| < 6
    ensures Password(s).status ==> PasswordAsStated(s).status
    ensures PasswordAsStated(s).status <==> |s| >= 6 && HasUpper(s) && HasDigit(s) && HasSpecial(s)
  {
  }

  // ---------------------------------------------------------------- otp

  predicate IsSign(c: char) { c == '+' || c == '-' }
  predicate IsHexDigit(c: char) { IsDigit(c) || 'a' <= c <= 'f' || 'A' <= c <= 'F' }
  predicate IsOctalDigit(c: char) { '0' <= c <= '7' }
  predicate IsBinaryDigit(c: char) { c == '0' || c == '1' }

  /** `DecimalDigits ('.' DecimalDigits?)? | '.' DecimalDigits`, without exponent. */
  predicate DecimalMantissa(s: string) {
    var i := IndexOf(s, '.');
    if i == |s| then NonEmptyOf(s, IsDigit)
    else
      var whole := s[..i];
      var frac := s[i + 1..];
      (forall k :: 0 <= k < |whole| ==> IsDigit(whole[k]))
      && (forall k :: 0 <= k < |frac| ==> IsDigit(frac[k]))
      && |whole| + |frac| > 0
  }

  /** `ExponentPart`: a sign, if any, then one or more digits. */
  predicate Exponent(s: string) {
    if |s| > 0 && IsSign(s[0]) then NonEmptyOf(s[1..], IsDigit) else NonEmptyOf(s, IsDigit)
  }

  predicate IsExponentMark(c: char) { c == 'e' || c == 'E' }

  function IndexOfExponent(s: string): (i: nat)
    ensures i <= |s|
    ensures i < |s| ==> IsExponentMark(s[i])
    ensures forall j :: 0 <= j < i ==> !IsExponentMark(s[j])
  {
    if s == [] || IsExponentMark(s[0]) then 0 else 1 + IndexOfExponent(s[1..])
  }

  /** `StrUnsignedDecimalLiteral`. */
  predicate UnsignedDecimal(s: string) {
    s == "Infinity"
    || var e := IndexOfExponent(s);
       DecimalMantissa(s[..e]) && (e == |s| || Exponent(s[e + 1..]))
  }

  /** `NonDecimalIntegerLiteral`: `0x`, `0o` or `0b` and digits of that base. */
  predicate NonDecimalInteger(s: string) {
    |s| > 2 && s[0] == '0'
    && ((s[1] in "xX" && NonEmptyOf(s[2..], IsHexDigit))
        || (s[1] in "oO" && NonEmptyOf(s[2..], IsOctalDigit))
        || (s[1] in "bB" && NonEmptyOf(s[2..], IsBinaryDigit)))
  }

  /** `Number(s)` is not NaN: after trimming, empty, a signed decimal or Infinity, or an unsigned non-decimal integer. */
  predicate IsNumeric(s: string) {
    var t := Trim(s);
    t == []
    || NonDecimalInteger(t)
    || (if IsSign(t[0]) then UnsignedDecimal(t[1..]) else UnsignedDecimal(t))
  }

  const OTP_DIGITS := "OTP should contain only digits."

  /** `useValidators.otp`: scans from the last entry down and stops at the first that is not a number. */
  method Otp(otp: seq<string>) returns (r: Check)
    ensures r.status <==> forall k :: 0 <= k < |otp| ==> IsNumeric(otp[k])
    ensures r == if r.status then Valid else Check(false, OTP_DIGITS)
  {
    var i := |otp| - 1;
    while i >= 0
      invariant -1 <= i < |otp|
      invariant forall k :: i < k < |otp| ==> IsNumeric(otp[k])
    {
      if !IsNumeric(otp[i]) {
        return Check(false, OTP_DIGITS);
      }
      i := i - 1;
    }
    return Valid;
  }

  /** The empty string and a single digit are numbers, so OTP entries of those shapes always pass. */
  lemma SlotIsNumeric(s: string)
    requires s == "" || (|s| == 1 && IsDigit(s[0]))
    ensures IsNumeric(s)
  {
    if s != "" {
      assert Trim(s) == s;
      assert IndexOf(s, '.') == |s|;
      assert IndexOfExponent(s) == |s|;
      assert s[..|s|] == s;
    }
  }

  /** `Number` accepts white space around a literal, exponents, signed Infinity and hexadecimal. */
  lemma NumericAccepts()
    ensures IsNumeric(" 12 ") && IsNumeric("-Infinity") && IsNumeric("0x1F")
  {
    assert TrimStart(" 12 ") == "12 ";
    assert TrimEnd("12 ") == "12";
    assert IndexOfExponent("12") == 2;
    assert Trim("-Infinity") == "-Infinity";
    assert Trim("0x1F") == "0x1F";
  }

  /** `Number` rejects letters after digits and a bare prefix. */
  lemma NumericRejects()
    ensures !IsNumeric("1a") && !IsNumeric("0x")
  {
    assert Trim("1a") == "1a";
    assert IndexOfExponent("1a") == 2;
    assert Trim("0x") == "0x";
    assert IndexOfExponent("0x") == 2;
  }
}
