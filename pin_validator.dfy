/** PinValidator: the stateless check that a PIN is a string holding a
    non-negative Int32. */
module PinValidator {
  import opened Errors
  import opened TextRules

  /** PinValidator.ValidatePin: blank first (ArgumentNullException), then not an
      Int32 (ArgumentException), then negative (ArgumentException). */
  function ValidatePin(pin: Option<string>): (c: Check)
    ensures IsNullOrWhiteSpace(pin) <==> c == Fail(ArgumentNullException)
    ensures c.Fail? && !IsNullOrWhiteSpace(pin) ==> c.error == ArgumentException
    ensures c == Pass <==> !IsNullOrWhiteSpace(pin) && TryParseInt32(pin.value).Some? && TryParseInt32(pin.value).value >= 0
  {
    if IsNullOrWhiteSpace(pin) then Fail(ArgumentNullException)
    else match TryParseInt32(pin.value)
      case None => Fail(ArgumentException)
      case Some(result) => if result < 0 then Fail(ArgumentException) else Pass
  }

  /** Every non-negative Int32, written out in digits, is a valid PIN. */
  lemma AcceptsEveryInt32Pin(n: nat)
    requires n <= MaxInt32
    ensures ValidatePin(Some(DecimalString(n))) == Pass
  {
    ParseRendered(n);
  }

  /** A digit string whose value does not fit in an Int32 is not a number. */
  lemma RejectsOversizedPin(n: nat)
    requires n > MaxInt32
    ensures ValidatePin(Some(DecimalString(n))) == Fail(ArgumentException)
  {
    ParseRendered(n);
  }

  /** Every negative number is refused, whether or not it fits in an Int32. */
  lemma RejectsNegativePin(n: nat)
    requires n > 0
    ensures ValidatePin(Some("-" + DecimalString(n))) == Fail(ArgumentException)
  {
    ParseRendered(-(n as int));
  }

  /** A non-blank PIN holding any character other than a digit, a sign or the
      white space the parser skips is not a number. */
  lemma RejectsNonNumericPin(pin: string, i: nat)
    requires !IsNullOrWhiteSpace(Some(pin))
    requires i < |pin| && !IsNumericChar(pin[i])
    ensures ValidatePin(Some(pin)) == Fail(ArgumentException)
  {
    if TryParseInt32(pin).Some? {
      ParsedStringIsNumeric(pin);
    }
  }

  /** An accepted PIN contains no letters, so comparing it ignoring case is
      the same as comparing it exactly. */
  lemma AcceptedPinHasNoLetters(pin: Option<string>)
    requires ValidatePin(pin) == Pass
    ensures forall i :: 0 <= i < |pin.value| ==> !IsAsciiLetter(pin.value[i])
  {
    ParsedStringIsNumeric(pin.value);
  }

  /** "1234", the PIN every test uses, is accepted. */
  lemma AcceptsTestPin()
    ensures ValidatePin(Some("1234")) == Pass
  {
    assert DecimalString(1) == "1";
    assert DecimalString(12) == "12";
    assert DecimalString(123) == "123";
    assert DecimalString(1234) == "1234";
    AcceptsEveryInt32Pin(1234);
  }

  /** "-0" and "+0" parse to zero, which is not negative, so both are accepted. */
  lemma AcceptsSignedZero(sign: char)
    requires sign == '-' || sign == '+'
    ensures ValidatePin(Some([sign, '0'])) == Pass
  {
    var s := [sign, '0'];
    assert !IsNullOrWhiteSpace(Some(s)) by { assert !IsWhiteSpace(s[0]); }
    assert LeadingWhiteCount(s) == 0 && TrailingWhiteCount(s) == 0;
    assert Trim(s) == s;
    var digits := s[1..];
    assert |digits| == 1 && IsDigit(digits[0]) && digits[..0] == [];
    assert DigitsValue(digits) == 0;
    assert ParseTrimmed(s) == Some(0);
  }

  /** White space around the digits of a PIN is skipped: " 12 " is as good as "12". */
  lemma AcceptsPaddedPin(n: nat, before: char, after: char)
    requires n <= MaxInt32
    requires IsParseWhite(before) && IsParseWhite(after)
    ensures ValidatePin(Some([before] + DecimalString(n) + [after])) == Pass
  {
    var s := DecimalString(n);
    ParseRendered(n);
    ParseSkipsPadding(s, before, after);
    assert !IsWhiteSpace(([before] + s + [after])[1]) by {
      assert ([before] + s + [after])[1] == s[0];
    }
  }

  /** A missing, empty or blank PIN is refused as missing. */
  lemma RefusesMissingPins()
    ensures ValidatePin(None) == Fail(ArgumentNullException)
    ensures ValidatePin(Some("")) == Fail(ArgumentNullException)
    ensures ValidatePin(Some("  ")) == Fail(ArgumentNullException)
  {
  }

  /** The test PIN "ABCD" is not a number. */
  lemma RefusesLetterPin()
    ensures ValidatePin(Some("ABCD")) == Fail(ArgumentException)
  {
    assert !IsWhiteSpace("ABCD"[0]);
    RejectsNonNumericPin("ABCD", 0);
  }

  /** The test PIN "-234" is negative. */
  lemma RefusesNegativeTestPin()
    ensures ValidatePin(Some("-234")) == Fail(ArgumentException)
  {
    assert DecimalString(2) == "2";
    assert DecimalString(23) == "23";
    assert DecimalString(234) == "234";
    assert "-" + DecimalString(234) == "-234";
    RejectsNegativePin(234);
  }
}
