/** The pieces of the .NET base library that the card code relies on:
    String.IsNullOrWhiteSpace, a case-insensitive string comparison, and
    int.TryParse in its default (Integer) number style. */
module TextRules {
  import opened Errors

  const MinInt32: int := -0x8000_0000
  const MaxInt32: int := 0x7FFF_FFFF

  /** Char.IsWhiteSpace: U+0009..U+000D, U+0020, U+0085, U+00A0 and the
      Unicode space, line and paragraph separators. */
  predicate IsWhiteSpace(c: char) {
    var n := c as int;
    n == 0x20 || 0x09 <= n <= 0x0D || n == 0x85 || n == 0xA0 || n == 0x1680
    || 0x2000 <= n <= 0x200A || n == 0x2028 || n == 0x2029 || n == 0x202F
    || n == 0x205F || n == 0x3000
  }

  /** String.IsNullOrWhiteSpace: null, empty, or white space only. A string of
      the parser's white space is blank, and a blank string holds no digit and
      no letter. */
  predicate IsNullOrWhiteSpace(s: Option<string>)
    ensures s == None || s == Some([]) ==> IsNullOrWhiteSpace(s)
    ensures s.Some? && (forall i :: 0 <= i < |s.value| ==> IsParseWhite(s.value[i])) ==> IsNullOrWhiteSpace(s)
    ensures IsNullOrWhiteSpace(s) && s.Some? ==>
              forall i :: 0 <= i < |s.value| ==> !IsDigit(s.value[i]) && !IsAsciiLetter(s.value[i])
  {
    s.None? || forall i :: 0 <= i < |s.value| ==> IsWhiteSpace(s.value[i])
  }

  // ---------------------------------------------------------------------------
  // Case-insensitive comparison

  predicate IsAsciiLetter(c: char) {
    'A' <= c <= 'Z' || 'a' <= c <= 'z'
  }

  /** Folds an upper-case ASCII letter to lower case; every other character is kept. */
  function FoldCase(c: char): (f: char)
    ensures IsAsciiLetter(f) <==> IsAsciiLetter(c)
    ensures !('A' <= f <= 'Z')
  {
    if 'A' <= c <= 'Z' then (c as int + 32) as char else c
  }

  /** Two strings are equal ignoring case. */
  predicate EqualsIgnoreCase(a: string, b: string) {
    |a| == |b| && forall i :: 0 <= i < |a| ==> FoldCase(a[i]) == FoldCase(b[i])
  }

  /** StringComparer.InvariantCultureIgnoreCase.Compare(a, b) == 0: null compares
      equal only to null, two strings compare equal when they agree ignoring case. */
  predicate CompareIgnoreCaseIsZero(a: Option<string>, b: Option<string>)
    ensures CompareIgnoreCaseIsZero(a, b) ==> (a.None? <==> b.None?)
    ensures a == b ==> CompareIgnoreCaseIsZero(a, b)
    ensures CompareIgnoreCaseIsZero(a, b) && a.Some? ==> |a.value| == |b.value|
  {
    match (a, b)
    case (None, None) => true
    case (Some(x), Some(y)) => EqualsIgnoreCase(x, y)
    case _ => false
  }

  /** The comparison is an equivalence relation. */
  lemma CompareIgnoreCaseIsEquivalence(a: Option<string>, b: Option<string>, c: Option<string>)
    ensures CompareIgnoreCaseIsZero(a, a)
    ensures CompareIgnoreCaseIsZero(a, b) ==> CompareIgnoreCaseIsZero(b, a)
    ensures CompareIgnoreCaseIsZero(a, b) && CompareIgnoreCaseIsZero(b, c) ==> CompareIgnoreCaseIsZero(a, c)
  {
  }

  /** On a string without letters, ignoring case changes nothing: the only
      string equal to it ignoring case is the string itself. */
  lemma NoLettersComparesExactly(a: string, b: string)
    requires forall i :: 0 <= i < |a| ==> !IsAsciiLetter(a[i])
    ensures EqualsIgnoreCase(a, b) <==> a == b
  {
    if EqualsIgnoreCase(a, b) {
      forall i | 0 <= i < |a|
        ensures a[i] == b[i]
      {
        assert FoldCase(a[i]) == a[i];
        assert !IsAsciiLetter(FoldCase(b[i]));
      }
    }
  }

  // ---------------------------------------------------------------------------
  // int.TryParse, NumberStyles.Integer: [ws][sign]digits[ws]

  /** The white space NumberStyles.AllowLeadingWhite/AllowTrailingWhite admit. */
  predicate IsParseWhite(c: char) {
    c == ' ' || 0x09 <= c as int <= 0x0D
  }

  predicate IsDigit(c: char) {
    '0' <= c <= '9'
  }

  predicate AllDigits(s: string) {
    forall i :: 0 <= i < |s| ==> IsDigit(s[i])
  }

  /** The number of parse white space characters `s` starts with. */
  function LeadingWhiteCount(s: string): (k: nat)
    ensures k <= |s|
  {
    if |s| > 0 && IsParseWhite(s[0]) then 1 + LeadingWhiteCount(s[1..]) else 0
  }

  /** The number of parse white space characters `s` ends with. */
  function TrailingWhiteCount(s: string): (k: nat)
    ensures k <= |s|
  {
    if |s| > 0 && IsParseWhite(s[|s| - 1]) then 1 + TrailingWhiteCount(s[..|s| - 1]) else 0
  }

  /** Drops the leading parse white space; the result is a suffix of `s`. */
  function TrimLeadingWhite(s: string): (r: string) {
    s[LeadingWhiteCount(s)..]
  }

  /** Drops the trailing parse white space; the result is a prefix of `s`. */
  function TrimTrailingWhite(s: string): (r: string) {
    s[..|s| - TrailingWhiteCount(s)]
  }

  /** What TrimLeadingWhite drops is all white space, and what it keeps does
      not start with any. */
  lemma {:induction false} TrimLeadingWhiteDropsOnlyWhite(s: string)
    ensures forall i :: 0 <= i < |s| - |TrimLeadingWhite(s)| ==> IsParseWhite(s[i])
    ensures var r := TrimLeadingWhite(s); r == [] || !IsParseWhite(r[0])
  {
    if |s| > 0 && IsParseWhite(s[0]) {
      TrimLeadingWhiteDropsOnlyWhite(s[1..]);
      forall i | 1 <= i < |s| - |TrimLeadingWhite(s)|
        ensures IsParseWhite(s[i])
      {
        assert s[i] == s[1..][i - 1];
      }
    }
  }

  /** What TrimTrailingWhite drops is all white space, and what it keeps does
      not end with any. */
  lemma {:induction false} TrimTrailingWhiteDropsOnlyWhite(s: string)
    ensures forall i :: |TrimTrailingWhite(s)| <= i < |s| ==> IsParseWhite(s[i])
    ensures var r := TrimTrailingWhite(s); r == [] || !IsParseWhite(r[|r| - 1])
  {
    if |s| > 0 && IsParseWhite(s[|s| - 1]) {
      TrimTrailingWhiteDropsOnlyWhite(s[..|s| - 1]);
      forall i | |TrimTrailingWhite(s)| <= i < |s| - 1
        ensures IsParseWhite(s[i])
      {
        assert s[i] == s[..|s| - 1][i];
      }
    }
  }

  /** The value of a string of decimal digits, most significant first. */
  function DigitsValue(s: string): nat
    requires AllDigits(s)
  {
    if s == [] then 0 else 10 * DigitsValue(s[..|s| - 1]) + (s[|s| - 1] as int - '0' as int)
  }

  /** Both ends of `s` without the parse white space. */
  function Trim(s: string): string {
    TrimTrailingWhite(TrimLeadingWhite(s))
  }

  /** The number an already trimmed string denotes: an optional sign and at
      least one digit, with a value that fits in an Int32. */
  function ParseTrimmed(t: string): (r: Option<int>)
    ensures r.Some? ==> MinInt32 <= r.value <= MaxInt32
  {
    var signed := |t| > 0 && (t[0] == '+' || t[0] == '-');
    var digits := if signed then t[1..] else t;
    if |digits| == 0 || !AllDigits(digits) then None
    else
      var magnitude: int := DigitsValue(digits);
      var v := if signed && t[0] == '-' then -magnitude else magnitude;
      if MinInt32 <= v <= MaxInt32 then Some(v) else None
  }

  /** int.TryParse(s, out result): Some(result) when `s` is optional white space,
      an optional sign, at least one digit and optional white space, and the
      value fits in an Int32; None otherwise. */
  function TryParseInt32(s: string): (r: Option<int>)
    ensures r.Some? ==> MinInt32 <= r.value <= MaxInt32
  {
    ParseTrimmed(Trim(s))
  }

  /** The shortest decimal digit string of `n` (what Int32.ToString prints for n >= 0). */
  function DecimalString(n: nat): (s: string)
    ensures |s| > 0 && AllDigits(s)
    ensures s[0] != '0' || n == 0
  {
    if n < 10 then [('0' as int + n) as char]
    else DecimalString(n / 10) + [('0' as int + n % 10) as char]
  }

  /** The digit string of `n` has the value `n`. */
  lemma {:induction false} DecimalStringValue(n: nat)
    ensures DigitsValue(DecimalString(n)) == n
  {
    var s := DecimalString(n);
    if n >= 10 {
      DecimalStringValue(n / 10);
      assert s[..|s| - 1] == DecimalString(n / 10);
    }
  }

  /** int.ToString(): an optional minus sign followed by the digits. */
  function Render(n: int): (s: string)
    ensures |s| > 0 && !IsParseWhite(s[0]) && !IsParseWhite(s[|s| - 1])
  {
    if n < 0 then "-" + DecimalString(-n) else DecimalString(n)
  }

  /** Parsing inverts formatting: every Int32 survives the round trip, and
      every formatted integer outside the Int32 range is refused. */
  lemma ParseRendered(n: int)
    ensures TryParseInt32(Render(n)) == if MinInt32 <= n <= MaxInt32 then Some(n) else None
  {
    var s := Render(n);
    assert TrimLeadingWhite(s) == s;
    assert Trim(s) == s;
    if n < 0 {
      assert s[1..] == DecimalString(-n);
      DecimalStringValue(-n);
    } else {
      DecimalStringValue(n);
    }
  }

  /** White space around a string the parser would not trim is skipped. */
  lemma ParseSkipsPadding(s: string, before: char, after: char)
    requires |s| > 0 && !IsParseWhite(s[0]) && !IsParseWhite(s[|s| - 1])
    requires IsParseWhite(before) && IsParseWhite(after)
    ensures TryParseInt32([before] + s + [after]) == TryParseInt32(s)
  {
    var padded := [before] + s + [after];
    var tail := s + [after];
    assert padded[1..] == tail;
    assert LeadingWhiteCount(tail) == 0 by { assert tail[0] == s[0]; }
    assert TrimLeadingWhite(padded) == tail;
    assert tail[..|tail| - 1] == s;
    assert TrailingWhiteCount(tail) == 1;
    assert TrimTrailingWhite(tail) == s;
    assert LeadingWhiteCount(s) == 0 && TrailingWhiteCount(s) == 0;
    assert Trim(padded) == s == Trim(s);
  }

  /** The characters a parsed string may hold: digits, signs and parse white space. */
  predicate IsNumericChar(c: char) {
    IsDigit(c) || IsParseWhite(c) || c == '+' || c == '-'
  }

  predicate AllNumeric(s: string) {
    forall i :: 0 <= i < |s| ==> IsNumericChar(s[i])
  }

  lemma LeadingWhiteIsNumeric(s: string)
    requires AllNumeric(TrimLeadingWhite(s))
    ensures AllNumeric(s)
  {
    TrimLeadingWhiteDropsOnlyWhite(s);
    var r := TrimLeadingWhite(s);
    forall i | |s| - |r| <= i < |s|
      ensures IsNumericChar(s[i])
    {
      assert s[i] == r[i - (|s| - |r|)];
    }
  }

  lemma TrailingWhiteIsNumeric(s: string)
    requires AllNumeric(TrimTrailingWhite(s))
    ensures AllNumeric(s)
  {
    TrimTrailingWhiteDropsOnlyWhite(s);
    var r := TrimTrailingWhite(s);
    forall i | 0 <= i < |r|
      ensures IsNumericChar(s[i])
    {
      assert s[i] == r[i];
    }
  }

  /** A string that parses consists of digits, signs and parse white space
      only, so it holds no letter, and it holds at least one digit. */
  lemma ParsedStringIsNumeric(s: string)
    requires TryParseInt32(s).Some?
    ensures AllNumeric(s)
    ensures forall i :: 0 <= i < |s| ==> !IsAsciiLetter(s[i])
    ensures exists i :: 0 <= i < |s| && IsDigit(s[i])
  {
    var l := TrimLeadingWhite(s);
    var t := TrimTrailingWhite(l);
    assert ParseTrimmed(t).Some?;
    var signed := |t| > 0 && (t[0] == '+' || t[0] == '-');
    var digits := if signed then t[1..] else t;
    assert AllDigits(digits) && |digits| > 0;
    assert AllNumeric(t) by {
      forall i | 0 <= i < |t|
        ensures IsNumericChar(t[i])
      {
        if signed && i > 0 {
          assert t[i] == digits[i - 1];
        }
      }
    }
    TrailingWhiteIsNumeric(l);
    LeadingWhiteIsNumeric(s);
    var j := |s| - |l| + (if signed then 1 else 0);
    assert s[j] == l[j - (|s| - |l|)] == t[j - (|s| - |l|)] == digits[0];
  }
}
