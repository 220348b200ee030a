/** Python's text conversions as the serializers and permissions use them:
    `str.strip()`, `str(n)` for an integer and `int(s)` for text. Only ASCII
    decimal digits are read; Python also reads other Unicode decimal digits
    and underscores between digits, which the model leaves out. */
module PyText {
  import opened Wrappers

  // ---------------------------------------------------------------------
  // Whitespace and str.strip()

  /** Python's str.isspace() for a single character. */
  predicate IsSpace(c: char) {
    || c == ' ' || '\t' <= c <= '\r' || '\U{1c}' <= c <= '\U{1f}'
    || c == '\U{85}' || c == '\U{a0}' || c == '\U{1680}'
    || '\U{2000}' <= c <= '\U{200a}' || c == '\U{2028}' || c == '\U{2029}'
    || c == '\U{202f}' || c == '\U{205f}' || c == '\U{3000}'
  }

  /** Drops the leading whitespace: the result is a suffix of `s`, everything
      dropped is whitespace, and the result does not start with whitespace. */
  function StripLeft(s: string): (r: string)
    ensures |r| <= |s| && r == s[|s| - |r|..]
    ensures forall k :: 0 <= k < |s| - |r| ==> IsSpace(s[k])
    ensures |r| > 0 ==> !IsSpace(r[0])
  {
    if |s| > 0 && IsSpace(s[0]) then StripLeft(s[1..]) else s
  }

  /** Drops the trailing whitespace: the result is a prefix of `s`, everything
      dropped is whitespace, and the result does not end with whitespace. */
  function StripRight(s: string): (r: string)
    ensures |r| <= |s| && r == s[..|r|]
    ensures forall k :: |r| <= k < |s| ==> IsSpace(s[k])
    ensures |r| > 0 ==> !IsSpace(r[|r| - 1])
  {
    if |s| > 0 && IsSpace(s[|s| - 1]) then StripRight(s[..|s| - 1]) else s
  }

  /** str.strip(): drops whitespace at both ends and keeps the middle; the
      result is empty exactly when `s` is all whitespace. */
  function Strip(s: string): (r: string)
    ensures |r| <= |s|
    ensures |r| > 0 ==> !IsSpace(r[0]) && !IsSpace(r[|r| - 1])
    ensures r == "" <==> forall k :: 0 <= k < |s| ==> IsSpace(s[k])
  {
    StripRight(StripLeft(s))
  }

  /** str.strip() keeps a middle slice of `s`: the result is `s[a..a + |r|]`
      for some `a`, and everything before and after that slice is whitespace. */
  lemma StripKeepsMiddle(s: string)
    ensures var a := |s| - |StripLeft(s)|;
            && a + |Strip(s)| <= |s| && Strip(s) == s[a..a + |Strip(s)|]
            && (forall k :: 0 <= k < a ==> IsSpace(s[k]))
            && (forall k :: a + |Strip(s)| <= k < |s| ==> IsSpace(s[k]))
  {
    var l := StripLeft(s);
    var r := StripRight(l);
    assert Strip(s) == r;
    MiddleSlice(s, l, r, |s| - |l|);
  }

  /** A prefix `r` of the suffix `s[a..]`, followed there by whitespace only,
      is the slice `s[a..a + |r|]`, followed in `s` by whitespace only. */
  lemma MiddleSlice(s: string, l: string, r: string, a: int)
    requires 0 <= a <= |s| && l == s[a..]
    requires |r| <= |l| && r == l[..|r|]
    requires forall k :: |r| <= k < |l| ==> IsSpace(l[k])
    ensures a + |r| <= |s| && r == s[a..a + |r|]
    ensures forall k :: a + |r| <= k < |s| ==> IsSpace(s[k])
  {
    forall k | a + |r| <= k < |s|
      ensures IsSpace(s[k])
    {
      assert s[k] == l[k - a];
    }
  }

  /** Text without surrounding whitespace is its own strip. */
  lemma StripUnpadded(s: string)
    requires |s| > 0 && !IsSpace(s[0]) && !IsSpace(s[|s| - 1])
    ensures Strip(s) == s
  {
  }

  // ---------------------------------------------------------------------
  // Decimal digits

  predicate IsDigit(c: char) {
    '0' <= c <= '9'
  }

  predicate IsDigits(s: string) {
    |s| > 0 && forall i :: 0 <= i < |s| ==> IsDigit(s[i])
  }

  function DigitValue(c: char): nat
    requires IsDigit(c)
  {
    (c - '0') as nat
  }

  function DigitChar(d: nat): char
    requires d < 10
  {
    '0' + d as char
  }

  /** `str(n)` for a natural number: its decimal digits, most significant first. */
  function NatString(n: nat): (s: string)
    ensures IsDigits(s)
    ensures |s| > 1 ==> s[0] != '0'
  {
    if n < 10 then [DigitChar(n)] else NatString(n / 10) + [DigitChar(n % 10)]
  }

  /** `str(i)` for any integer: a minus sign before the digits of a negative one. */
  function IntString(i: int): (s: string)
    ensures |s| > 0
    ensures forall k :: 0 <= k < |s| ==> IsDigit(s[k]) || s[k] == '-'
  {
    if i < 0 then "-" + NatString(-i) else NatString(i)
  }

  /** The value of a non-empty digit string (leading zeros allowed), None
      for any other text. */
  function DecimalValue(s: string): (r: Option<nat>)
    ensures r.Some? <==> IsDigits(s)
  {
    if |s| == 0 || !IsDigit(s[|s| - 1]) then None
    else if |s| == 1 then Some(DigitValue(s[0]))
    else match DecimalValue(s[..|s| - 1])
      case None => None
      case Some(v) => Some(v * 10 + DigitValue(s[|s| - 1]))
  }

  /** Reading back what `str` wrote gives the number again. */
  lemma {:induction false} DecimalValueOfNatString(n: nat)
    ensures DecimalValue(NatString(n)) == Some(n)
  {
    var s := NatString(n);
    if n >= 10 {
      DecimalValueOfNatString(n / 10);
      assert s[..|s| - 1] == NatString(n / 10);
      assert DigitValue(s[|s| - 1]) == n % 10;
    }
  }

  /** Leading zeros do not change the value: "007" reads as 7. */
  lemma {:induction false} LeadingZerosIgnored(s: string)
    requires IsDigits(s)
    ensures DecimalValue("0" + s) == DecimalValue(s)
  {
    if |s| > 1 {
      assert ("0" + s)[..|s|] == "0" + s[..|s| - 1];
      LeadingZerosIgnored(s[..|s| - 1]);
    }
  }

  // ---------------------------------------------------------------------
  // int(s)

  predicate IsSign(c: char) {
    c == '+' || c == '-'
  }

  /** `int(s)` on text: surrounding whitespace is ignored, then an optional
      sign and decimal digits; None where Python raises ValueError. */
  function IntOfText(s: string): Option<int> {
    var t := Strip(s);
    if |t| > 0 && IsSign(t[0]) then
      match DecimalValue(t[1..])
      case None => None
      case Some(v) => var n: int := v; Some(if t[0] == '-' then -n else n)
    else
      match DecimalValue(t)
      case None => None
      case Some(v) => Some(v)
  }

  /** Digit text without sign or padding reads as its decimal value. */
  lemma IntOfDigits(d: string)
    requires IsDigits(d)
    ensures IntOfText(d) == Some(DecimalValue(d).value as int)
  {
    StripUnpadded(d);
  }

  /** Unpadded text that starts with a digit is read only if it is all
      digits: "5.5" raises. */
  lemma IntOfTextNeedsDigits(t: string)
    requires |t| > 0 && IsDigit(t[0]) && IsDigit(t[|t| - 1]) && !IsDigits(t)
    ensures IntOfText(t) == None
  {
    StripUnpadded(t);
  }

  /** A minus sign before digit text negates the value. */
  lemma IntOfNegatedDigits(t: string, v: nat)
    requires |t| > 1 && t[0] == '-' && DecimalValue(t[1..]) == Some(v)
    ensures IntOfText(t) == Some(-(v as int))
  {
    assert IsDigit(t[1..][|t| - 2]);
    StripUnpadded(t);
  }

  /** A plus sign before digit text keeps the value: "+5" reads as 5. */
  lemma IntOfPlusDigits(t: string, v: nat)
    requires |t| > 1 && t[0] == '+' && DecimalValue(t[1..]) == Some(v)
    ensures IntOfText(t) == Some(v as int)
  {
    assert IsDigit(t[1..][|t| - 2]);
    StripUnpadded(t);
  }

  /** Whitespace around the text does not change what `int()` reads. */
  lemma IntOfStrippedText(s: string)
    ensures IntOfText(Strip(s)) == IntOfText(s)
  {
    StripIdempotent(s);
  }

  /** Stripping twice is stripping once. */
  lemma StripIdempotent(s: string)
    ensures Strip(Strip(s)) == Strip(s)
  {
    if Strip(s) != "" {
      StripUnpadded(Strip(s));
    }
  }

  /** Text that is blank, or whose trimmed form starts with neither a digit
      nor a sign, is refused. */
  lemma IntOfTextNeedsLeadingDigit(s: string)
    requires Strip(s) == "" || (!IsDigit(Strip(s)[0]) && !IsSign(Strip(s)[0]))
    ensures IntOfText(s) == None
  {
  }

  /** `str(i)` of a negative integer is a minus sign before `str(-i)`. */
  lemma NegativeIntString(i: int)
    requires i < 0
    ensures |IntString(i)| > 1 && IntString(i)[0] == '-' && IntString(i)[1..] == NatString(-i)
  {
  }

  /** `int(str(n)) == n` for a natural number. */
  lemma IntOfNatString(n: nat)
    ensures IntOfText(NatString(n)) == Some(n)
  {
    DecimalValueOfNatString(n);
    IntOfDigits(NatString(n));
  }

  /** A minus sign before `str(n)` reads as `-n`. */
  lemma IntOfMinusNatString(t: string, n: nat)
    requires |t| > 1 && t[0] == '-' && t[1..] == NatString(n)
    ensures IntOfText(t) == Some(-(n as int))
  {
    DecimalValueOfNatString(n);
    IntOfNegatedDigits(t, n);
  }

  /** `int(str(i)) == i` for a negative integer. */
  lemma IntOfNegativeString(i: int)
    requires i < 0
    ensures IntOfText(IntString(i)) == Some(i)
  {
    NegativeIntString(i);
    IntOfMinusNatString(IntString(i), -i);
  }

  /** `int(str(i)) == i` for every integer. */
  lemma IntOfTextOfIntString(i: int)
    ensures IntOfText(IntString(i)) == Some(i)
  {
    if i < 0 {
      IntOfNegativeString(i);
    } else {
      IntOfNatString(i);
    }
  }
}
