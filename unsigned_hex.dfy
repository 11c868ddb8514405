/**
 * The two library routines the label colour passes through:
 * Long.parseUnsignedLong(s, 16) and Long.toHexString on a non-negative
 * long. Values are kept as natural numbers below 2^64.
 */
module UnsignedHex {
  import opened Wrappers

  /** 2^64: every unsigned long is below it. */
  const UnsignedLongLimit: nat := 0x1_0000_0000_0000_0000

  /**
   * A hexadecimal digit, in either case. Only the ASCII digits and letters
   * are modelled; Character.digit also accepts other Unicode decimal digits
   * and the fullwidth Latin letters, which this predicate rejects.
   */
  predicate IsHexDigit(c: char) {
    '0' <= c <= '9' || 'a' <= c <= 'f' || 'A' <= c <= 'F'
  }

  /** A digit Long.toHexString produces: lower case only. */
  predicate IsLowerHexDigit(c: char) {
    '0' <= c <= '9' || 'a' <= c <= 'f'
  }

  predicate AllHexDigits(s: string) {
    forall i :: 0 <= i < |s| ==> IsHexDigit(s[i])
  }

  function DigitValue(c: char): (v: nat)
    requires IsHexDigit(c)
    ensures v < 16
  {
    if '0' <= c <= '9' then c as int - '0' as int
    else if 'a' <= c <= 'f' then c as int - 'a' as int + 10
    else c as int - 'A' as int + 10
  }

  function LowerHexDigit(v: nat): (c: char)
    requires v < 16
    ensures IsLowerHexDigit(c) && IsHexDigit(c) && DigitValue(c) == v
  {
    if v < 10 then ('0' as int + v) as char else ('a' as int + v - 10) as char
  }

  /** The number a digit string denotes, most significant digit first. */
  function DigitsValue(s: string): nat
    requires AllHexDigits(s)
  {
    if s == [] then 0 else DigitsValue(s[..|s| - 1]) * 16 + DigitValue(s[|s| - 1])
  }

  /** The digits that follow an optional leading '+'. */
  function Unsigned(s: string): string {
    if |s| > 0 && s[0] == '+' then s[1..] else s
  }

  /**
   * Long.parseUnsignedLong(s, 16): an optional '+', then one or more
   * hexadecimal digits whose value is below 2^64. Anything else, including
   * the empty string, a lone '+' and a leading '-', is a
   * NumberFormatException here; so are the non-ASCII digits IsHexDigit
   * leaves out, which Java would accept.
   */
  function ParseUnsignedHex(s: string): (r: Result<nat>)
    ensures r.Success? ==> r.value < UnsignedLongLimit
    ensures r.Success? ==> |Unsigned(s)| > 0 && AllHexDigits(Unsigned(s))
    ensures r.Failure? ==> r.error == NumberFormat
    ensures |s| > 0 && s[0] == '-' ==> r.Failure?
  {
    var digits := Unsigned(s);
    if |digits| > 0 && AllHexDigits(digits) && DigitsValue(digits) < UnsignedLongLimit then
      Success(DigitsValue(digits))
    else
      Failure(NumberFormat)
  }

  /** The text Long.toHexString prints: lower case, no leading zeros, "0" for zero. */
  predicate IsCanonicalHex(s: string) {
    |s| > 0 && (forall i :: 0 <= i < |s| ==> IsLowerHexDigit(s[i])) && (s[0] == '0' ==> s == "0")
  }

  /** Long.toHexString of a value below 2^64. */
  function ToHexString(n: nat): (s: string)
    ensures IsCanonicalHex(s) && AllHexDigits(s)
    ensures DigitsValue(s) == n
  {
    if n < 16 then [LowerHexDigit(n)]
    else
      var prefix := ToHexString(n / 16);
      var s := prefix + [LowerHexDigit(n % 16)];
      assert s[..|s| - 1] == prefix;
      s
  }

  /** A digit string whose first digit is not zero denotes a positive number. */
  lemma {:induction false} LeadingDigitPositive(s: string)
    requires |s| > 0 && AllHexDigits(s) && s[0] != '0'
    ensures DigitsValue(s) > 0
  {
    if |s| > 1 {
      LeadingDigitPositive(s[..|s| - 1]);
    }
  }

  /** Printing then parsing gives back the number. */
  lemma ParsePrinted(n: nat)
    requires n < UnsignedLongLimit
    ensures ParseUnsignedHex(ToHexString(n)) == Success(n)
  {
    var s := ToHexString(n);
    assert Unsigned(s) == s;
  }

  /** A lower-case digit is printed back as itself. */
  lemma DigitPrintedBack(c: char)
    requires IsLowerHexDigit(c)
    ensures LowerHexDigit(DigitValue(c)) == c
  {
  }

  /** Appending a digit is a multiplication by 16 that division undoes. */
  lemma AppendedDigitDivides(p: nat, d: nat)
    requires d < 16
    ensures (p * 16 + d) / 16 == p && (p * 16 + d) % 16 == d
  {
  }

  /** Parsing then printing gives back a canonical digit string. */
  lemma {:induction false} PrintParsed(s: string)
    requires IsCanonicalHex(s)
    ensures AllHexDigits(s) && ToHexString(DigitsValue(s)) == s
  {
    var last := s[|s| - 1];
    DigitPrintedBack(last);
    if |s| == 1 {
      assert ToHexString(DigitsValue(s)) == [LowerHexDigit(DigitValue(last))];
    } else {
      var prefix := s[..|s| - 1];
      assert IsCanonicalHex(prefix);
      LeadingDigitPositive(prefix);
      PrintParsed(prefix);
      var p, d := DigitsValue(prefix), DigitValue(last);
      assert DigitsValue(s) == p * 16 + d;
      AppendedDigitDivides(p, d);
      assert ToHexString(DigitsValue(s)) == ToHexString(p) + [LowerHexDigit(d)];
      assert s == prefix + [last];
    }
  }

  /** A digit with upper-case letters replaced by lower-case ones. */
  function ToLowerDigit(c: char): (l: char)
    ensures IsHexDigit(c) ==> IsLowerHexDigit(l) && DigitValue(l) == DigitValue(c)
    ensures !IsHexDigit(c) ==> !IsHexDigit(l)
  {
    if 'A' <= c <= 'F' then (c as int - 'A' as int + 'a' as int) as char else c
  }

  function ToLowerDigits(s: string): (r: string)
    ensures |r| == |s| && forall i :: 0 <= i < |s| ==> r[i] == ToLowerDigit(s[i])
  {
    if s == [] then [] else ToLowerDigits(s[..|s| - 1]) + [ToLowerDigit(s[|s| - 1])]
  }

  /** Well-formed text parses to the number its digits denote. */
  lemma ParseDigits(s: string)
    requires |Unsigned(s)| > 0 && AllHexDigits(Unsigned(s)) && DigitsValue(Unsigned(s)) < UnsignedLongLimit
    ensures ParseUnsignedHex(s) == Success(DigitsValue(Unsigned(s)))
  {
  }

  /** A leading zero digit adds nothing to the value. */
  lemma {:induction false} LeadingZeroValue(s: string)
    requires AllHexDigits(s)
    ensures AllHexDigits("0" + s) && DigitsValue("0" + s) == DigitsValue(s)
  {
    if s != [] {
      LeadingZeroValue(s[..|s| - 1]);
      assert ("0" + s)[..|s|] == "0" + s[..|s| - 1];
    }
  }

  /** Leading zeros are not significant: "0e8a16" parses as "e8a16" does. */
  lemma ParseLeadingZero(s: string)
    requires |s| > 0 && s[0] != '+'
    ensures ParseUnsignedHex("0" + s) == ParseUnsignedHex(s)
  {
    assert Unsigned("0" + s) == "0" + s;
    if AllHexDigits(s) {
      LeadingZeroValue(s);
    } else {
      var i :| 0 <= i < |s| && !IsHexDigit(s[i]);
      assert !IsHexDigit(("0" + s)[i + 1]);
    }
  }

  /** Digit strings in upper and lower case denote the same number. */
  lemma {:induction false} LowerDigitsSameValue(s: string)
    requires AllHexDigits(s)
    ensures AllHexDigits(ToLowerDigits(s)) && DigitsValue(ToLowerDigits(s)) == DigitsValue(s)
  {
    if s != [] {
      var l := ToLowerDigits(s);
      LowerDigitsSameValue(s[..|s| - 1]);
      assert l[..|l| - 1] == ToLowerDigits(s[..|s| - 1]);
    }
  }

  /** The parse does not depend on the case of the digits. */
  lemma ParseIgnoresCase(s: string)
    ensures ParseUnsignedHex(ToLowerDigits(s)) == ParseUnsignedHex(s)
  {
    var d, l := Unsigned(s), ToLowerDigits(s);
    if |s| > 0 && s[0] == '+' {
      assert Unsigned(l) == ToLowerDigits(d);
    } else {
      assert Unsigned(l) == l;
    }
    if AllHexDigits(d) {
      LowerDigitsSameValue(d);
    } else {
      var i :| 0 <= i < |d| && !IsHexDigit(d[i]);
      assert !IsHexDigit(Unsigned(l)[i]);
    }
  }
}
