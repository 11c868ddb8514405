/**
 * Issue.Label: a label name and its colour, a 32-bit int read from and
 * written back as hexadecimal text.
 */
module Labels {
  import opened Wrappers
  import opened Values
  import opened UnsignedHex

  const TwoTo32: nat := 0x1_0000_0000

  /** `(int) (v & 0xFFFFFFFFL)`: the low 32 bits, read as a signed int. */
  function LowInt32(v: nat): (r: Int32)
    ensures (r - v) % TwoTo32 == 0
  {
    var low := v % TwoTo32;
    if low < 0x8000_0000 then low else low - TwoTo32
  }

  /** `color & 0xFFFFFFFFL` for an int colour: its unsigned 32-bit value. */
  function Unsigned32(c: Int32): (u: nat)
    ensures u < TwoTo32 && (u - c) % TwoTo32 == 0
  {
    if c < 0 then c + TwoTo32 else c
  }

  lemma LowInt32OfUnsigned32(c: Int32)
    ensures LowInt32(Unsigned32(c)) == c
  {
  }

  lemma Unsigned32OfLowInt32(v: nat)
    requires v < TwoTo32
    ensures Unsigned32(LowInt32(v)) == v
  {
  }

  datatype Label = Label(name: string, color: Int32)

  /**
   * The JSON constructor: the colour text is parsed as an unsigned long in
   * base 16 (a NumberFormatException when it is not one) and truncated to
   * its low 32 bits.
   */
  function LabelFromHex(name: string, color: string): (r: Result<Label>)
    ensures r.Failure? <==> ParseUnsignedHex(color).Failure?
    ensures r.Failure? ==> r.error == NumberFormat
    ensures r.Success? ==> r.value.name == name
    ensures r.Success? ==> Unsigned32(r.value.color) == ParseUnsignedHex(color).value % TwoTo32
  {
    var parsed := ParseUnsignedHex(color);
    if parsed.Failure? then Failure(parsed.error) else Success(Label(name, LowInt32(parsed.value)))
  }

  /** getColorHex: the unsigned colour in lower-case hexadecimal without leading zeros. */
  function ColorHex(l: Label): (s: string)
    ensures IsCanonicalHex(s) && |s| <= 8
    ensures AllHexDigits(s) && DigitsValue(s) == Unsigned32(l.color)
  {
    HexLength(Unsigned32(l.color), 8);
    ToHexString(Unsigned32(l.color))
  }

  function Pow16(k: nat): (p: nat)
    ensures p >= 1
  {
    if k == 0 then 1 else 16 * Pow16(k - 1)
  }

  /** A number below 16^k prints in at most k digits. */
  lemma {:induction false} HexLength(n: nat, k: nat)
    requires k >= 1 && n < Pow16(k)
    ensures |ToHexString(n)| <= k
  {
    if n >= 16 {
      HexLength(n / 16, k - 1);
    }
  }

  /** A label printed and read back is the same label. */
  lemma ColorRoundTrip(l: Label)
    ensures LabelFromHex(l.name, ColorHex(l)) == Success(l)
  {
    ParsePrinted(Unsigned32(l.color));
    LowInt32OfUnsigned32(l.color);
  }

  /** Canonical colour text of at most 32 bits is printed back exactly as it was read. */
  lemma HexRoundTrip(name: string, color: string)
    requires IsCanonicalHex(color) && DigitsValue(color) < TwoTo32
    ensures LabelFromHex(name, color).Success?
    ensures ColorHex(LabelFromHex(name, color).value) == color
  {
    PrintParsed(color);
    var v := DigitsValue(color);
    assert Unsigned(color) == color;
    assert ParseUnsignedHex(color) == Success(v);
    Unsigned32OfLowInt32(v);
  }

  /** Colour text in upper case reads as the same label as in lower case. */
  lemma ColorCaseIgnored(name: string, color: string)
    ensures LabelFromHex(name, ToLowerDigits(color)) == LabelFromHex(name, color)
  {
    ParseIgnoresCase(color);
  }

  /** Leading zeros in the colour text do not change the label. */
  lemma LeadingZeroIgnored(name: string, color: string)
    requires |color| > 0 && color[0] != '+'
    ensures LabelFromHex(name, "0" + color) == LabelFromHex(name, color)
  {
    ParseLeadingZero(color);
  }

  /** Colours GitHub sends with leading zeros: "0e8a16" is 0xe8a16 and "006b75" is 0x6b75. */
  lemma PaddedColors(name: string)
    ensures LabelFromHex(name, "0e8a16") == Success(Label(name, 0xe8a16))
    ensures LabelFromHex(name, "006b75") == Success(Label(name, 0x6b75))
  {
    assert DigitsValue("0e") == 0xe by { assert "0e"[..1] == "0"; }
    assert DigitsValue("0e8") == 0xe8 by { assert "0e8"[..2] == "0e"; }
    assert DigitsValue("0e8a") == 0xe8a by { assert "0e8a"[..3] == "0e8"; }
    assert DigitsValue("0e8a1") == 0xe8a1 by { assert "0e8a1"[..4] == "0e8a"; }
    assert DigitsValue("0e8a16") == 0xe8a16 by { assert "0e8a16"[..5] == "0e8a1"; }
    ParseDigits("0e8a16");
    assert DigitsValue("00") == 0 by { assert "00"[..1] == "0"; }
    assert DigitsValue("006") == 6 by { assert "006"[..2] == "00"; }
    assert DigitsValue("006b") == 0x6b by { assert "006b"[..3] == "006"; }
    assert DigitsValue("006b7") == 0x6b7 by { assert "006b7"[..4] == "006b"; }
    assert DigitsValue("006b75") == 0x6b75 by { assert "006b75"[..5] == "006b7"; }
    ParseDigits("006b75");
  }

  /** Label.equals: colour and name. */
  predicate LabelEquals(a: Label, b: Label) {
    a.color == b.color && a.name == b.name
  }

  /** Labels compare by every field they have; Label.hashCode hashes both. */
  lemma LabelEqualsIsIdentity(a: Label, b: Label)
    ensures LabelEquals(a, b) <==> a == b
  {
  }

  /** Only the low 32 bits of the colour survive: white with full alpha reads as -1. */
  lemma HighBitsTruncated(name: string)
    ensures LabelFromHex(name, "ffffffff") == Success(Label(name, -1))
  {
    assert ToHexString(0xf) == "f";
    assert ToHexString(0xff) == "ff";
    assert ToHexString(0xfff) == "fff";
    assert ToHexString(0xffff) == "ffff";
    assert ToHexString(0xf_ffff) == "fffff";
    assert ToHexString(0xff_ffff) == "ffffff";
    assert ToHexString(0xfff_ffff) == "fffffff";
    assert ToHexString(0xffff_ffff) == "ffffffff";
    ColorRoundTrip(Label(name, -1));
  }
}
