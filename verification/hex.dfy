// Upper-case hexadecimal rendering, as Rust's `{:02X}` and `{:04X}` format
// a byte and a 16-bit word; the disassemblers build their text from these.

module Hex {
  import opened Bits

  const Digits: string := "0123456789ABCDEF"

  function HexDigit(n: Byte): (c: char)
    requires n < 16
    ensures c in Digits
  {
    Digits[n as int]
  }

  /** The value of one upper-case hexadecimal digit. */
  function DigitValue(c: char): nat
  {
    if '0' <= c <= '9' then (c as int - '0' as int) as nat
    else if 'A' <= c <= 'F' then (c as int - 'A' as int + 10) as nat
    else 0
  }

  lemma DigitRoundTrip(n: Byte)
    requires n < 16
    ensures DigitValue(HexDigit(n)) == n as nat
  {
    match n
    case 0 => case 1 => case 2 => case 3 => case 4 => case 5 => case 6 => case 7 =>
    case 8 => case 9 => case 10 => case 11 => case 12 => case 13 => case 14 => case 15 =>
    case _ => assert false;
  }

  /** `{:02X}` of a byte. */
  function Hex2(b: Byte): (s: string)
    ensures |s| == 2 && s[0] in Digits && s[1] in Digits
  {
    [HexDigit(b >> 4), HexDigit(b & 0x0F)]
  }

  /** `{:04X}` of a word. */
  function Hex4(w: Word): (s: string)
    ensures |s| == 4 && forall i :: 0 <= i < 4 ==> s[i] in Digits
  {
    Hex2(HighByte(w)) + Hex2(LowByte(w))
  }

  function ReadHex2(s: string): nat
    requires |s| == 2
  {
    DigitValue(s[0]) * 16 + DigitValue(s[1])
  }

  function ReadHex4(s: string): nat
    requires |s| == 4
  {
    ReadHex2(s[..2]) * 256 + ReadHex2(s[2..])
  }

  lemma ByteNibbles(b: Byte)
    ensures (b >> 4) as nat * 16 + (b & 0x0F) as nat == b as nat
  {
  }

  lemma WordBytes(w: Word)
    ensures HighByte(w) as nat * 256 + LowByte(w) as nat == w as nat
  {
    LowPart(w);
    HighPart(w);
  }

  lemma LowPart(w: Word)
    ensures LowByte(w) as nat == w as nat - (w >> 8) as nat * 256
  {
    MaskedLow(w);
    CastLow(w & 0x00FF);
  }

  lemma MaskedLow(w: Word)
    ensures (w & 0x00FF) as nat == w as nat - (w >> 8) as nat * 256
  {
  }

  lemma HighPart(w: Word)
    ensures HighByte(w) as nat == (w >> 8) as nat
  {
    CastLow(w >> 8);
  }

  lemma CastLow(v: Word)
    requires v < 256
    ensures (v as Byte) as nat == v as nat
  {
  }

  /** Reading the two digits back gives the byte: `{:02X}` loses nothing. */
  lemma Hex2RoundTrip(b: Byte)
    ensures ReadHex2(Hex2(b)) == b as nat
  {
    DigitRoundTrip(b >> 4);
    DigitRoundTrip(b & 0x0F);
    ByteNibbles(b);
  }

  /** Reading the four digits back gives the word: `{:04X}` loses nothing. */
  lemma Hex4RoundTrip(w: Word)
    ensures ReadHex4(Hex4(w)) == w as nat
  {
    var s := Hex4(w);
    assert s[..2] == Hex2(HighByte(w));
    assert s[2..] == Hex2(LowByte(w));
    Hex2RoundTrip(HighByte(w));
    Hex2RoundTrip(LowByte(w));
    WordBytes(w);
  }
}
