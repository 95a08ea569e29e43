// The stand-alone header inspector (nesinfo/src/lib.rs). It shares the
// loader's format and error vocabulary, but its iNES test is stricter: it
// wants all of bytes 8-15 clear, where the loader looks at bytes 12-15 only.

module NesInfo {
  import opened Bits
  import opened Results
  import Cart

  datatype Header = Header(format: Cart.Format)

  function GetFormat(header: seq<Byte>): (r: Result<Cart.Format, Cart.ParseError>)
    requires |header| >= Cart.HeaderSize
    ensures r == Ok(Cart.NES2) <==> Cart.IsNes2Flag(header[7])
    ensures r == Ok(Cart.INES) <==> !Cart.IsNes2Flag(header[7]) && forall i :: 8 <= i < 16 ==> header[i] == 0
    ensures r.Err? ==> r.error == Cart.InvalidFormat
  {
    if Cart.IsNes2Flag(header[7]) then Ok(Cart.NES2)
    else if header[8..16] == [0, 0, 0, 0, 0, 0, 0, 0] then Ok(Cart.INES)
    else Err(Cart.InvalidFormat)
  }

  /** parse_header: size, then signature, then format, each with its own error. */
  function ParseHeader(header: seq<Byte>): (r: Result<Header, Cart.ParseError>)
    ensures |header| < Cart.HeaderSize ==> r == Err(Cart.InvalidSize(|header|))
    ensures |header| >= Cart.HeaderSize && header[..4] != Cart.Signature ==> r == Err(Cart.InvalidSig)
    ensures |header| >= Cart.HeaderSize && header[..4] == Cart.Signature ==>
              match GetFormat(header)
              case Ok(f) => r == Ok(Header(f))
              case Err(e) => r == Err(e)
  {
    if |header| < Cart.HeaderSize then Err(Cart.InvalidSize(|header|))
    else if !Cart.VerifySignature(header[0..4]) then Err(Cart.InvalidSig)
    else
      match GetFormat(header)
      case Err(e) => Err(e)
      case Ok(f) => Ok(Header(f))
  }

  /** Whatever the inspector accepts, the cartridge loader accepts with the same format. */
  lemma InspectorAcceptsLess(header: seq<Byte>)
    requires ParseHeader(header).Ok?
    ensures Cart.ParseHeader(header).Ok?
    ensures Cart.ParseHeader(header).value.format == ParseHeader(header).value.format
  {
    var f := GetFormat(header);
    assert Cart.GetFormat(header) == f;
  }

  /** The two parsers report the same size and signature errors. */
  lemma SameEarlyErrors(header: seq<Byte>)
    requires |header| < Cart.HeaderSize || header[..4] != Cart.Signature
    ensures ParseHeader(header).Err? && Cart.ParseHeader(header).Err?
    ensures ParseHeader(header).error == Cart.ParseHeader(header).error
  {
  }

  /** An iNES header with a non-zero byte 8 is loaded by the cartridge loader and refused here. */
  lemma LoaderAcceptsMore()
    ensures var h := Cart.TestHeader[8 := 1];
            Cart.ParseHeader(h).Ok? && ParseHeader(h) == Err(Cart.InvalidFormat)
  {
    var h := Cart.TestHeader[8 := 1];
    assert h[8] != 0;
    assert h[12..16] == [0, 0, 0, 0];
  }

  /** The tests of get_format: flag 7 = 0x08 is NES 2.0, flag 7 = 0x04 with zero padding is iNES. */
  lemma FormatExamples()
    ensures GetFormat(seq(16, i => if i == 7 then 0x08 else 0)) == Ok(Cart.NES2)
    ensures GetFormat(seq(16, i => if i == 7 then 0x04 else 0)) == Ok(Cart.INES)
  {
    var h: seq<Byte> := seq(16, i => if i == 7 then 0x04 else 0);
    assert h[8..16] == [0, 0, 0, 0, 0, 0, 0, 0];
  }
}
