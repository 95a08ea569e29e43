// One entry of the PPU's object attribute memory (nescore/src/ppu/sprite.rs):
// four bytes, Y position, tile index, attributes and X position, with the
// attribute byte decoded on demand.

module Sprite {
  import opened Bits

  datatype Sprite = Sprite(y: Byte, x: Byte, tile: Byte, attr: Byte)
  {
    /** palette(): the sprite palette, 0 to 3. */
    function Palette(): (p: Byte)
      ensures p <= 3
      ensures p == attr % 4
    {
      attr & 0x03
    }

    /** priority(): behind the background when set. */
    predicate Priority()
    {
      BitIsSet(attr, 5)
    }

    predicate FlipH()
    {
      BitIsSet(attr, 6)
    }

    predicate FlipV()
    {
      BitIsSet(attr, 7)
    }

    /** The four OAM bytes in memory order: Y, tile, attributes, X. */
    function Bytes(): (d: seq<Byte>)
      ensures |d| == 4
    {
      [y, tile, attr, x]
    }
  }

  /** Sprite::from: indexing a slice shorter than four bytes panics. */
  function FromBytes(data: seq<Byte>): (s: Sprite)
    requires |data| >= 4
    ensures s.y == data[0] && s.tile == data[1] && s.attr == data[2] && s.x == data[3]
  {
    Sprite(data[0], data[3], data[1], data[2])
  }

  /** Decoding an OAM entry and laying it out again gives its four bytes back. */
  lemma FromBytesRoundTrip(data: seq<Byte>)
    requires |data| >= 4
    ensures FromBytes(data).Bytes() == data[..4]
  {
  }

  lemma BytesRoundTrip(s: Sprite)
    ensures FromBytes(s.Bytes()) == s
  {
  }

  /** The attribute bits the flags read are disjoint from the palette bits. */
  lemma AttributesIndependent(s: Sprite, a: Byte)
    requires a & 0xE0 == s.attr & 0xE0
    ensures s.(attr := a).Priority() == s.Priority()
    ensures s.(attr := a).FlipH() == s.FlipH() && s.(attr := a).FlipV() == s.FlipV()
  {
    assert Bv(5) == 0x20 && Bv(6) == 0x40 && Bv(7) == 0x80;
    assert a & 0x20 == s.attr & 0x20 && a & 0x40 == s.attr & 0x40 && a & 0x80 == s.attr & 0x80;
  }

  /** The tests of sprite.rs. */
  lemma SpriteExamples()
    ensures var s := FromBytes([1, 2, 0, 3]); s.x == 3 && s.y == 1 && s.tile == 2
    ensures var s := FromBytes([0, 0, 0xFF, 0]); s.Palette() == 3 && s.Priority() && s.FlipV() && s.FlipH()
  {
    assert Bv(5) == 0x20 && Bv(6) == 0x40 && Bv(7) == 0x80;
  }
}
