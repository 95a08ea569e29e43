// The CHR-ROM tile dumper's decoding (nescli/src/img.rs): 16 bytes of
// pattern data become an 8x8 tile of 2-bit pattern values, a tile provider
// walks CHR data 16 bytes at a time, and pattern values map to greys.
// Opening the ROM and writing the image file are not modelled.

module ChrImage {
  import opened Bits
  import opened Results

  /** BYTES_PER_TILE */
  const BytesPerTile: nat := 16

  /**
   * Tile::from's pixel (x, y): bit x of plane byte y + 8 is the high bit and
   * bit x of plane byte y the low bit of the pattern value.
   */
  function PixelOf(d: seq<Byte>, x: nat, y: nat): (p: Byte)
    requires x < 8 && y < 8 && |d| >= BytesPerTile
    ensures p < 4
    ensures (p & 1 == 1) <==> BitIsSet(d[y], x)
    ensures (p & 2 == 2) <==> BitIsSet(d[y + 8], x)
  {
    (((d[y + 8] >> x) & 1) << 1) | ((d[y] >> x) & 1)
  }

  /** The 64 pixels of a decoded tile, row by row (index y * 8 + x). */
  function TilePixels(d: seq<Byte>): (t: seq<Byte>)
    requires |d| >= BytesPerTile
    ensures |t| == 64
  {
    seq(64, i requires 0 <= i < 64 => PixelOf(d, i % 8, i / 8))
  }

  /** The pixel at index y * 8 + x of a decoded tile is pixel (x, y) of its pattern data. */
  lemma TilePixelAt(d: seq<Byte>, x: nat, y: nat)
    requires |d| >= BytesPerTile && x < 8 && y < 8
    ensures TilePixels(d)[y * 8 + x] == PixelOf(d, x, y)
  {
    var i := y * 8 + x;
    assert i % 8 == x && i / 8 == y;
  }

  /** Every pixel of a decoded tile is a 2-bit pattern value. */
  lemma TilePixelsInRange(d: seq<Byte>, i: nat)
    requires |d| >= BytesPerTile && i < 64
    ensures TilePixels(d)[i] < 4
  {
    TilePixelAt(d, i % 8, i / 8);
  }

  /** A tile's bytes after the pixels x up to 7 of row y have been set, the last of them first. */
  function RowFilled(a: seq<Byte>, d: seq<Byte>, y: nat, x: nat): (r: seq<Byte>)
    requires |a| == 64 && |d| >= BytesPerTile && y < 8 && x <= 8
    ensures |r| == 64
    decreases 8 - x
  {
    if x == 8 then a else RowFilled(a, d, y, x + 1)[y * 8 + x := PixelOf(d, x, y)]
  }

  /** Filling a row from x on sets its pixels x up to 7 and leaves every other byte alone. */
  lemma {:induction false} RowFilledAt(a: seq<Byte>, d: seq<Byte>, y: nat, x: nat)
    requires |a| == 64 && |d| >= BytesPerTile && y < 8 && x <= 8
    ensures forall i :: 0 <= i < 64 && !(y * 8 + x <= i < y * 8 + 8) ==> RowFilled(a, d, y, x)[i] == a[i]
    ensures forall c :: x <= c < 8 ==> RowFilled(a, d, y, x)[y * 8 + c] == PixelOf(d, c, y)
    decreases 8 - x
  {
    if x < 8 {
      RowFilledAt(a, d, y, x + 1);
    }
  }

  class Tile {
    const data: array<Byte>

    ghost predicate Valid()
    {
      data.Length == 64
    }

    /** Tile::default: all pixels 0. */
    constructor ()
      ensures Valid() && fresh(data) && data[..] == seq(64, _ => 0)
    {
      data := new Byte[64](_ => 0);
    }

    /**
     * Tile::from: for each row y, the pixels x = 7 down to 0 are set from
     * bit x of the two plane bytes. A slice shorter than 16 bytes panics.
     */
    constructor From(d: seq<Byte>)
      requires |d| >= BytesPerTile
      ensures Valid() && fresh(data) && data[..] == TilePixels(d)
    {
      data := new Byte[64](_ => 0);
      new;
      for y := 0 to 8
        invariant forall r, x :: 0 <= r < y && 0 <= x < 8 ==> data[r * 8 + x] == PixelOf(d, x, r)
      {
        FillRow(d, y);
      }
      forall i | 0 <= i < 64
        ensures data[i] == TilePixels(d)[i]
      {
        TilePixelAt(d, i % 8, i / 8);
        assert data[(i / 8) * 8 + i % 8] == PixelOf(d, i % 8, i / 8);
      }
    }

    /** One row of Tile::from: the pixels x = 7 down to 0 of row y; the other rows keep their bytes. */
    method FillRow(d: seq<Byte>, y: nat)
      requires Valid() && |d| >= BytesPerTile && y < 8
      modifies data
      ensures data[..] == RowFilled(old(data[..]), d, y, 0)
      ensures forall i :: 0 <= i < 64 && !(y * 8 <= i < y * 8 + 8) ==> data[i] == old(data[i])
      ensures forall x :: 0 <= x < 8 ==> data[y * 8 + x] == PixelOf(d, x, y)
    {
      var lo, hi := d[y], d[y + 8];
      var x := 8;
      while x > 0
        invariant 0 <= x <= 8
        invariant data[..] == RowFilled(old(data[..]), d, y, x)
      {
        x := x - 1;
        var b0 := (lo >> x) & 0x01;
        var b1 := (hi >> x) & 0x01;
        SetData(x, y, (b1 << 1) | b0);
      }
      RowFilledAt(old(data[..]), d, y, 0);
    }

    /** set_data: the byte at index y * 8 + x, which must lie in the tile. */
    method SetData(x: nat, y: nat, v: Byte)
      requires Valid() && y * 8 + x < 64
      modifies data
      ensures data[..] == old(data[..])[y * 8 + x := v]
      ensures GetData(x, y) == v
    {
      data[y * 8 + x] := v;
    }

    /** get_data */
    function GetData(x: nat, y: nat): (v: Byte)
      requires Valid() && y * 8 + x < 64
      reads data
    {
      data[y * 8 + x]
    }
  }

  /** A decoded tile's pixel (x, y) is the pattern value of bit x of its two plane bytes. */
  lemma DecodedPixel(d: seq<Byte>, x: nat, y: nat)
    requires |d| >= BytesPerTile && x < 8 && y < 8
    ensures TilePixels(d)[y * 8 + x] < 4
    ensures TilePixels(d)[y * 8 + x] == (if BitIsSet(d[y + 8], x) then 2 else 0) + (if BitIsSet(d[y], x) then 1 else 0)
  {
    TilePixelAt(d, x, y);
    var p := PixelOf(d, x, y);
    assert p < 4;
    assert p == (p & 2) | (p & 1) by {
      assert p & 0xFC == 0;
    }
  }

  /** The tile k of a CHR buffer: bytes 16 * k up to 16 * k + 16. */
  function TileBytes(chr: seq<Byte>, k: nat): (t: seq<Byte>)
    requires (k + 1) * BytesPerTile <= |chr|
    ensures |t| == BytesPerTile
  {
    chr[k * BytesPerTile .. k * BytesPerTile + BytesPerTile]
  }

  class TileProvider {
    const data: seq<Byte>
    var tileNo: nat
    const maxTiles: nat

    ghost predicate Valid()
      reads this
    {
      maxTiles == |data| / BytesPerTile && tileNo <= maxTiles
    }

    /** TileProvider::from: as many tiles as whole 16-byte blocks fit in the data. */
    constructor From(chr: seq<Byte>)
      ensures Valid() && data == chr && tileNo == 0
    {
      data := chr;
      tileNo := 0;
      maxTiles := |chr| / BytesPerTile;
    }

    /** next: the next tile, or None once every whole tile has been yielded. */
    method Next() returns (t: Option<Tile>)
      requires Valid()
      modifies this
      ensures Valid()
      ensures old(tileNo) < maxTiles ==>
        tileNo == old(tileNo) + 1 && t.Some? && fresh(t.value.data) && t.value.Valid() &&
        t.value.data[..] == TilePixels(TileBytes(data, old(tileNo)))
      ensures old(tileNo) == maxTiles ==> tileNo == old(tileNo) && t == None
    {
      if tileNo != maxTiles {
        var offset := tileNo * BytesPerTile;
        tileNo := tileNo + 1;
        var tile := new Tile.From(data[offset..offset + BytesPerTile]);
        t := Some(tile);
      } else {
        t := None;
      }
    }
  }

  /** The first `n` tiles of a CHR buffer, decoded. */
  function DecodedTiles(chr: seq<Byte>, n: nat): (ts: seq<seq<Byte>>)
    requires n * BytesPerTile <= |chr|
    ensures |ts| == n
  {
    if n == 0 then [] else DecodedTiles(chr, n - 1) + [TilePixels(TileBytes(chr, n - 1))]
  }

  /** Tile k of the decoded prefix is the decoding of bytes 16 * k up to 16 * k + 16. */
  lemma {:induction false} DecodedTilesAt(chr: seq<Byte>, n: nat, k: nat)
    requires n * BytesPerTile <= |chr| && k < n
    ensures DecodedTiles(chr, n)[k] == TilePixels(TileBytes(chr, k))
  {
    if k < n - 1 {
      DecodedTilesAt(chr, n - 1, k);
    }
  }

  /**
   * Iterating a fresh provider to its end: it yields exactly |chr| / 16
   * tiles, the k-th decoded from bytes 16 * k to 16 * k + 16.
   */
  method DecodeAll(chr: seq<Byte>) returns (tiles: seq<seq<Byte>>)
    ensures |tiles| == |chr| / BytesPerTile
    ensures forall k :: 0 <= k < |tiles| ==> tiles[k] == TilePixels(TileBytes(chr, k))
  {
    var provider := new TileProvider.From(chr);
    tiles := [];
    var next := provider.Next();
    while next.Some?
      invariant provider.Valid() && provider.data == chr
      invariant next.Some? ==>
        (provider.tileNo == |tiles| + 1 && next.value.Valid() &&
         next.value.data[..] == TilePixels(TileBytes(chr, |tiles|)))
      invariant next.None? ==> provider.tileNo == |tiles| == provider.maxTiles
      invariant |tiles| * BytesPerTile <= |chr| && tiles == DecodedTiles(chr, |tiles|)
      decreases provider.maxTiles - |tiles|
    {
      tiles := tiles + [next.value.data[..]];
      next := provider.Next();
    }
    forall k | 0 <= k < |tiles|
      ensures tiles[k] == TilePixels(TileBytes(chr, k))
    {
      DecodedTilesAt(chr, |tiles|, k);
    }
  }

  /** pattern_to_color: the four pattern values as greys; any other value panics (None). */
  function PatternColor(p: Byte): (c: Option<(Byte, Byte, Byte)>)
    ensures c.Some? <==> p < 4
    ensures c.Some? ==> c.value.0 == c.value.1 == c.value.2
    ensures p == 0 ==> c == Some((0, 0, 0))
    ensures p == 3 ==> c == Some((255, 255, 255))
  {
    match p
    case 0 => Some((0, 0, 0))
    case 1 => Some((51, 51, 51))
    case 2 => Some((153, 153, 153))
    case 3 => Some((255, 255, 255))
    case _ => None
  }

  /** Brighter patterns give lighter greys. */
  lemma PatternColorMonotone(p: Byte, q: Byte)
    requires p < q < 4
    ensures PatternColor(p).value.0 < PatternColor(q).value.0
  {
  }

  /** No pixel of a decoded tile makes pattern_to_color panic. */
  lemma DecodedTileHasColors(d: seq<Byte>, i: nat)
    requires |d| >= BytesPerTile && i < 64
    ensures PatternColor(TilePixels(d)[i]).Some?
  {
    TilePixelsInRange(d, i);
  }
}
