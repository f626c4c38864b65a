/**
 * Link keys: the packed 32-bit identifier of a chunk-boundary crossing, and the
 * pair of regions a link joins.
 *
 * Layout of a key (bit 0 is the least significant):
 *   bits  0..11  boundary tile x, modulo 4096
 *   bits 12..23  boundary tile y, modulo 4096
 *   bits 24..29  run length, modulo 64
 *   bit  30      set for a rightward (vertical-boundary) link
 *   bit  31      never set
 */
module LinkUtils {

  /** The packed key as the C# `uint` bits it is built from: packing works on bit-vectors. */
  type LinkKey = bv32

  /**
   * A C# `uint` as a number. Code that only stores, compares and looks up keys
   * (the link dictionary, region link lists, a path's link queue) holds them in
   * this form, the number whose binary digits are the key's bits.
   */
  newtype UInt32 = x: int | 0 <= x < 0x1_0000_0000

  /** The two regions a link joins; `R` is the region type. */
  datatype LinkPair<R> = LinkPair(r1: R, r2: R)

  const XMask: bv32 := 4096 - 1
  const SizeMask: bv32 := 64 - 1
  const RightBit: bv32 := 1 << 30

  /** Field readers: the inverse of the packing, one field at a time. */
  function KeyX(key: LinkKey): bv32 { key & XMask }
  function KeyY(key: LinkKey): bv32 { (key >> 12) & XMask }
  function KeySize(key: LinkKey): bv32 { (key >> 24) & SizeMask }
  function KeyRight(key: LinkKey): bool { key & RightBit != 0 }

  /** Packs a boundary crossing into one key, exactly as the C# code ORs the fields in. */
  function Hash(x: bv32, y: bv32, size: bv32, right: bool): (key: LinkKey)
    ensures KeyRight(key) == right
    ensures key < 0x8000_0000
  {
    var link: bv32 := 0;
    var link := link | (x & XMask);
    var link := link | ((y & XMask) << 12);
    var link := link | ((size & SizeMask) << 24);
    if right then link | RightBit else link
  }

  /** Bits 0..11 of a key hold x modulo 4096. */
  lemma HashX(x: bv32, y: bv32, size: bv32, right: bool)
    ensures KeyX(Hash(x, y, size, right)) == x % 4096
  {
  }

  /** Bits 12..23 of a key hold y modulo 4096. */
  lemma HashY(x: bv32, y: bv32, size: bv32, right: bool)
    ensures KeyY(Hash(x, y, size, right)) == y % 4096
  {
  }

  /** Bits 24..29 of a key hold the run length modulo 64; `(key >> 24) & 63` reads it back. */
  lemma HashSize(x: bv32, y: bv32, size: bv32, right: bool)
    ensures KeySize(Hash(x, y, size, right)) == size % 64
  {
  }

  /** Within the field widths, decoding recovers every input. */
  lemma HashRoundTrip(x: bv32, y: bv32, size: bv32, right: bool)
    requires x < 4096 && y < 4096 && size < 64
    ensures var key := Hash(x, y, size, right);
      KeyX(key) == x && KeyY(key) == y && KeySize(key) == size && KeyRight(key) == right
  {
  }

  /** Within the field widths, two crossings share a key only if they are the same crossing. */
  lemma HashInjective(x: bv32, y: bv32, size: bv32, right: bool,
                      x': bv32, y': bv32, size': bv32, right': bool)
    requires x < 4096 && y < 4096 && size < 64
    requires x' < 4096 && y' < 4096 && size' < 64
    requires Hash(x, y, size, right) == Hash(x', y', size', right')
    ensures x == x' && y == y' && size == size' && right == right'
  {
  }

  /**
   * The four keys of the two-room scenario. In binary, grouped by field
   * (direction_size_y_x), they read 1_000100_000000000000_000000000011,
   * 0_000010_000000000011_000000000000, 0_000011_000000000011_000000000101 and
   * 1_000011_000000000101_000000000011.
   */
  lemma ScenarioKeys()
    ensures Hash(3, 0, 4, true) == 0x4400_0003
    ensures Hash(0, 3, 2, false) == 0x0200_3000
    ensures Hash(5, 3, 3, false) == 0x0300_3005
    ensures Hash(3, 5, 3, true) == 0x4300_5003
  {
  }

  /**
   * The region across a link from `region`: `r2` when `region` is `r1`, otherwise `r1`
   * (an argument that is neither end also yields `r1`).
   */
  function GetOtherRegion<R(==)>(link: LinkPair<R>, region: R): (other: R)
    ensures region == link.r1 ==> other == link.r2
    ensures region != link.r1 ==> other == link.r1
  {
    if link.r1 == region then link.r2 else link.r1
  }

  /** Crossing a link twice leads back to where one started, for a link between two distinct regions. */
  lemma OtherRegionTwice<R>(link: LinkPair<R>, region: R)
    requires link.r1 != link.r2
    requires region == link.r1 || region == link.r2
    ensures GetOtherRegion(link, GetOtherRegion(link, region)) == region
    ensures GetOtherRegion(link, region) != region
  {
  }
}
