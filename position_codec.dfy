/**
 * RegionBlockStorage.pack: a block position packed into one Java long.
 *
 * Bits 38..63 hold the low 26 bits of x, bits 26..37 the low 12 bits of y
 * and bits 0..25 the low 26 bits of z. Written over integers: `(long) v &
 * mask` keeps the low bits of the two's-complement pattern of `v`, which is
 * `v % 2^k` with Dafny's Euclidean `%`; `<< k` on a field that fits is a
 * multiplication by 2^k; and `|` of fields occupying disjoint bit ranges is
 * their sum.
 */
module PositionCodec {
  import opened JavaData

  const X_BITS: nat := 0x400_0000      // 2^26 values of the x field
  const Y_BITS: nat := 0x1000          // 2^12 values of the y field
  const Z_BITS: nat := 0x400_0000      // 2^26 values of the z field
  const Y_SHIFT: nat := 0x400_0000     // 2^26: y starts at bit 26
  const X_SHIFT: nat := 0x40_0000_0000 // 2^38: x starts at bit 38

  /** `(long) v & 0x3FFFFFF` */
  function Low26(v: int): (r: nat)
    ensures r < X_BITS
  {
    v % X_BITS
  }

  /** `(long) v & 0xFFF` */
  function Low12(v: int): (r: nat)
    ensures r < Y_BITS
  {
    v % Y_BITS
  }

  /** The 64-bit pattern of the packed key, read as unsigned. */
  function PackPattern(x: Int32, y: Int32, z: Int32): (u: nat)
    ensures u < TWO_64
  {
    Low26(x) * X_SHIFT + Low12(y) * Y_SHIFT + Low26(z)
  }

  /**
   * RegionBlockStorage.pack(Vector3i): the key as a Java long, whose bit
   * pattern is the packed fields; bit 63, the top bit of the x field, is the
   * sign, so the key is negative exactly when the masked x is 2^25 or more.
   */
  function Pack(x: Int32, y: Int32, z: Int32): (k: Long)
    ensures k % TWO_64 == PackPattern(x, y, z)
    ensures k < 0 <==> Low26(x) >= X_BITS / 2
  {
    Signed64(PackPattern(x, y, z))
  }

  /** Bits 38..63 of a key. */
  function XField(k: Long): nat {
    (k % TWO_64) / X_SHIFT
  }

  /** Bits 26..37 of a key. */
  function YField(k: Long): nat {
    ((k % TWO_64) / Y_SHIFT) % Y_BITS
  }

  /** Bits 0..25 of a key. */
  function ZField(k: Long): nat {
    (k % TWO_64) % Z_BITS
  }

  lemma FieldsOfPattern(a: nat, b: nat, c: nat)
    requires a < X_BITS && b < Y_BITS && c < Z_BITS
    ensures (a * X_SHIFT + b * Y_SHIFT + c) / X_SHIFT == a
    ensures ((a * X_SHIFT + b * Y_SHIFT + c) / Y_SHIFT) % Y_BITS == b
    ensures (a * X_SHIFT + b * Y_SHIFT + c) % Z_BITS == c
  {
    var u := a * X_SHIFT + b * Y_SHIFT + c;
    assert X_SHIFT == Y_BITS * Y_SHIFT;
    assert u == (a * Y_BITS + b) * Y_SHIFT + c;
    assert u / Y_SHIFT == a * Y_BITS + b;
    assert u % Z_BITS == c;
    assert u == a * X_SHIFT + (b * Y_SHIFT + c);
    assert b * Y_SHIFT + c < X_SHIFT;
  }

  /** The bit layout: each field of the key holds the masked coordinate. */
  lemma PackLayout(x: Int32, y: Int32, z: Int32)
    ensures XField(Pack(x, y, z)) == Low26(x)
    ensures YField(Pack(x, y, z)) == Low12(y)
    ensures ZField(Pack(x, y, z)) == Low26(z)
  {
    FieldsOfPattern(Low26(x), Low12(y), Low26(z));
  }

  predicate InRange(x: int, y: int, z: int) {
    0 <= x < X_BITS && 0 <= y < Y_BITS && 0 <= z < Z_BITS
  }

  /** Distinct positions within the field widths get distinct keys. */
  lemma PackInjective(x: Int32, y: Int32, z: Int32, x': Int32, y': Int32, z': Int32)
    requires InRange(x, y, z) && InRange(x', y', z')
    requires Pack(x, y, z) == Pack(x', y', z')
    ensures x == x' && y == y' && z == z'
  {
    PackLayout(x, y, z);
    PackLayout(x', y', z');
  }

  /** Two positions collide exactly when their coordinates agree modulo the field widths. */
  lemma PackCollision(x: Int32, y: Int32, z: Int32, x': Int32, y': Int32, z': Int32)
    ensures Pack(x, y, z) == Pack(x', y', z') <==>
      x % X_BITS == x' % X_BITS && y % Y_BITS == y' % Y_BITS && z % Z_BITS == z' % Z_BITS
  {
    PackLayout(x, y, z);
    PackLayout(x', y', z');
  }

  /** A negative coordinate aliases the positive one 2^26 (or 2^12) above it. */
  lemma NegativeAliases()
    ensures Pack(-1, 0, 0) == Pack(0x3FF_FFFF, 0, 0)
    ensures Pack(0, -1, 0) == Pack(0, 0xFFF, 0)
    ensures Pack(0, 0, -5) == Pack(0, 0, 0x3FF_FFFB)
    ensures Pack(-1, 0, 0) < 0
  {
  }
}
