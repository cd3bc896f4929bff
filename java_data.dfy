/**
 * Java's fixed-width integers and the big-endian encoding that
 * java.io.DataOutputStream.writeInt/writeLong produce and
 * java.io.DataInputStream.readInt/readLong consume.
 */
module JavaData {

  const TWO_31: int := 0x8000_0000
  const TWO_32: int := 0x1_0000_0000
  const TWO_63: int := 0x8000_0000_0000_0000
  const TWO_64: int := 0x1_0000_0000_0000_0000

  type Byte = b: int | 0 <= b < 256

  /** A Java `int`. */
  type Int32 = x: int | -0x8000_0000 <= x < 0x8000_0000

  /** A Java `long`. */
  type Long = x: int | -0x8000_0000_0000_0000 <= x < 0x8000_0000_0000_0000

  function Pow256(w: nat): (r: nat)
    ensures r >= 1
  {
    if w == 0 then 1 else 256 * Pow256(w - 1)
  }

  /** The `w` low-order bytes of `n`, most significant first. */
  function ToBigEndian(n: nat, w: nat): (r: seq<Byte>)
    ensures |r| == w
  {
    if w == 0 then [] else ToBigEndian(n / 256, w - 1) + [n % 256]
  }

  /** The unsigned value of a big-endian byte string. */
  function FromBigEndian(s: seq<Byte>): (r: nat)
    ensures r < Pow256(|s|)
  {
    if s == [] then 0
    else
      var high := FromBigEndian(s[..|s| - 1]);
      assert high * 256 + s[|s| - 1] < Pow256(|s| - 1) * 256 by {
        assert high <= Pow256(|s| - 1) - 1;
      }
      high * 256 + s[|s| - 1]
  }

  lemma {:induction false} FromToBigEndian(n: nat, w: nat)
    requires n < Pow256(w)
    ensures FromBigEndian(ToBigEndian(n, w)) == n
  {
    if w > 0 {
      var s := ToBigEndian(n, w);
      assert s[..w - 1] == ToBigEndian(n / 256, w - 1);
      FromToBigEndian(n / 256, w - 1);
    }
  }

  /** Two's-complement reading of a 32-bit pattern. */
  function Signed32(u: nat): (r: Int32)
    requires u < TWO_32
    ensures r % TWO_32 == u
  {
    if u < TWO_31 then u else u - TWO_32
  }

  /** Two's-complement reading of a 64-bit pattern. */
  function Signed64(u: nat): (r: Long)
    requires u < TWO_64
    ensures r % TWO_64 == u
  {
    if u < TWO_63 then u else u - TWO_64
  }

  /** DataOutputStream.writeInt: the 32-bit two's-complement pattern of `v`, big-endian. */
  function WriteInt(v: int): (r: seq<Byte>)
    ensures |r| == 4
  {
    ToBigEndian(v % TWO_32, 4)
  }

  /** DataOutputStream.writeLong: the 64-bit pattern of `v`, big-endian. */
  function WriteLong(v: Long): (r: seq<Byte>)
    ensures |r| == 8
  {
    ToBigEndian(v % TWO_64, 8)
  }

  /** DataInputStream.readInt on four available bytes. */
  function ReadInt(s: seq<Byte>): Int32
    requires |s| == 4
  {
    assert Pow256(4) == TWO_32;
    Signed32(FromBigEndian(s))
  }

  /** DataInputStream.readLong on eight available bytes. */
  function ReadLong(s: seq<Byte>): Long
    requires |s| == 8
  {
    assert Pow256(8) == TWO_64;
    Signed64(FromBigEndian(s))
  }

  lemma ReadWriteInt(v: Int32)
    ensures ReadInt(WriteInt(v)) == v
  {
    assert Pow256(4) == TWO_32;
    FromToBigEndian(v % TWO_32, 4);
  }

  lemma ReadWriteLong(v: Long)
    ensures ReadLong(WriteLong(v)) == v
  {
    assert Pow256(8) == TWO_64;
    FromToBigEndian(v % TWO_64, 8);
  }

  /** Java's `/` on integers: the quotient truncated toward zero. */
  function JavaDiv(a: int, b: int): (q: int)
    requires b > 0
    ensures a >= 0 ==> q * b <= a < (q + 1) * b
    ensures a < 0 ==> (q - 1) * b < a <= q * b
  {
    if a >= 0 then a / b else -((-a) / b)
  }

  /** `order` lists every element of `s` once: the iteration order of a hash set. */
  predicate Enumerates<T>(order: seq<T>, s: set<T>) {
    |order| == |s| && (forall i :: 0 <= i < |order| ==> order[i] in s) && (forall x :: x in s ==> x in order)
  }
}
