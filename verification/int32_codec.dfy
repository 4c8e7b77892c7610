/**
  Little-endian signed 32-bit integers, as read by the struct format "<i":
  four bytes, least significant first, in two's complement.
 */
module Int32Codec {

  /** An octet as it comes off the optical link. */
  type Byte = b: int | 0 <= b < 0x100

  const TWO_31: int := 0x8000_0000
  const TWO_32: int := 0x1_0000_0000

  predicate IsInt32(x: int) {
    -TWO_31 <= x < TWO_31
  }

  /** The four bytes read as an unsigned number, least significant byte first. */
  function Unsigned(b0: Byte, b1: Byte, b2: Byte, b3: Byte): (u: int)
    ensures 0 <= u < TWO_32
  {
    b0 + 0x100 * b1 + 0x1_0000 * b2 + 0x100_0000 * b3
  }

  /** One "<i" field: the unsigned value, less 2^32 when its top bit is set. */
  function DecodeInt32(b0: Byte, b1: Byte, b2: Byte, b3: Byte): (x: int)
    ensures IsInt32(x)
    ensures x < 0 <==> b3 >= 0x80
    ensures x == Unsigned(b0, b1, b2, b3) || x == Unsigned(b0, b1, b2, b3) - TWO_32
  {
    var u := Unsigned(b0, b1, b2, b3);
    if u < TWO_31 then u else u - TWO_32
  }

  /** The inverse of DecodeInt32: the four bytes "<i" packs for x. */
  function EncodeInt32(x: int): (bs: seq<Byte>)
    requires IsInt32(x)
    ensures |bs| == 4
    ensures DecodeInt32(bs[0], bs[1], bs[2], bs[3]) == x
  {
    var u := if x < 0 then x + TWO_32 else x;
    var u1 := u / 0x100;
    var u2 := u1 / 0x100;
    var bs: seq<Byte> := [u % 0x100, u1 % 0x100, u2 % 0x100, u2 / 0x100];
    assert Unsigned(bs[0], bs[1], bs[2], bs[3]) == u;
    bs
  }

  /** Decoding loses nothing: every four bytes are the encoding of their value. */
  lemma EncodeDecodeInt32(b0: Byte, b1: Byte, b2: Byte, b3: Byte)
    ensures EncodeInt32(DecodeInt32(b0, b1, b2, b3)) == [b0, b1, b2, b3]
  {
    var u2 := b2 + 0x100 * b3;
    var u1 := b1 + 0x100 * u2;
    assert Unsigned(b0, b1, b2, b3) == b0 + 0x100 * u1;
    LowByte(b0, u1);
    LowByte(b1, u2);
    LowByte(b2, b3);
  }

  /** Splitting off the least significant byte. */
  lemma LowByte(lo: Byte, hi: int)
    ensures (lo + 0x100 * hi) % 0x100 == lo
    ensures (lo + 0x100 * hi) / 0x100 == hi
  {
  }

  /** struct.unpack("<" + "i" * (|bs| / 4), bs): one integer per four bytes, in order. */
  function Unpack(bs: seq<Byte>): (xs: seq<int>)
    requires |bs| % 4 == 0
    ensures |xs| == |bs| / 4
    ensures forall k :: 0 <= k < |xs| ==> xs[k] == DecodeInt32(bs[4 * k], bs[4 * k + 1], bs[4 * k + 2], bs[4 * k + 3])
    ensures forall k :: 0 <= k < |xs| ==> IsInt32(xs[k])
    decreases |bs|
  {
    if bs == [] then [] else [DecodeInt32(bs[0], bs[1], bs[2], bs[3])] + Unpack(bs[4..])
  }

  /** struct.pack("<" + "i" * |xs|, *xs): the byte layout a meter table has. */
  function Pack(xs: seq<int>): (bs: seq<Byte>)
    requires forall k :: 0 <= k < |xs| ==> IsInt32(xs[k])
    ensures |bs| == 4 * |xs|
  {
    if xs == [] then [] else EncodeInt32(xs[0]) + Pack(xs[1..])
  }

  /** Unpacking what was packed gives back the integers. */
  lemma {:induction false} UnpackPack(xs: seq<int>)
    requires forall k :: 0 <= k < |xs| ==> IsInt32(xs[k])
    ensures Unpack(Pack(xs)) == xs
  {
    if xs != [] {
      var head, tail := EncodeInt32(xs[0]), Pack(xs[1..]);
      assert Pack(xs) == head + tail;
      assert (head + tail)[4..] == tail;
      UnpackPack(xs[1..]);
    }
  }

  /** Packing what was unpacked gives back the bytes. */
  lemma {:induction false} PackUnpack(bs: seq<Byte>)
    requires |bs| % 4 == 0
    ensures Pack(Unpack(bs)) == bs
  {
    if bs != [] {
      EncodeDecodeInt32(bs[0], bs[1], bs[2], bs[3]);
      PackUnpack(bs[4..]);
      assert Unpack(bs)[1..] == Unpack(bs[4..]);
      assert bs == bs[..4] + bs[4..];
    }
  }
}
