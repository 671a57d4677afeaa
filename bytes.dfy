/** Byte encodings used when values cross the host/device boundary. */
module Bytes {

  /** A 32-bit float as its IEEE-754 bit pattern. The engine only moves floats
      between buffers and never computes with them, so bits are all it needs. */
  type F32 = bv32

  /** `u32::to_ne_bytes` on a little-endian host (the byte order of every
      platform the engine's driver runs on). */
  function ToNeBytes(x: bv32): (r: seq<bv8>)
    ensures |r| == 4
    ensures FromNeBytes(r) == x
  {
    [(x & 0xFF) as bv8, ((x >> 8) & 0xFF) as bv8, ((x >> 16) & 0xFF) as bv8, (x >> 24) as bv8]
  }

  /** `u32::from_ne_bytes`, the reading side of the same layout. */
  function FromNeBytes(b: seq<bv8>): bv32
    requires |b| == 4
  {
    (b[0] as bv32) | ((b[1] as bv32) << 8) | ((b[2] as bv32) << 16) | ((b[3] as bv32) << 24)
  }

  /** Every 4-byte group is the encoding of exactly one value. */
  lemma FromNeBytesInverse(b: seq<bv8>)
    requires |b| == 4
    ensures ToNeBytes(FromNeBytes(b)) == b
  {
  }

  /** The bytes of a float slice as the device sees them: each element's
      native-endian bytes, in element order. */
  function EncodeF32s(s: seq<F32>): (r: seq<bv8>)
    ensures |r| == 4 * |s|
  {
    if s == [] then [] else EncodeF32s(s[..|s| - 1]) + ToNeBytes(s[|s| - 1])
  }

  /** The first `count` floats of a byte region, read as `*const f32`. */
  function DecodeF32s(b: seq<bv8>, count: nat): (r: seq<F32>)
    requires 4 * count <= |b|
    ensures |r| == count
  {
    if count == 0 then [] else DecodeF32s(b, count - 1) + [FromNeBytes(b[4 * (count - 1) .. 4 * count])]
  }

  /** Element `k` of an encoded slice occupies bytes `4k .. 4k + 4`. */
  lemma {:induction false} EncodeF32sAt(s: seq<F32>, k: nat)
    requires k < |s|
    ensures EncodeF32s(s)[4 * k .. 4 * k + 4] == ToNeBytes(s[k])
  {
    var init := s[..|s| - 1];
    assert EncodeF32s(s) == EncodeF32s(init) + ToNeBytes(s[|s| - 1]);
    if k < |s| - 1 {
      EncodeF32sAt(init, k);
      assert EncodeF32s(s)[4 * k .. 4 * k + 4] == EncodeF32s(init)[4 * k .. 4 * k + 4];
    }
  }

  /** Reading `count` floats only looks at the first `4 * count` bytes. */
  lemma {:induction false} DecodeF32sPrefix(b1: seq<bv8>, b2: seq<bv8>, count: nat)
    requires 4 * count <= |b1| && 4 * count <= |b2|
    requires b1[..4 * count] == b2[..4 * count]
    ensures DecodeF32s(b1, count) == DecodeF32s(b2, count)
  {
    if count > 0 {
      assert b1[..4 * (count - 1)] == b1[..4 * count][..4 * (count - 1)];
      assert b2[..4 * (count - 1)] == b2[..4 * count][..4 * (count - 1)];
      DecodeF32sPrefix(b1, b2, count - 1);
      assert b1[4 * (count - 1) .. 4 * count] == b1[..4 * count][4 * (count - 1) ..];
      assert b2[4 * (count - 1) .. 4 * count] == b2[..4 * count][4 * (count - 1) ..];
    }
  }

  /** Round trip: reading back what was written yields the original floats. */
  lemma {:induction false} DecodeEncode(s: seq<F32>)
    ensures DecodeF32s(EncodeF32s(s), |s|) == s
  {
    if s != [] {
      var init, x := s[..|s| - 1], s[|s| - 1];
      var e, ei := EncodeF32s(s), EncodeF32s(init);
      assert e == ei + ToNeBytes(x);
      assert e[..4 * |init|] == ei;
      DecodeF32sPrefix(e, ei, |init|);
      DecodeEncode(init);
      assert e[4 * |init| .. 4 * |s|] == ToNeBytes(x);
      assert DecodeF32s(e, |s|) == init + [x];
      assert s == init + [x];
    }
  }
}
