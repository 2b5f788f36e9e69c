// Machine words and their little-endian byte images.
module Bytes {

  datatype Option<+T> = None | Some(value: T)

  const U32: nat := 0x1_0000_0000
  const U64: nat := 0x1_0000_0000_0000_0000

  type u32 = x: nat | x < 0x1_0000_0000
  type u64 = x: nat | x < 0x1_0000_0000_0000_0000
  type byte = x: nat | x < 256

  /** 256 to the power k. */
  ghost function Radix(k: nat): (r: nat)
    ensures r > 0
  {
    if k == 0 then 1 else 256 * Radix(k - 1)
  }

  /** The k low-order bytes of n, least significant first. */
  function LittleEndian(n: nat, k: nat): (bs: seq<byte>)
    ensures |bs| == k
    decreases n, k
  {
    if k == 0 then [] else [n % 256] + LittleEndian(n / 256, k - 1)
  }

  function FromLittleEndian(bs: seq<byte>): (n: nat)
    decreases |bs|
  {
    if bs == [] then 0 else bs[0] + 256 * FromLittleEndian(bs[1..])
  }

  lemma {:induction false} LittleEndianRoundTrip(n: nat, k: nat)
    requires n < Radix(k)
    ensures FromLittleEndian(LittleEndian(n, k)) == n
    decreases k
  {
    if k > 0 {
      assert n / 256 < Radix(k - 1);
      LittleEndianRoundTrip(n / 256, k - 1);
      assert LittleEndian(n, k)[1..] == LittleEndian(n / 256, k - 1);
    }
  }

  lemma {:induction false} FromLittleEndianBound(bs: seq<byte>)
    ensures FromLittleEndian(bs) < Radix(|bs|)
    decreases |bs|
  {
    if bs != [] {
      FromLittleEndianBound(bs[1..]);
    }
  }

  lemma {:induction false} LittleEndianOfFrom(bs: seq<byte>)
    ensures LittleEndian(FromLittleEndian(bs), |bs|) == bs
    decreases |bs|
  {
    if bs != [] {
      var rest := FromLittleEndian(bs[1..]);
      LittleEndianOfFrom(bs[1..]);
      LowByte(bs[0], rest);
      assert bs == [bs[0]] + bs[1..];
    }
  }

  lemma LowByte(b: byte, rest: nat)
    ensures (b + 256 * rest) % 256 == b && (b + 256 * rest) / 256 == rest
  {
  }

  lemma Radix4()
    ensures Radix(4) == U32
  {
    assert Radix(3) == 0x100_0000 by {
      assert Radix(2) == 0x1_0000 by { assert Radix(1) == 256; }
    }
  }

  lemma Radix8()
    ensures Radix(8) == U64
  {
    Radix4();
    assert Radix(7) == 0x100_0000_0000_0000 by {
      assert Radix(6) == 0x1_0000_0000_0000 by { assert Radix(5) == 0x100_0000_0000; }
    }
  }

  /** A 32-bit field read back as its four bytes. */
  lemma Word32RoundTrip(n: u32)
    ensures FromLittleEndian(LittleEndian(n, 4)) == n
  {
    Radix4();
    LittleEndianRoundTrip(n, 4);
  }

  lemma Word64RoundTrip(n: u64)
    ensures FromLittleEndian(LittleEndian(n, 8)) == n
  {
    Radix8();
    LittleEndianRoundTrip(n, 8);
  }

  function Load32(bs: seq<byte>): (n: u32)
    requires |bs| == 4
    ensures LittleEndian(n, 4) == bs
  {
    FromLittleEndianBound(bs);
    Radix4();
    LittleEndianOfFrom(bs);
    FromLittleEndian(bs)
  }

  function Load64(bs: seq<byte>): (n: u64)
    requires |bs| == 8
    ensures LittleEndian(n, 8) == bs
  {
    FromLittleEndianBound(bs);
    Radix8();
    LittleEndianOfFrom(bs);
    FromLittleEndian(bs)
  }

  /** `m` with the bytes from `off` on overwritten by `bs`. */
  function Put(m: seq<byte>, off: nat, bs: seq<byte>): (m': seq<byte>)
    requires off + |bs| <= |m|
    ensures |m'| == |m|
    ensures forall k :: 0 <= k < |m| ==>
      m'[k] == if off <= k < off + |bs| then bs[k - off] else m[k]
  {
    m[..off] + bs + m[off + |bs|..]
  }
}
