/** The slice of the Borsh wire format the instruction enum uses: an unsigned
    integer is written as its bytes in little-endian order, least significant
    byte first, with no length prefix. */
module Borsh {
  import opened Solana

  /** 256 to the power `k`: the number of values `k` bytes can hold. */
  function Pow256(k: nat): (p: nat)
    ensures p >= 1
  {
    if k == 0 then 1 else 256 * Pow256(k - 1)
  }

  /** The low `width` bytes of `n`, least significant first. */
  function LittleEndian(n: nat, width: nat): (bs: seq<U8>)
    ensures |bs| == width
    ensures width > 0 ==> bs[0] == n % 256
  {
    if width == 0 then [] else [n % 256] + LittleEndian(n / 256, width - 1)
  }

  /** The number whose little-endian bytes are `bs`. */
  function FromLittleEndian(bs: seq<U8>): (n: nat)
    ensures n < Pow256(|bs|)
  {
    if bs == [] then 0 else bs[0] + 256 * FromLittleEndian(bs[1..])
  }

  /** Writing `n` in `width` bytes loses nothing when `n` fits. */
  lemma {:induction false} FromLittleEndianInverts(n: nat, width: nat)
    requires n < Pow256(width)
    ensures FromLittleEndian(LittleEndian(n, width)) == n
  {
    if width > 0 {
      FromLittleEndianInverts(n / 256, width - 1);
      assert LittleEndian(n, width)[1..] == LittleEndian(n / 256, width - 1);
    }
  }

  /** Every byte string is the little-endian form of the number it denotes:
      the encoding is canonical, so distinct strings denote distinct numbers. */
  lemma {:induction false} LittleEndianInverts(bs: seq<U8>)
    ensures LittleEndian(FromLittleEndian(bs), |bs|) == bs
  {
    if bs != [] {
      var n := FromLittleEndian(bs);
      assert n % 256 == bs[0] && n / 256 == FromLittleEndian(bs[1..]);
      LittleEndianInverts(bs[1..]);
    }
  }

  /** The value of 8 little-endian bytes, written out: each byte counts 256
      times as much as the one before it. */
  lemma FromLittleEndianEight(bs: seq<U8>)
    requires |bs| == 8
    ensures FromLittleEndian(bs) == bs[0] as int + 256 * (bs[1] as int + 256 * (bs[2] as int + 256 * (bs[3] as int
      + 256 * (bs[4] as int + 256 * (bs[5] as int + 256 * (bs[6] as int + 256 * bs[7] as int))))))
  {
    var s1, s2, s3, s4, s5, s6, s7 := bs[1..], bs[2..], bs[3..], bs[4..], bs[5..], bs[6..], bs[7..];
    assert s1[1..] == s2 && s2[1..] == s3 && s3[1..] == s4 && s4[1..] == s5 && s5[1..] == s6 && s6[1..] == s7;
    assert s7[1..] == [];
    assert s1[0] == bs[1] && s2[0] == bs[2] && s3[0] == bs[3] && s4[0] == bs[4];
    assert s5[0] == bs[5] && s6[0] == bs[6] && s7[0] == bs[7];
    var v7 := FromLittleEndian(s7);
    assert v7 == bs[7] as int;
    var v6 := FromLittleEndian(s6);
    assert v6 == bs[6] as int + 256 * v7;
    var v5 := FromLittleEndian(s5);
    assert v5 == bs[5] as int + 256 * v6;
    var v4 := FromLittleEndian(s4);
    assert v4 == bs[4] as int + 256 * v5;
    var v3 := FromLittleEndian(s3);
    assert v3 == bs[3] as int + 256 * v4;
    var v2 := FromLittleEndian(s2);
    assert v2 == bs[2] as int + 256 * v3;
    var v1 := FromLittleEndian(s1);
    assert v1 == bs[1] as int + 256 * v2;
    assert FromLittleEndian(bs) == bs[0] as int + 256 * v1;
  }

  /** Borsh's encoding of a `u64`: exactly 8 bytes that denote the value. */
  function EncodeU64(n: U64): (bs: seq<U8>)
    ensures |bs| == 8
    ensures FromLittleEndian(bs) == n
  {
    FromLittleEndianInverts(n, 8);
    LittleEndian(n, 8)
  }

  /** Borsh's decoding of 8 bytes as a `u64`; every 8-byte string is accepted
      and is the encoding of what it decodes to. */
  function DecodeU64(bs: seq<U8>): (n: U64)
    requires |bs| == 8
    ensures EncodeU64(n) == bs
  {
    LittleEndianInverts(bs);
    FromLittleEndian(bs)
  }
}
