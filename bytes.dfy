/** Big-endian fixed-width integers, as Python's `struct` packs them with a
    leading '>' (no padding): the unsigned formats B, H, I, Q are 1, 2, 4
    and 8 bytes; the signed format q is 8 bytes in two's complement. */
module Bytes {

  type byte = x: int | 0 <= x < 256

  function Pow256(n: nat): (r: nat)
    ensures r >= 1
  {
    if n == 0 then 1 else 256 * Pow256(n - 1)
  }

  const UINT16_LIMIT: nat := 0x1_0000
  const UINT32_LIMIT: nat := 0x1_0000_0000
  const UINT64_LIMIT: nat := 0x1_0000_0000_0000_0000
  const INT64_MIN: int := -0x8000_0000_0000_0000
  const INT64_MAX: int := 0x7FFF_FFFF_FFFF_FFFF

  /** The limits of the unsigned formats are the powers of 256 they occupy. */
  lemma Pow256Limits()
    ensures Pow256(1) == 256 && Pow256(2) == UINT16_LIMIT
    ensures Pow256(4) == UINT32_LIMIT && Pow256(8) == UINT64_LIMIT
  {
    assert Pow256(1) == 256;
    assert Pow256(2) == 65536;
    assert Pow256(3) == 16777216;
    assert Pow256(4) == 4294967296;
    assert Pow256(5) == 1099511627776;
    assert Pow256(6) == 281474976710656;
    assert Pow256(7) == 72057594037927936;
  }

  /** The n low-order bytes of x, most significant first. */
  function EncodeBE(x: nat, n: nat): (r: seq<byte>)
    ensures |r| == n
  {
    if n == 0 then [] else EncodeBE(x / 256, n - 1) + [x % 256]
  }

  /** The unsigned integer a byte string denotes, most significant first. */
  function DecodeBE(s: seq<byte>): (r: nat)
    ensures r < Pow256(|s|)
  {
    if |s| == 0 then 0 else DecodeBE(s[..|s| - 1]) * 256 + s[|s| - 1]
  }

  lemma DivideBound(x: nat, p: nat)
    requires x < 256 * p
    ensures x / 256 < p
  {
  }

  /** Decoding undoes encoding for every value that fits the width. */
  lemma {:induction false} DecodeEncode(x: nat, n: nat)
    requires x < Pow256(n)
    ensures DecodeBE(EncodeBE(x, n)) == x
  {
    if n > 0 {
      var e := EncodeBE(x, n);
      assert e[..n - 1] == EncodeBE(x / 256, n - 1);
      assert e[n - 1] == x % 256;
      DivideBound(x, Pow256(n - 1));
      DecodeEncode(x / 256, n - 1);
      assert DecodeBE(e) == DecodeBE(e[..n - 1]) * 256 + e[n - 1];
    }
  }

  /** Encoding undoes decoding: every byte string is the encoding of its value. */
  lemma {:induction false} EncodeDecode(s: seq<byte>)
    ensures EncodeBE(DecodeBE(s), |s|) == s
  {
    if |s| > 0 {
      var init := s[..|s| - 1];
      EncodeDecode(init);
      var d := DecodeBE(s);
      assert d / 256 == DecodeBE(init) && d % 256 == s[|s| - 1];
      assert s == init + [s[|s| - 1]];
    }
  }

  /** Two's-complement 64-bit encoding, struct's 'q'. */
  function EncodeI64(x: int): (r: seq<byte>)
    requires INT64_MIN <= x <= INT64_MAX
    ensures |r| == 8
  {
    EncodeBE(if x < 0 then x + UINT64_LIMIT else x, 8)
  }

  function DecodeI64(s: seq<byte>): (r: int)
    requires |s| == 8
    ensures INT64_MIN <= r <= INT64_MAX
  {
    Pow256Limits();
    var u := DecodeBE(s);
    if u > INT64_MAX then u - UINT64_LIMIT else u
  }

  lemma DecodeEncodeI64(x: int)
    requires INT64_MIN <= x <= INT64_MAX
    ensures DecodeI64(EncodeI64(x)) == x
  {
    Pow256Limits();
    DecodeEncode(if x < 0 then x + UINT64_LIMIT else x, 8);
  }

  lemma EncodeDecodeI64(s: seq<byte>)
    requires |s| == 8
    ensures EncodeI64(DecodeI64(s)) == s
  {
    Pow256Limits();
    EncodeDecode(s);
  }

  function Pow2(n: nat): (r: nat)
    ensures r >= 1
  {
    if n == 0 then 1 else 2 * Pow2(n - 1)
  }

  /** `(x >> k) & 1 == 1`: bit k of x is set. */
  predicate TestBit(x: nat, k: nat)
  {
    if k == 0 then x % 2 == 1 else TestBit(x / 2, k - 1)
  }

  /** `x | (1 << k)`. */
  function SetBit(x: nat, k: nat): (r: nat)
  {
    if k == 0 then (if x % 2 == 1 then x else x + 1)
    else 2 * SetBit(x / 2, k - 1) + x % 2
  }

  /** The bit that `SetBit` sets is set afterwards. */
  lemma {:induction false} SetBitSets(x: nat, k: nat)
    ensures TestBit(SetBit(x, k), k)
  {
    if k > 0 {
      SetBitSets(x / 2, k - 1);
      var s := SetBit(x / 2, k - 1);
      assert (2 * s + x % 2) / 2 == s;
    }
  }

  /** `SetBit` leaves every other bit as it was. */
  lemma {:induction false} SetBitKeeps(x: nat, k: nat, j: nat)
    requires j != k
    ensures TestBit(SetBit(x, k), j) == TestBit(x, j)
  {
    if k == 0 {
      if x % 2 == 0 && j > 0 {
        assert (x + 1) / 2 == x / 2;
      }
    } else {
      var s := SetBit(x / 2, k - 1);
      assert (2 * s + x % 2) / 2 == s;
      assert (2 * s + x % 2) % 2 == x % 2;
      if j > 0 {
        SetBitKeeps(x / 2, k - 1, j - 1);
      }
    }
  }

  lemma SetBitKeepsAll(x: nat, k: nat)
    ensures forall j :: j != k ==> TestBit(SetBit(x, k), j) == TestBit(x, j)
  {
    forall j | j != k
      ensures TestBit(SetBit(x, k), j) == TestBit(x, j)
    {
      SetBitKeeps(x, k, j);
    }
  }

  /** Setting a bit that is already set changes nothing; setting a clear
      bit adds its value. */
  lemma {:induction false} SetBitValue(x: nat, k: nat)
    ensures TestBit(x, k) ==> SetBit(x, k) == x
    ensures !TestBit(x, k) ==> SetBit(x, k) == x + Pow2(k)
  {
    if k > 0 {
      SetBitValue(x / 2, k - 1);
      assert x == 2 * (x / 2) + x % 2;
    }
  }

  /** Setting one of the low n bits of a number below 2^n stays below 2^n;
      in particular a byte stays a byte. */
  lemma {:induction false} SetBitBound(x: nat, k: nat, n: nat)
    requires x < Pow2(n) && k < n
    ensures SetBit(x, k) < Pow2(n)
  {
    var h := Pow2(n - 1);
    assert Pow2(n) == 2 * h;
    assert x == 2 * (x / 2) + x % 2;
    if k > 0 {
      SetBitBound(x / 2, k - 1, n - 1);
      assert SetBit(x / 2, k - 1) + 1 <= h;
    }
  }
}
