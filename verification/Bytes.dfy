/** Octets and big-endian integers of a fixed number of octets. */
module Bytes {
  type Byte = b: int | 0 <= b < 0x100
  type U16 = n: int | 0 <= n < 0x1_0000
  type U32 = n: int | 0 <= n < 0x1_0000_0000

  function Pow2(k: nat): (p: nat)
    ensures p > 0
  {
    if k == 0 then 1 else 2 * Pow2(k - 1)
  }

  /** 2 to the 8k: the number of values of k octets. */
  function Pow256(k: nat): (p: nat)
    ensures p > 0
  {
    if k == 0 then 1 else 256 * Pow256(k - 1)
  }

  /** `to_be_bytes` of an integer of `w` octets; higher octets are dropped, as by a truncating cast. */
  function ToBE(n: nat, w: nat): (s: seq<Byte>)
    ensures |s| == w
  {
    if w == 0 then [] else ToBE(n / 256, w - 1) + [n % 256]
  }

  /** `from_be_bytes`. */
  function FromBE(s: seq<Byte>): nat {
    if s == [] then 0 else 256 * FromBE(s[..|s| - 1]) + s[|s| - 1]
  }

  function Zeros(k: nat): (s: seq<Byte>)
    ensures |s| == k
  {
    seq(k, i => 0)
  }

  /** `Vec::resize(w, 0)`: pad with zeros at the end, or drop what is beyond `w`. */
  function Resize(s: seq<Byte>, w: nat): (r: seq<Byte>)
    ensures |r| == w
  {
    if w <= |s| then s[..w] else s + Zeros(w - |s|)
  }

  lemma {:induction false} FromToBE(n: nat, w: nat)
    requires n < Pow256(w)
    ensures FromBE(ToBE(n, w)) == n
  {
    if w > 0 {
      FromToBE(n / 256, w - 1);
      assert ToBE(n, w)[..w - 1] == ToBE(n / 256, w - 1);
    }
  }

  lemma {:induction false} FromBEBound(s: seq<Byte>)
    ensures FromBE(s) < Pow256(|s|)
  {
    if s != [] {
      FromBEBound(s[..|s| - 1]);
    }
  }

  lemma {:induction false} ToFromBE(s: seq<Byte>)
    ensures ToBE(FromBE(s), |s|) == s
  {
    if s != [] {
      var t := s[..|s| - 1];
      ToFromBE(t);
      assert FromBE(s) / 256 == FromBE(t) && FromBE(s) % 256 == s[|s| - 1];
      assert s == t + [s[|s| - 1]];
    }
  }

  /** A multiple of 256^j ends, as octets, in j zeros. */
  lemma {:induction false} ToBEOfMultiple(q: nat, j: nat, w: nat)
    requires j <= w
    ensures ToBE(q * Pow256(j), w) == ToBE(q, w - j) + Zeros(j)
  {
    if j > 0 {
      var m := q * Pow256(j - 1);
      assert q * Pow256(j) == 256 * m by {
        assert q * (256 * Pow256(j - 1)) == 256 * (q * Pow256(j - 1));
      }
      ToBEOfMultiple(q, j - 1, w - 1);
      assert Zeros(j) == Zeros(j - 1) + [0];
    } else {
      assert q * Pow256(0) == q;
    }
  }

  /** `addr & mask`: the `h` low bits cleared. */
  function ClearLow(a: nat, h: nat): (r: nat)
    ensures r <= a < r + Pow2(h)
  {
    if h == 0 then a else 2 * ClearLow(a / 2, h - 1)
  }

  /** Clearing `h` low bits leaves a multiple of 2^h, and of 256^j when `j` octets lie within them. */
  lemma {:induction false} ClearLowIsMultiple(a: nat, h: nat) returns (q: nat)
    ensures ClearLow(a, h) == q * Pow2(h)
  {
    if h == 0 {
      q := a;
    } else {
      q := ClearLowIsMultiple(a / 2, h - 1);
      assert 2 * (q * Pow2(h - 1)) == q * (2 * Pow2(h - 1));
    }
  }

  lemma {:induction false} ClearLowTwice(a: nat, h: nat)
    ensures ClearLow(ClearLow(a, h), h) == ClearLow(a, h)
  {
    if h > 0 {
      ClearLowTwice(a / 2, h - 1);
    }
  }

  /** Bit `i` of the octets, most significant first. */
  function BitAt(s: seq<Byte>, i: nat): nat
    requires i < 8 * |s|
  {
    s[i / 8] / [128, 64, 32, 16, 8, 4, 2, 1][i % 8] % 2
  }

  /** Bit `j` of a number, least significant first. */
  function NumberBit(n: nat, j: nat): nat {
    if j == 0 then n % 2 else NumberBit(n / 2, j - 1)
  }

  /** The low part of a number has its low bits, the high part all others. */
  lemma {:induction false} SplitBits(high: nat, low: nat, k: nat, j: nat)
    requires low < Pow2(k)
    ensures NumberBit(high * Pow2(k) + low, j) == if j < k then NumberBit(low, j) else NumberBit(high, j - k)
  {
    if k > 0 {
      var half := high * Pow2(k - 1);
      assert Pow2(k) == 2 * Pow2(k - 1);
      assert high * Pow2(k) == 2 * half by {
        hide Pow2;
        MulAssoc(high, 2, Pow2(k - 1));
        MulAssoc(2, high, Pow2(k - 1));
      }
      hide Pow2;
      HalfOf(half, low);
      if j > 0 {
        SplitBits(high, low / 2, k - 1, j - 1);
      }
    } else {
      assert high * Pow2(0) == high;
    }
  }

  lemma HalfOf(half: nat, low: nat)
    ensures (2 * half + low) / 2 == half + low / 2 && (2 * half + low) % 2 == low % 2
  {
  }

  /** The eight low bits of a number. */
  lemma {:induction false} OctetBit(n: nat, j: nat)
    requires j < 8
    ensures NumberBit(n, j) == n / [1, 2, 4, 8, 16, 32, 64, 128][j] % 2
  {
    if j > 0 {
      OctetBit(n / 2, j - 1);
      hide NumberBit;
      Halved(n, [1, 2, 4, 8, 16, 32, 64, 128][j - 1]);
    }
  }

  lemma Halved(n: nat, k: nat)
    requires k in {1, 2, 4, 8, 16, 32, 64}
    ensures n / 2 / k == n / (2 * k)
  {
  }

  /** The bits of a number, read off its octets. */
  lemma {:induction false} NumberBits(s: seq<Byte>, i: nat)
    requires i < 8 * |s|
    ensures NumberBit(FromBE(s), 8 * |s| - 1 - i) == BitAt(s, i)
  {
    var init, last := s[..|s| - 1], s[|s| - 1];
    assert Pow2(8) == 256 by {
      assert Pow2(4) == 16;
    }
    SplitBits(FromBE(init), last, 8, 8 * |s| - 1 - i);
    hide NumberBit, Pow2;
    if i < 8 * |init| {
      NumberBits(init, i);
    } else {
      OctetBit(last, 7 - i % 8);
    }
  }

  /** Clearing the `h` low bits keeps every other bit. */
  lemma {:induction false} ClearLowBits(a: nat, h: nat, j: nat)
    ensures NumberBit(ClearLow(a, h), j) == if j < h then 0 else NumberBit(a, j)
  {
    if h > 0 && j > 0 {
      ClearLowBits(a / 2, h - 1, j - 1);
    }
  }

  lemma ClearedOctets(a: nat, h: nat, j: nat) returns (q: nat)
    requires 8 * j <= h
    ensures ClearLow(a, h) == q * Pow256(j)
  {
    var c := ClearLowIsMultiple(a, h);
    var d := Pow2(h - 8 * j);
    Pow2Sum(h - 8 * j, 8 * j);
    Pow256IsPow2(j);
    q := c * d;
    MulAssoc(c, d, Pow256(j));
  }

  lemma MulAssoc(a: nat, b: nat, c: nat)
    ensures a * (b * c) == a * b * c
  {
  }

  lemma {:induction false} Pow2Sum(a: nat, b: nat)
    ensures Pow2(a + b) == Pow2(a) * Pow2(b)
  {
    if a > 0 {
      assert Pow2(a + b) == 2 * Pow2(a - 1 + b) && Pow2(a) == 2 * Pow2(a - 1);
      hide Pow2;
      Pow2Sum(a - 1, b);
      MulAssoc(2, Pow2(a - 1), Pow2(b));
    }
  }

  lemma {:induction false} Pow256IsPow2(k: nat)
    ensures Pow256(k) == Pow2(8 * k)
  {
    if k > 0 {
      Pow256IsPow2(k - 1);
      Pow2Sum(8, 8 * (k - 1));
      assert Pow2(8) == 256 by {
        assert Pow2(3) == 8 && Pow2(5) == 32;
        Pow2Sum(3, 5);
      }
    }
  }

  /** A 16-bit field as `write_u16::<BigEndian>` writes it; what does not fit is cut off. */
  function PutU16(n: nat): (s: seq<Byte>)
    ensures |s| == 2
  {
    [n / 256 % 256, n % 256]
  }

  function GetU16(hi: Byte, lo: Byte): (n: U16) {
    256 * hi + lo
  }

  lemma PutGetU16(n: U16)
    ensures GetU16(PutU16(n)[0], PutU16(n)[1]) == n
  {
  }

  lemma GetPutU16(hi: Byte, lo: Byte)
    ensures PutU16(GetU16(hi, lo)) == [hi, lo]
  {
  }

  function PutU32(n: U32): (s: seq<Byte>)
    ensures |s| == 4
  {
    [n / 0x100_0000, n / 0x1_0000 % 256, n / 0x100 % 256, n % 256]
  }

  function GetU32(a: Byte, b: Byte, c: Byte, d: Byte): (n: U32) {
    0x100_0000 * a + 0x1_0000 * b + 0x100 * c + d
  }

  lemma PutGetU32(n: U32)
    ensures GetU32(PutU32(n)[0], PutU32(n)[1], PutU32(n)[2], PutU32(n)[3]) == n
  {
    assert n / 0x1_0000 == 256 * (n / 0x100_0000) + n / 0x1_0000 % 256;
    assert n / 0x100 == 256 * (n / 0x1_0000) + n / 0x100 % 256;
  }
}
