/** Bit arithmetic of the bus helpers: read_nodes shifts one node level in per id, first id
    most significant, in a 32-bit unsigned; write_nodes takes the low bit off the value for
    the last id first (src/nmos.cc:399-421). */
module Bits {

  const WORD: nat := 0x1_0000_0000

  function Pow2(k: nat): (r: nat)
    ensures r >= 1
  {
    if k == 0 then 1 else 2 * Pow2(k - 1)
  }

  /** Bit k of v, counting from the least significant bit: k shifts right, then `& 1`. */
  function Bit(v: nat, k: nat): (b: bool) {
    if k == 0 then v % 2 == 1 else Bit(v / 2, k - 1)
  }

  function B2N(b: bool): nat {
    if b then 1 else 0
  }

  /** The number whose binary digits are bs, most significant first (no width limit). */
  function FromBits(bs: seq<bool>): (r: nat)
    ensures r < Pow2(|bs|)
    decreases |bs|
  {
    if bs == [] then 0 else 2 * FromBits(bs[..|bs| - 1]) + B2N(bs[|bs| - 1])
  }

  /** The loop of read_nodes: `value = (value << 1) + bit` in an `unsigned`, which wraps at 2^32. */
  function ShiftIn(bs: seq<bool>): (r: nat)
    ensures r < WORD
    decreases |bs|
  {
    if bs == [] then 0 else (2 * ShiftIn(bs[..|bs| - 1]) + B2N(bs[|bs| - 1])) % WORD
  }

  /** The 32-bit shift register is the exact binary number reduced modulo 2^32, so a read of
      at most 32 ids never loses a bit. */
  lemma {:induction false} ShiftInIsFromBits(bs: seq<bool>)
    ensures ShiftIn(bs) == FromBits(bs) % WORD
    ensures |bs| <= 32 ==> ShiftIn(bs) == FromBits(bs)
    decreases |bs|
  {
    if bs != [] {
      ShiftInIsFromBits(bs[..|bs| - 1]);
      var x := FromBits(bs[..|bs| - 1]);
      var b := B2N(bs[|bs| - 1]);
      ModStep(x, b);
    }
    if |bs| <= 32 {
      Pow2Mono(|bs|, 32);
      Pow2At32();
    }
  }

  lemma ModStep(x: nat, b: nat)
    ensures (2 * (x % WORD) + b) % WORD == (2 * x + b) % WORD
  {
    var q := x / WORD;
    assert x == q * WORD + x % WORD;
    assert 2 * x + b == (2 * (x % WORD) + b) + (2 * q) * WORD;
  }

  lemma Pow2At32()
    ensures Pow2(32) == WORD
  {
    assert Pow2(8) == 256;
    assert Pow2(16) == 256 * Pow2(8) by { Pow2Add(8, 8); }
    assert Pow2(32) == Pow2(16) * Pow2(16) by { Pow2Add(16, 16); }
  }

  lemma {:induction false} Pow2Add(a: nat, b: nat)
    ensures Pow2(a + b) == Pow2(a) * Pow2(b)
    decreases b
  {
    if b > 0 { Pow2Add(a, b - 1); }
  }

  lemma {:induction false} Pow2Mono(a: nat, b: nat)
    requires a <= b
    ensures Pow2(a) <= Pow2(b)
    decreases b
  {
    if a < b { Pow2Mono(a, b - 1); }
  }

  /** The digit that FromBits gives to position i is bit |bs|-1-i of the number: the first
      element is the most significant bit, the last the least significant. */
  lemma {:induction false} FromBitsBit(bs: seq<bool>, i: nat)
    requires i < |bs|
    ensures Bit(FromBits(bs), |bs| - 1 - i) == bs[i]
    decreases |bs|
  {
    var init := bs[..|bs| - 1];
    var v := FromBits(bs);
    assert v / 2 == FromBits(init);
    if i < |bs| - 1 {
      FromBitsBit(init, i);
      assert init[i] == bs[i];
    }
  }

  /** Bits above the width of FromBits are clear. */
  lemma {:induction false} BitAboveWidth(v: nat, w: nat, k: nat)
    requires v < Pow2(w) && w <= k
    ensures !Bit(v, k)
    decreases k
  {
    if k > 0 {
      if w > 0 { BitAboveWidth(v / 2, w - 1, k - 1); } else { BitAboveWidth(v / 2, 0, k - 1); }
    }
  }

  /** Reading a pattern back: the bits of v, most significant first, rebuild v when v fits. */
  function BitsOf(v: nat, n: nat): (bs: seq<bool>)
    ensures |bs| == n
    ensures forall i :: 0 <= i < n ==> bs[i] == Bit(v, n - 1 - i)
    decreases n
  {
    if n == 0 then [] else BitsOf(v / 2, n - 1) + [v % 2 == 1]
  }

  lemma {:induction false} FromBitsOf(v: nat, n: nat)
    ensures FromBits(BitsOf(v, n)) == v % Pow2(n)
    decreases n
  {
    if n > 0 {
      var p := Pow2(n - 1);
      var init := BitsOf(v / 2, n - 1);
      FromBitsOf(v / 2, n - 1);
      var bs := BitsOf(v, n);
      assert bs == init + [v % 2 == 1];
      assert bs[..n - 1] == init;
      assert B2N(v % 2 == 1) == v % 2;
      assert FromBits(bs) == 2 * ((v / 2) % p) + v % 2;
      assert Pow2(n) == 2 * p;
      ModDouble(v, p);
    }
  }

  lemma ModDouble(v: nat, p: nat)
    requires p > 0
    ensures v % (2 * p) == 2 * ((v / 2) % p) + v % 2
  {
    var h := v / 2;
    var q := h / p;
    var r := 2 * (h % p) + v % 2;
    assert h == q * p + h % p;
    assert v == 2 * h + v % 2;
    MulTwice(q, p);
    assert v == q * (2 * p) + r;
    DivModUnique(v, 2 * p, q, r);
  }

  lemma DivModUnique(v: nat, d: nat, q: nat, r: nat)
    requires d > 0 && r < d && v == q * d + r
    ensures v % d == r
  {
    var q0 := v / d;
    var r0 := v % d;
    assert v == q0 * d + r0;
    MulSub(q, q0, d);
    if q > q0 {
      MulAtLeast(q - q0, d);
    } else if q < q0 {
      MulAtLeast(q0 - q, d);
    }
  }

  lemma MulSub(a: int, b: int, d: int)
    ensures a * d - b * d == (a - b) * d
  {
  }

  lemma MulAtLeast(a: int, d: int)
    requires a >= 1 && d > 0
    ensures a * d >= d
  {
    assert a * d == (a - 1) * d + d;
  }

  lemma MulTwice(x: int, p: int)
    ensures 2 * (x * p) == x * (2 * p)
  {
  }

  /** Concatenated bus halves: the high part is shifted left by the width of the low part. */
  lemma {:induction false} FromBitsAppend(a: seq<bool>, b: seq<bool>)
    ensures FromBits(a + b) == FromBits(a) * Pow2(|b|) + FromBits(b)
    decreases |b|
  {
    if b == [] {
      assert a + b == a;
    } else {
      var b0 := b[..|b| - 1];
      assert (a + b)[..|a + b| - 1] == a + b0;
      FromBitsAppend(a, b0);
      var x := FromBits(a);
      var p := Pow2(|b0|);
      assert FromBits(a + b) == 2 * FromBits(a + b0) + B2N(b[|b| - 1]);
      assert FromBits(b) == 2 * FromBits(b0) + B2N(b[|b| - 1]);
      assert Pow2(|b|) == 2 * p;
      MulTwice(x, p);
    }
  }
}
