/** Unsigned words as natural numbers, with the bit operations of C and what they do to the
    single bits. */
module Bits {

  /** Bit i of x. */
  predicate Bit(x: nat, i: nat)
  {
    if i == 0 then x % 2 == 1 else Bit(x / 2, i - 1)
  }

  function Join(high: nat, low: bool): nat
  {
    2 * high + if low then 1 else 0
  }

  /** a | b */
  function BitOr(a: nat, b: nat): nat
  {
    if a == 0 && b == 0 then 0 else Join(BitOr(a / 2, b / 2), a % 2 == 1 || b % 2 == 1)
  }

  /** a & b */
  function BitAnd(a: nat, b: nat): nat
  {
    if a == 0 || b == 0 then 0 else Join(BitAnd(a / 2, b / 2), a % 2 == 1 && b % 2 == 1)
  }

  /** a ^ b */
  function Xor(a: nat, b: nat): nat
  {
    if a == 0 && b == 0 then 0 else Join(Xor(a / 2, b / 2), a % 2 != b % 2)
  }

  /** The n low bits of x, inverted. */
  function Flip(x: nat, n: nat): nat
  {
    if n == 0 then 0 else Join(Flip(x / 2, n - 1), x % 2 == 0)
  }

  /** The n low bits of x. */
  function Low(x: nat, n: nat): nat
  {
    if n == 0 then 0 else Join(Low(x / 2, n - 1), x % 2 == 1)
  }

  /** x >> k */
  function Shr(x: nat, k: nat): nat
  {
    if k == 0 then x else Shr(x / 2, k - 1)
  }

  function Double(x: nat, k: nat): nat
  {
    if k == 0 then x else 2 * Double(x, k - 1)
  }

  /** x << k on 32 bits */
  function Shl32(x: nat, k: nat): nat
  {
    Low(Double(x, k), 32)
  }

  /** ~x on 32 bits */
  function Not32(x: nat): nat
  {
    Flip(x, 32)
  }

  lemma {:induction false} OrBit(a: nat, b: nat, i: nat)
    ensures Bit(BitOr(a, b), i) <==> Bit(a, i) || Bit(b, i)
    decreases i
  {
    if i > 0 {
      OrBit(a / 2, b / 2, i - 1);
    }
  }

  lemma {:induction false} AndBit(a: nat, b: nat, i: nat)
    ensures Bit(BitAnd(a, b), i) <==> Bit(a, i) && Bit(b, i)
    decreases i
  {
    ZeroBit(i);
    if i > 0 {
      AndBit(a / 2, b / 2, i - 1);
    }
  }

  lemma {:induction false} XorBit(a: nat, b: nat, i: nat)
    ensures Bit(Xor(a, b), i) <==> Bit(a, i) != Bit(b, i)
    decreases i
  {
    if i > 0 {
      XorBit(a / 2, b / 2, i - 1);
    }
  }

  lemma {:induction false} ZeroBit(i: nat)
    ensures !Bit(0, i)
    decreases i
  {
    if i > 0 {
      ZeroBit(i - 1);
    }
  }

  lemma {:induction false} FlipBit(x: nat, n: nat, i: nat)
    ensures Bit(Flip(x, n), i) <==> i < n && !Bit(x, i)
    decreases i
  {
    ZeroBit(i);
    if i > 0 && n > 0 {
      FlipBit(x / 2, n - 1, i - 1);
    }
  }

  lemma {:induction false} LowBit(x: nat, n: nat, i: nat)
    ensures Bit(Low(x, n), i) <==> i < n && Bit(x, i)
    decreases i
  {
    ZeroBit(i);
    if n > 0 {
      var low := Low(x, n);
      assert low / 2 == Low(x / 2, n - 1) && (low % 2 == 1 <==> x % 2 == 1);
      if i > 0 {
        LowBit(x / 2, n - 1, i - 1);
      }
    }
  }

  lemma {:induction false} ShrBit(x: nat, k: nat, i: nat)
    ensures Bit(Shr(x, k), i) <==> Bit(x, i + k)
    decreases k
  {
    if k > 0 {
      ShrBit(x / 2, k - 1, i);
    }
  }

  lemma {:induction false} DoubleBit(x: nat, k: nat, i: nat)
    ensures Bit(Double(x, k), i) <==> k <= i && Bit(x, i - k)
    decreases k
  {
    if k > 0 && i > 0 {
      assert Double(x, k) / 2 == Double(x, k - 1);
      DoubleBit(x, k - 1, i - 1);
    }
  }

  lemma Shl32Bit(x: nat, k: nat, i: nat)
    ensures Bit(Shl32(x, k), i) <==> i < 32 && k <= i && Bit(x, i - k)
  {
    LowBit(Double(x, k), 32, i);
    DoubleBit(x, k, i);
  }

  /** 0xffffffff >> (31 - w) has the bits 0 .. w. */
  lemma MaskBit(w: nat, i: nat)
    requires w < 32
    ensures Bit(Shr(0xFFFF_FFFF, 31 - w), i) <==> i <= w
  {
    ShrBit(0xFFFF_FFFF, 31 - w, i);
    AllOnes();
    FlipBit(0, 32, i + 31 - w);
    ZeroBit(i + 31 - w);
  }

  lemma AllOnes()
    ensures Flip(0, 32) == 0xFFFF_FFFF
  {
    assert Flip(0, 4) == 0xF;
    assert Flip(0, 8) == 0xFF;
    assert Flip(0, 12) == 0xFFF;
    assert Flip(0, 16) == 0xFFFF;
    assert Flip(0, 20) == 0xF_FFFF;
    assert Flip(0, 24) == 0xFF_FFFF;
    assert Flip(0, 28) == 0xFFF_FFFF;
  }

  /** Words with the same bits are equal. */
  lemma {:induction false} SameBits(x: nat, y: nat)
    requires forall i: nat :: Bit(x, i) <==> Bit(y, i)
    ensures x == y
    decreases x + y
  {
    if x + y > 0 {
      assert Bit(x, 0) <==> Bit(y, 0);
      forall i: nat
        ensures Bit(x / 2, i) <==> Bit(y / 2, i)
      {
        assert Bit(x, i + 1) <==> Bit(y, i + 1);
      }
      SameBits(x / 2, y / 2);
    }
  }

  function Pow2(e: nat): nat
  {
    if e == 0 then 1 else 2 * Pow2(e - 1)
  }

  lemma DivTwice(x: nat, p: nat)
    requires p > 0
    ensures x / (2 * p) == x / 2 / p && x % (2 * p) == 2 * (x / 2 % p) + x % 2
  {
    var q, r := x / 2 / p, x / 2 % p;
    assert x / 2 == q * p + r;
    assert x == q * (2 * p) + (2 * r + x % 2);
    DivModIs(x, 2 * p, q, 2 * r + x % 2);
  }

  lemma DivModIs(x: nat, d: nat, q: nat, r: nat)
    requires r < d && x == q * d + r
    ensures x / d == q && x % d == r
  {
    var k, t := x / d, x % d;
    assert x == k * d + t;
    assert (q - k) * d == q * d - k * d == t - r;
    assert q - k >= 1 ==> (q - k) * d >= d;
    assert q - k <= -1 ==> (q - k) * d + d <= 0;
  }

  /** Bit i counts 2 to the i. */
  lemma {:induction false} BitIs(x: nat, i: nat)
    ensures Pow2(i) > 0 && (Bit(x, i) <==> x / Pow2(i) % 2 == 1)
    decreases i
  {
    if i > 0 {
      BitIs(x / 2, i - 1);
      DivTwice(x, Pow2(i - 1));
    }
  }

  lemma {:induction false} ShrIs(x: nat, k: nat)
    ensures Pow2(k) > 0 && Shr(x, k) == x / Pow2(k)
    decreases k
  {
    if k > 0 {
      ShrIs(x / 2, k - 1);
      DivTwice(x, Pow2(k - 1));
    }
  }

  lemma {:induction false} LowIs(x: nat, n: nat)
    ensures Pow2(n) > 0 && Low(x, n) == x % Pow2(n)
    decreases n
  {
    if n > 0 {
      LowIs(x / 2, n - 1);
      DivTwice(x, Pow2(n - 1));
    }
  }

  lemma ByteUp(x: nat, i: nat)
    ensures Bit(x, i + 8) == Bit(x / 256, i)
  {
    assert Bit(x, i + 8) == Bit(x / 2 / 2, i + 6);
    assert Bit(x / 4, i + 6) == Bit(x / 4 / 2 / 2, i + 4);
    assert Bit(x / 16, i + 4) == Bit(x / 16 / 2 / 2, i + 2);
    assert Bit(x / 64, i + 2) == Bit(x / 64 / 2 / 2, i);
  }

  lemma {:induction false} HighBit(x: nat, n: nat, i: nat)
    requires x < Pow2(n) && n <= i
    ensures !Bit(x, i)
    decreases n
  {
    if n == 0 {
      ZeroBit(i);
    } else {
      HighBit(x / 2, n - 1, i - 1);
    }
  }

  lemma {:induction false} OrZero(a: nat)
    ensures BitOr(a, 0) == a && BitOr(0, a) == a
  {
    if a != 0 {
      OrZero(a / 2);
    }
  }

  /** Where the two operands share no bit, or is addition. */
  lemma {:induction false} OrAdds(e: nat, lo: nat, q: nat)
    requires lo < Pow2(e)
    ensures BitOr(lo, q * Pow2(e)) == lo + q * Pow2(e)
    decreases e
  {
    hide BitOr;
    if e == 0 {
      OrZero(q);
    } else {
      var p := Pow2(e - 1);
      assert q * Pow2(e) == 2 * (q * p) by {
        assert q * (2 * p) == 2 * (q * p);
      }
      OrAdds(e - 1, lo / 2, q);
      OrDoubled(lo, q * p);
    }
  }

  lemma OrDoubled(lo: nat, h: nat)
    ensures BitOr(lo, 2 * h) == 2 * BitOr(lo / 2, h) + lo % 2
  {
    assert 2 * h / 2 == h && 2 * h % 2 == 0;
    if lo == 0 && h == 0 {
      OrZero(0);
    }
  }
}
