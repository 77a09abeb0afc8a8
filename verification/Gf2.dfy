/** Polynomials over GF(2) as natural numbers: the coefficient of x^i is bit i, addition is
    exclusive or, and multiplying by x doubles. */
module Gf2 {
  import opened Bits

  lemma {:induction false} XorZero(a: nat)
    ensures Xor(a, 0) == a && Xor(0, a) == a && Xor(a, a) == 0
  {
    if a != 0 {
      XorZero(a / 2);
    }
  }

  lemma {:induction false} XorCommutes(a: nat, b: nat)
    ensures Xor(a, b) == Xor(b, a)
  {
    if a != 0 || b != 0 {
      XorCommutes(a / 2, b / 2);
    }
  }

  lemma {:induction false} XorAssociates(a: nat, b: nat, c: nat)
    ensures Xor(Xor(a, b), c) == Xor(a, Xor(b, c))
    decreases a + b + c
  {
    if a != 0 || b != 0 || c != 0 {
      XorHalves(a, b);
      XorHalves(b, c);
      XorHalves(Xor(a, b), c);
      XorHalves(a, Xor(b, c));
      XorAssociates(a / 2, b / 2, c / 2);
    }
  }

  lemma XorHalves(a: nat, b: nat)
    ensures Xor(a, b) / 2 == Xor(a / 2, b / 2)
    ensures Xor(a, b) % 2 == 1 <==> a % 2 != b % 2
  {
  }

  /** Two sums regrouped. */
  lemma XorSwap(a: nat, b: nat, c: nat, d: nat)
    ensures Xor(Xor(a, b), Xor(c, d)) == Xor(Xor(a, c), Xor(b, d))
  {
    XorAssociates(a, b, Xor(c, d));
    XorAssociates(b, c, d);
    XorCommutes(b, c);
    XorAssociates(c, b, d);
    XorAssociates(a, c, Xor(b, d));
  }

  lemma {:induction false} XorBelow(a: nat, b: nat, e: nat)
    requires a < Pow2(e) && b < Pow2(e)
    ensures Xor(a, b) < Pow2(e)
    decreases e
  {
    if e > 0 {
      XorHalves(a, b);
      XorBelow(a / 2, b / 2, e - 1);
    } else {
      XorZero(0);
    }
  }

  lemma XorDouble(a: nat, b: nat)
    ensures Xor(2 * a, 2 * b) == 2 * Xor(a, b)
  {
  }

  lemma {:induction false} XorShifted(k: nat, a: nat, b: nat)
    ensures Xor(Double(a, k), Double(b, k)) == Double(Xor(a, b), k)
    decreases k
  {
    if k > 0 {
      XorShifted(k - 1, a, b);
      XorDouble(Double(a, k - 1), Double(b, k - 1));
    }
  }

  /** Where the operands share no bit, exclusive or is addition. */
  lemma {:induction false} XorAdds(k: nat, q: nat, lo: nat)
    requires lo < Pow2(k)
    ensures Xor(Double(q, k), lo) == Double(q, k) + lo
    decreases k
  {
    if k == 0 {
      XorZero(q);
    } else {
      XorHalves(Double(q, k), lo);
      XorAdds(k - 1, q, lo / 2);
    }
  }

  lemma {:induction false} DoubleIs(x: nat, k: nat)
    ensures Double(x, k) == Pow2(k) * x
    decreases k
  {
    if k > 0 {
      DoubleIs(x, k - 1);
    }
  }

  lemma Double8(x: nat)
    ensures Double(x, 8) == 256 * x
  {
    Powers();
    DoubleIs(x, 8);
  }

  /** The product of q and p. */
  function Times(q: nat, p: nat): nat
  {
    if q == 0 then 0 else Xor(2 * Times(q / 2, p), if q % 2 == 1 then p else 0)
  }

  lemma TimesBit(t: nat, p: nat)
    requires t <= 1
    ensures Times(t, p) == if t == 1 then p else 0
  {
    XorZero(p);
    assert Times(0, p) == 0;
    assert t == 1 ==> Times(t, p) == Xor(2 * Times(0, p), p);
  }

  lemma TimesDouble(p: nat, q: nat)
    ensures Times(2 * q, p) == 2 * Times(q, p)
  {
    XorZero(2 * Times(q, p));
    if q != 0 {
      assert (2 * q) / 2 == q;
    }
  }

  lemma {:induction false} TimesShifted(p: nat, k: nat, q: nat)
    ensures Times(Double(q, k), p) == Double(Times(q, p), k)
    decreases k
  {
    if k > 0 {
      TimesShifted(p, k - 1, q);
      TimesDouble(p, Double(q, k - 1));
    }
  }

  lemma {:induction false} TimesAdds(p: nat, a: nat, b: nat)
    ensures Times(Xor(a, b), p) == Xor(Times(a, p), Times(b, p))
    decreases a + b
  {
    XorZero(a);
    XorZero(b);
    XorZero(Times(a, p));
    XorZero(Times(b, p));
    if a != 0 && b != 0 {
      XorHalves(a, b);
      TimesAdds(p, a / 2, b / 2);
      var u, v := 2 * Times(a / 2, p), 2 * Times(b / 2, p);
      var s, t := if a % 2 == 1 then p else 0, if b % 2 == 1 then p else 0;
      XorSwap(u, s, v, t);
      XorDouble(Times(a / 2, p), Times(b / 2, p));
      XorZero(p);
      XorZero(0);
      assert Xor(s, t) == if Xor(a, b) % 2 == 1 then p else 0;
      if Xor(a, b) == 0 {
        XorZero(0);
      }
    }
  }

  /** Adding the same thing twice changes nothing. */
  lemma XorCancels(a: nat, b: nat)
    ensures Xor(Xor(a, b), b) == a
    ensures Xor(a, b) == 0 <==> a == b
  {
    XorAssociates(a, b, b);
    XorZero(b);
    XorZero(a);
  }

  /** A nonzero multiple of a p of degree 8 has degree 8 at least. */
  lemma {:induction false} TimesLarge(p: nat, q: nat)
    requires q > 0 && 256 <= p < 512
    ensures Times(q, p) >= 256
  {
    XorZero(p);
    XorZero(2 * Times(q / 2, p));
    if q / 2 > 0 {
      TimesLarge(p, q / 2);
      var a := 2 * Times(q / 2, p);
      if q % 2 == 1 && Xor(a, p) < 256 {
        Powers();
        XorCancels(a, p);
        XorBelow(Xor(a, p), p, 9);
      }
    }
  }

  lemma Powers()
    ensures Pow2(8) == 256 && Pow2(9) == 512
  {
  }

  /** Division by a p of degree 8 with a remainder of degree below 8 has one result only. */
  lemma RemainderUnique(p: nat, q: nat, r: nat, q': nat, r': nat)
    requires 256 <= p < 512 && r < 256 && r' < 256 && Xor(Times(q, p), r) == Xor(Times(q', p), r')
    ensures q == q' && r == r'
  {
    var t, t' := Times(q, p), Times(q', p);
    XorSwap(t, r, t', r');
    XorCancels(Xor(t, r), Xor(t', r'));
    XorCancels(Xor(t, t'), Xor(r, r'));
    TimesAdds(p, q, q');
    Powers();
    XorBelow(r, r', 8);
    if Xor(q, q') > 0 {
      TimesLarge(p, Xor(q, q'));
    }
    XorCancels(q, q');
    XorCancels(t, t');
    XorZero(Xor(r, r'));
    XorCancels(r, r');
  }
}
