/** The CRC-8 of the Joy-Con packets, jc_crc in bdk/input/joycon.c. */
module JoyconCrc {
  import opened Bits
  import opened Gf2

  /** JC_CRC8_POLY: the polynomial without its leading term. */
  const POLY: nat := 0x8D

  /** x^8 + x^7 + x^3 + x^2 + 1 */
  const P: nat := 0x18D

  predicate IsByte(b: nat)
  {
    b < 256
  }

  ghost predicate AreBytes(data: seq<nat>)
  {
    forall i :: 0 <= i < |data| ==> IsByte(data[i])
  }

  /** One turn of the inner loop on the 8-bit crc. */
  function Shift(crc: nat): nat
  {
    if crc >= 0x80 then Xor(2 * crc % 256, POLY) else 2 * crc % 256
  }

  function Shifts(crc: nat, n: nat): nat
  {
    if n == 0 then crc else Shift(Shifts(crc, n - 1))
  }

  function Crc(data: seq<nat>): nat
  {
    if data == [] then 0 else Shifts(Xor(Crc(data[..|data| - 1]), data[|data| - 1]), 8)
  }

  /** jc_crc. */
  method ComputeCrc(data: seq<nat>) returns (crc: nat)
    requires AreBytes(data)
    ensures crc == Crc(data)
    ensures crc < 256
  {
    crc := 0;
    Powers();
    for i := 0 to |data|
      invariant crc == Crc(data[..i]) && crc < 256
    {
      assert IsByte(data[i]);
      XorBelow(crc, data[i], 8);
      crc := Xor(crc, data[i]);
      ghost var start := crc;
      for j := 0 to 8
        invariant crc == Shifts(start, j) && crc < 256
      {
        ShiftIsDivision(crc);
        if crc >= 0x80 {
          crc := Xor(2 * crc % 256, POLY);
        } else {
          crc := 2 * crc % 256;
        }
      }
      assert data[..i + 1][..i] == data[..i];
    }
    assert data[..|data|] == data;
  }

  /** The message as a polynomial, first byte first and highest bit first. */
  function Value(data: seq<nat>): nat
  {
    if data == [] then 0 else 256 * Value(data[..|data| - 1]) + data[|data| - 1]
  }

  /** One turn multiplies by x and, to come back below degree 8, adds P once or not at all. */
  lemma ShiftIsDivision(c: nat)
    requires c < 256
    ensures Shift(c) < 256
    ensures Shift(c) == Xor(2 * c, Times(if c >= 128 then 1 else 0, P))
  {
    hide Xor, Times;
    XorZero(2 * c);
    TimesBit(if c >= 128 then 1 else 0, P);
    if c >= 128 {
      DropTop(2 * c - 256, POLY);
    }
  }

  /** Two terms x^8 cancel. */
  lemma DropTop(d: nat, p: nat)
    requires d < 256 && p < 256
    ensures Xor(d, p) == Xor(256 + d, 256 + p) && Xor(d, p) < 256
  {
    Powers();
    XorBelow(d, p, 8);
    var top := Double(1, 8);
    Double8(1);
    XorAdds(8, 1, d);
    XorAdds(8, 1, p);
    XorSwap(top, d, top, p);
    XorZero(top);
    XorZero(Xor(d, p));
  }

  lemma {:induction false} ShiftsDivide(c: nat, n: nat) returns (q: nat)
    requires c < 256
    ensures Shifts(c, n) < 256 && Shifts(c, n) == Xor(Double(c, n), Times(q, P))
    decreases n
  {
    if n == 0 {
      q := 0;
      XorZero(c);
    } else {
      var q1 := ShiftsDivide(c, n - 1);
      var s, t := Shifts(c, n - 1), if Shifts(c, n - 1) >= 128 then 1 else 0;
      ShiftIsDivision(s);
      XorDouble(Double(c, n - 1), Times(q1, P));
      TimesDouble(P, q1);
      XorAssociates(Double(c, n), Times(2 * q1, P), Times(t, P));
      TimesAdds(P, 2 * q1, t);
      q := Xor(2 * q1, t);
    }
  }

  /** message * x^8 and the crc differ by a multiple of P. */
  lemma {:induction false} CrcDivides(data: seq<nat>) returns (q: nat)
    requires AreBytes(data)
    ensures Crc(data) < 256 && Crc(data) == Xor(Double(Value(data), 8), Times(q, P))
    decreases |data|
  {
    if data == [] {
      q := 0;
      XorZero(0);
      assert Double(0, 8) == 0 by {
        Double8(0);
      }
    } else {
      var init, b := data[..|data| - 1], data[|data| - 1];
      assert IsByte(b);
      Powers();
      var q1 := CrcDivides(init);
      var c := Crc(init);
      XorBelow(c, b, 8);
      var q2 := ShiftsDivide(Xor(c, b), 8);
      Extend(Value(init), b, c, q1, q2);
      q := Xor(Double(q1, 8), q2);
    }
  }

  /** One more byte: the message so far moves up by eight places and so does the quotient. */
  lemma Extend(v: nat, b: nat, c: nat, q: nat, r: nat)
    requires b < 256 && c == Xor(Double(v, 8), Times(q, P))
    ensures Xor(Double(Xor(c, b), 8), Times(r, P)) == Xor(Double(256 * v + b, 8), Times(Xor(Double(q, 8), r), P))
  {
    var v8, w, k := Double(v, 8), Double(Double(v, 8), 8), Times(Double(q, 8), P);
    assert Double(Xor(c, b), 8) == Xor(Xor(w, k), Double(b, 8)) by {
      XorShifted(8, c, b);
      XorShifted(8, v8, Times(q, P));
      TimesShifted(P, 8, q);
    }
    assert Double(256 * v + b, 8) == Xor(w, Double(b, 8)) by {
      MessageUp(v, b);
      XorShifted(8, v8, b);
    }
    Regroup(w, k, Double(b, 8), Times(r, P));
    TimesAdds(P, Double(q, 8), r);
  }

  lemma MessageUp(v: nat, b: nat)
    requires b < 256
    ensures 256 * v + b == Xor(Double(v, 8), b)
  {
    Powers();
    Double8(v);
    XorAdds(8, v, b);
  }

  lemma Regroup(w: nat, k: nat, b: nat, t: nat)
    ensures Xor(Xor(Xor(w, k), b), t) == Xor(Xor(w, b), Xor(k, t))
  {
    XorAssociates(w, k, b);
    XorCommutes(k, b);
    XorAssociates(w, b, k);
    XorAssociates(Xor(w, b), k, t);
  }

  /** The result is the remainder, and the only one, of message * x^8 divided over GF(2) by
      x^8 + x^7 + x^3 + x^2 + 1. */
  lemma CrcIsRemainder(data: seq<nat>, r: nat)
    requires AreBytes(data)
    ensures r == Crc(data) <==> r < 256 && exists q :: Double(Value(data), 8) == Xor(Times(q, 0x18D), r)
  {
    var q := CrcDivides(data);
    var m, c := Double(Value(data), 8), Crc(data);
    XorCommutes(m, Times(q, P));
    XorCancels(Times(q, P), m);
    XorCommutes(Times(q, P), c);
    XorCancels(m, Times(q, P));
    assert m == Xor(Times(q, P), c);
    if r < 256 && exists q' :: m == Xor(Times(q', P), r) {
      var q' :| m == Xor(Times(q', P), r);
      RemainderUnique(P, q, c, q', r);
    }
  }

  /** A message followed by its crc has crc 0. */
  lemma AppendedCrcCancels(data: seq<nat>)
    ensures Crc(data + [Crc(data)]) == 0
  {
    assert (data + [Crc(data)])[..|data|] == data;
    XorZero(Crc(data));
    ShiftsZero(8);
  }

  lemma {:induction false} ShiftsZero(n: nat)
    ensures Shifts(0, n) == 0
  {
    if n > 0 {
      ShiftsZero(n - 1);
    }
  }

  lemma ShiftLinear(a: nat, b: nat)
    requires a < 256 && b < 256
    ensures Xor(a, b) < 256 && Shift(Xor(a, b)) == Xor(Shift(a), Shift(b))
  {
    Powers();
    XorBelow(a, b, 8);
    ShiftIsDivision(a);
    ShiftIsDivision(b);
    ShiftIsDivision(Xor(a, b));
    TopBit(a, b);
    var s, t := if a >= 128 then 1 else 0, if b >= 128 then 1 else 0;
    XorSwap(2 * a, Times(s, P), 2 * b, Times(t, P));
    XorDouble(a, b);
    TimesAdds(P, s, t);
    XorZero(1);
    XorZero(0);
  }

  lemma TopBit(a: nat, b: nat)
    requires a < 256 && b < 256
    ensures Xor(a, b) >= 128 <==> (a >= 128) != (b >= 128)
  {
    assert Pow2(7) == 128;
    assert Pow2(1) == 2;
    HighHalf(7, a, b);
  }

  lemma {:induction false} HighHalf(e: nat, a: nat, b: nat)
    requires a < 2 * Pow2(e) && b < 2 * Pow2(e)
    ensures Xor(a, b) >= Pow2(e) <==> (a >= Pow2(e)) != (b >= Pow2(e))
    decreases e
  {
    XorHalves(a, b);
    if e == 0 {
      XorZero(0);
      XorZero(1);
    } else {
      HighHalf(e - 1, a / 2, b / 2);
    }
  }

  lemma {:induction false} ShiftsLinear(a: nat, b: nat, n: nat)
    requires a < 256 && b < 256
    ensures Shifts(a, n) < 256 && Shifts(b, n) < 256
    ensures Shifts(Xor(a, b), n) == Xor(Shifts(a, n), Shifts(b, n))
    decreases n
  {
    hide Shift, Xor;
    if n > 0 {
      ShiftsLinear(a, b, n - 1);
      ShiftLinear(Shifts(a, n - 1), Shifts(b, n - 1));
      ShiftIsDivision(Shifts(a, n - 1));
      ShiftIsDivision(Shifts(b, n - 1));
    }
  }

  function XorAll(xs: seq<nat>, ys: seq<nat>): seq<nat>
    requires |xs| == |ys|
  {
    seq(|xs|, i requires 0 <= i < |xs| => Xor(xs[i], ys[i]))
  }

  /** The crc is linear: that of the bytewise exclusive or is the exclusive or of the crcs. */
  lemma {:induction false} CrcLinear(xs: seq<nat>, ys: seq<nat>)
    requires |xs| == |ys| && AreBytes(xs) && AreBytes(ys)
    ensures Crc(xs) < 256 && Crc(ys) < 256
    ensures Crc(XorAll(xs, ys)) == Xor(Crc(xs), Crc(ys))
    decreases |xs|
  {
    XorZero(0);
    if xs != [] {
      var n := |xs| - 1;
      CrcLinear(xs[..n], ys[..n]);
      assert XorAll(xs, ys)[..n] == XorAll(xs[..n], ys[..n]);
      assert IsByte(xs[n]) && IsByte(ys[n]);
      Powers();
      XorBelow(Crc(xs[..n]), xs[n], 8);
      XorBelow(Crc(ys[..n]), ys[n], 8);
      XorSwap(Crc(xs[..n]), Crc(ys[..n]), xs[n], ys[n]);
      ShiftsLinear(Xor(Crc(xs[..n]), xs[n]), Xor(Crc(ys[..n]), ys[n]), 8);
    }
  }

  /** A nonzero state stays nonzero: the constant term of P is 1. */
  lemma {:induction false} ShiftsNonzero(c: nat, n: nat)
    requires 0 < c < 256
    ensures 0 < Shifts(c, n) < 256
    decreases n
  {
    if n > 0 {
      ShiftsNonzero(c, n - 1);
      ShiftNonzero(Shifts(c, n - 1));
    }
  }

  lemma ShiftNonzero(c: nat)
    requires 0 < c < 256
    ensures 0 < Shift(c) < 256
  {
    if c >= 128 {
      var d := 2 * c - 256;
      DropTop(d, POLY);
      XorHalves(d, POLY);
      assert d % 2 == 0 && POLY % 2 == 1;
    }
  }

  lemma {:induction false} OneByteNonzero(data: seq<nat>, i: nat)
    requires AreBytes(data) && i < |data| && data[i] != 0
    requires forall k :: 0 <= k < |data| && k != i ==> data[k] == 0
    ensures 0 < Crc(data) < 256
    decreases |data|
  {
    var n := |data| - 1;
    assert IsByte(data[i]);
    if i < n {
      OneByteNonzero(data[..n], i);
      XorZero(Crc(data[..n]));
      ShiftsNonzero(Crc(data[..n]), 8);
    } else {
      ZeroCrc(data[..n]);
      XorZero(data[n]);
      ShiftsNonzero(data[n], 8);
    }
  }

  lemma {:induction false} ZeroCrc(data: seq<nat>)
    requires forall k :: 0 <= k < |data| ==> data[k] == 0
    ensures Crc(data) == 0
    decreases |data|
  {
    if data != [] {
      ZeroCrc(data[..|data| - 1]);
      assert data[|data| - 1] == 0;
      XorZero(0);
      ShiftsZero(8);
    }
  }

  /** Changing one byte, anywhere and in any way, changes the crc. */
  lemma OneByteDetected(data: seq<nat>, i: nat, b: nat)
    requires AreBytes(data) && i < |data| && IsByte(b)
    ensures Crc(data[i := b]) == Crc(data) <==> b == data[i]
  {
    var other := data[i := b];
    if b != data[i] {
      var diff := XorAll(data, other);
      CrcLinear(data, other);
      Powers();
      forall k | 0 <= k < |diff|
        ensures IsByte(diff[k]) && (diff[k] == 0 <==> k != i)
      {
        assert IsByte(data[k]) && IsByte(other[k]);
        XorBelow(data[k], other[k], 8);
        XorCancels(data[k], other[k]);
      }
      OneByteNonzero(diff, i);
      XorCancels(Crc(data), Crc(other));
    } else {
      assert other == data;
    }
  }

  // ---------------------------------------------------------------- bursts

  /** The constant term of a product, when p has one. */
  lemma OddMultiple(q: nat, p: nat)
    requires p % 2 == 1
    ensures q % 2 == 1 ==> Times(q, p) % 2 == 1
    ensures q % 2 == 0 ==> Times(q, p) == 2 * Times(q / 2, p)
  {
    var t := 2 * Times(q / 2, p);
    XorZero(t);
    XorHalves(t, p);
    assert q % 2 == 1 ==> Times(q, p) == Xor(t, p);
    assert q % 2 == 0 ==> Times(q, p) == t;
  }

  /** P divides no polynomial of fewer than eight successive terms, wherever they stand. */
  lemma {:induction false} NoMultiple(d: nat, k: nat, q: nat)
    requires 0 < d < 256
    ensures Double(d, k) != Times(q, P)
    decreases k
  {
    OddMultiple(q, P);
    if k > 0 {
      NoMultiple(d, k - 1, q / 2);
    } else if q > 0 {
      TimesLarge(P, q);
    }
  }

  lemma {:induction false} DoubleTwice(d: nat, k: nat, n: nat)
    ensures Double(Double(d, k), n) == Double(d, k + n)
    decreases n
  {
    if n > 0 {
      DoubleTwice(d, k, n - 1);
    }
  }

  /** Messages with the same crc differ by a multiple of P. */
  lemma SameCrc(x: seq<nat>, y: seq<nat>) returns (q: nat)
    requires AreBytes(x) && AreBytes(y) && Crc(x) == Crc(y)
    ensures Double(Xor(Value(x), Value(y)), 8) == Times(q, P)
  {
    hide Xor, Times, Double;
    var qx := CrcDivides(x);
    var qy := CrcDivides(y);
    var dx, dy, tx, ty := Double(Value(x), 8), Double(Value(y), 8), Times(qx, P), Times(qy, P);
    XorSwap(dx, tx, dy, ty);
    XorCancels(Crc(x), Crc(y));
    XorCancels(Xor(dx, dy), Xor(tx, ty));
    XorShifted(8, Value(x), Value(y));
    TimesAdds(P, qx, qy);
    q := Xor(qx, qy);
  }

  /** Two messages of any lengths that differ within eight successive bits, in one byte or
      across two, have the same crc only if they do not differ at all. */
  lemma BurstDetected(x: seq<nat>, y: seq<nat>, d: nat, k: nat)
    requires AreBytes(x) && AreBytes(y) && d < 256
    requires Xor(Value(x), Value(y)) == Double(d, k)
    ensures Crc(x) == Crc(y) <==> d == 0
  {
    if d > 0 {
      if Crc(x) == Crc(y) {
        var q := SameCrc(x, y);
        DoubleTwice(d, k, 8);
        NoMultiple(d, k + 8, q);
      }
    } else {
      DoubleIs(0, k);
      XorCancels(Value(x), Value(y));
      SameValue(x, y);
    }
  }

  lemma SameValue(x: seq<nat>, y: seq<nat>)
    requires AreBytes(x) && AreBytes(y) && Value(x) == Value(y)
    ensures Crc(x) == Crc(y)
  {
    CrcIsRemainder(x, Crc(x));
    CrcIsRemainder(y, Crc(x));
  }

  // ---------------------------------------------------------------- the driver's own packets

  lemma XorStep(a: nat, b: nat)
    ensures Xor(a, b) == 2 * Xor(a / 2, b / 2) + if a % 2 != b % 2 then 1 else 0
  {
    if a == 0 && b == 0 { XorZero(0); }
  }

  lemma XorHigh(d: nat)
    requires d < 16
    ensures Xor(d, 8) == if d < 8 then d + 8 else d - 8
  {
    hide Xor;
    XorStep(d, 8);
    XorStep(d / 2, 4);
    XorStep(d / 2 / 2, 2);
    XorStep(d / 2 / 2 / 2, 1);
    XorZero(0);
  }

  lemma XorMid(d: nat)
    requires d < 64
    ensures Xor(d, 0x23) == d + (if d % 2 == 0 then 1 else -1) + (if d / 2 % 2 == 0 then 2 else -2) +
                            (if d / 2 / 2 < 8 then 32 else -32)
  {
    hide Xor;
    XorStep(d, 0x23);
    XorStep(d / 2, 0x11);
    XorHigh(d / 2 / 2);
  }

  /** The exclusive or with 10001101. */
  lemma XorPoly(d: nat)
    requires d < 256
    ensures var e := d / 2 / 2;
            Xor(d, 0x8D) == d + (if d % 2 == 0 then 1 else -1) + (if e % 2 == 0 then 4 else -4) +
                            (if e / 2 % 2 == 0 then 8 else -8) + (if e / 2 / 2 < 8 then 128 else -128)
  {
    hide Xor;
    XorStep(d, 0x8D);
    XorStep(d / 2, 0x46);
    XorMid(d / 2 / 2);
  }

  /** One turn in plain arithmetic. */
  function Turned(c: nat): int
  {
    if c < 128 then 2 * c
    else
      var d := 2 * c - 256;
      var e := d / 2 / 2;
      d + 1 + (if e % 2 == 0 then 4 else -4) + (if e / 2 % 2 == 0 then 8 else -8) +
      (if e / 2 / 2 < 8 then 128 else -128)
  }

  lemma Turn(c: nat)
    requires c < 256
    ensures Shift(c) == Turned(c)
  {
    hide Xor;
    if c >= 128 {
      XorPoly(2 * c - 256);
    }
  }

  lemma EightTurns(a: nat, b: nat, c: nat, d: nat, e: nat, f: nat, g: nat, h: nat, i: nat)
    requires a < 256 && b < 256 && c < 256 && d < 256 && e < 256 && f < 256 && g < 256 && h < 256
    requires Turned(a) == b && Turned(b) == c && Turned(c) == d && Turned(d) == e
    requires Turned(e) == f && Turned(f) == g && Turned(g) == h && Turned(h) == i
    ensures Shifts(a, 8) == i
  {
    hide Shift, Turned;
    Turn(a);
    Turn(b);
    Turn(c);
    Turn(d);
    Turn(e);
    Turn(f);
    Turn(g);
    Turn(h);
    assert Shifts(a, 1) == b;
    assert Shifts(a, 2) == c;
    assert Shifts(a, 3) == d;
    assert Shifts(a, 4) == e;
    assert Shifts(a, 5) == f;
    assert Shifts(a, 6) == g;
    assert Shifts(a, 7) == h;
  }

  /** The crc after one more byte that is 0, turn by turn. */
  lemma ZeroMore(data: seq<nat>, b: nat, c: nat, d: nat, e: nat, f: nat, g: nat, h: nat, i: nat)
    requires b < 256 && c < 256 && d < 256 && e < 256 && f < 256 && g < 256 && h < 256 && Crc(data) < 256
    requires Turned(Crc(data)) == b && Turned(b) == c && Turned(c) == d && Turned(d) == e
    requires Turned(e) == f && Turned(f) == g && Turned(g) == h && Turned(h) == i
    ensures Crc(data + [0]) == i
  {
    hide Turned, Xor;
    XorZero(Crc(data));
    EightTurns(Crc(data), b, c, d, e, f, g, h, i);
    OneMore(data, 0);
  }

  lemma OneMore(data: seq<nat>, b: nat)
    ensures Crc(data + [b]) == Shifts(Xor(Crc(data), b), 8)
  {
    assert (data + [b])[..|data + [b]| - 1] == data;
  }

  /** What the driver's packets begin with. */
  lemma WiredCommand()
    ensures Crc([0x00, 0x91]) == 0x4E
  {
    hide Xor, Shifts;
    ShiftsZero(8);
    XorZero(0);
    OneMore([], 0x00);
    assert [] + [0x00] == [0x00];
    XorZero(0x91);
    EightTurns(0x91, 0xAF, 0xD3, 0x2B, 0x56, 0xAC, 0xD5, 0x27, 0x4E);
    OneMore([0x00], 0x91);
    assert [0x00] + [0x91] == [0x00, 0x91];
  }

  lemma GetInfoCommand()
    ensures Crc([0x00, 0x91, 0x01]) == 0x1E
  {
    hide Xor, Shifts, Crc;
    XorStep(0x4E, 0x01);
    XorZero(0x27);
    WiredCommand();
    EightTurns(0x4F, 0x9E, 0xB1, 0xEF, 0x53, 0xA6, 0xC1, 0x0F, 0x1E);
    OneMore([0x00, 0x91], 0x01);
    assert [0x00, 0x91] + [0x01] == [0x00, 0x91, 0x01];
  }

  lemma GetInfoSoFar()
    ensures Crc([0x00, 0x91, 0x01, 0x00, 0x00]) == 0x21
  {
    hide Xor, Shifts, Crc;
    GetInfoCommand();
    ZeroMore([0x00, 0x91, 0x01], 0x3C, 0x78, 0xF0, 0x6D, 0xDA, 0x39, 0x72, 0xE4);
    assert [0x00, 0x91, 0x01] + [0x00] == [0x00, 0x91, 0x01, 0x00];
    ZeroMore([0x00, 0x91, 0x01, 0x00], 0x45, 0x8A, 0x99, 0xBF, 0xF3, 0x6B, 0xD6, 0x21);
    assert [0x00, 0x91, 0x01, 0x00] + [0x00] == [0x00, 0x91, 0x01, 0x00, 0x00];
  }

  /** The crc of init_get_info is the last byte that the driver sends. */
  lemma GetInfoCrc()
    ensures Crc([0x00, 0x91, 0x01, 0x00, 0x00, 0x00, 0x00]) == 0x24
  {
    hide Xor, Shifts, Crc;
    GetInfoSoFar();
    ZeroMore([0x00, 0x91, 0x01, 0x00, 0x00], 0x42, 0x84, 0x85, 0x87, 0x83, 0x8B, 0x9B, 0xBB);
    assert [0x00, 0x91, 0x01, 0x00, 0x00] + [0x00] == [0x00, 0x91, 0x01, 0x00, 0x00, 0x00];
    ZeroMore([0x00, 0x91, 0x01, 0x00, 0x00, 0x00], 0xFB, 0x7B, 0xF6, 0x61, 0xC2, 0x09, 0x12, 0x24);
    assert [0x00, 0x91, 0x01, 0x00, 0x00, 0x00] + [0x00] == [0x00, 0x91, 0x01, 0x00, 0x00, 0x00, 0x00];
  }

  lemma FinalizeCommand()
    ensures Crc([0x00, 0x91, 0x10]) == 0x88
  {
    hide Xor, Shifts, Crc;
    XorStep(0x4E, 0x10);
    XorStep(0x27, 0x08);
    XorStep(0x13, 0x04);
    XorStep(0x09, 0x02);
    XorStep(0x04, 0x01);
    XorZero(0x02);
    WiredCommand();
    EightTurns(0x5E, 0xBC, 0xF5, 0x67, 0xCE, 0x11, 0x22, 0x44, 0x88);
    OneMore([0x00, 0x91], 0x10);
    assert [0x00, 0x91] + [0x10] == [0x00, 0x91, 0x10];
  }

  lemma FinalizeSoFar()
    ensures Crc([0x00, 0x91, 0x10, 0x00, 0x00]) == 0x01
  {
    hide Xor, Shifts, Crc;
    FinalizeCommand();
    ZeroMore([0x00, 0x91, 0x10], 0x9D, 0xB7, 0xE3, 0x4B, 0x96, 0xA1, 0xCF, 0x13);
    assert [0x00, 0x91, 0x10] + [0x00] == [0x00, 0x91, 0x10, 0x00];
    ZeroMore([0x00, 0x91, 0x10, 0x00], 0x26, 0x4C, 0x98, 0xBD, 0xF7, 0x63, 0xC6, 0x01);
    assert [0x00, 0x91, 0x10, 0x00] + [0x00] == [0x00, 0x91, 0x10, 0x00, 0x00];
  }

  /** The crc of init_finalize is the last byte that the driver sends. */
  lemma FinalizeCrc()
    ensures Crc([0x00, 0x91, 0x10, 0x00, 0x00, 0x00, 0x00]) == 0x3D
  {
    hide Xor, Shifts, Crc;
    FinalizeSoFar();
    ZeroMore([0x00, 0x91, 0x10, 0x00, 0x00], 0x02, 0x04, 0x08, 0x10, 0x20, 0x40, 0x80, 0x8D);
    assert [0x00, 0x91, 0x10, 0x00, 0x00] + [0x00] == [0x00, 0x91, 0x10, 0x00, 0x00, 0x00];
    ZeroMore([0x00, 0x91, 0x10, 0x00, 0x00, 0x00], 0x97, 0xA3, 0xCB, 0x1B, 0x36, 0x6C, 0xD8, 0x3D);
    assert [0x00, 0x91, 0x10, 0x00, 0x00, 0x00] + [0x00] == [0x00, 0x91, 0x10, 0x00, 0x00, 0x00, 0x00];
  }
}
