/** Floating-point bytes (lobject.c): sizes as (eeeeexxx), that is (1xxx) * 2^(eeeee - 1) or, for
    eeeee == 0, (xxx). */
module LuaFb {

  const UINT_MOD := 0x1_0000_0000

  function Pow2(n: nat): (p: nat)
    ensures p > 0
  {
    if n == 0 then 1 else 2 * Pow2(n - 1)
  }

  /** 'luaO_fb2int' */
  function Fb2Int(x: nat): nat {
    if x < 8 then x else (x % 8 + 8) * Pow2(x / 8 - 1)
  }

  function CeilDiv(x: nat, d: nat): nat
    requires d > 0
  {
    (x + d - 1) / d
  }

  // ----- Codes in order -----

  lemma Fb2IntNext(y: nat)
    ensures Fb2Int(y) < Fb2Int(y + 1)
  {
    hide Fb2Int;
    if y >= 8 {
      var e, m := y / 8 - 1, y % 8;
      assert y == 8 * (e + 1) + m;
      FbAt(e, m);
      if m < 7 {
        assert y + 1 == 8 * (e + 1) + (m + 1);
        FbAt(e, m + 1);
      } else {
        assert y + 1 == 8 * (e + 2);
        FbAt(e + 1, 0);
      }
    } else {
      SmallCodes(y);
      SmallCodes(y + 1);
    }
  }

  /** Larger codes stand for larger numbers. */
  lemma {:induction false} Fb2IntMonotone(y: nat, z: nat)
    requires y < z
    ensures Fb2Int(y) < Fb2Int(z)
  {
    Fb2IntNext(z - 1);
    if y < z - 1 { Fb2IntMonotone(y, z - 1); }
  }

  // ----- Rounding up -----

  lemma CeilTwice(x: nat, a: nat, b: nat)
    requires a > 0 && b > 0
    ensures a * b > 0 && CeilDiv(CeilDiv(x, a), b) == CeilDiv(x, a * b)
  {
    hide CeilDiv;
    var q, m := CeilDiv(x, a), a * b;
    var r := CeilDiv(q, b);
    CeilBounds(x, a);
    CeilBounds(q, b);
    Times3(a, b, r);
    MulMono(a, q, b * r);
    if r > 0 {
      Times3(a, b, r - 1);
      MulMono(a, b * (r - 1), q - 1);
    }
    CeilIs(x, m, r);
  }

  lemma Times3(a: nat, b: nat, r: int)
    ensures a * b * r == a * (b * r) && (a > 0 && b > 0 ==> a * b > 0)
  {
  }

  lemma MulMono(a: nat, x: int, y: int)
    requires x <= y
    ensures a * x <= a * y
  {
  }

  lemma CeilBounds(x: nat, d: nat)
    requires d > 0
    ensures d * CeilDiv(x, d) >= x && (CeilDiv(x, d) > 0 ==> d * (CeilDiv(x, d) - 1) < x)
  {
    var q := CeilDiv(x, d);
    assert x + d - 1 == d * q + (x + d - 1) % d;
  }

  lemma CeilIs(x: nat, d: nat, r: nat)
    requires d > 0 && d * r >= x && (r > 0 ==> d * (r - 1) < x)
    ensures CeilDiv(x, d) == r
  {
    CeilBounds(x, d);
    var q := CeilDiv(x, d);
    if q < r { MulMono(d, q, r - 1); }
    if r < q { MulMono(d, r, q - 1); }
  }

  lemma PowAdd(a: nat, b: nat)
    ensures Pow2(a + b) == Pow2(a) * Pow2(b)
  {
    if a > 0 { PowAdd(a - 1, b); }
  }

  /** The code is the least one that stands for x or more. */
  ghost predicate LeastCode(x: nat, y: nat) {
    Fb2Int(y) >= x && (y > 0 ==> Fb2Int(y - 1) < x)
  }

  lemma LeastOnly(x: nat, y: nat, z: nat)
    requires LeastCode(x, y) && LeastCode(x, z)
    ensures y == z
  {
    if y < z - 1 { Fb2IntMonotone(y, z - 1); }
    if z < y - 1 { Fb2IntMonotone(z, y - 1); }
  }

  lemma RoundedCode(x: nat, e: nat, m: nat)
    requires 8 <= m < 16 && m == CeilDiv(x, Pow2(e)) && x >= 8
    requires e > 0 ==> m > 8 || Pow2(e - 1) * 15 < x
    ensures LeastCode(x, (e + 1) * 8 + (m - 8))
  {
    var y := (e + 1) * 8 + (m - 8);
    CeilBounds(x, Pow2(e));
    assert y / 8 == e + 1 && y % 8 == m - 8;
    assert Fb2Int(y) == m * Pow2(e);
    if m > 8 {
      assert (y - 1) / 8 == e + 1 && (y - 1) % 8 == m - 9;
      assert Fb2Int(y - 1) == (m - 1) * Pow2(e);
    } else if e > 0 {
      assert (y - 1) / 8 == e && (y - 1) % 8 == 7;
      assert Fb2Int(y - 1) == 15 * Pow2(e - 1);
    } else {
      assert y - 1 == 7;
    }
  }

  /** The smallest number that needs m halvings was above the codes of the previous row. */
  lemma RowBelow(x: nat, e: nat)
    requires e > 0 && CeilDiv(x, Pow2(e - 1)) >= 16
    ensures Pow2(e - 1) * 15 < x
  {
    CeilBounds(x, Pow2(e - 1));
    MulMono(Pow2(e - 1), 15, CeilDiv(x, Pow2(e - 1)) - 1);
  }

  lemma CeilMore(x: nat, e: nat, by16: bool)
    ensures var m := CeilDiv(x, Pow2(e));
            if by16 then CeilDiv(m, 16) == CeilDiv(x, Pow2(e + 4)) else CeilDiv(m, 2) == CeilDiv(x, Pow2(e + 1))
  {
    CeilTwice(x, Pow2(e), if by16 then 16 else 2);
    PowAdd(e, if by16 then 4 else 1);
    assert Pow2(4) == 16 by { assert Pow2(1) == 2 && Pow2(2) == 4 && Pow2(3) == 8; }
    assert Pow2(1) == 2;
  }

  lemma CoarseRow(x: nat, e: nat)
    requires CeilDiv(x, Pow2(e)) >= 128
    ensures Pow2(e + 3) * 15 < x && CeilDiv(x, Pow2(e + 4)) >= 8
  {
    CeilMore(x, e, false);
    CeilMore(x, e + 1, false);
    CeilMore(x, e + 2, false);
    CeilMore(x, e, true);
    RowBelow(x, e + 4);
  }

  /** A number that has a code gets that code back. */
  lemma CodeOf(y: nat)
    ensures LeastCode(Fb2Int(y), y)
  {
    if y > 0 { Fb2IntNext(y - 1); }
  }

  lemma FbAt(e: nat, m: nat)
    requires m < 8
    ensures Fb2Int(8 * (e + 1) + m) == (m + 8) * Pow2(e)
  {
    hide Pow2;
    var y := 8 * (e + 1) + m;
    assert y / 8 == e + 1 && y % 8 == m;
  }

  /** The next code stands for at most an eighth more. */
  lemma FbRatio(z: nat)
    requires z >= 8
    ensures 8 * Fb2Int(z + 1) <= 9 * Fb2Int(z)
  {
    hide Fb2Int;
    var e, m := z / 8 - 1, z % 8;
    assert z == 8 * (e + 1) + m;
    FbAt(e, m);
    if m < 7 {
      assert z + 1 == 8 * (e + 1) + (m + 1);
      FbAt(e, m + 1);
      Eighth(Pow2(e), m + 8);
    } else {
      assert z + 1 == 8 * (e + 2);
      FbAt(e + 1, 0);
      LastEighth(e);
    }
  }

  lemma Eighth(p: nat, k: nat)
    requires k >= 8
    ensures 8 * ((k + 1) * p) <= 9 * (k * p)
  {
    MulMono(p, 8 * (k + 1), 9 * k);
  }

  lemma LastEighth(e: nat)
    ensures 8 * (8 * Pow2(e + 1)) <= 9 * (15 * Pow2(e))
  {
  }

  /** Rounding up costs less than an eighth. */
  lemma LittleMore(x: nat, y: nat)
    requires LeastCode(x, y) && x >= 8
    ensures 8 * Fb2Int(y) < 9 * x
  {
    if y > 8 {
      FbRatio(y - 1);
    } else {
      SmallCodes(y);
    }
  }

  lemma SmallCodes(y: nat)
    requires y <= 8
    ensures Fb2Int(y) == y
  {
    assert Pow2(0) == 1;
  }

  /** Larger numbers get codes that are not smaller. */
  lemma CodesInOrder(x: nat, x': nat, y: nat, y': nat)
    requires LeastCode(x, y) && LeastCode(x', y') && x <= x'
    ensures y <= y'
  {
    if y' < y - 1 { Fb2IntMonotone(y', y - 1); }
  }

  lemma NoWrap(x: nat, k: nat)
    requires 2 <= k <= 16 && k <= x <= UINT_MOD - 16
    ensures (x + (k - 1)) % UINT_MOD / k == CeilDiv(x, k) < x
  {
    assert x + (k - 1) < UINT_MOD;
    CeilBounds(x, k);
    if CeilDiv(x, k) >= x { MulMono(k, x - 1, CeilDiv(x, k) - 1); MulMono(x - 1, 2, k); }
  }

  /** One step of the first loop, without wrapping around. */
  lemma CoarseStep(x0: nat, x: nat, e: nat)
    requires x0 <= UINT_MOD - 16 && x == CeilDiv(x0, Pow2(e)) && 128 <= x <= x0
    ensures var y := (x + 0xf) % UINT_MOD / 16; y == CeilDiv(x0, Pow2(e + 4)) && 8 <= y <= x0 && y < x
    ensures Pow2(e + 3) * 15 < x0
  {
    hide Pow2, CeilDiv;
    NoWrap(x, 16);
    CeilMore(x0, e, true);
    CoarseRow(x0, e);
  }

  lemma FineStep(x0: nat, x: nat, e: nat)
    requires x0 <= UINT_MOD - 16 && x == CeilDiv(x0, Pow2(e)) && 16 <= x < 128
    ensures var y := (x + 1) % UINT_MOD / 2; y == CeilDiv(x0, Pow2(e + 1)) && 8 <= y < x
    ensures Pow2(e) * 15 < x0
  {
    hide Pow2;
    NoWrap(x, 2);
    CeilMore(x0, e, false);
    RowBelow(x0, e + 1);
  }

  /** 'luaO_int2fb': x is an unsigned number of 32 bits, and so are the sums. The result is the
      least code for x, except for the 15 largest numbers: then the first sum wraps around, and the
      result is -8. */
  method Int2Fb(x0: nat) returns (r: int)
    requires x0 < UINT_MOD
    ensures if x0 <= UINT_MOD - 16 then r >= 0 && LeastCode(x0, r) else r == -8
  {
    var x, e := x0, 0;
    if x < 8 { return x; }
    assert Pow2(0) == 1 && CeilDiv(x0, 1) == x0;
    while x >= 128
      invariant 8 <= x <= x0 || (x0 > UINT_MOD - 16 && x == 0)
      invariant if x0 <= UINT_MOD - 16 then x == CeilDiv(x0, Pow2(e)) && (e > 0 ==> Pow2(e - 1) * 15 < x0)
                else x == x0 || x == 0
      decreases x
    {
      if x0 <= UINT_MOD - 16 { CoarseStep(x0, x, e); }
      x := (x + 0xf) % UINT_MOD / 16;
      e := e + 4;
    }
    while x >= 16
      invariant if x0 <= UINT_MOD - 16 then x == CeilDiv(x0, Pow2(e)) && 8 <= x < 128 && (e > 0 ==> Pow2(e - 1) * 15 < x0)
                else x == 0
      decreases x
    {
      if x0 <= UINT_MOD - 16 { FineStep(x0, x, e); }
      x := (x + 1) % UINT_MOD / 2;
      e := e + 1;
    }
    if x < 8 {
      // all bits of -8 from the fourth on are set: the exponent adds nothing
      r := x - 8;
    } else {
      RoundedCode(x0, e, x);
      r := (e + 1) * 8 + (x - 8);
    }
  }

  /** The largest number of a code that fits in 32 bits is 15 * 2^28. */
  lemma CodeFits(y: nat)
    requires Fb2Int(y) < UINT_MOD
    ensures Fb2Int(y) <= UINT_MOD - 16
  {
    FbAt(28, 7);
    FbAt(29, 0);
    Pow28();
    if y > 239 {
      if y > 240 { Fb2IntMonotone(240, y); }
    } else if y < 239 {
      Fb2IntMonotone(y, 239);
    }
  }

  lemma Pow28()
    ensures Pow2(28) == 0x1000_0000 && Pow2(29) == 0x2000_0000
  {
    assert Pow2(4) == 16 && Pow2(7) == 128;
    PowAdd(7, 7);
    PowAdd(14, 14);
  }

  /** A code is recovered from the number it stands for, whenever that number is an 'unsigned int'. */
  method CodeAgain(y: nat) returns (r: int)
    requires Fb2Int(y) < UINT_MOD
    ensures r == y
  {
    CodeFits(y);
    CodeOf(y);
    r := Int2Fb(Fb2Int(y));
    LeastOnly(Fb2Int(y), r, y);
  }
}
