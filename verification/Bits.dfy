// C's bitwise operators on non-negative values, and what masks and shifts mean in arithmetic.
module Bits {

  function Pow2(k: nat): (r: nat)
    ensures r > 0
  {
    if k == 0 then 1 else 2 * Pow2(k - 1)
  }

  /** C's `x & y`. */
  function And(x: nat, y: nat): (r: nat)
    decreases x
  {
    if x == 0 then 0
    else (if x % 2 == 1 && y % 2 == 1 then 1 else 0) + 2 * And(x / 2, y / 2)
  }

  /** C's `x | y`. */
  function Or(x: nat, y: nat): (r: nat)
    decreases x + y
  {
    if x == 0 && y == 0 then 0
    else (if x % 2 == 1 || y % 2 == 1 then 1 else 0) + 2 * Or(x / 2, y / 2)
  }

  function Shl(x: nat, k: nat): nat { x * Pow2(k) }

  function Shr(x: nat, k: nat): nat
    decreases x, k
  {
    if k == 0 then x else Shr(x / 2, k - 1)
  }

  /** C's `~y` on a word of `width` bits. */
  function Not(y: nat, width: nat): nat
    requires y < Pow2(width)
  {
    Pow2(width) - 1 - y
  }

  lemma {:induction false} AndLowMask(x: nat, k: nat)
    ensures And(x, Pow2(k) - 1) == x % Pow2(k)
    decreases k
  {
    if k == 0 {
      AndZero(x);
    } else {
      var p := Pow2(k - 1);
      calc {
        And(x, Pow2(k) - 1);
      ==
        And(x, 2 * (p - 1) + 1);
      ==  { AndOddDouble(x, p - 1); }
        x % 2 + 2 * And(x / 2, p - 1);
      ==  { AndLowMask(x / 2, k - 1); }
        x % 2 + 2 * ((x / 2) % p);
      ==  { HalfMod(x, p); }
        x % (2 * p);
      }
    }
  }

  lemma {:induction false} AndOddDouble(x: nat, y: nat)
    ensures And(x, 2 * y + 1) == x % 2 + 2 * And(x / 2, y)
  {}

  lemma {:induction false} ShrZero(x: nat, k: nat)
    ensures Shr(x, k) == 0 <==> x < Pow2(k)
    decreases k
  {
    if k > 0 {
      ShrZero(x / 2, k - 1);
    }
  }

  lemma {:induction false} AndZero(x: nat)
    ensures And(x, 0) == 0
  {
    if x > 0 {
      AndZero(x / 2);
    }
  }

  lemma {:induction false} AndOnes(x: nat, k: nat)
    requires x < Pow2(k)
    ensures And(x, Pow2(k) - 1) == x
    decreases k
  {
    AndLowMask(x, k);
    ModSmall(x, Pow2(k));
  }

  lemma ModSmall(x: nat, m: nat)
    requires x < m
    ensures x % m == x
  {}

  /** x mod 2p from the low bit and the rest. */
  lemma HalfMod(x: nat, p: nat)
    requires p > 0
    ensures x % (2 * p) == x % 2 + 2 * ((x / 2) % p)
  {
    var h := x / 2;
    var q, r := h / p, h % p;
    assert h == q * p + r;
    assert x == q * (2 * p) + (x % 2 + 2 * r) by {
      assert x == 2 * h + x % 2;
      assert q * (2 * p) == 2 * (q * p);
    }
    DivModUnique(x, 2 * p, q, x % 2 + 2 * r);
  }

  lemma DivModUnique(x: int, m: int, q: int, r: int)
    requires 0 <= r < m
    requires x == q * m + r
    ensures x / m == q && x % m == r
  {
    var q', r' := x / m, x % m;
    assert (q' - q) * m == r - r' by {
      assert x == q' * m + r';
      assert (q' - q) * m == q' * m - q * m;
    }
    SmallMultiple(q' - q, m);
  }

  lemma SmallMultiple(d: int, m: int)
    requires -m < d * m < m
    ensures d == 0
  {
    if d >= 1 {
      AtLeastOnce(d, m);
    } else if d <= -1 {
      AtMostMinusOnce(d, m);
    }
  }

  lemma AtLeastOnce(d: int, m: int)
    requires d >= 1 && m >= 0
    ensures d * m >= m
  {}

  lemma AtMostMinusOnce(d: int, m: int)
    requires d <= -1 && m >= 0
    ensures d * m <= -m
  {}

  lemma {:induction false} AndDouble(x: nat, y: nat)
    ensures And(x, 2 * y) == 2 * And(x / 2, y)
  {}

  /** x with its k low bits cleared. */
  function ClearLow(x: nat, k: nat): nat
    decreases x, k
  {
    if k == 0 then x else 2 * ClearLow(x / 2, k - 1)
  }

  /** `x & ~(2^k - 1)` on a word clears the k low bits. */
  lemma {:induction false} AndHighMask(x: nat, k: nat, width: nat)
    requires k <= width && x < Pow2(width)
    requires Pow2(k) <= Pow2(width)
    ensures And(x, Not(Pow2(k) - 1, width)) == ClearLow(x, k)
    decreases k
  {
    if k == 0 {
      AndOnes(x, width);
    } else {
      AndHighMask(x / 2, k - 1, width - 1);
      AndDouble(x, Not(Pow2(k - 1) - 1, width - 1));
    }
  }

  lemma {:induction false} ClearLowOnce(x: nat, k: nat)
    requires k > 0
    ensures ClearLow(x, k) == 2 * ClearLow(x / 2, k - 1)
  {}

  lemma ClearLow3(x: nat, k: nat)
    requires k >= 3
    ensures ClearLow(x, k) == 8 * ClearLow(x / 8, k - 3)
  {
    ClearLowOnce(x, k);
    ClearLowOnce(x / 2, k - 1);
    ClearLowOnce(x / 4, k - 2);
  }

  lemma EighthOfEighth(x: nat)
    ensures x / 8 / 8 == x / 64
  {
    DivModUnique(x, 64, x / 8 / 8, x / 8 % 8 * 8 + x % 8);
  }

  lemma ClearLow6(x: nat, k: nat)
    requires k == 6
    ensures ClearLow(x, k) == x / 64 * 64
  {
    ClearLow3(x, k);
    ClearLow3(x / 8, k - 3);
    EighthOfEighth(x);
  }

  /** Or-ing a value into the bits a shift left free is addition. */
  lemma {:induction false} OrShifted(a: nat, k: nat, i: nat)
    requires i < Pow2(k)
    ensures Or(Shl(a, k), i) == a * Pow2(k) + i
    decreases k
  {
    if k == 0 {
      OrZero(a);
    } else {
      var p := Pow2(k - 1);
      assert a * Pow2(k) == 2 * (a * p);
      OrShifted(a, k - 1, i / 2);
    }
  }

  lemma {:induction false} OrZero(x: nat)
    ensures Or(x, 0) == x
  {
    if x > 0 {
      OrZero(x / 2);
    }
  }

  /** The powers the layout uses. */
  lemma Powers()
    ensures Pow2(1) == 2 && Pow2(4) == 16 && Pow2(6) == 64
    ensures Pow2(27) == 0x800_0000 && Pow2(31) == 0x8000_0000 && Pow2(32) == 0x1_0000_0000
  {
    assert Pow2(4) == 16 by { assert Pow2(2) == 4; }
    PowAdd(4, 4);
    PowAdd(8, 8);
    PowAdd(16, 8);
    assert Pow2(26) == 4 * Pow2(24);
    assert Pow2(27) == 2 * Pow2(26);
    PowAdd(27, 4);
    assert Pow2(32) == 2 * Pow2(31);
    assert Pow2(6) == 4 * Pow2(4);
  }

  lemma {:induction false} PowAdd(a: nat, b: nat)
    ensures Pow2(a + b) == Pow2(a) * Pow2(b)
    decreases b
  {
    if b > 0 {
      calc {
        Pow2(a + b);
        2 * Pow2(a + (b - 1));
        { PowAdd(a, b - 1); }
        2 * (Pow2(a) * Pow2(b - 1));
        { MoveTwo(Pow2(a), Pow2(b - 1)); }
        Pow2(a) * (2 * Pow2(b - 1));
        Pow2(a) * Pow2(b);
      }
    }
  }

  lemma MoveTwo(x: nat, y: nat)
    ensures 2 * (x * y) == x * (2 * y)
  {
  }
}
