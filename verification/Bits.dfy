/** Bit operations of the source on unsigned words, as arithmetic on naturals. */
module Bits {
  import opened Base

  function Pow2(k: nat): (p: nat)
    ensures p > 0
  {
    if k == 0 then 1 else 2 * Pow2(k - 1)
  }

  /** `a & b`. */
  function BitAnd(a: nat, b: nat): nat {
    if a == 0 || b == 0 then 0 else 2 * BitAnd(a / 2, b / 2) + (if a % 2 == 1 && b % 2 == 1 then 1 else 0)
  }

  /** `~a` on a word of `width` bits. */
  function BitNot(a: nat, width: nat): nat
    requires a < Pow2(width)
  {
    Pow2(width) - 1 - a
  }

  function PopCount(a: nat): nat {
    if a == 0 then 0 else PopCount(a / 2) + a % 2
  }

  ghost predicate IsPow2(a: nat) {
    exists k: nat :: a == Pow2(k)
  }

  lemma AtLeastOnce(a: int, d: int)
    requires a >= 1 && d > 0
    ensures a * d >= d
  {
  }

  /** A quotient and a remainder in range are the quotient and the remainder. */
  lemma DivModUnique(x: int, d: int, q: int, r: int)
    requires 0 <= r < d && x == q * d + r
    ensures x / d == q && x % d == r
  {
    var q', r' := x / d, x % d;
    assert x == q' * d + r';
    Apart(q, r, q', r', d);
  }

  lemma Apart(q: int, r: int, q': int, r': int, d: int)
    requires 0 <= r < d && 0 <= r' < d && q * d + r == q' * d + r'
    ensures q == q' && r == r'
  {
    assert (q - q') * d == q * d - q' * d;
    assert (q' - q) * d == q' * d - q * d;
    if q > q' {
      AtLeastOnce(q - q', d);
    } else if q < q' {
      AtLeastOnce(q' - q, d);
    }
  }

  /** Peeling the lowest bit off a remainder. */
  lemma ModDouble(x: nat, m: nat)
    requires m > 0
    ensures x % (2 * m) == 2 * (x / 2 % m) + x % 2
    ensures x / (2 * m) == x / 2 / m
  {
    var q, r := x / 2 / m, x / 2 % m;
    assert x / 2 == q * m + r;
    assert x == q * (2 * m) + (2 * r + x % 2);
    DivModUnique(x, 2 * m, q, 2 * r + x % 2);
  }

  /** `x & (2^k - 1)` is the remainder modulo `2^k`. */
  lemma {:induction false} LowMask(x: nat, k: nat)
    ensures BitAnd(x, Pow2(k) - 1) == x % Pow2(k)
  {
    if k == 0 {
      assert Pow2(0) == 1;
    } else if x == 0 {
      DivModUnique(0, Pow2(k), 0, 0);
    } else {
      LowMask(x / 2, k - 1);
      LowMaskStep(x, Pow2(k - 1));
      Pow2Doubles(k - 1);
    }
  }

  lemma LowMaskStep(x: nat, half: nat)
    requires x != 0 && half > 0 && BitAnd(x / 2, half - 1) == x / 2 % half
    ensures BitAnd(x, 2 * half - 1) == x % (2 * half)
  {
    hide BitAnd;
    ModDouble(x, half);
    AndOdd(x, half - 1);
    assert 2 * (half - 1) + 1 == 2 * half - 1;
  }

  lemma Pow2Doubles(k: nat)
    ensures Pow2(k + 1) == 2 * Pow2(k)
  {
  }

  lemma AndOdd(x: nat, m: nat)
    requires x != 0
    ensures BitAnd(x, 2 * m + 1) == 2 * BitAnd(x / 2, m) + x % 2
  {
    assert (2 * m + 1) / 2 == m && (2 * m + 1) % 2 == 1;
  }

  lemma AndEven(x: nat, m: nat)
    ensures BitAnd(x, 2 * m) == 2 * BitAnd(x / 2, m)
  {
    assert (2 * m) / 2 == m && (2 * m) % 2 == 0;
  }

  /** `x & ~(2^k - 1)` rounds down to a multiple of `2^k`. */
  lemma {:induction false} HighMask(x: nat, k: nat, width: nat)
    requires k <= width && x < Pow2(width)
    ensures Pow2(k) <= Pow2(width)
    ensures BitAnd(x, BitNot(Pow2(k) - 1, width)) == x - x % Pow2(k)
    decreases width
  {
    Pow2Monotone(k, width);
    if width == 0 {
    } else if k == 0 {
      AllOnes(x, width);
    } else {
      Pow2Doubles(k - 1);
      Pow2Doubles(width - 1);
      hide Pow2, BitAnd;
      HighMask(x / 2, k - 1, width - 1);
      ModDouble(x, Pow2(k - 1));
      assert BitNot(Pow2(k) - 1, width) == 2 * BitNot(Pow2(k - 1) - 1, width - 1);
      AndEven(x, BitNot(Pow2(k - 1) - 1, width - 1));
    }
  }

  lemma AllOnes(x: nat, width: nat)
    requires x < Pow2(width)
    ensures BitAnd(x, Pow2(width) - 1) == x
  {
    hide Pow2, BitAnd;
    LowMask(x, width);
    DivModUnique(x, Pow2(width), 0, x);
  }

  lemma {:induction false} Pow2Monotone(a: nat, b: nat)
    requires a <= b
    ensures Pow2(a) <= Pow2(b)
    ensures Pow2(b) % Pow2(a) == 0 && Pow2(b) == Pow2(b) / Pow2(a) * Pow2(a)
    decreases b - a
  {
    if a == b {
      DivModUnique(Pow2(a), Pow2(a), 1, 0);
    } else {
      Pow2Monotone(a, b - 1);
      var q := Pow2(b - 1) / Pow2(a);
      assert Pow2(b) == 2 * q * Pow2(a) + 0;
      DivModUnique(Pow2(b), Pow2(a), 2 * q, 0);
    }
  }

  lemma Pow2Of32()
    ensures Pow2(32) == TWO32
  {
    assert Pow2(8) == 256;
    assert Pow2(16) == 256 * Pow2(8);
    assert Pow2(24) == 256 * Pow2(16);
    assert Pow2(32) == 256 * Pow2(24);
  }

  lemma Pow2Of64()
    ensures Pow2(64) == TWO64
  {
    Pow2Of32();
    assert Pow2(40) == 256 * Pow2(32);
    assert Pow2(48) == 256 * Pow2(40);
    assert Pow2(56) == 256 * Pow2(48);
    assert Pow2(64) == 256 * Pow2(56);
  }

  /** A power of two among smaller powers divides them. */
  lemma Pow2Below(k: nat, width: nat)
    requires Pow2(k) <= Pow2(width)
    ensures k <= width
  {
    if width < k {
      Pow2Monotone(width + 1, k);
    }
  }

  /** One bit set: exactly the powers of two. */
  lemma {:induction false} PopCountOne(a: nat)
    ensures PopCount(a) == 1 <==> IsPow2(a)
  {
    if a > 1 {
      PopCountOne(a / 2);
      if a % 2 == 0 {
        if IsPow2(a / 2) {
          var k: nat :| a / 2 == Pow2(k);
          assert a == Pow2(k + 1);
        }
      } else if PopCount(a / 2) == 0 {
        PopCountZero(a / 2);
      }
      if IsPow2(a) {
        var k: nat :| a == Pow2(k);
        assert k > 0 && a / 2 == Pow2(k - 1);
      }
    } else if a == 1 {
      assert a == Pow2(0);
    }
  }

  lemma {:induction false} PopCountZero(a: nat)
    requires PopCount(a) == 0
    ensures a == 0
  {
    if a != 0 {
      PopCountZero(a / 2);
    }
  }

  /** Wrapping a counter at `2^n` does not disturb its remainder modulo a smaller power. */
  lemma WrapKeepsSlot(x: nat, k: nat, n: nat)
    requires k <= n
    ensures x % Pow2(n) % Pow2(k) == x % Pow2(k)
  {
    hide Pow2;
    Pow2Monotone(k, n);
    NestedMod(x, Pow2(n), Pow2(k), Pow2(n) / Pow2(k));
  }

  lemma NestedMod(x: nat, big: nat, small: nat, c: nat)
    requires small > 0 && big > 0 && big == c * small
    ensures x % big % small == x % small
  {
    var q, r := x / big, x % big;
    var q', r' := r / small, r % small;
    assert x == q * big + r && r == q' * small + r';
    assert q * big == q * c * small;
    assert (q * c + q') * small == q * c * small + q' * small;
    DivModUnique(x, small, q * c + q', r');
  }
}
