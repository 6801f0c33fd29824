/** src/string/memcmp.c: 64-byte blocks, 8-byte words compared after a byte swap, bytes. */
module MemCmp {
  import opened Bytes

  /** The number whose big-endian bytes these are. */
  function BigEndian(b: seq<Byte>): (v: nat)
    ensures v < Pow256(|b|)
  {
    if b == [] then 0
    else
      LeadBelow(b[0], Pow256(|b| - 1), BigEndian(b[1..]));
      b[0] * Pow256(|b| - 1) + BigEndian(b[1..])
  }

  lemma LeadBelow(a: nat, p: nat, r: nat)
    requires a < 256 && r < p
    ensures a * p + r < 256 * p
  {
    assert a * p <= 255 * p;
  }

  /** `__builtin_bswapg` on a word of `n` bytes. */
  function Swap(w: nat, n: nat): nat {
    if n == 0 then 0 else w % 256 * Pow256(n - 1) + Swap(w / 256, n - 1)
  }

  function BitXor(a: nat, b: nat): nat
    decreases a + b
  {
    if a == 0 then b else if b == 0 then a
    else 2 * BitXor(a / 2, b / 2) + (if a % 2 == b % 2 then 0 else 1)
  }

  function BitOr(a: nat, b: nat): nat
    decreases a + b
  {
    if a == 0 then b else if b == 0 then a
    else 2 * BitOr(a / 2, b / 2) + (if a % 2 == 1 || b % 2 == 1 then 1 else 0)
  }

  // ---------------------------------------------------------------- order

  /** The first byte in which they differ is smaller on the left. */
  ghost predicate Precedes(a: seq<Byte>, b: seq<Byte>) {
    exists i: nat :: FirstLess(a, b, i)
  }

  ghost predicate FirstLess(a: seq<Byte>, b: seq<Byte>, i: nat) {
    i < |a| && i < |b| && a[..i] == b[..i] && a[i] < b[i]
  }

  /** Swapping a little-endian word gives the big-endian value of its bytes. */
  lemma {:induction false} SwapLoad(b: seq<Byte>)
    ensures Swap(Load(b), |b|) == BigEndian(b)
  {
    if b != [] {
      SwapLoad(b[1..]);
      LowByte(b[0], Load(b[1..]));
    }
  }

  lemma LowByte(b: Byte, rest: nat)
    ensures (b + 256 * rest) % 256 == b && (b + 256 * rest) / 256 == rest
  {
  }

  lemma {:induction false} LoadInjective(a: seq<Byte>, b: seq<Byte>)
    requires |a| == |b|
    ensures Load(a) == Load(b) <==> a == b
  {
    if a != [] {
      LoadInjective(a[1..], b[1..]);
      assert a == [a[0]] + a[1..] && b == [b[0]] + b[1..];
    }
  }

  /** Big-endian numeric order is lexicographic byte order. */
  lemma {:induction false} BigEndianOrder(a: seq<Byte>, b: seq<Byte>)
    requires |a| == |b|
    ensures BigEndian(a) < BigEndian(b) <==> Precedes(a, b)
  {
    if a != [] {
      var p := Pow256(|a| - 1);
      BigEndianOrder(a[1..], b[1..]);
      if a[0] < b[0] {
        assert FirstLess(a, b, 0);
        LeadLess(a[0], b[0], p, BigEndian(a[1..]), BigEndian(b[1..]));
      } else if b[0] < a[0] {
        LeadLess(b[0], a[0], p, BigEndian(b[1..]), BigEndian(a[1..]));
        forall i: nat | 0 < i < |a|
          ensures a[..i] != b[..i]
        {
          assert a[..i][0] == a[0] && b[..i][0] == b[0];
        }
      } else {
        PrecedesTail(a, b);
      }
    }
  }

  lemma LeadLess(x: nat, y: nat, p: nat, r: nat, t: nat)
    requires x < y && r < p
    ensures x * p + r < y * p + t
  {
    assert (x + 1) * p <= y * p;
    assert (x + 1) * p == x * p + p;
  }

  lemma PrecedesTail(a: seq<Byte>, b: seq<Byte>)
    requires |a| == |b| && a != [] && a[0] == b[0]
    ensures Precedes(a, b) <==> Precedes(a[1..], b[1..])
  {
    if Precedes(a, b) {
      var i: nat :| FirstLess(a, b, i);
      assert a[1..][..i - 1] == a[..i][1..] && b[1..][..i - 1] == b[..i][1..];
      assert FirstLess(a[1..], b[1..], i - 1);
    }
    if Precedes(a[1..], b[1..]) {
      var i: nat :| FirstLess(a[1..], b[1..], i);
      assert a[..i + 1] == [a[0]] + a[1..][..i] && b[..i + 1] == [b[0]] + b[1..][..i];
      assert FirstLess(a, b, i + 1);
    }
  }

  /** A common prefix does not change the order. */
  lemma PrecedesAfter(a: seq<Byte>, b: seq<Byte>, k: nat, n: nat)
    requires k <= n <= |a| && n <= |b| && a[..k] == b[..k]
    ensures Precedes(a[k..n], b[k..n]) ==> Precedes(a, b)
  {
    if Precedes(a[k..n], b[k..n]) {
      var i: nat :| FirstLess(a[k..n], b[k..n], i);
      assert a[..k + i] == a[..k] + a[k..n][..i] && b[..k + i] == b[..k] + b[k..n][..i];
      assert FirstLess(a, b, k + i);
    }
  }

  lemma {:induction false} BigEndianInjective(a: seq<Byte>, b: seq<Byte>)
    requires |a| == |b|
    ensures BigEndian(a) == BigEndian(b) ==> a == b
  {
    if a != [] {
      var p := Pow256(|a| - 1);
      BigEndianInjective(a[1..], b[1..]);
      if a[0] < b[0] {
        LeadLess(a[0], b[0], p, BigEndian(a[1..]), BigEndian(b[1..]));
      } else if b[0] < a[0] {
        LeadLess(b[0], a[0], p, BigEndian(b[1..]), BigEndian(a[1..]));
      } else {
        assert a == [a[0]] + a[1..] && b == [b[0]] + b[1..];
      }
    }
  }

  // ---------------------------------------------------------------- blocks

  lemma {:induction false} XorZero(a: nat, b: nat)
    ensures BitXor(a, b) == 0 <==> a == b
    decreases a + b
  {
    if a != 0 && b != 0 {
      XorZero(a / 2, b / 2);
    }
  }

  lemma {:induction false} OrZero(a: nat, b: nat)
    ensures BitOr(a, b) == 0 <==> a == 0 && b == 0
    decreases a + b
  {
    if a != 0 && b != 0 {
      OrZero(a / 2, b / 2);
    }
  }

  /** `__builtin_reduce_or(a ^ b)` over the eight-byte lanes of two blocks. */
  function Differences(a: seq<Byte>, b: seq<Byte>): nat
    requires |a| == |b| && |a| % 8 == 0
  {
    if a == [] then 0
    else BitOr(BitXor(Load(a[..8]), Load(b[..8])), Differences(a[8..], b[8..]))
  }

  lemma {:induction false} NoDifferences(a: seq<Byte>, b: seq<Byte>)
    requires |a| == |b| && |a| % 8 == 0
    ensures Differences(a, b) == 0 <==> a == b
  {
    if a != [] {
      NoDifferences(a[8..], b[8..]);
      LoadInjective(a[..8], b[..8]);
      XorZero(Load(a[..8]), Load(b[..8]));
      OrZero(BitXor(Load(a[..8]), Load(b[..8])), Differences(a[8..], b[8..]));
      assert a == a[..8] + a[8..] && b == b[..8] + b[8..];
    }
  }

  // ---------------------------------------------------------------- the function

  /** Negative, zero or positive as the first differing byte of the two is smaller on the
      left, absent, or smaller on the right (section 7.24.4.1 of C11). */
  method MemCmp(lhs: seq<Byte>, rhs: seq<Byte>, n: nat) returns (order: int)
    requires n <= |lhs| && n <= |rhs|
    ensures order < 0 <==> Precedes(lhs[..n], rhs[..n])
    ensures order > 0 <==> Precedes(rhs[..n], lhs[..n])
    ensures order == 0 <==> lhs[..n] == rhs[..n]
    ensures -1 <= order <= 1
  {
    hide Precedes, Load, Swap, Differences;
    var at, left := 0, n;
    while left >= 64
      invariant at + left == n && lhs[..at] == rhs[..at]
    {
      NoDifferences(lhs[at..at + 64], rhs[at..at + 64]);
      if Differences(lhs[at..at + 64], rhs[at..at + 64]) != 0 {
        break;
      }
      Extend(lhs, rhs, at, 64);
      at, left := at + 64, left - 64;
    }

    while left >= 8
      invariant at + left == n && lhs[..at] == rhs[..at]
    {
      var a, b := Load(lhs[at..at + 8]), Load(rhs[at..at + 8]);
      LoadInjective(lhs[at..at + 8], rhs[at..at + 8]);
      if a != b {
        order := if Swap(a, 8) < Swap(b, 8) then -1 else 1;
        WordDecides(lhs, rhs, n, at);
        return;
      }
      Extend(lhs, rhs, at, 8);
      at, left := at + 8, left - 8;
    }

    for i := 0 to left
      invariant lhs[..at + i] == rhs[..at + i]
    {
      if lhs[at + i] != rhs[at + i] {
        order := if lhs[at + i] < rhs[at + i] then -1 else 1;
        ByteDecides(lhs, rhs, n, at + i);
        return;
      }
    }
    order := 0;
    SameUnordered(lhs[..n]);
  }

  lemma Extend(a: seq<Byte>, b: seq<Byte>, at: nat, k: nat)
    requires at + k <= |a| && at + k <= |b| && a[..at] == b[..at] && a[at..at + k] == b[at..at + k]
    ensures a[..at + k] == b[..at + k]
  {
    assert a[..at + k] == a[..at] + a[at..at + k] && b[..at + k] == b[..at] + b[at..at + k];
  }

  lemma SameUnordered(a: seq<Byte>)
    ensures !Precedes(a, a)
  {
  }

  /** Both orders at once cannot be. */
  lemma Asymmetric(a: seq<Byte>, b: seq<Byte>)
    requires |a| == |b| && Precedes(a, b)
    ensures !Precedes(b, a) && a != b
  {
    BigEndianOrder(a, b);
    BigEndianOrder(b, a);
  }

  lemma WordOrder(a: seq<Byte>, b: seq<Byte>, at: nat, end: nat)
    requires |a| == |b| && at <= end <= |a| && a[..at] == b[..at] && a[at..end] != b[at..end]
    ensures var less := Swap(Load(a[at..end]), end - at) < Swap(Load(b[at..end]), end - at);
            (Precedes(a, b) <==> less) && (Precedes(b, a) <==> !less) && a != b
  {
    var u, v := a[at..end], b[at..end];
    SwapLoad(u);
    SwapLoad(v);
    BigEndianOrder(u, v);
    BigEndianOrder(v, u);
    BigEndianInjective(u, v);
    PrecedesAfter(a, b, at, end);
    PrecedesAfter(b, a, at, end);
    if Precedes(a, b) {
      Asymmetric(a, b);
    }
    if Precedes(b, a) {
      Asymmetric(b, a);
    }
  }

  lemma ByteOrder(a: seq<Byte>, b: seq<Byte>, i: nat)
    requires |a| == |b| && i < |a| && a[..i] == b[..i] && a[i] != b[i]
    ensures (Precedes(a, b) <==> a[i] < b[i]) && (Precedes(b, a) <==> b[i] < a[i]) && a != b
  {
    if a[i] < b[i] {
      assert FirstLess(a, b, i);
      Asymmetric(a, b);
    } else {
      assert FirstLess(b, a, i);
      Asymmetric(b, a);
    }
  }

  lemma WordDecides(lhs: seq<Byte>, rhs: seq<Byte>, n: nat, at: nat)
    requires n <= |lhs| && n <= |rhs| && at + 8 <= n
    requires lhs[..at] == rhs[..at] && lhs[at..at + 8] != rhs[at..at + 8]
    ensures var less := Swap(Load(lhs[at..at + 8]), 8) < Swap(Load(rhs[at..at + 8]), 8);
            && (Precedes(lhs[..n], rhs[..n]) <==> less)
            && (Precedes(rhs[..n], lhs[..n]) <==> !less)
            && lhs[..n] != rhs[..n]
  {
    hide Precedes, Load, Swap;
    var a, b := lhs[..n], rhs[..n];
    assert a[..at] == lhs[..at] && b[..at] == rhs[..at];
    assert a[at..at + 8] == lhs[at..at + 8] && b[at..at + 8] == rhs[at..at + 8];
    WordOrder(a, b, at, at + 8);
  }

  lemma ByteDecides(lhs: seq<Byte>, rhs: seq<Byte>, n: nat, i: nat)
    requires n <= |lhs| && n <= |rhs| && i < n && lhs[..i] == rhs[..i] && lhs[i] != rhs[i]
    ensures (Precedes(lhs[..n], rhs[..n]) <==> lhs[i] < rhs[i]) && (Precedes(rhs[..n], lhs[..n]) <==> rhs[i] < lhs[i])
    ensures lhs[..n] != rhs[..n]
  {
    hide Precedes;
    assert lhs[..n][..i] == lhs[..i] && rhs[..n][..i] == rhs[..i];
    ByteOrder(lhs[..n], rhs[..n], i);
  }
}
