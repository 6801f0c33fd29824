/** Small shared vocabulary: optional values, distinct sequences and the wrap-around
    arithmetic of the 32-bit counters. */
module Base {
  datatype Option<+T> = None | Some(value: T)

  /** The address of a fiber record; zero is the null pointer. */
  type Handle = nat

  const TWO32: nat := 0x1_0000_0000
  const TWO64: nat := 0x1_0000_0000_0000_0000

  /** `x++` on a `uint32_t`. */
  function Inc32(n: nat): nat { (n + 1) % TWO32 }

  /** `x--` on a `uint32_t`; zero wraps to the largest value. */
  function Dec32(n: nat): nat { (n + TWO32 - 1) % TWO32 }

  ghost predicate Distinct<T>(xs: seq<T>) {
    forall i, j :: 0 <= i < j < |xs| ==> xs[i] != xs[j]
  }

  /** As many positions as elements: a distinct sequence lists its set exactly once. */
  lemma {:induction false} DistinctCard<T>(xs: seq<T>, s: set<T>)
    requires Distinct(xs)
    requires forall x :: x in xs <==> x in s
    ensures |s| == |xs|
  {
    if xs == [] {
      assert s == {};
    } else {
      var last := xs[|xs| - 1];
      var front := xs[..|xs| - 1];
      assert last in xs;
      forall x
        ensures x in front <==> x in s - {last}
      {
        if x in s - {last} {
          var i :| 0 <= i < |xs| && xs[i] == x;
          assert front[i] == x;
        }
      }
      DistinctCard(front, s - {last});
    }
  }
}
