/** src/string/memmove.c: the copy that tolerates overlap. */
module Memory {
  /** Copy `n` cells from `src` to `dst` within one memory, whatever the overlap: the
      destination ends up as the source was, and nothing else changes. */
  method MemMove<T>(mem: array<T>, dst: nat, src: nat, n: nat)
    requires dst + n <= mem.Length && src + n <= mem.Length
    modifies mem
    ensures mem[dst..dst + n] == old(mem[src..src + n])
    ensures mem[..dst] == old(mem[..dst]) && mem[dst + n..] == old(mem[dst + n..])
  {
    if dst < src {
      for i := 0 to n
        invariant forall k :: 0 <= k < mem.Length ==>
          mem[k] == if dst <= k < dst + i then old(mem[k - dst + src]) else old(mem[k])
      {
        mem[dst + i] := mem[src + i];
      }
    } else {
      for i := n downto 0
        invariant forall k :: 0 <= k < mem.Length ==>
          mem[k] == if dst + i <= k < dst + n then old(mem[k - dst + src]) else old(mem[k])
      {
        mem[dst + i] := mem[src + i];
      }
    }
    Moved(old(mem[..]), mem[..], dst, src, n);
    assert mem[..][dst..dst + n] == mem[dst..dst + n] && old(mem[..])[src..src + n] == old(mem[src..src + n]);
    assert mem[..][..dst] == mem[..dst] && old(mem[..])[..dst] == old(mem[..dst]);
    assert mem[..][dst + n..] == mem[dst + n..] && old(mem[..])[dst + n..] == old(mem[dst + n..]);
  }

  /** From cells to slices. */
  lemma Moved<T>(before: seq<T>, after: seq<T>, dst: nat, src: nat, n: nat)
    requires |after| == |before| && dst + n <= |before| && src + n <= |before|
    requires forall k :: dst <= k < dst + n ==> after[k] == before[k - dst + src]
    requires forall k :: 0 <= k < dst || dst + n <= k < |before| ==> after[k] == before[k]
    ensures after[dst..dst + n] == before[src..src + n]
    ensures after[..dst] == before[..dst] && after[dst + n..] == before[dst + n..]
  {
  }
}
