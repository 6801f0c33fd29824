/** Bytes of memory and the words that lie in them. */
module Bytes {
  type Byte = b: nat | b < 256

  function Pow256(n: nat): (p: nat)
    ensures p > 0
  {
    if n == 0 then 1 else 256 * Pow256(n - 1)
  }

  /** The word a little-endian load yields. */
  function Load(b: seq<Byte>): nat {
    if b == [] then 0 else b[0] + 256 * Load(b[1..])
  }

  /** The bytes a little-endian store of an `n`-byte word leaves. */
  function WordBytes(v: nat, n: nat): (b: seq<Byte>)
    requires v < Pow256(n)
    ensures |b| == n && Load(b) == v
  {
    if n == 0 then [] else [v % 256] + WordBytes(v / 256, n - 1)
  }
}
