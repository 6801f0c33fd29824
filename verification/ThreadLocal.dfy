/** src/thread_local/thread_local.c with the two placements of src/arch: from the program
    headers to an initialised thread-local block inside an over-allocated mapping. */
module ThreadLocal {
  import opened Base
  import opened Bits
  import opened Bytes

  const TCB_SIZE: nat := 16
  const POINTER_ALIGN: nat := 8
  const PT_TLS: nat := 7

  /** `ckd_add` on 64-bit words: nothing when the sum does not fit. */
  function CheckedAdd(a: nat, b: nat): Option<nat> {
    if a + b < TWO64 then Some(a + b) else None
  }

  /** `x & ~(a - 1)` on 64-bit words; `~(a - 1)` is the two's complement of `a`. */
  function MaskDown(x: nat, a: nat): nat {
    BitAnd(x, (TWO64 - a) % TWO64)
  }

  /** The least multiple of `a` that is not below `x`. */
  function RoundUp(x: nat, a: nat): nat
    requires a > 0
  {
    if x % a == 0 then x else x - x % a + a
  }

  ghost predicate WordPow2(a: nat) { exists k: nat :: k < 64 && a == Pow2(k) }

  // ---------------------------------------------------------------- rounding

  lemma WordPow2Bound(a: nat)
    requires WordPow2(a)
    ensures 0 < a < TWO64 && a <= Pow2(64) && TWO64 % a == 0
  {
    hide Pow2;
    var k: nat :| k < 64 && a == Pow2(k);
    Pow2Of64();
    Pow2Monotone(k, 63);
    Pow2Monotone(k, 64);
    assert Pow2(64) == 2 * Pow2(63) by {
      Pow2Doubles(63);
    }
  }

  lemma MaskRounds(x: nat, a: nat)
    requires WordPow2(a) && x < TWO64
    ensures a > 0 && MaskDown(x, a) == x - x % a
  {
    hide Pow2, BitAnd;
    WordPow2Bound(a);
    var k: nat :| k < 64 && a == Pow2(k);
    Pow2Of64();
    HighMask(x, k, 64);
    assert BitNot(a - 1, 64) == (TWO64 - a) % TWO64;
  }

  /** Adding `a - 1` and masking is rounding up; the addition fits exactly when the
      rounded value does. */
  lemma CheckedRound(x: nat, a: nat)
    requires WordPow2(a) && x < TWO64
    ensures a > 0
    ensures CheckedAdd(x, a - 1).Some? <==> RoundUp(x, a) < TWO64
    ensures CheckedAdd(x, a - 1).Some? ==> MaskDown(x + (a - 1), a) == RoundUp(x, a)
  {
    hide Pow2, MaskDown;
    WordPow2Bound(a);
    RoundUpBy(x, a);
    if x + (a - 1) < TWO64 {
      MaskRounds(x + (a - 1), a);
    } else {
      RoundUpReaches(x, a, TWO64 / a);
    }
  }

  lemma RoundUpBy(x: nat, a: nat)
    requires a > 0
    ensures x + (a - 1) - (x + (a - 1)) % a == RoundUp(x, a)
  {
    var q, r := x / a, x % a;
    assert x == q * a + r;
    if r == 0 {
      DivModUnique(x + (a - 1), a, q, a - 1);
    } else {
      assert (q + 1) * a == q * a + a;
      DivModUnique(x + (a - 1), a, q + 1, r - 1);
    }
  }

  /** The result is a multiple, not below, and less than `a` above. */
  lemma RoundUpIs(x: nat, a: nat)
    requires a > 0
    ensures x <= RoundUp(x, a) < x + a
    ensures RoundUp(x, a) % a == 0
  {
    var q, r := x / a, x % a;
    assert x == q * a + r;
    if r != 0 {
      assert (q + 1) * a == q * a + a;
      DivModUnique(RoundUp(x, a), a, q + 1, 0);
    }
  }

  /** If `x` is within `a - 1` of a multiple, rounding reaches it. */
  lemma RoundUpReaches(x: nat, a: nat, c: nat)
    requires a > 0 && c * a == TWO64 && x + (a - 1) >= TWO64
    ensures RoundUp(x, a) >= TWO64
  {
    RoundUpIs(x, a);
    var q := RoundUp(x, a) / a;
    assert RoundUp(x, a) == q * a;
    assert (q + 1) * a == q * a + a;
    assert (q - c) * a == q * a - c * a && (c - q) * a == c * a - q * a;
    if q < c {
      AtLeastOnce(c - q, a);
    } else if q > c {
      AtLeastOnce(q - c, a);
    }
  }

  /** Divisibility passes from a coarser power of two to a finer one. */
  lemma FinerDivides(x: nat, fine: nat, coarse: nat)
    requires WordPow2(fine) && WordPow2(coarse) && fine <= coarse && x % coarse == 0
    ensures x % fine == 0
  {
    hide Pow2;
    var i: nat :| i < 64 && fine == Pow2(i);
    var j: nat :| j < 64 && coarse == Pow2(j);
    Pow2Below(i, j);
    Pow2Monotone(i, j);
    var c := coarse / fine;
    assert x == x / coarse * coarse;
    assert x / coarse * coarse == x / coarse * c * fine;
    DivModUnique(x, fine, x / coarse * c, 0);
  }

  lemma PointerAlignPow2()
    ensures WordPow2(POINTER_ALIGN)
  {
    assert Pow2(3) == 8;
  }

  lemma MultiplesAdd(x: nat, y: nat, a: nat)
    requires a > 0 && x % a == 0 && y % a == 0
    ensures (x + y) % a == 0 && (x >= y ==> (x - y) % a == 0)
  {
    assert x == x / a * a && y == y / a * a;
    assert (x / a + y / a) * a == x / a * a + y / a * a;
    assert (x / a - y / a) * a == x / a * a - y / a * a;
    DivModUnique(x + y, a, x / a + y / a, 0);
    DivModUnique(x - y, a, x / a - y / a, 0);
  }

  // ---------------------------------------------------------------- placement

  /** Offsets from a base aligned for both the block and the TCB. */
  datatype Placement = Placement(length: nat, blockOffset: nat, tpOffset: nat)

  datatype Variant = X86_64 | AArch64

  /** `thread_local_place` of src/arch/x86_64. */
  function PlaceBelow(blockSize: nat, alignment: nat): Option<Placement>
    requires alignment > 0
  {
    var raised := CheckedAdd(blockSize, alignment - 1);
    if raised.None? then None
    else
      var distance := MaskDown(raised.value, alignment);
      var tcbRaised := CheckedAdd(distance, POINTER_ALIGN - 1);
      if tcbRaised.None? then None
      else
        var tpOffset := MaskDown(tcbRaised.value, POINTER_ALIGN);
        var length := CheckedAdd(tpOffset, TCB_SIZE);
        if length.None? then None
        else Some(Placement(length.value, (tpOffset - distance) % TWO64, tpOffset))
  }

  /** `thread_local_place` of src/arch/aarch64. */
  function PlaceAbove(blockSize: nat, alignment: nat): Option<Placement>
    requires alignment > 0
  {
    var raised := CheckedAdd(TCB_SIZE, alignment - 1);
    if raised.None? then None
    else
      var blockOffset := MaskDown(raised.value, alignment);
      var length := CheckedAdd(blockOffset, blockSize);
      if length.None? then None else Some(Placement(length.value, blockOffset, 0))
  }

  /** The distance compiled code assumes between the thread pointer and the block. */
  function AbiDistance(variant: Variant, blockSize: nat, alignment: nat): nat
    requires alignment > 0
  {
    match variant
    case X86_64 => RoundUp(blockSize, alignment)
    case AArch64 => RoundUp(TCB_SIZE, alignment)
  }

  /** The bytes a mapping must span, without regard to the width of a word. */
  function Span(variant: Variant, blockSize: nat, alignment: nat): nat
    requires alignment > 0
  {
    match variant
    case X86_64 => RoundUp(RoundUp(blockSize, alignment), POINTER_ALIGN) + TCB_SIZE
    case AArch64 => RoundUp(TCB_SIZE, alignment) + blockSize
  }

  function Place(variant: Variant, blockSize: nat, alignment: nat): Option<Placement>
    requires alignment > 0
  {
    match variant
    case X86_64 => PlaceBelow(blockSize, alignment)
    case AArch64 => PlaceAbove(blockSize, alignment)
  }

  /** Block and TCB apart, inside the length, aligned relative to the base, and at the
      distance the ABI fixes. */
  ghost predicate Sound(variant: Variant, blockSize: nat, alignment: nat, p: Placement)
    requires alignment > 0
  {
    && p.length == Span(variant, blockSize, alignment) < TWO64
    && p.blockOffset + blockSize <= p.length && p.tpOffset + TCB_SIZE <= p.length
    && (p.blockOffset + blockSize <= p.tpOffset || p.tpOffset + TCB_SIZE <= p.blockOffset)
    && p.blockOffset % alignment == 0 && p.tpOffset % POINTER_ALIGN == 0
    && match variant
       case X86_64 => p.tpOffset == p.blockOffset + AbiDistance(variant, blockSize, alignment)
       case AArch64 => p.blockOffset == p.tpOffset + AbiDistance(variant, blockSize, alignment)
  }

  /** The placement in closed form. */
  lemma PlaceBelowValue(blockSize: nat, alignment: nat)
    requires WordPow2(alignment) && blockSize < TWO64
    ensures alignment > 0
    ensures var distance := RoundUp(blockSize, alignment);
            var tp := RoundUp(distance, POINTER_ALIGN);
            && distance <= tp
            && PlaceBelow(blockSize, alignment) ==
               if tp + TCB_SIZE < TWO64 then Some(Placement(tp + TCB_SIZE, tp - distance, tp)) else None
  {
    hide Pow2, MaskDown, WordPow2, RoundUp;
    PointerAlignPow2();
    WordPow2Bound(alignment);
    CheckedRound(blockSize, alignment);
    var distance := RoundUp(blockSize, alignment);
    RoundUpIs(distance, POINTER_ALIGN);
    if distance < TWO64 {
      CheckedRound(distance, POINTER_ALIGN);
    }
  }

  lemma PlaceBelowSound(blockSize: nat, alignment: nat)
    requires WordPow2(alignment) && blockSize < TWO64
    ensures alignment > 0
    ensures PlaceBelow(blockSize, alignment).Some? <==> Span(X86_64, blockSize, alignment) < TWO64
    ensures PlaceBelow(blockSize, alignment).Some? ==>
              Sound(X86_64, blockSize, alignment, PlaceBelow(blockSize, alignment).value)
  {
    hide WordPow2, RoundUp, PlaceBelow;
    PlaceBelowValue(blockSize, alignment);
    RoundUpIs(blockSize, alignment);
    var distance := RoundUp(blockSize, alignment);
    RoundUpIs(distance, POINTER_ALIGN);
    PaddingAligned(distance, alignment);
  }

  /** The padding below the block keeps the block's own alignment. */
  lemma PaddingAligned(distance: nat, alignment: nat)
    requires WordPow2(alignment) && alignment > 0 && distance % alignment == 0
    ensures RoundUp(distance, POINTER_ALIGN) >= distance
    ensures (RoundUp(distance, POINTER_ALIGN) - distance) % alignment == 0
  {
    hide Pow2, WordPow2, RoundUp;
    PointerAlignPow2();
    RoundUpIs(distance, POINTER_ALIGN);
    var tp := RoundUp(distance, POINTER_ALIGN);
    if alignment <= POINTER_ALIGN {
      FinerDivides(tp, alignment, POINTER_ALIGN);
      MultiplesAdd(tp, distance, alignment);
    } else {
      FinerDivides(distance, POINTER_ALIGN, alignment);
      AlreadyRound(distance, POINTER_ALIGN);
      DivModUnique(0, alignment, 0, 0);
    }
  }

  lemma AlreadyRound(x: nat, a: nat)
    requires a > 0 && x % a == 0
    ensures RoundUp(x, a) == x
  {
  }

  lemma PlaceAboveSound(blockSize: nat, alignment: nat)
    requires WordPow2(alignment) && blockSize < TWO64
    ensures alignment > 0
    ensures PlaceAbove(blockSize, alignment).Some? <==> Span(AArch64, blockSize, alignment) < TWO64
    ensures PlaceAbove(blockSize, alignment).Some? ==>
              Sound(AArch64, blockSize, alignment, PlaceAbove(blockSize, alignment).value)
  {
    hide Pow2, MaskDown, WordPow2, RoundUp;
    PointerAlignPow2();
    WordPow2Bound(alignment);
    WordPow2Bound(POINTER_ALIGN);
    CheckedRound(TCB_SIZE, alignment);
    RoundUpIs(TCB_SIZE, alignment);
  }

  /** For every block size and power-of-two alignment: placement fails exactly when the
      bytes it needs do not fit a 64-bit length, and otherwise is sound. */
  lemma PlaceSound(variant: Variant, blockSize: nat, alignment: nat)
    requires WordPow2(alignment) && blockSize < TWO64
    ensures alignment > 0
    ensures Place(variant, blockSize, alignment).Some? <==> Span(variant, blockSize, alignment) < TWO64
    ensures Place(variant, blockSize, alignment).Some? ==>
              Sound(variant, blockSize, alignment, Place(variant, blockSize, alignment).value)
  {
    hide Sound, Span, PlaceBelow, PlaceAbove;
    PlaceBelowSound(blockSize, alignment);
    PlaceAboveSound(blockSize, alignment);
  }

  // ---------------------------------------------------------------- layout

  datatype Header = Header(kind: nat, fileSize: nat, memSize: nat, address: nat, align: nat)

  /** `imageAt` is where the initialization bytes are; zero when there are none. */
  datatype Layout = Layout(imageAt: nat, imageSize: nat, blockSize: nat, alignment: nat)

  predicate IsTls(hs: seq<Header>, i: int) { 0 <= i < |hs| && hs[i].kind == PT_TLS }

  ghost predicate WordFields(h: Header) {
    h.memSize < TWO64 && h.align < TWO64
  }

  /** What block creation relies on. */
  ghost predicate Usable(l: Layout) {
    WordPow2(l.alignment) && l.imageSize <= l.blockSize < TWO64
  }

  /** The population count of a word is one exactly for the powers of two below 2^64. */
  lemma OneBit(a: nat)
    requires a < TWO64
    ensures PopCount(a) == 1 <==> WordPow2(a)
  {
    hide Pow2, PopCount;
    PopCountOne(a);
    Pow2Of64();
    if PopCount(a) == 1 {
      var k: nat :| a == Pow2(k);
      if k >= 64 {
        Pow2Monotone(64, k);
      }
    }
  }

  lemma OneUsable()
    ensures Usable(Layout(0, 0, 0, 1))
  {
    assert Pow2(0) == 1;
  }

  /** Exactly one header is PT_TLS, and it is this one. */
  ghost predicate OnlyTls(hs: seq<Header>, i: int) {
    IsTls(hs, i) && forall j :: IsTls(hs, j) ==> j == i
  }

  /** The header scan of `__libuc_thread_local_layout`: no PT_TLS gives the empty layout, two are
      ambiguous, and one is accepted exactly when its file part fits its memory part, its end
      does not wrap and its alignment, if any, is a power of two. Its block is as long as its
      memory part, and its image is the file part at its address. */
  method ReadLayout(headers: seq<Header>) returns (layout: Option<Layout>)
    requires forall h :: h in headers ==> WordFields(h)
    ensures (forall i :: !IsTls(headers, i)) ==> layout == Some(Layout(0, 0, 0, 1))
    ensures forall i, j :: IsTls(headers, i) && IsTls(headers, j) && i != j ==> layout.None?
    ensures forall i :: OnlyTls(headers, i) ==>
              var h := headers[i];
              layout.Some? <==>
                h.fileSize <= h.memSize && h.address + h.memSize < TWO64 && (h.align == 0 || WordPow2(h.align))
    ensures forall i :: OnlyTls(headers, i) && layout.Some? ==>
              var h, l := headers[i], layout.value;
              && l.blockSize == h.memSize && l.imageSize == h.fileSize
              && (if h.fileSize == 0 then l.imageAt == 0 else l.imageAt == h.address)
              && (if h.align == 0 then l.alignment == 1 else l.alignment == h.align)
    ensures layout.Some? ==> Usable(layout.value)
  {
    hide Pow2, PopCount, WordPow2;
    var segment: Option<nat> := None;
    for index := 0 to |headers|
      invariant segment.None? ==> forall i :: IsTls(headers, i) ==> index <= i
      invariant segment.Some? ==> segment.value < index && IsTls(headers, segment.value)
      invariant segment.Some? ==> forall i :: IsTls(headers, i) && i < index ==> i == segment.value
    {
      if headers[index].kind == PT_TLS {
        assert IsTls(headers, index);
        if segment.Some? {
          return None;
        }
        segment := Some(index);
      }
    }
    if segment.None? {
      OneUsable();
      return Some(Layout(0, 0, 0, 1));
    }
    var h := headers[segment.value];
    assert h in headers && OnlyTls(headers, segment.value);
    OneUsable();
    var alignment := if h.align == 0 then 1 else h.align;
    OneBit(alignment);
    if h.fileSize > h.memSize || h.address + h.memSize >= TWO64 {
      return None;
    }
    if PopCount(alignment) != 1 {
      return None;
    }
    layout := Some(Layout(if h.fileSize == 0 then 0 else h.address, h.fileSize, h.memSize, alignment));
  }

  // ---------------------------------------------------------------- blocks

  datatype Block = Block(mapping: nat, mappingLength: nat, block: nat, threadPointer: nat)

  /** The coarser of the block's alignment and the TCB's. */
  function BaseAlignment(alignment: nat): (a: nat)
    ensures alignment <= a && POINTER_ALIGN <= a && (a == alignment || a == POINTER_ALIGN)
  {
    if alignment < POINTER_ALIGN then POINTER_ALIGN else alignment
  }

  /** The length asked of the system, if the sums fit. */
  function MappingLength(variant: Variant, l: Layout): Option<nat>
    requires l.alignment > 0
  {
    var p := Place(variant, l.blockSize, l.alignment);
    if p.None? then None else CheckedAdd(p.value.length, BaseAlignment(l.alignment) - 1)
  }

  /** The lowest base in the mapping that suits both alignments. */
  lemma BaseInMapping(raw: nat, alignment: nat)
    requires WordPow2(alignment) && raw < TWO64
    ensures WordPow2(BaseAlignment(alignment)) && 0 < BaseAlignment(alignment)
    ensures var a := BaseAlignment(alignment);
            raw + (a - 1) < TWO64 ==>
              var base := MaskDown(raw + (a - 1), a);
              && raw <= base < raw + a
              && base % alignment == 0 && base % POINTER_ALIGN == 0
  {
    hide Pow2, MaskDown, WordPow2, RoundUp;
    PointerAlignPow2();
    var a := BaseAlignment(alignment);
    WordPow2Bound(a);
    CheckedRound(raw, a);
    RoundUpIs(raw, a);
    if raw + (a - 1) < TWO64 {
      FinerDivides(RoundUp(raw, a), alignment, a);
      FinerDivides(RoundUp(raw, a), POINTER_ALIGN, a);
    }
  }

  /** Store an address as eight little-endian bytes. */
  method StoreWord(mem: array<Byte>, at: nat, value: nat)
    requires at + 8 <= mem.Length && value < TWO64
    modifies mem
    ensures Load(mem[at..at + 8]) == value
    ensures mem[..at] == old(mem[..at]) && mem[at + 8..] == old(mem[at + 8..])
  {
    var bytes := WordBytes(value, 8);
    for i := 0 to 8
      invariant forall k :: 0 <= k < mem.Length ==>
        mem[k] == if at <= k < at + i then bytes[k - at] else old(mem[k])
    {
      mem[at + i] := bytes[i];
    }
    assert mem[at..at + 8] == bytes;
    assert Pow256(8) == TWO64 by {
      assert Pow256(4) == TWO32;
      assert Pow256(8) == 256 * 256 * 256 * 256 * Pow256(4);
    }
  }

  /** `memset` and `memcpy` of block creation: the image, then zeros up to the size. */
  method FillBlock(mem: array<Byte>, at: nat, size: nat, image: seq<Byte>)
    requires at + size <= mem.Length && |image| <= size
    modifies mem
    ensures mem[at..at + |image|] == image
    ensures forall k :: at + |image| <= k < at + size ==> mem[k] == 0
    ensures mem[..at] == old(mem[..at]) && mem[at + size..] == old(mem[at + size..])
  {
    if size != 0 {
      for i := 0 to size
        invariant forall k :: 0 <= k < mem.Length ==> mem[k] == if at <= k < at + i then 0 else old(mem[k])
      {
        mem[at + i] := 0;
      }
      if |image| != 0 {
        for i := 0 to |image|
          invariant forall k :: 0 <= k < mem.Length ==>
            mem[k] == if at <= k < at + i then image[k - at] else if at <= k < at + size then 0 else old(mem[k])
        {
          mem[at + i] := image[i];
        }
      }
    }
  }

  /** `mem` holds the block's image and zeros at `blockAt`, and at `tpAt` a TCB that points
      to itself and has no fiber yet. */
  ghost predicate Initialised(mem: seq<Byte>, blockAt: nat, size: nat, image: seq<Byte>, tpAt: nat, self: nat) {
    && blockAt + size <= |mem| && |image| <= size && tpAt + TCB_SIZE <= |mem|
    && mem[blockAt..blockAt + |image|] == image
    && (forall k :: blockAt + |image| <= k < blockAt + size ==> mem[k] == 0)
    && Load(mem[tpAt..tpAt + 8]) == self
    && Load(mem[tpAt + 8..tpAt + 16]) == 0
  }

  /** Fill a placed block: the TCB writes leave the block alone because they are apart. */
  method InitBlock(mem: array<Byte>, blockAt: nat, size: nat, image: seq<Byte>, tpAt: nat, self: nat)
    requires blockAt + size <= mem.Length && |image| <= size && tpAt + TCB_SIZE <= mem.Length && self < TWO64
    requires blockAt + size <= tpAt || tpAt + TCB_SIZE <= blockAt
    modifies mem
    ensures Initialised(mem[..], blockAt, size, image, tpAt, self)
    ensures forall k :: 0 <= k < mem.Length && !(blockAt <= k < blockAt + size) && !(tpAt <= k < tpAt + TCB_SIZE) ==>
              mem[k] == old(mem[k])
  {
    hide Load;
    FillBlock(mem, blockAt, size, image);
    ghost var filled := mem[..];
    assert filled[..blockAt] == mem[..blockAt] && filled[blockAt + size..] == mem[blockAt + size..];
    Outside(old(mem[..]), filled, blockAt, size);
    WriteTcb(mem, tpAt, self);
    assert mem[..][blockAt..blockAt + |image|] == filled[blockAt..blockAt + |image|];
    assert mem[..][tpAt..tpAt + 8] == mem[tpAt..tpAt + 8];
    assert mem[..][tpAt + 8..tpAt + 16] == mem[tpAt + 8..tpAt + 16];
  }

  /** `tcb->self` and `tcb->fiber`. */
  method WriteTcb(mem: array<Byte>, at: nat, self: nat)
    requires at + TCB_SIZE <= mem.Length && self < TWO64
    modifies mem
    ensures Load(mem[at..at + 8]) == self && Load(mem[at + 8..at + 16]) == 0
    ensures forall k :: 0 <= k < mem.Length && !(at <= k < at + TCB_SIZE) ==> mem[k] == old(mem[k])
  {
    hide Load;
    StoreWord(mem, at, self);
    ghost var stored := mem[..];
    assert stored[..at] == mem[..at] && stored[at + 8..] == mem[at + 8..];
    Outside(old(mem[..]), stored, at, 8);
    assert stored[at..at + 8] == mem[at..at + 8];
    StoreWord(mem, at + 8, 0);
    assert mem[..][..at + 8] == mem[..at + 8] && mem[..][at + 8 + 8..] == mem[at + 8 + 8..];
    assert stored[..at + 8] == mem[..at + 8];
    Outside(stored, mem[..], at + 8, 8);
    assert mem[at..at + 8] == stored[at..at + 8];
  }

  /** Equal flanks mean that only the window changed. */
  lemma Outside(a: seq<Byte>, b: seq<Byte>, at: nat, n: nat)
    requires |a| == |b| && at + n <= |a| && a[..at] == b[..at] && a[at + n..] == b[at + n..]
    ensures forall k :: 0 <= k < |a| && !(at <= k < at + n) ==> b[k] == a[k]
  {
    forall k | 0 <= k < |a| && !(at <= k < at + n)
      ensures b[k] == a[k]
    {
      if k < at {
        assert a[..at][k] == b[..at][k];
      } else {
        assert a[at + n..][k - at - n] == b[at + n..][k - at - n];
      }
    }
  }

  /** The mapping that block creation gives back: one it obtained and did not hand out. */
  function Unused(variant: Variant, l: Layout, raw: Option<nat>, block: Option<Block>): Option<(nat, nat)>
    requires l.alignment > 0
  {
    if block.None? && raw.Some? && MappingLength(variant, l).Some? then Some((raw.value, MappingLength(variant, l).value))
    else None
  }

  /** Where block creation gives up, given what the system answered. */
  ghost predicate Fails(variant: Variant, l: Layout, raw: Option<nat>)
    requires l.alignment > 0
  {
    || Span(variant, l.blockSize, l.alignment) + (BaseAlignment(l.alignment) - 1) >= TWO64
    || raw.None?
    || raw.value + (BaseAlignment(l.alignment) - 1) >= TWO64
  }

  /** `__libuc_thread_local_block_create`: `raw` is the address the system mapped, if any, and
      `mem` the bytes behind it. The result lies inside the mapping, both parts aligned and
      apart, at the distance the ABI fixes, the block initialised to the image and zeros. A
      mapping is handed out or given back, never both and never lost. */
  method CreateBlock(variant: Variant, l: Layout, image: seq<Byte>, raw: Option<nat>, mem: array<Byte>)
    returns (block: Option<Block>, released: Option<(nat, nat)>)
    requires l.alignment > 0 && Usable(l) && |image| == l.imageSize
    requires raw.Some? && MappingLength(variant, l).Some? ==>
               && raw.value < TWO64 && mem.Length == MappingLength(variant, l).value
               && (raw.value + (BaseAlignment(l.alignment) - 1) < TWO64 ==> raw.value + mem.Length <= TWO64)
    modifies mem
    ensures block.None? <==> Fails(variant, l, raw)
    ensures block.None? ==> mem[..] == old(mem[..])
    ensures released == Unused(variant, l, raw, block)
    ensures block.Some? ==>
              var b := block.value;
              && b.mapping == raw.value && b.mappingLength == mem.Length
              && b.mappingLength == Span(variant, l.blockSize, l.alignment) + (BaseAlignment(l.alignment) - 1)
              && b.mapping <= b.block && b.block + l.blockSize <= b.mapping + b.mappingLength
              && b.mapping <= b.threadPointer && b.threadPointer + TCB_SIZE <= b.mapping + b.mappingLength
              && (b.block + l.blockSize <= b.threadPointer || b.threadPointer + TCB_SIZE <= b.block)
              && b.block % l.alignment == 0 && b.threadPointer % POINTER_ALIGN == 0
              && (match variant
                  case X86_64 => b.threadPointer - b.block == AbiDistance(variant, l.blockSize, l.alignment)
                  case AArch64 => b.block - b.threadPointer == AbiDistance(variant, l.blockSize, l.alignment))
              && Initialised(mem[..], b.block - b.mapping, l.blockSize, image,
                             b.threadPointer - b.mapping, b.threadPointer)
  {
    hide Pow2, MaskDown, WordPow2, RoundUp, Place, Initialised, AbiDistance, Span;
    PlaceSound(variant, l.blockSize, l.alignment);
    PointerAlignPow2();
    WordPow2Bound(l.alignment);
    var placement := Place(variant, l.blockSize, l.alignment);
    block, released := None, None;
    if placement.None? {
      return;
    }
    var a := BaseAlignment(l.alignment);
    var length := CheckedAdd(placement.value.length, a - 1);
    if length.None? || raw.None? {
      return;
    }
    if raw.value + (a - 1) >= TWO64 {
      released := Some((raw.value, length.value));
      return;
    }
    BaseInMapping(raw.value, l.alignment);
    var base := MaskDown(raw.value + (a - 1), a);
    var tp, at := base + placement.value.tpOffset, base + placement.value.blockOffset;
    MultiplesAdd(base, placement.value.blockOffset, l.alignment);
    MultiplesAdd(base, placement.value.tpOffset, POINTER_ALIGN);
    InitBlock(mem, at - raw.value, l.blockSize, image, tp - raw.value, tp);
    block := Some(Block(raw.value, length.value, at, tp));
  }
}
