/** src/ring/ring.c as written: slots rewritten in place, a retry loop, and a completion
    queue addressed by two wrapping 32-bit words. */
module Ring {
  import opened Base
  import opened Bits
  import opened RingModel
  import opened Memory

  datatype SubmitOutcome =
    | Complete
    | Errno(errno: nat)
    /** The history given ended while the call was still waiting. */
    | Unfinished

  /** The enter that lets the submit loop return. */
  predicate Final(r: RingState, e: KernelEvent) {
    e.Enter? && (e.result.Failed? || (e.result.Accepted? && e.result.count == |r.batch|))
  }

  class RingBuffer {
    const sqEntries: nat
    const cqEntries: nat
    const cqMask: nat
    const sqes: array<Sqe>
    const cqes: array<Cqe>
    var batchCount: nat
    var cqHead: nat
    var cqTail: nat
    /** What the kernel has accepted and not completed; libuc never looks at it. */
    var inflight: seq<Sqe>
    ghost var completions: seq<Cqe>
    ghost const shift: nat

    /** The slot of the completion `i` places after the head word. */
    function Slot(head: nat, i: nat): nat {
      BitAnd((head + i) % TWO32, cqMask)
    }

    ghost predicate Valid()
      reads this, sqes, cqes
    {
      && sqes.Length == sqEntries
      && batchCount <= sqEntries
      && shift < 32 && cqEntries == Pow2(shift) == cqes.Length && cqMask == cqEntries - 1
      && cqHead < TWO32
      && cqTail == (cqHead + |completions|) % TWO32
      && |completions| <= cqEntries
      && forall i :: 0 <= i < |completions| ==> Slot(cqHead, i) < cqEntries && cqes[Slot(cqHead, i)] == completions[i]
    }

    ghost function View(): RingState
      requires Valid()
      reads this, sqes, cqes
    {
      RingState(sqEntries, cqEntries, sqes[..batchCount], inflight, completions)
    }

    /** The ring as `__libuc_ring_create` leaves it, with the head word anywhere. */
    constructor (sqEntries: nat, ghost shift: nat, cqEntries: nat, head: nat)
      requires shift < 32 && cqEntries == Pow2(shift) && head < TWO32
      ensures Valid() && fresh(sqes) && fresh(cqes)
      ensures View() == RingState(sqEntries, cqEntries, [], [], [])
    {
      this.sqEntries, this.shift, this.cqEntries, this.cqMask := sqEntries, shift, cqEntries, cqEntries - 1;
      sqes := new Sqe[sqEntries](_ => Sqe(0, 0, 0));
      cqes := new Cqe[cqEntries](_ => Cqe(0, 0, false));
      batchCount, cqHead, cqTail, inflight, completions := 0, head, head, [], [];
    }

    /** Different places within one queue length have different slots, across wraps. */
    lemma SlotsApart(i: nat, j: nat)
      requires shift < 32 && cqEntries == Pow2(shift) && cqMask == cqEntries - 1
      requires i < cqEntries && j < cqEntries
      ensures Slot(cqHead, i) < cqEntries
      ensures i != j ==> Slot(cqHead, i) != Slot(cqHead, j)
    {
      SlotIsRemainder(i);
      SlotIsRemainder(j);
      if Slot(cqHead, i) == Slot(cqHead, j) {
        RemaindersApart(cqHead, i, j, cqEntries);
      }
    }

    lemma SlotIsRemainder(i: nat)
      requires shift < 32 && cqEntries == Pow2(shift) && cqMask == cqEntries - 1
      ensures Slot(cqHead, i) == (cqHead + i) % cqEntries
    {
      hide Pow2, BitAnd;
      LowMask((cqHead + i) % TWO32, shift);
      Pow2Of32();
      WrapKeepsSlot(cqHead + i, shift, 32);
    }

    /** `__libuc_ring_append_sqe`: the next slot, zeroed; nothing when the batch is full. */
    method AppendSqe() returns (slot: Option<nat>)
      requires Valid()
      modifies this`batchCount, sqes
      ensures Valid()
      ensures slot.None? <==> |old(View()).batch| == sqEntries
      ensures slot.None? ==> View() == old(View())
      ensures slot.Some? ==> slot.value == |old(View()).batch|
      ensures slot.Some? ==> View() == old(View()).(batch := old(View()).batch + [Sqe(0, 0, 0)])
    {
      if batchCount == sqEntries {
        return None;
      }
      slot := Some(batchCount);
      sqes[batchCount] := Sqe(0, 0, 0);
      batchCount := batchCount + 1;
    }

    /** The caller fills the slot it was given. */
    method WriteSlot(slot: nat, sqe: Sqe)
      requires Valid() && slot < |View().batch|
      modifies sqes
      ensures Valid() && View() == old(View()).(batch := old(View()).batch[slot := sqe])
    {
      sqes[slot] := sqe;
    }

    /** The kernel's acceptance of a prefix, before libuc sees the count. */
    method KernelAccept(n: nat)
      requires Valid() && n <= batchCount
      modifies this`inflight
      ensures Valid() && View() == old(View()).(inflight := old(View()).inflight + old(View()).batch[..n])
    {
      inflight := inflight + sqes[..n];
      assert sqes[..batchCount][..n] == sqes[..n];
    }

    /** The kernel posts a completion; with room for it the overflow path never starts. */
    method KernelPost(index: nat, res: int, streams: bool)
      requires Valid() && index < |View().inflight| && |View().cq| < cqEntries
      modifies this`inflight, this`cqTail, this`completions, cqes
      ensures Valid() && View() == KernelStep(old(View()), Post(index, res, streams))
    {
      hide Pow2, BitAnd;
      var c := Cqe(inflight[index].userData, res, streams);
      ghost var n := |completions|;
      var slot := BitAnd(cqTail, cqMask);
      assert slot == Slot(cqHead, n);
      SlotsApart(n, n);
      forall i | 0 <= i < n
        ensures Slot(cqHead, i) != slot
      {
        SlotsApart(i, n);
      }
      cqes[slot] := c;
      cqTail := (cqTail + 1) % TWO32;
      WrapNext(cqHead + n);
      completions := completions + [c];
      inflight := inflight[..index] + inflight[index + 1..];
    }

    /** `__libuc_ring_reap`: the oldest completion, or nothing exactly when there is none. */
    method Reap() returns (completion: Option<Cqe>)
      requires Valid()
      modifies this`cqHead, this`completions
      ensures Valid()
      ensures completion.None? <==> old(View()).cq == []
      ensures completion.None? ==> View() == old(View())
      ensures completion.Some? ==> completion.value == old(View()).cq[0]
      ensures completion.Some? ==> View() == old(View()).(cq := old(View()).cq[1..])
    {
      hide Pow2, BitAnd;
      var head, tail := cqHead, cqTail;
      BacklogZero(head, |completions|, shift);
      if head == tail {
        return None;
      }
      SlotsApart(0, 0);
      assert Slot(cqHead, 0) == BitAnd(head, cqMask);
      completion := Some(cqes[BitAnd(head, cqMask)]);
      ghost var rest := completions[1..];
      var next := (head + 1) % TWO32;
      forall i | 0 <= i < |rest|
        ensures Slot(next, i) < cqEntries && cqes[Slot(next, i)] == rest[i]
      {
        WrapShift(head, i);
        assert Slot(head, i + 1) == Slot(next, i);
        assert cqes[Slot(head, i + 1)] == completions[i + 1];
      }
      WrapShift(head, |rest|);
      cqHead := next;
      completions := rest;
    }

    /** One turn of the submit loop, from the return of the system call on. */
    method EnterReturned(result: EnterResult) returns (outcome: SubmitOutcome)
      requires Valid() && KernelLegal(View(), Enter(result))
      modifies this`batchCount, this`inflight, sqes
      ensures Valid() && View() == KernelStep(old(View()), Enter(result))
      ensures outcome.Unfinished? <==> !Final(old(View()), Enter(result))
      ensures outcome.Errno? <==> result.Failed?
      ensures outcome.Errno? ==> result == Failed(outcome.errno)
    {
      match result
      case Interrupted =>
        outcome := Unfinished;
      case Failed(errno) =>
        outcome := Errno(errno);
      case Accepted(submitted) =>
        ghost var batch := View().batch;
        KernelAccept(submitted);
        if submitted == batchCount {
          batchCount := 0;
          outcome := Complete;
        } else {
          MemMove(sqes, 0, submitted, batchCount - submitted);
          assert sqes[..batchCount - submitted] == sqes[0..0 + (batchCount - submitted)] == batch[submitted..];
          batchCount := batchCount - submitted;
          outcome := Unfinished;
        }
    }

    /** `__libuc_ring_submit` against a history of the kernel. Success leaves the batch
        empty; in every case what the kernel took followed by what is left at slot zero is
        the original batch. `calls` are the arguments of each enter that returned: how much
        to submit and how many completions to wait for. */
    method Submit(events: seq<KernelEvent>, minComplete: nat)
      returns (outcome: SubmitOutcome, used: nat, calls: seq<(nat, nat)>)
      requires Valid() && KernelLegalRun(View(), events)
      requires |Held(View())| <= cqEntries
      modifies this, sqes, cqes
      ensures Valid()
      ensures used <= |events| && KernelLegalRun(old(View()), events[..used])
      ensures View() == KernelExec(old(View()), events[..used])
      ensures Taken(old(View()), events[..used]) + View().batch == old(View()).batch
      ensures outcome.Complete? ==> View().batch == []
      ensures outcome.Unfinished? ==> used == |events| && StillWaiting(old(View()), events)
      ensures !outcome.Unfinished? ==> EndsSubmit(old(View()), events[..used])
      ensures outcome.Errno? <==> used > 0 && events[used - 1].Enter? && events[used - 1].result.Failed?
      ensures calls == Calls(old(View()), events[..used], minComplete)
    {
      hide Pow2, BitAnd, KernelExec, KernelLegalRun, KernelStep, Held, StillWaiting, EndsSubmit, Taken, Calls;
      ghost var start := View();
      used, outcome, calls := 0, Unfinished, [];
      NothingYet(start);
      assert Calls(start, [], minComplete) == [] by {
        NoCalls(start, minComplete);
      }
      assert events[..0] == [];
      while used < |events| && outcome.Unfinished?
        invariant used <= |events| && Valid() && KernelLegalRun(start, events[..used])
        invariant View() == KernelExec(start, events[..used])
        invariant |Held(View())| <= cqEntries
        invariant outcome.Unfinished? ==> StillWaiting(start, events[..used])
        invariant !outcome.Unfinished? ==> EndsSubmit(start, events[..used])
        invariant outcome.Complete? ==> View().batch == []
        invariant outcome.Errno? <==> used > 0 && events[used - 1].Enter? && events[used - 1].result.Failed?
        invariant calls == Calls(start, events[..used], minComplete)
        decreases |events| - used
      {
        ghost var before := View();
        ghost var e := events[used];
        LegalPrefix(start, events, used + 1);
        OneMore(start, events, used);
        OneMoreCall(start, events, used, minComplete);
        HeldKept(before, e);
        if Final(before, e) && e.result.Accepted? {
          FinalEmpties(before, e);
        }
        match events[used] {
        case Post(index, res, streams) =>
          RoomToPost(before, index);
          KernelPost(index, res, streams);
        case Enter(result) =>
          calls := calls + [(batchCount, minComplete)];
          outcome := EnterReturned(result);
        }
        used := used + 1;
      }
      assert outcome.Unfinished? ==> events[..used] == events;
      BatchConserved(start, events[..used]);
    }
  }

  /** The last event of this history, and none before it, ends the submit. */
  ghost predicate EndsSubmit(r: RingState, es: seq<KernelEvent>)
    requires KernelLegalRun(r, es)
  {
    es != [] && StillWaiting(r, es[..|es| - 1]) && Final(KernelExec(r, es[..|es| - 1]), es[|es| - 1])
  }

  /** The arguments of every enter of a history: the batch as it then was, and the number of
      completions to wait for. */
  ghost function Calls(r: RingState, es: seq<KernelEvent>, minComplete: nat): seq<(nat, nat)>
    requires KernelLegalRun(r, es)
  {
    if es == [] then []
    else
      Calls(r, es[..|es| - 1], minComplete) +
      if es[|es| - 1].Enter? then [(|KernelExec(r, es[..|es| - 1]).batch|, minComplete)] else []
  }

  lemma NoCalls(r: RingState, minComplete: nat)
    ensures Calls(r, [], minComplete) == []
  {
  }

  lemma OneMoreCall(r: RingState, es: seq<KernelEvent>, n: nat, minComplete: nat)
    requires n < |es| && KernelLegalRun(r, es[..n]) && KernelLegalRun(r, es[..n + 1])
    ensures Calls(r, es[..n + 1], minComplete) ==
            Calls(r, es[..n], minComplete) +
            if es[n].Enter? then [(|KernelExec(r, es[..n]).batch|, minComplete)] else []
  {
    assert es[..n + 1][..n] == es[..n];
  }

  lemma NothingYet(r: RingState)
    ensures KernelLegalRun(r, []) && KernelExec(r, []) == r && StillWaiting(r, [])
  {
  }

  lemma OneMore(r: RingState, es: seq<KernelEvent>, n: nat)
    requires n < |es| && KernelLegalRun(r, es[..n]) && KernelLegalRun(r, es[..n + 1])
    ensures KernelLegal(KernelExec(r, es[..n]), es[n])
    ensures KernelExec(r, es[..n + 1]) == KernelStep(KernelExec(r, es[..n]), es[n])
    ensures StillWaiting(r, es[..n]) && !Final(KernelExec(r, es[..n]), es[n]) ==> StillWaiting(r, es[..n + 1])
    ensures StillWaiting(r, es[..n]) && Final(KernelExec(r, es[..n]), es[n]) ==> EndsSubmit(r, es[..n + 1])
  {
    assert es[..n + 1][..n] == es[..n];
  }

  /** No event of this history ends a submit. */
  ghost predicate StillWaiting(r: RingState, es: seq<KernelEvent>)
    requires KernelLegalRun(r, es)
  {
    es == [] || (StillWaiting(r, es[..|es| - 1]) && !Final(KernelExec(r, es[..|es| - 1]), es[|es| - 1]))
  }

  /** The enters of a history that returned a count. */
  function Passes(es: seq<KernelEvent>): nat {
    if es == [] then 0
    else
      Passes(es[..|es| - 1]) +
      match es[|es| - 1]
      case Enter(Accepted(_)) => 1
      case _ => 0
  }

  /** Every pass that does not end the submit shrinks the batch and leaves some of it. */
  lemma {:induction false} PassesShrink(r: RingState, es: seq<KernelEvent>)
    requires KernelLegalRun(r, es) && StillWaiting(r, es)
    ensures |KernelExec(r, es).batch| + Passes(es) <= |r.batch|
    ensures KernelExec(r, es).batch == [] ==> Passes(es) == 0
  {
    if es != [] {
      PassesShrink(r, es[..|es| - 1]);
    }
  }

  /** Interrupts aside, a whole submit makes at most one pass for each submission, the last
      included, or a single one when there are none. */
  lemma PassesBounded(r: RingState, es: seq<KernelEvent>)
    requires KernelLegalRun(r, es) && EndsSubmit(r, es)
    ensures Passes(es) <= if r.batch == [] then 1 else |r.batch|
    ensures es[|es| - 1].result.Accepted? ==> 1 <= Passes(es)
  {
    PassesShrink(r, es[..|es| - 1]);
  }

  lemma {:induction false} LegalPrefix(r: RingState, es: seq<KernelEvent>, n: nat)
    requires KernelLegalRun(r, es) && n <= |es|
    ensures KernelLegalRun(r, es[..n])
    decreases |es|
  {
    if n == |es| {
      assert es[..n] == es;
    } else {
      LegalPrefix(r, es[..|es| - 1], n);
      assert es[..|es| - 1][..n] == es[..n];
    }
  }

  lemma FinalEmpties(r: RingState, e: KernelEvent)
    requires KernelLegal(r, e) && Final(r, e) && e.result.Accepted?
    ensures KernelStep(r, e).batch == []
  {
  }

  /** Nothing the kernel does changes how many requests the ring holds. */
  lemma HeldKept(r: RingState, e: KernelEvent)
    requires KernelLegal(r, e)
    ensures |Held(KernelStep(r, e))| == |Held(r)|
  {
  }

  lemma RoomToPost(r: RingState, index: nat)
    requires index < |r.inflight|
    ensures |r.cq| < |Held(r)|
  {
  }

  lemma WrapNext(x: nat)
    ensures (x % TWO32 + 1) % TWO32 == (x + 1) % TWO32
  {
  }

  lemma WrapShift(head: nat, i: nat)
    ensures (head + (1 + i)) % TWO32 == ((head + 1) % TWO32 + i) % TWO32
  {
  }

  /** With at most a queue length outstanding, tail less head is the backlog, whatever has
      wrapped, so equal words mean an empty queue. */
  lemma BacklogZero(head: nat, n: nat, shift: nat)
    requires head < TWO32 && shift < 32 && n <= Pow2(shift)
    ensures ((head + n) % TWO32 + TWO32 - head) % TWO32 == n
    ensures head == (head + n) % TWO32 <==> n == 0
  {
    hide Pow2;
    Pow2Monotone(shift, 31);
    Pow2Of31();
  }

  lemma Pow2Of31()
    ensures Pow2(31) < TWO32
  {
    Pow2Of32();
    assert Pow2(32) == 2 * Pow2(31);
  }

  lemma RemaindersApart(head: nat, i: nat, j: nat, n: nat)
    requires i < n && j < n && (head + i) % n == (head + j) % n
    ensures i == j
  {
    var qi, qj, r := (head + i) / n, (head + j) / n, (head + i) % n;
    assert head + i == qi * n + r && head + j == qj * n + r;
    assert i - j == qi * n - qj * n;
    assert (qi - qj) * n == qi * n - qj * n && (qj - qi) * n == qj * n - qi * n;
    if qi > qj {
      AtLeastOnce(qi - qj, n);
    } else if qj > qi {
      AtLeastOnce(qj - qi, n);
    }
  }
}
