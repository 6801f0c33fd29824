/** The io_uring ring of src/ring/ring.c seen as values, together with the kernel's side.
    The kernel is an environment: it accepts prefixes of the batch and later posts
    exactly one completion per accepted submission, in any order. */
module RingModel {
  /** `payload` stands for every submission field other than the two libuc looks at. */
  datatype Sqe = Sqe(payload: nat, flags: nat, userData: nat)

  /** `streams` is whether any of MORE, NOTIF or SKIP is set. */
  datatype Cqe = Cqe(userData: nat, res: int, streams: bool)

  datatype RingState = RingState(
    sqEntries: nat,
    cqEntries: nat,
    batch: seq<Sqe>,
    inflight: seq<Sqe>,
    cq: seq<Cqe>)

  /** What one `io_uring_enter` gave back. */
  datatype EnterResult = Interrupted | Failed(errno: nat) | Accepted(count: nat)

  datatype KernelEvent =
    | Enter(result: EnterResult)
    | Post(index: nat, res: int, streams: bool)

  /** The kernel's obligations: a success accepts a prefix, nonempty when the batch is
      (src/ring/ring.c:121-126), and only submissions in flight complete. */
  predicate KernelLegal(r: RingState, e: KernelEvent) {
    match e
    case Enter(Accepted(n)) => n <= |r.batch| && (n == 0 ==> r.batch == [])
    case Enter(_) => true
    case Post(i, _, _) => i < |r.inflight|
  }

  function KernelStep(r: RingState, e: KernelEvent): RingState
    requires KernelLegal(r, e)
  {
    match e
    case Enter(Accepted(n)) => r.(batch := r.batch[n..], inflight := r.inflight + r.batch[..n])
    case Enter(_) => r
    case Post(i, res, streams) =>
      r.(inflight := r.inflight[..i] + r.inflight[i + 1..],
         cq := r.cq + [Cqe(r.inflight[i].userData, res, streams)])
  }

  ghost predicate KernelLegalRun(r: RingState, es: seq<KernelEvent>)
    decreases |es|, 0
  {
    es == [] ||
    (KernelLegalRun(r, es[..|es| - 1]) && KernelLegal(KernelExec(r, es[..|es| - 1]), es[|es| - 1]))
  }

  ghost function KernelExec(r: RingState, es: seq<KernelEvent>): RingState
    requires KernelLegalRun(r, es)
    decreases |es|, 1
  {
    if es == [] then r else KernelStep(KernelExec(r, es[..|es| - 1]), es[|es| - 1])
  }

  /** The submissions the kernel took during a history, in the order it took them. */
  ghost function Taken(r: RingState, es: seq<KernelEvent>): seq<Sqe>
    requires KernelLegalRun(r, es)
  {
    if es == [] then []
    else
      var before := KernelExec(r, es[..|es| - 1]);
      Taken(r, es[..|es| - 1]) +
      match es[|es| - 1]
      case Enter(Accepted(n)) => before.batch[..n]
      case _ => []
  }

  /** For every pattern of interrupts, errors, short counts and completions, what the
      kernel took followed by what is left equals the original batch, in order. */
  lemma {:induction false} BatchConserved(r: RingState, es: seq<KernelEvent>)
    requires KernelLegalRun(r, es)
    ensures Taken(r, es) + KernelExec(r, es).batch == r.batch
  {
    if es != [] {
      BatchConserved(r, es[..|es| - 1]);
    }
  }

  function SqePtrs(xs: seq<Sqe>): (ps: seq<nat>)
    ensures |ps| == |xs| && forall i :: 0 <= i < |xs| ==> ps[i] == xs[i].userData
  {
    seq(|xs|, i requires 0 <= i < |xs| => xs[i].userData)
  }

  function CqePtrs(xs: seq<Cqe>): (ps: seq<nat>)
    ensures |ps| == |xs| && forall i :: 0 <= i < |xs| ==> ps[i] == xs[i].userData
  {
    seq(|xs|, i requires 0 <= i < |xs| => xs[i].userData)
  }

  /** Every request address the ring or the kernel holds, oldest stage first, so that an
      acceptance leaves the list as it is. */
  function Held(r: RingState): seq<nat> {
    CqePtrs(r.cq) + SqePtrs(r.inflight) + SqePtrs(r.batch)
  }
}
