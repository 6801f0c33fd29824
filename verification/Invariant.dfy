/** What every step of the reactor keeps: who owns each record and each request, what the
    three counters count, and where control can be. */
module Invariant {
  import opened Base
  import opened RingModel
  import opened Machine

  type Records = map<Handle, Fiber>
  type Requests = map<Ptr, Request>

  // ---------------------------------------------------------------- classes of fibers

  datatype Place = Ready | OnTheCpu | Parking | InRing | Blocked | Finished

  function PlaceIn(fs: Records, rs: Requests, h: Handle): Place
    requires h in fs
  {
    match fs[h].context
    case Fresh => Ready
    case OnCpu => OnTheCpu
    case Poisoned => Finished
    case Suspended(p) =>
      if p !in rs || rs[p].stage.Done? then Ready
      else if rs[p].stage.Parked? then InRing
      else if rs[p].ask.Join? then Blocked
      else Parking
  }

  function PlaceOf(s: State, h: Handle): Place
    requires h in s.fibers
  {
    PlaceIn(s.fibers, s.requests, h)
  }

  /** The fiber on the CPU, also when the run stopped while it was. */
  function Runner(pc: Pc): Option<Handle> {
    match pc
    case Running(h, _) => Some(h)
    case Trapped(_, at) => Runner(at)
    case Returned(_, at) => Runner(at)
    case _ => None
  }

  /** The request `park` is holding but has not yet put in the batch. */
  function Parker(pc: Pc): Option<Ptr> {
    match pc
    case Appending(p, _, _) => Some(p)
    case Flushing(p, _) => Some(p)
    case Trapped(_, at) => Parker(at)
    case Returned(_, at) => Parker(at)
    case _ => None
  }

  /** How many fibers of the current sweep are still to run. */
  function Turns(pc: Pc): nat {
    match pc
    case Sweep(n) => n
    case Running(_, n) => n
    case Appending(_, n, _) => n
    case Flushing(_, n) => n
    case _ => 0
  }

  /** The records some join waits on. */
  function Targets(fs: Records): set<Handle> {
    set t | t in fs && fs[t].joiner.Some?
  }

  // ---------------------------------------------------------------- the invariant

  /** A request lives on the frame of exactly one suspended, undestroyed fiber. */
  ghost predicate Frames(fs: Records, rs: Requests) {
    && (forall p :: p in rs ==> rs[p].fiber in fs && fs[rs[p].fiber].context == Suspended(p))
    && (forall h :: h in fs && fs[h].context.Suspended? ==>
          fs[h].context.frame in rs && rs[fs[h].context.frame].fiber == h)
  }

  /** The queue lists the ready fibers, once each. */
  ghost predicate Queue(fs: Records, rs: Requests, ready: seq<Handle>) {
    && Distinct(ready)
    && (forall h :: h in ready ==> h in fs && PlaceIn(fs, rs, h) == Ready)
    && (forall h :: h in fs && PlaceIn(fs, rs, h) == Ready ==> h in ready)
  }

  /** The ring and the kernel hold the parked requests, once each. */
  ghost predicate Holding(rs: Requests, held: seq<Ptr>) {
    && Distinct(held)
    && (forall p :: p in held ==> p in rs && rs[p].stage.Parked?)
    && (forall p :: p in rs && rs[p].stage.Parked? ==> p in held)
  }

  /** The copy in the ring is the caller's submission with only `user_data` changed. */
  ghost predicate Copies(rs: Requests, ring: RingState) {
    && (forall p :: p in rs && rs[p].stage.Parked? ==>
          rs[p].ask.Await? && rs[p].stage.sqe == rs[p].ask.sqe.(userData := p))
    && (forall q :: q in ring.batch ==> q.userData in rs && rs[q.userData].stage == Parked(q))
    && (forall q :: q in ring.inflight ==> q.userData in rs && rs[q.userData].stage == Parked(q))
  }

  /** Join slots and blocked joins point at each other. */
  ghost predicate Joins(fs: Records, rs: Requests) {
    && (forall t :: t in fs && fs[t].joiner.Some? ==>
          && fs[t].life.Live?
          && fs[t].joiner.value in rs
          && rs[fs[t].joiner.value].ask == Join(t)
          && rs[fs[t].joiner.value].stage.Pending?)
    && (forall p :: p in rs && rs[p].stage.Pending? && rs[p].ask.Join? ==>
          rs[p].ask.target in fs && fs[rs[p].ask.target].joiner == Some(p))
  }

  /** Exactly the exited fibers have a poisoned context. */
  ghost predicate Lives(fs: Records) {
    forall h :: h in fs ==> (fs[h].context.Poisoned? <==> fs[h].life.Exited?)
  }

  /** The running fiber, and only it, has a stale context. */
  ghost predicate Cpu(fs: Records, runner: Option<Handle>) {
    && (runner.Some? ==> runner.value in fs)
    && (forall h :: h in fs ==> (fs[h].context.OnCpu? <==> runner == Some(h)))
  }

  /** A request still undecided is a blocked join or the one `park` holds. */
  ghost predicate Undecided(rs: Requests, parker: Option<Ptr>) {
    && (parker.Some? ==> parker.value in rs && rs[parker.value].stage.Pending? && rs[parker.value].ask.Await?)
    && (forall p :: p in rs && rs[p].stage.Pending? ==> rs[p].ask.Join? || parker == Some(p))
  }

  ghost predicate Counts(s: State) {
    && |s.fibers| < TWO32
    && s.readyCount == |s.ready|
    && s.parkedCount == |Held(s.ring)| <= s.ring.cqEntries < TWO32
    && s.joiningCount == |Targets(s.fibers)|
    && |s.ring.batch| <= s.ring.sqEntries
    && 0 < s.ring.sqEntries
  }

  /** Both counters of the loop test are zero. */
  predicate Drained(s: State) {
    s.readyCount == 0 && s.parkedCount == 0
  }

  ghost predicate Control(s: State) {
    && Turns(s.pc) <= |s.ready|
    && match s.pc
       case Top => s.ring.batch == []
       case Appending(_, _, retry) => s.parkedCount < s.ring.cqEntries && (retry ==> s.ring.batch == [])
       case Flushing(_, _) => s.parkedCount < s.ring.cqEntries
       case Submitting(min) => 0 < s.parkedCount && min == (if s.ready == [] then 1 else 0)
       case Reaping(owed) => s.ring.batch == [] && (owed != 0 ==> owed == 1 && s.ready == [])
       case Trapped(reason, at) =>
         && reason != Fault && reason != SubmissionFull && !Halted(at)
         && (reason == JoinCycle ==> at.Top? && Drained(s) && s.joiningCount != 0)
       case Returned(status, at) =>
         && !Halted(at)
         && (at.Top? ==> status == 0 && Drained(s) && s.joiningCount == 0)
       case _ => true
  }

  /** Births are numbered, and no two undestroyed records share a number. */
  ghost predicate Serials(fs: Records, born: nat) {
    && (forall h :: h in fs ==> fs[h].serial < born)
    && (forall h, g :: h in fs && g in fs && fs[h].serial == fs[g].serial ==> h == g)
  }

  ghost predicate Inv(s: State) {
    && Frames(s.fibers, s.requests)
    && Queue(s.fibers, s.requests, s.ready)
    && Holding(s.requests, Held(s.ring))
    && Copies(s.requests, s.ring)
    && Joins(s.fibers, s.requests)
    && Lives(s.fibers)
    && Cpu(s.fibers, Runner(s.pc))
    && Undecided(s.requests, Parker(s.pc))
    && Serials(s.fibers, s.born)
    && Counts(s)
    && Control(s)
  }
}
