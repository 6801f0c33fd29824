/** What every request, tick and system call leads to, said of the record of the run so far:
    when the process aborts and why, when and with what status it exits, and what each
    request is answered with. */
module Answers {
  import opened Base
  import opened RingModel
  import opened Machine
  import opened Invariant
  import opened InvariantProof
  import opened Deadlock
  import opened Trace
  import opened Delivery
  import opened Attribution
  import opened Reclaim
  import opened Theorems
  import opened Conservation

  /** Some unanswered request joins this fiber. */
  ghost predicate WaitedFor(s: State, t: Handle) {
    exists p: Ptr :: Waiting(s, p, t)
  }

  /** As many operations are parked as the completion queue has entries. */
  predicate RingFull(ring: RingState) {
    |ring.batch| + |ring.inflight| + |ring.cq| == ring.cqEntries
  }

  /** Nobody is queued and nothing is in the ring or the kernel. */
  predicate Quiescent(s: State) {
    s.ready == [] && s.ring.batch == [] && s.ring.inflight == [] && s.ring.cq == []
  }

  /** The record at an address was detached, or its fiber has exited, by the record `r`. */
  predicate WasDetached(s: State, r: seq<Entry>, t: Handle)
    requires t in s.fibers
  {
    Marked(s.fibers[t].serial) in r
  }

  ghost predicate WasEnded(s: State, r: seq<Entry>, t: Handle)
    requires t in s.fibers
  {
    HasEnded(r, s.fibers[t].serial)
  }

  /** Why the next event aborts the process, if it does; `r` is the record so far. */
  ghost function AbortCause(s: State, r: seq<Entry>, e: Event): Option<Reason>
    requires Legal(s, e) && (e.Ask? ==> s.pc.fiber in s.fibers)
  {
    match e
    case Admit(_) => None
    case Kernel(k) => if k.Enter? && k.result.Failed? then Some(SubmitFailed) else None
    case Tick =>
      if s.pc.Reaping? && s.ring.cq != [] && s.ring.cq[0].streams then Some(Stream)
      else if s.pc.Top? && Quiescent(s) && exists h :: OnCycle(s, h) then Some(JoinCycle)
      else None
    case Ask(_, ask, _, unmapped) =>
      var h := s.pc.fiber;
      match ask
      case Await(sqe) => if sqe.flags != 0 || RingFull(s.ring) then Some(BadAwait) else None
      case Join(t) =>
        if t == h || WasDetached(s, r, t) || WaitedFor(s, t) then Some(BadJoin)
        else if WasEnded(s, r, t) && !unmapped then Some(UnmapFailed)
        else None
      case Detach(t) =>
        if WasDetached(s, r, t) || WaitedFor(s, t) then Some(BadDetach)
        else if WasEnded(s, r, t) && !unmapped then Some(UnmapFailed)
        else None
      case Exit(_) => if (WasDetached(s, r, h) || WaitedFor(s, h)) && !unmapped then Some(UnmapFailed) else None
      case _ => None
  }

  // ---------------------------------------------------------------- fields and the record

  /** The fields of an undestroyed record say what the record of the run says. */
  ghost predicate LivesAgree(s: State, r: seq<Entry>) {
    forall t :: t in s.fibers ==>
      && (s.fibers[t].life.Detached? <==> WasDetached(s, r, t))
      && (s.fibers[t].life.Exited? <==> WasEnded(s, r, t))
      && (s.fibers[t].life.Exited? ==> Ended(s.fibers[t].serial, s.fibers[t].status) in r)
  }

  lemma LivesOnRecord(sqEntries: nat, cqEntries: nat, es: seq<Event>)
    requires BootRun(sqEntries, cqEntries, es)
    ensures LivesAgree(After(sqEntries, cqEntries, es), Seen(sqEntries, cqEntries, es))
  {
    hide Inv, Exec, LegalRun, Feed, StayOk, HasEnded, RecordNext;
    var s, r := After(sqEntries, cqEntries, es), Seen(sqEntries, cqEntries, es);
    BootHolds(sqEntries, cqEntries);
    forall t | t in s.fibers
      ensures s.fibers[t].life.Detached? <==> WasDetached(s, r, t)
      ensures s.fibers[t].life.Exited? <==> WasEnded(s, r, t)
      ensures s.fibers[t].life.Exited? ==> Ended(s.fibers[t].serial, s.fibers[t].status) in r
    {
      var n := s.fibers[t].serial;
      var m := Feed(RecordNext, Watch(n, Unborn), r);
      EveryRecordReleasedOnce(Boot(sqEntries, cqEntries), es, n);
      NeverMisused(s, m);
      MonitorKeepsSerial(Watch(n, Unborn), r);
      Summarised(n, r);
      StayIs(s, t, m);
      if s.fibers[t].life.Exited? {
        ZombieEnded(Watch(n, Unborn), r);
      }
    }
  }

  lemma StayIs(s: State, t: Handle, m: RecordMonitor)
    requires StayOk(s, m) && t in s.fibers && s.fibers[t].serial == m.serial
    ensures m.stay == StayOf(s.fibers[t])
  {
  }

  /** A join slot is taken exactly when somebody waits. */
  lemma SlotTells(s: State, t: Handle)
    requires Inv(s) && t in s.fibers
    ensures s.fibers[t].joiner.Some? <==> WaitedFor(s, t)
    ensures forall p: Ptr :: Waiting(s, p, t) <==> s.fibers[t].joiner == Some(p)
  {
    hide Frames, Queue, Holding, Copies, Lives, Cpu, Undecided, Serials, Counts, Control;
    if s.fibers[t].joiner.Some? {
      assert Waiting(s, s.fibers[t].joiner.value, t);
    }
  }

  // ---------------------------------------------------------------- what may happen next

  lemma NextEvent(sqEntries: nat, cqEntries: nat, es: seq<Event>, e: Event)
    requires BootRun(sqEntries, cqEntries, es) && Legal(After(sqEntries, cqEntries, es), e)
    ensures BootRun(sqEntries, cqEntries, es + [e])
  {
    hide Legal, Step;
    assert (es + [e])[..|es|] == es;
  }

  /** The reactor takes whatever comes: a running fiber may ask anything of records that exist,
      from any unused frame; a system call may return anything the kernel may answer; what is
      in flight may complete at any time; and otherwise the reactor itself can go on. */
  lemma Receptive(sqEntries: nat, cqEntries: nat, es: seq<Event>)
    requires BootRun(sqEntries, cqEntries, es) && !Halted(After(sqEntries, cqEntries, es).pc)
    ensures var s := After(sqEntries, cqEntries, es);
            && (s.pc.Running? ==>
                  forall p: Ptr, ask: Ask, spawned: Option<Handle>, unmapped: bool ::
                    p !in s.requests && (ask.Join? || ask.Detach? ==> ask.target in s.fibers)
                    && (ask.Spawn? && spawned.Some? ==>
                          spawned.value != 0 && spawned.value !in s.fibers && |s.fibers| + 1 < TWO32) ==>
                      BootRun(sqEntries, cqEntries, es + [Ask(p, ask, spawned, unmapped)]))
            && (s.pc.Submitting? || s.pc.Flushing? ==>
                  forall result: EnterResult ::
                    (result.Accepted? ==> result.count <= |s.ring.batch| && (s.ring.batch != [] ==> 0 < result.count)) ==>
                      BootRun(sqEntries, cqEntries, es + [Kernel(Enter(result))]))
            && (forall i: nat, res: int, streams: bool ::
                  i < |s.ring.inflight| ==> BootRun(sqEntries, cqEntries, es + [Kernel(Post(i, res, streams))]))
            && (!s.pc.Running? && !s.pc.Submitting? && !s.pc.Flushing? ==> BootRun(sqEntries, cqEntries, es + [Tick]))
  {
    hide BootRun, After;
    var s := After(sqEntries, cqEntries, es);
    forall e | Legal(s, e)
      ensures BootRun(sqEntries, cqEntries, es + [e])
    {
      NextEvent(sqEntries, cqEntries, es, e);
    }
  }

  // ---------------------------------------------------------------- aborts

  /** This step aborts for this reason, or does not abort. */
  predicate Aborts(s: State, e: Event, cause: Option<Reason>)
    requires Legal(s, e)
  {
    if cause.Some? then Step(s, e).pc == Trapped(cause.value, s.pc) else !Step(s, e).pc.Trapped?
  }

  lemma AwaitAborts(s: State, r: seq<Entry>, e: Event)
    requires Inv(s) && Legal(s, e) && e.Ask? && e.ask.Await? && s.pc.fiber in s.fibers
    ensures Aborts(s, e, AbortCause(s, r, e))
  {
    hide Frames, Queue, Holding, Copies, Joins, Lives, Cpu, Undecided, Serials, Targets, Control;
  }

  lemma JoinAborts(s: State, r: seq<Entry>, e: Event)
    requires Inv(s) && Legal(s, e) && LivesAgree(s, r) && e.Ask? && e.ask.Join? && s.pc.fiber in s.fibers
    ensures Aborts(s, e, AbortCause(s, r, e))
  {
    hide Inv, WaitedFor;
    SlotTells(s, e.ask.target);
  }

  lemma DetachAborts(s: State, r: seq<Entry>, e: Event)
    requires Inv(s) && Legal(s, e) && LivesAgree(s, r) && e.Ask? && e.ask.Detach? && s.pc.fiber in s.fibers
    ensures Aborts(s, e, AbortCause(s, r, e))
  {
    hide Inv, WaitedFor;
    SlotTells(s, e.ask.target);
  }

  lemma ExitAborts(s: State, r: seq<Entry>, e: Event)
    requires Inv(s) && Legal(s, e) && LivesAgree(s, r) && e.Ask? && e.ask.Exit? && s.pc.fiber in s.fibers
    ensures Aborts(s, e, AbortCause(s, r, e))
  {
    hide Inv, WaitedFor;
    SlotTells(s, s.pc.fiber);
    SlotOfRunner(s);
  }

  lemma TickAborts(s: State, r: seq<Entry>)
    requires Inv(s) && Legal(s, Tick)
    ensures Aborts(s, Tick, AbortCause(s, r, Tick))
  {
    hide Inv, OnCycle;
    if s.pc.Top? {
      TopDecides(s);
    } else {
      StepKeeps(s, Tick);
      SafeState(Step(s, Tick));
      OnlyStreams(s);
    }
  }

  /** Below the loop test a tick that meets no stale address and no full batch aborts only for
      a stream. */
  lemma OnlyStreams(s: State)
    requires Legal(s, Tick) && !s.pc.Top?
    requires var pc := Step(s, Tick).pc; !(pc.Trapped? && (pc.reason == Fault || pc.reason == SubmissionFull))
    ensures Step(s, Tick).pc.Trapped? <==> s.pc.Reaping? && s.ring.cq != [] && s.ring.cq[0].streams
    ensures Step(s, Tick).pc.Trapped? ==> Step(s, Tick).pc == Trapped(Stream, s.pc)
  {
  }

  /** The loop test: a drained reactor aborts if there is a join cycle and returns if not. */
  lemma TopDecides(s: State)
    requires Inv(s) && s.pc.Top?
    ensures Step(s, Tick).pc == Trapped(JoinCycle, Top) <==> Quiescent(s) && exists h :: OnCycle(s, h)
    ensures Step(s, Tick).pc == Returned(0, Top) <==> Quiescent(s) && forall h :: !OnCycle(s, h)
    ensures Step(s, Tick).pc.Returned? ==> Step(s, Tick).pc == Returned(0, Top)
    ensures Step(s, Tick).pc.Trapped? ==> Step(s, Tick).pc == Trapped(JoinCycle, Top)
  {
    hide Inv, OnCycle;
    KeepTop(s);
    DrainedIsQuiescent(s);
    if Drained(s) {
      DrainVerdict(s);
    }
  }

  lemma DrainedIsQuiescent(s: State)
    requires Inv(s)
    ensures Drained(s) <==> Quiescent(s)
  {
    hide Frames, Queue, Holding, Copies, Joins, Lives, Cpu, Undecided, Serials, Targets, Control;
  }

  lemma StepAborts(s: State, r: seq<Entry>, e: Event)
    requires Inv(s) && Legal(s, e) && LivesAgree(s, r) && (e.Ask? ==> s.pc.fiber in s.fibers)
    ensures Aborts(s, e, AbortCause(s, r, e))
  {
    hide Inv, LivesAgree, WaitedFor, OnCycle;
    if e.Tick? {
      TickAborts(s, r);
    } else if e.Ask? && e.ask.Await? {
      AwaitAborts(s, r, e);
    } else if e.Ask? && e.ask.Join? {
      JoinAborts(s, r, e);
    } else if e.Ask? && e.ask.Detach? {
      DetachAborts(s, r, e);
    } else if e.Ask? && e.ask.Exit? {
      ExitAborts(s, r, e);
    }
  }

  /** The run before its last event. */
  lemma LastEvent(sqEntries: nat, cqEntries: nat, es: seq<Event>, e: Event)
    requires BootRun(sqEntries, cqEntries, es + [e])
    ensures BootRun(sqEntries, cqEntries, es)
    ensures var s := After(sqEntries, cqEntries, es);
            && Inv(s) && Legal(s, e) && (e.Ask? ==> s.pc.fiber in s.fibers)
            && After(sqEntries, cqEntries, es + [e]) == Step(s, e)
            && Seen(sqEntries, cqEntries, es + [e]) == Seen(sqEntries, cqEntries, es) + Emits(s, e)
  {
    hide Inv, Step, Emits;
    assert (es + [e])[..|es|] == es;
    BootHolds(sqEntries, cqEntries);
    RunKeeps(Boot(sqEntries, cqEntries), es);
    if e.Ask? {
      RunnerExists(After(sqEntries, cqEntries, es));
    }
  }

  /** The process aborts exactly for these causes, in every run: an error of the submit, a
      stream, a join cycle, a release that failed, an AWAIT with flags or beyond the completion
      queue, a JOIN of oneself, of a detached fiber or of one that is being joined, a DETACH of
      either of the latter two. */
  lemma AbortsExactly(sqEntries: nat, cqEntries: nat, es: seq<Event>, e: Event)
    requires BootRun(sqEntries, cqEntries, es + [e])
    ensures BootRun(sqEntries, cqEntries, es)
    ensures var s := After(sqEntries, cqEntries, es);
            && Legal(s, e) && (e.Ask? ==> s.pc.fiber in s.fibers)
            && match AbortCause(s, Seen(sqEntries, cqEntries, es), e)
               case Some(reason) => After(sqEntries, cqEntries, es + [e]).pc == Trapped(reason, s.pc)
               case None => !After(sqEntries, cqEntries, es + [e]).pc.Trapped?
  {
    hide Inv, Legal, Step, LegalRun, Exec, AbortCause, LivesAgree;
    LastEvent(sqEntries, cqEntries, es, e);
    LivesOnRecord(sqEntries, cqEntries, es);
    StepAborts(After(sqEntries, cqEntries, es), Seen(sqEntries, cqEntries, es), e);
  }

  // ---------------------------------------------------------------- exits

  /** The reactor returns exactly when a fiber asks for the process to exit, then with the
      status asked for, or when it is drained and there is no join cycle, then with zero. */
  lemma ReturnsExactly(sqEntries: nat, cqEntries: nat, es: seq<Event>, e: Event)
    requires BootRun(sqEntries, cqEntries, es + [e])
    ensures BootRun(sqEntries, cqEntries, es)
    ensures var s := After(sqEntries, cqEntries, es);
            var pc := After(sqEntries, cqEntries, es + [e]).pc;
            && (forall code :: e.Ask? && e.ask == ProcessExit(code) ==> pc == Returned(code, s.pc))
            && (e.Tick? && s.pc.Top? && Quiescent(s) && (forall h :: !OnCycle(s, h)) ==> pc == Returned(0, Top))
            && (pc.Returned? ==>
                  || (e.Ask? && e.ask == ProcessExit(pc.status))
                  || (e.Tick? && s.pc.Top? && pc.status == 0 && Quiescent(s) && forall h :: !OnCycle(s, h)))
  {
    hide Inv, LegalRun, Exec, OnCycle;
    LastEvent(sqEntries, cqEntries, es, e);
    var s := After(sqEntries, cqEntries, es);
    if e.Tick? && s.pc.Top? {
      TopDecides(s);
    } else {
      OthersReturn(s, e);
    }
  }

  lemma OthersReturn(s: State, e: Event)
    requires Legal(s, e) && (e.Ask? ==> s.pc.fiber in s.fibers) && !(e.Tick? && s.pc.Top?)
    ensures e.Ask? && e.ask.ProcessExit? ==> Step(s, e).pc == Returned(e.ask.code, s.pc)
    ensures Step(s, e).pc.Returned? ==> e.Ask? && e.ask.ProcessExit?
  {
    hide KernelStep;
  }

  // ---------------------------------------------------------------- requests

  /** The number of the fiber that asks. */
  function Asker(s: State): nat
    requires s.pc.Running? && s.pc.fiber in s.fibers
  {
    s.fibers[s.pc.fiber].serial
  }

  /** A JOIN that is not refused: of a fiber that has exited it is answered at once with the
      status it exited with, and the record is released; of another it waits. */
  lemma JoinOutcome(sqEntries: nat, cqEntries: nat, es: seq<Event>, e: Event)
    requires BootRun(sqEntries, cqEntries, es + [e]) && e.Ask? && e.ask.Join?
    requires !After(sqEntries, cqEntries, es + [e]).pc.Trapped?
    ensures BootRun(sqEntries, cqEntries, es)
    ensures var s, r := After(sqEntries, cqEntries, es), Seen(sqEntries, cqEntries, es);
            var p, t := e.request, e.ask.target;
            && s.pc.Running? && s.pc.fiber in s.fibers && t in s.fibers
            && var asked, n := Asked(p, e.ask, Asker(s)), s.fibers[t].serial;
               if WasEnded(s, r, t) then
                 exists v :: Ended(n, v) in r
                             && Seen(sqEntries, cqEntries, es + [e]) == r + [asked, JoinAnswered(p, t, n, v), Destroyed(n)]
               else Seen(sqEntries, cqEntries, es + [e]) == r + [asked] && Waiting(After(sqEntries, cqEntries, es + [e]), p, t)
  {
    hide Inv, LegalRun, Exec, HasEnded;
    LastEvent(sqEntries, cqEntries, es, e);
    LivesOnRecord(sqEntries, cqEntries, es);
    JoinEntries(After(sqEntries, cqEntries, es), e);
  }

  lemma JoinEntries(s: State, e: Event)
    requires Legal(s, e) && e.Ask? && e.ask.Join? && s.pc.fiber in s.fibers && !Step(s, e).pc.Trapped?
    ensures var p, t := e.request, e.ask.target;
            var asked, n := Asked(p, e.ask, Asker(s)), s.fibers[t].serial;
            if s.fibers[t].life.Exited? then
              Emits(s, e) == [asked, JoinAnswered(p, t, n, s.fibers[t].status), Destroyed(n)]
            else Emits(s, e) == [asked] && Waiting(Step(s, e), p, t)
  {
  }

  /** A DETACH that is not refused: of a fiber that has exited it releases the record, of
      another it leaves the mark by which its exit will. */
  lemma DetachOutcome(sqEntries: nat, cqEntries: nat, es: seq<Event>, e: Event)
    requires BootRun(sqEntries, cqEntries, es + [e]) && e.Ask? && e.ask.Detach?
    requires !After(sqEntries, cqEntries, es + [e]).pc.Trapped?
    ensures BootRun(sqEntries, cqEntries, es)
    ensures var s, r := After(sqEntries, cqEntries, es), Seen(sqEntries, cqEntries, es);
            var p, t := e.request, e.ask.target;
            && s.pc.Running? && s.pc.fiber in s.fibers && t in s.fibers
            && var asked, n := Asked(p, e.ask, Asker(s)), s.fibers[t].serial;
               Seen(sqEntries, cqEntries, es + [e]) ==
               r + [asked, Answered(p, 0)] + if WasEnded(s, r, t) then [Discarded(n), Destroyed(n)] else [Marked(n)]
  {
    hide Inv, LegalRun, Exec, HasEnded;
    LastEvent(sqEntries, cqEntries, es, e);
    LivesOnRecord(sqEntries, cqEntries, es);
    DetachEntries(After(sqEntries, cqEntries, es), e);
  }

  lemma DetachEntries(s: State, e: Event)
    requires Legal(s, e) && e.Ask? && e.ask.Detach? && s.pc.fiber in s.fibers && !Step(s, e).pc.Trapped?
    ensures var p, t := e.request, e.ask.target;
            var asked, n := Asked(p, e.ask, Asker(s)), s.fibers[t].serial;
            Emits(s, e) ==
            [asked, Answered(p, 0)] + if s.fibers[t].life.Exited? then [Discarded(n), Destroyed(n)] else [Marked(n)]
  {
  }

  /** An EXIT that does not fail to release: a detached record goes, a join that waits is
      answered with the status and the record goes, and otherwise the record stays. */
  lemma ExitOutcome(sqEntries: nat, cqEntries: nat, es: seq<Event>, e: Event)
    requires BootRun(sqEntries, cqEntries, es + [e]) && e.Ask? && e.ask.Exit?
    requires !After(sqEntries, cqEntries, es + [e]).pc.Trapped?
    ensures BootRun(sqEntries, cqEntries, es)
    ensures var s, r := After(sqEntries, cqEntries, es), Seen(sqEntries, cqEntries, es);
            && s.pc.Running? && s.pc.fiber in s.fibers
            && var h, n, status := s.pc.fiber, Asker(s), e.ask.status;
               var r' := Seen(sqEntries, cqEntries, es + [e]);
               && (WasDetached(s, r, h) ==> r' == r + [Ended(n, status), Destroyed(n)])
               && (forall p: Ptr :: Waiting(s, p, h) ==> r' == r + [Ended(n, status), JoinAnswered(p, h, n, status), Destroyed(n)])
               && (!WasDetached(s, r, h) && !WaitedFor(s, h) ==> r' == r + [Ended(n, status)])
  {
    hide Inv, LegalRun, Exec, HasEnded, Waiting, WaitedFor;
    LastEvent(sqEntries, cqEntries, es, e);
    LivesOnRecord(sqEntries, cqEntries, es);
    SlotTells(After(sqEntries, cqEntries, es), After(sqEntries, cqEntries, es).pc.fiber);
    SlotOfRunner(After(sqEntries, cqEntries, es));
    ExitEmitted(After(sqEntries, cqEntries, es), e);
  }

  lemma ExitEmitted(s: State, e: Event)
    requires Legal(s, e) && e.Ask? && e.ask.Exit? && s.pc.fiber in s.fibers && !Step(s, e).pc.Trapped?
    requires var f := s.fibers[s.pc.fiber]; f.joiner.Some? ==> f.life.Live? && f.joiner.value in s.requests
    ensures var f, status := s.fibers[s.pc.fiber], e.ask.status;
            Emits(s, e) ==
            [Ended(f.serial, status)] +
            if f.life.Detached? then [Destroyed(f.serial)]
            else if f.joiner.Some? then [JoinAnswered(f.joiner.value, s.pc.fiber, f.serial, status), Destroyed(f.serial)]
            else []
  {
  }

  /** A SPAWN is answered with the handle of the record that was allocated, which is born
      then and there; or with null, and nobody is born, if there was no allocation. */
  lemma SpawnOutcome(sqEntries: nat, cqEntries: nat, es: seq<Event>, e: Event)
    requires BootRun(sqEntries, cqEntries, es + [e]) && e.Ask? && e.ask.Spawn?
    ensures BootRun(sqEntries, cqEntries, es)
    ensures var s, r := After(sqEntries, cqEntries, es), Seen(sqEntries, cqEntries, es);
            && s.pc.Running? && s.pc.fiber in s.fibers
            && var asked := Asked(e.request, Spawn, Asker(s));
               Seen(sqEntries, cqEntries, es + [e]) ==
               r + match e.spawned
                   case Some(c) => [asked, Answered(e.request, c), Born(s.born, c, Some(Asker(s)))]
                   case None => [asked, Answered(e.request, 0)]
  {
    hide Inv, LegalRun, Exec;
    LastEvent(sqEntries, cqEntries, es, e);
  }

  /** An AWAIT that is not refused is held by `park`, to be put in the batch next. */
  lemma AwaitOutcome(sqEntries: nat, cqEntries: nat, es: seq<Event>, e: Event)
    requires BootRun(sqEntries, cqEntries, es + [e]) && e.Ask? && e.ask.Await?
    requires !After(sqEntries, cqEntries, es + [e]).pc.Trapped?
    ensures BootRun(sqEntries, cqEntries, es)
    ensures var s, s' := After(sqEntries, cqEntries, es), After(sqEntries, cqEntries, es + [e]);
            && s.pc.Running? && s.pc.fiber in s.fibers
            && Seen(sqEntries, cqEntries, es + [e]) ==
               Seen(sqEntries, cqEntries, es) + [Asked(e.request, e.ask, Asker(s))]
            && s'.pc == Appending(e.request, s.pc.turns, false)
            && e.request in s'.requests && s'.requests[e.request].ask == e.ask && s'.requests[e.request].fiber == s.pc.fiber
  {
    hide Inv, LegalRun, Exec;
    LastEvent(sqEntries, cqEntries, es, e);
  }

  /** `park` writes the caller's submission with the request's address, and flushes first
      exactly when the batch is full. */
  lemma ParkOutcome(sqEntries: nat, cqEntries: nat, es: seq<Event>)
    requires BootRun(sqEntries, cqEntries, es + [Tick])
    ensures BootRun(sqEntries, cqEntries, es)
    ensures var s, r := After(sqEntries, cqEntries, es), Seen(sqEntries, cqEntries, es);
            var s', r' := After(sqEntries, cqEntries, es + [Tick]), Seen(sqEntries, cqEntries, es + [Tick]);
            s.pc.Appending? ==>
              var p := s.pc.request;
              && p in s.requests && s.requests[p].ask.Await?
              && if |s.ring.batch| == s.ring.sqEntries then s'.pc == Flushing(p, s.pc.turns) && r' == r
                 else s'.pc == Sweep(s.pc.turns) && r' == r + [Batched(p, s.requests[p].ask.sqe.(userData := p))]
  {
    hide LegalRun, Exec;
    hide Frames, Queue, Holding, Copies, Joins, Lives, Cpu, Undecided, Serials, Targets, Held;
    LastEvent(sqEntries, cqEntries, es, Tick);
    var s := After(sqEntries, cqEntries, es);
    if s.pc.Appending? {
      ParkerAt(s.requests, s.pc.request);
    }
  }
}
