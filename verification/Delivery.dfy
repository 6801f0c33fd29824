/** The life of a request over whole runs: asked once, submitted once, completed once,
    answered with that completion's result, returned to the fiber that asked. */
module Delivery {
  import opened Base
  import opened RingModel
  import opened Machine
  import opened Invariant
  import opened InvariantProof
  import opened Trace
  import opened Fairness

  datatype Phase =
    | Idle
    | WasAsked(ask: Ask)
    | InBatch(sqe: Sqe)
    | InKernel(sqe: Sqe)
    | Completed(res: int)
    | Replied(value: int)
    | Broken

  /** Follows the request address `p`; `asker` is the serial number of its asker. */
  datatype RequestMonitor = Follow(p: Ptr, asker: nat, phase: Phase)

  /** `sqe` is in the list, and nothing else there carries the same address. */
  predicate OnlyCopy(sqes: seq<Sqe>, sqe: Sqe) {
    exists i :: 0 <= i < |sqes| && sqes[i] == sqe
                && forall j :: 0 <= j < |sqes| && j != i ==> sqes[j].userData != sqe.userData
  }

  predicate Carries(sqes: seq<Sqe>, p: Ptr) {
    exists q :: q in sqes && q.userData == p
  }

  function RequestNext(m: RequestMonitor, e: Entry): RequestMonitor {
    match e
    case Asked(q, ask, n) =>
      if q != m.p then m
      else if m.phase.Idle? then Follow(m.p, n, WasAsked(ask))
      else m.(phase := Broken)
    case Batched(q, sqe) =>
      if q != m.p then m
      else if m.phase.WasAsked? && m.phase.ask.Await? && sqe == m.phase.ask.sqe.(userData := m.p)
      then m.(phase := InBatch(sqe))
      else m.(phase := Broken)
    case Consumed(sqes) =>
      if !Carries(sqes, m.p) then m
      else if m.phase.InBatch? && m.phase.sqe.userData == m.p && OnlyCopy(sqes, m.phase.sqe)
      then m.(phase := InKernel(m.phase.sqe))
      else m.(phase := Broken)
    case Posted(q, res) =>
      if q != m.p then m
      else if m.phase.InKernel? then m.(phase := Completed(res))
      else m.(phase := Broken)
    case Woken(q, value, _) =>
      if q != m.p then m
      else if m.phase == Completed(value) then m.(phase := Replied(value))
      else m.(phase := Broken)
    case JoinAnswered(q, t, _, value) =>
      if q != m.p then m
      else if m.phase == WasAsked(Join(t)) then m.(phase := Replied(value))
      else m.(phase := Broken)
    case Answered(q, value) =>
      if q != m.p then m
      else if m.phase.WasAsked? && (m.phase.ask.Yield? || m.phase.ask.Spawn? || m.phase.ask.Detach?)
      then m.(phase := Replied(value))
      else m.(phase := Broken)
    case CallReturned(q, value, n) =>
      if q != m.p then m
      else if m.phase == Replied(value) && n == m.asker then m.(phase := Idle)
      else m.(phase := Broken)
    case _ => m
  }

  /** The phase of a request read off the state. */
  ghost predicate PhaseOk(s: State, m: RequestMonitor) {
    if m.phase.Idle? then m.p !in s.requests
    else
      && m.p in s.requests
      && s.requests[m.p].fiber in s.fibers
      && s.fibers[s.requests[m.p].fiber].serial == m.asker
      && match m.phase
         case WasAsked(ask) => s.requests[m.p].stage.Pending? && s.requests[m.p].ask == ask
         case InBatch(sqe) => s.requests[m.p].stage == Parked(sqe) && sqe in s.ring.batch
         case InKernel(sqe) => s.requests[m.p].stage == Parked(sqe) && sqe in s.ring.inflight
         case Completed(res) => s.requests[m.p].stage.Parked? && InQueue(s.ring.cq, m.p, res)
         case Replied(value) => s.requests[m.p].stage.Done? && s.requests[m.p].result == value
         case _ => false
  }

  predicate InQueue(cq: seq<Cqe>, p: Ptr, res: int) {
    exists c :: c in cq && c.userData == p && c.res == res
  }

  // ---------------------------------------------------------------- positions in the ring

  /** An address in flight is neither in the batch nor in the completion queue. */
  lemma InFlightAlone(s: State, i: nat)
    requires Inv(s) && i < |s.ring.inflight|
    ensures !Carries(s.ring.batch, s.ring.inflight[i].userData)
    ensures forall c :: c in s.ring.cq ==> c.userData != s.ring.inflight[i].userData
    ensures forall j :: 0 <= j < |s.ring.inflight| && j != i ==>
              s.ring.inflight[j].userData != s.ring.inflight[i].userData
  {
    hide Frames, Queue, Copies, Joins, Lives, Cpu, Undecided, Serials, Counts, Control;
    var held, nc, nf := Held(s.ring), |s.ring.cq|, |s.ring.inflight|;
    assert held[nc + i] == s.ring.inflight[i].userData;
    forall c | c in s.ring.cq
      ensures c.userData != s.ring.inflight[i].userData
    {
      var j :| 0 <= j < nc && s.ring.cq[j] == c;
      assert held[j] == c.userData;
    }
    forall q | q in s.ring.batch
      ensures q.userData != s.ring.inflight[i].userData
    {
      var j :| 0 <= j < |s.ring.batch| && s.ring.batch[j] == q;
      assert held[nc + nf + j] == q.userData;
    }
    forall j | 0 <= j < nf && j != i
      ensures s.ring.inflight[j].userData != s.ring.inflight[i].userData
    {
      assert held[nc + j] == s.ring.inflight[j].userData;
    }
  }

  /** The head of the completion queue is held nowhere else. */
  lemma HeadAlone(s: State)
    requires Inv(s) && s.ring.cq != []
    ensures !Carries(s.ring.batch, s.ring.cq[0].userData)
    ensures !Carries(s.ring.inflight, s.ring.cq[0].userData)
    ensures forall j :: 0 < j < |s.ring.cq| ==> s.ring.cq[j].userData != s.ring.cq[0].userData
  {
    hide Frames, Queue, Copies, Joins, Lives, Cpu, Undecided, Serials, Counts, Control, Held, Holding;
    HeadElsewhere(s.requests, s.ring);
  }

  /** Within the batch an address occurs once, and only there. */
  lemma BatchAlone(s: State, i: nat)
    requires Inv(s) && i < |s.ring.batch|
    ensures !Carries(s.ring.inflight, s.ring.batch[i].userData)
    ensures forall c :: c in s.ring.cq ==> c.userData != s.ring.batch[i].userData
    ensures forall j :: 0 <= j < |s.ring.batch| && j != i ==> s.ring.batch[j].userData != s.ring.batch[i].userData
  {
    hide Frames, Queue, Copies, Joins, Lives, Cpu, Undecided, Serials, Counts, Control;
    var held, nc, nf := Held(s.ring), |s.ring.cq|, |s.ring.inflight|;
    assert held[nc + nf + i] == s.ring.batch[i].userData;
    forall c | c in s.ring.cq
      ensures c.userData != s.ring.batch[i].userData
    {
      var j :| 0 <= j < nc && s.ring.cq[j] == c;
      assert held[j] == c.userData;
    }
    forall q | q in s.ring.inflight
      ensures q.userData != s.ring.batch[i].userData
    {
      var j :| 0 <= j < nf && s.ring.inflight[j] == q;
      assert held[nc + j] == q.userData;
    }
    forall j | 0 <= j < |s.ring.batch| && j != i
      ensures s.ring.batch[j].userData != s.ring.batch[i].userData
    {
      assert held[nc + nf + j] == s.ring.batch[j].userData;
    }
  }

  lemma CopyAddress(s: State, p: Ptr, sqe: Sqe)
    requires Inv(s) && p in s.requests && s.requests[p].stage == Parked(sqe)
    ensures sqe.userData == p
  {
    hide Frames, Queue, Joins, Lives, Cpu, Undecided, Serials, Counts, Control, Held;
  }

  // ---------------------------------------------------------------- kernel steps

  lemma DeliverPost(s: State, k: KernelEvent, m: RequestMonitor)
    requires Inv(s) && Legal(s, Kernel(k)) && k.Post? && PhaseOk(s, m)
    ensures PhaseOk(StepKernel(s, k), Feed(RequestNext, m, Emits(s, Kernel(k))))
  {
    hide Frames, Queue, Holding, Copies, Joins, Lives, Cpu, Undecided, Serials, Held, Targets;
    var i, q := k.index, s.ring.inflight[k.index];
    FeedOne(RequestNext, m, Posted(q.userData, k.res));
    var r := KernelStep(s.ring, k);
    InFlightAlone(s, i);
    assert q in s.ring.inflight;
    InFlightStage(s, q);
    if m.phase.InBatch? || m.phase.InKernel? {
      CopyAddress(s, m.p, m.phase.sqe);
    }
    if m.p == q.userData {
      assert r.cq[|s.ring.cq|] == Cqe(q.userData, k.res, k.streams);
      assert InQueue(r.cq, m.p, k.res);
    } else if m.phase.InKernel? {
      var j :| 0 <= j < |s.ring.inflight| && s.ring.inflight[j] == m.phase.sqe;
      assert m.phase.sqe == r.inflight[if j < i then j else j - 1];
    }
  }

  lemma InFlightStage(s: State, q: Sqe)
    requires Inv(s) && (q in s.ring.inflight || q in s.ring.batch)
    ensures q.userData in s.requests && s.requests[q.userData].stage == Parked(q)
  {
    hide Frames, Queue, Holding, Joins, Lives, Cpu, Undecided, Serials, Counts, Control, Held;
  }

  /** The phase does not depend on the control point. */
  lemma PhaseAnyPc(s: State, s': State, m: RequestMonitor)
    requires PhaseOk(s, m)
    requires s'.requests == s.requests && s'.fibers == s.fibers && s'.ring == s.ring
    ensures PhaseOk(s', m)
  {
  }

  lemma DeliverEnter(s: State, k: KernelEvent, m: RequestMonitor)
    requires Inv(s) && Legal(s, Kernel(k)) && k.Enter? && PhaseOk(s, m)
    ensures PhaseOk(StepKernel(s, k), Feed(RequestNext, m, Emits(s, Kernel(k))))
  {
    hide Inv, PhaseOk;
    var s' := StepKernel(s, k);
    if k.result.Accepted? {
      var consumed := Consumed(s.ring.batch[..k.result.count]);
      DeliverConsumed(s, k.result.count, m);
      FeedOne(RequestNext, m, consumed);
      FeedTwo(RequestNext, m, consumed, Submitted);
      PhaseAnyPc(s.(ring := s'.ring), s', RequestNext(m, consumed));
    } else {
      PhaseAnyPc(s, s', m);
    }
  }

  lemma DeliverConsumed(s: State, n: nat, m: RequestMonitor)
    requires Inv(s) && KernelLegal(s.ring, Enter(Accepted(n))) && PhaseOk(s, m)
    ensures PhaseOk(s.(ring := KernelStep(s.ring, Enter(Accepted(n)))), RequestNext(m, Consumed(s.ring.batch[..n])))
  {
    hide Frames, Queue, Holding, Copies, Joins, Lives, Cpu, Undecided, Serials, Held, Targets;
    var taken := s.ring.batch[..n];
    var r := KernelStep(s.ring, Enter(Accepted(n)));
    if Carries(taken, m.p) {
      var q :| q in taken && q.userData == m.p;
      var i :| 0 <= i < n && s.ring.batch[i] == q;
      BatchAlone(s, i);
      InFlightStage(s, q);
      assert OnlyCopy(taken, q) by {
        assert taken[i] == q;
      }
      assert q in r.inflight by {
        assert r.inflight[|s.ring.inflight| + i] == q;
      }
    } else if m.phase.InBatch? {
      CopyAddress(s, m.p, m.phase.sqe);
      var i :| 0 <= i < |s.ring.batch| && s.ring.batch[i] == m.phase.sqe;
      assert n <= i;
      assert r.batch[i - n] == m.phase.sqe;
    }
  }

  // ---------------------------------------------------------------- ticks

  lemma DeliverReap(s: State, m: RequestMonitor)
    requires Inv(s) && s.pc.Reaping? && PhaseOk(s, m)
    ensures PhaseOk(StepReap(s), Feed(RequestNext, m, Emits(s, Tick)))
  {
    hide Frames, Queue, Holding, Copies, Joins, Lives, Cpu, Undecided, Serials, Held, Targets;
    if s.ring.cq != [] && !s.ring.cq[0].streams {
      CompletionAt(s);
      HeadAlone(s);
      var c := s.ring.cq[0];
      FeedOne(RequestNext, m, Woken(c.userData, ResultAt(StepReap(s), c.userData), s.requests[c.userData].fiber));
      if m.phase.InBatch? || m.phase.InKernel? {
        CopyAddress(s, m.p, m.phase.sqe);
      }
      if m.phase.Completed? {
        var d :| d in s.ring.cq && d.userData == m.p && d.res == m.phase.res;
        var j :| 0 <= j < |s.ring.cq| && s.ring.cq[j] == d;
        if j > 0 {
          assert s.ring.cq[1..][j - 1] == d;
        }
      }
    }
  }

  lemma DeliverDispatch(s: State, m: RequestMonitor)
    requires Inv(s) && s.pc.Sweep? && s.pc.turns > 0 && PhaseOk(s, m)
    ensures PhaseOk(StepDispatch(s, s.pc.turns), Feed(RequestNext, m, DispatchEmits(s)))
  {
    hide Frames, Queue, Holding, Copies, Joins, Lives, Cpu, Undecided, Serials, Held, Targets;
    KeepDispatch(s, s.pc.turns);
    FeedDispatch(RequestNext, m, s);
    ReadyFrame(s.fibers, s.requests, s.ready, s.ready[0]);
    if s.fibers[s.ready[0]].context.Suspended? {
      FrameOwner(s.fibers, s.requests, s.ready[0]);
    }
  }

  lemma FrameOwner(fs: Records, rs: Requests, h: Handle)
    requires Frames(fs, rs) && h in fs && fs[h].context.Suspended?
    ensures fs[h].context.frame in rs && rs[fs[h].context.frame].fiber == h
  {
  }

  lemma DeliverAppend(s: State, m: RequestMonitor)
    requires Inv(s) && s.pc.Appending? && PhaseOk(s, m)
    ensures PhaseOk(Step(s, Tick), Feed(RequestNext, m, Emits(s, Tick)))
  {
    hide Frames, Queue, Holding, Copies, Joins, Lives, Cpu, Undecided, Serials, Held, Targets;
    ParkerAt(s.requests, s.pc.request);
    FeedOne(RequestNext, m, Batched(s.pc.request, s.requests[s.pc.request].ask.sqe.(userData := s.pc.request)));
  }

  lemma DeliverTick(s: State, m: RequestMonitor)
    requires Inv(s) && Legal(s, Tick) && PhaseOk(s, m)
    ensures PhaseOk(Step(s, Tick), Feed(RequestNext, m, Emits(s, Tick)))
  {
    hide Frames, Queue, Holding, Copies, Joins, Lives, Cpu, Undecided, Serials, Held, Targets;
    hide PhaseOk, RequestNext;
    match s.pc
    case Top =>
      if StepTop(s).pc.Sweep? {
        FeedOne(RequestNext, m, SweepBegan(s.ready));
        SweepIgnored(m, s.ready);
      }
      PhaseAnyPc(s, StepTop(s), m);
    case Sweep(turns) =>
      if turns == 0 {
        PhaseAnyPc(s, StepSweepEnd(s), m);
      } else {
        KeepDispatch(s, turns);
        DeliverDispatch(s, m);
      }
    case Appending(_, _, _) => DeliverAppend(s, m);
    case Reaping(_) => DeliverReap(s, m);
    case _ =>
  }

  lemma SweepIgnored(m: RequestMonitor, queue: seq<Handle>)
    ensures RequestNext(m, SweepBegan(queue)) == m
  {
  }

  // ---------------------------------------------------------------- requests

  /** Steps that leave this request alone and keep its fiber's record. */
  lemma PhaseUntouched(s: State, e: Event, m: RequestMonitor)
    requires Inv(s) && Legal(s, e) && e.Ask? && PhaseOk(s, m)
    requires m.p in s.requests <==> m.p in Step(s, e).requests
    requires m.p in s.requests ==> Step(s, e).requests[m.p] == s.requests[m.p]
    ensures PhaseOk(Step(s, e), m)
  {
    hide Inv, Step, StepAsk;
    var s' := Step(s, e);
    StepKeeps(s, e);
    SerialKept(s, e);
    AskRing(s, e);
    StepIsAsk(s, e);
    OwnersExist(s');
  }

  lemma StepIsAsk(s: State, e: Event)
    requires Legal(s, e) && e.Ask?
    ensures Step(s, e) == StepAsk(s, e)
  {
  }

  lemma OwnersExist(s: State)
    requires Inv(s)
    ensures forall p :: p in s.requests ==> s.requests[p].fiber in s.fibers
  {
    hide Queue, Holding, Copies, Joins, Lives, Cpu, Undecided, Serials, Counts, Control;
  }

  predicate AtOnce(ask: Ask) { ask.Yield? || ask.Spawn? || ask.Detach? }

  lemma AtOnceState(s: State, e: Event)
    requires Legal(s, e) && e.Ask? && AtOnce(e.ask) && s.pc.fiber in s.fibers
    ensures var s' := Step(s, e);
            if s'.pc.Trapped? then s' == s.(pc := s'.pc)
            else
              && e.request in s'.requests
              && s'.requests == s.requests[e.request := s'.requests[e.request]]
              && s'.requests[e.request].stage.Done? && s'.requests[e.request].fiber == s.pc.fiber
  {
  }

  lemma AtOnceEntries(s: State, e: Event, m: RequestMonitor)
    requires Legal(s, e) && e.Ask? && AtOnce(e.ask) && s.pc.fiber in s.fibers && m.p == e.request && m.phase.Idle?
    ensures Feed(RequestNext, m, AskEmits(s, e)) ==
            Follow(m.p, s.fibers[s.pc.fiber].serial, Replied(ResultAt(StepAsk(s, e), m.p)))
  {
    hide StepAsk;
    var es := AskEmits(s, e);
    var asked := Asked(m.p, e.ask, s.fibers[s.pc.fiber].serial);
    var answered := Answered(m.p, ResultAt(StepAsk(s, e), m.p));
    assert es == [asked, answered] + es[2..];
    FeedAppend(RequestNext, m, [asked, answered], es[2..]);
    FeedTwo(RequestNext, m, asked, answered);
    FeedQuiet(RequestNext, RequestNext(RequestNext(m, asked), answered), es[2..]);
  }

  /** A request of the running fiber that is answered on the spot. */
  lemma DeliverAtOnce(s: State, e: Event, m: RequestMonitor)
    requires Inv(s) && Legal(s, e) && PhaseOk(s, m) && e.Ask? && AtOnce(e.ask)
    ensures PhaseOk(Step(s, e), Feed(RequestNext, m, Emits(s, e)))
  {
    hide Inv, Step, StepAsk, RequestNext, AskEmits;
    var s' := Step(s, e);
    RunnerExists(s);
    AtOnceState(s, e);
    StepIsAsk(s, e);
    if s'.pc.Trapped? {
      PhaseAnyPc(s, s', m);
    } else if e.request != m.p {
      PhaseUntouched(s, e, m);
      AskIgnored(s, e, m);
    } else {
      AtOnceEntries(s, e, m);
      SerialKept(s, e);
      StepKeeps(s, e);
      OwnersExist(s');
    }
  }

  lemma RunnerExists(s: State)
    requires Inv(s) && s.pc.Running?
    ensures s.pc.fiber in s.fibers
  {
    hide Frames, Queue, Holding, Copies, Joins, Lives, Cpu, Undecided, Serials, Held, Targets;
    CpuAt(s.fibers, s.pc.fiber);
  }

  /** AWAIT and a JOIN that blocks leave the request undecided. */
  lemma DeliverPending(s: State, e: Event, m: RequestMonitor)
    requires Inv(s) && Legal(s, e) && PhaseOk(s, m) && e.Ask?
    requires e.ask.Await? || (e.ask.Join? && !s.fibers[e.ask.target].life.Exited?)
    ensures PhaseOk(Step(s, e), Feed(RequestNext, m, Emits(s, e)))
  {
    hide Inv, Step, StepAsk, RequestNext, AskEmits;
    var s' := Step(s, e);
    RunnerExists(s);
    PendingState(s, e);
    StepIsAsk(s, e);
    if s'.pc.Trapped? {
      PhaseAnyPc(s, s', m);
    } else if e.request != m.p {
      PhaseUntouched(s, e, m);
      AskIgnored(s, e, m);
    } else {
      PendingEntries(s, e, m);
      SerialKept(s, e);
      StepKeeps(s, e);
      OwnersExist(s');
    }
  }

  lemma PendingState(s: State, e: Event)
    requires Legal(s, e) && e.Ask? && s.pc.fiber in s.fibers
    requires e.ask.Await? || (e.ask.Join? && !s.fibers[e.ask.target].life.Exited?)
    ensures var s' := Step(s, e);
            if s'.pc.Trapped? then s' == s.(pc := s'.pc)
            else s'.requests == s.requests[e.request := Request(e.ask, 0, s.pc.fiber, Pending)]
  {
  }

  lemma PendingEntries(s: State, e: Event, m: RequestMonitor)
    requires Legal(s, e) && e.Ask? && s.pc.fiber in s.fibers && m.p == e.request && m.phase.Idle?
    requires e.ask.Await? || (e.ask.Join? && !s.fibers[e.ask.target].life.Exited?)
    ensures Feed(RequestNext, m, AskEmits(s, e)) == Follow(m.p, s.fibers[s.pc.fiber].serial, WasAsked(e.ask))
  {
    FeedOne(RequestNext, m, Asked(m.p, e.ask, s.fibers[s.pc.fiber].serial));
  }

  /** A JOIN of an exited fiber takes its status at once. */
  lemma DeliverTake(s: State, e: Event, m: RequestMonitor)
    requires Inv(s) && Legal(s, e) && PhaseOk(s, m) && e.Ask?
    requires e.ask.Join? && s.fibers[e.ask.target].life.Exited?
    ensures PhaseOk(Step(s, e), Feed(RequestNext, m, Emits(s, e)))
  {
    hide Inv, Step, StepAsk, RequestNext, AskEmits;
    var s' := Step(s, e);
    RunnerExists(s);
    TakeState(s, e);
    StepIsAsk(s, e);
    if s'.pc.Trapped? {
      PhaseAnyPc(s, s', m);
    } else if e.request != m.p {
      PhaseUntouched(s, e, m);
      AskIgnored(s, e, m);
    } else {
      TakeEntries(s, e, m);
      SerialKept(s, e);
      StepKeeps(s, e);
      OwnersExist(s');
    }
  }

  lemma TakeState(s: State, e: Event)
    requires Legal(s, e) && e.Ask? && s.pc.fiber in s.fibers
    requires e.ask.Join? && s.fibers[e.ask.target].life.Exited?
    ensures var s' := Step(s, e);
            if s'.pc.Trapped? then s' == s.(pc := s'.pc)
            else s'.requests ==
                 s.requests[e.request := Request(e.ask, s.fibers[e.ask.target].status, s.pc.fiber, Done)]
  {
  }

  lemma TakeEntries(s: State, e: Event, m: RequestMonitor)
    requires Legal(s, e) && e.Ask? && s.pc.fiber in s.fibers && m.p == e.request && m.phase.Idle?
    requires e.ask.Join? && s.fibers[e.ask.target].life.Exited?
    ensures Feed(RequestNext, m, AskEmits(s, e)) ==
            Follow(m.p, s.fibers[s.pc.fiber].serial, Replied(ResultAt(StepAsk(s, e), m.p)))
  {
    hide StepAsk;
    var t := s.fibers[e.ask.target].serial;
    FeedThree(RequestNext, m, Asked(m.p, e.ask, s.fibers[s.pc.fiber].serial),
              JoinAnswered(m.p, e.ask.target, t, ResultAt(StepAsk(s, e), m.p)), Destroyed(t));
  }

  /** An exit answers the join in its slot and touches no other request. */
  lemma DeliverExit(s: State, e: Event, m: RequestMonitor)
    requires Inv(s) && Legal(s, e) && PhaseOk(s, m) && e.Ask? && e.ask.Exit?
    ensures PhaseOk(Step(s, e), Feed(RequestNext, m, Emits(s, e)))
  {
    hide Inv, Step, StepAsk, RequestNext, AskEmits;
    var s' := Step(s, e);
    RunnerExists(s);
    SlotOfRunner(s);
    ExitState(s, e);
    StepIsAsk(s, e);
    var f := s.fibers[s.pc.fiber];
    if s'.pc.Trapped? {
      PhaseAnyPc(s, s', m);
    } else if f.joiner != Some(m.p) {
      PhaseUntouched(s, e, m);
      ExitIgnored(s, e, m);
    } else {
      ExitEntries(s, e, m);
      SerialKept(s, e);
      StepKeeps(s, e);
      OwnersExist(s');
    }
  }

  lemma ExitState(s: State, e: Event)
    requires Legal(s, e) && e.Ask? && e.ask.Exit? && s.pc.fiber in s.fibers
    requires var f := s.fibers[s.pc.fiber]; f.joiner.Some? ==> f.life.Live? && f.joiner.value in s.requests
    ensures var s', f := Step(s, e), s.fibers[s.pc.fiber];
            if s'.pc.Trapped? then s' == s.(pc := s'.pc)
            else if f.joiner.None? then s'.requests == s.requests
            else s'.requests ==
                 s.requests[f.joiner.value := s.requests[f.joiner.value].(result := e.ask.status, stage := Done)]
  {
  }

  lemma ExitIgnored(s: State, e: Event, m: RequestMonitor)
    requires Legal(s, e) && e.Ask? && e.ask.Exit? && s.pc.fiber in s.fibers
    requires s.fibers[s.pc.fiber].joiner != Some(m.p)
    ensures Feed(RequestNext, m, AskEmits(s, e)) == m
  {
    FeedQuiet(RequestNext, m, AskEmits(s, e));
  }

  lemma ExitEntries(s: State, e: Event, m: RequestMonitor)
    requires Legal(s, e) && e.Ask? && e.ask.Exit? && s.pc.fiber in s.fibers
    requires s.fibers[s.pc.fiber].joiner == Some(m.p) && !s.fibers[s.pc.fiber].life.Detached?
    requires m.phase == WasAsked(Join(s.pc.fiber))
    ensures Feed(RequestNext, m, AskEmits(s, e)) == m.(phase := Replied(ResultAt(StepAsk(s, e), m.p)))
  {
    hide StepAsk;
    var n := s.fibers[s.pc.fiber].serial;
    FeedThree(RequestNext, m, Ended(n, e.ask.status),
              JoinAnswered(m.p, s.pc.fiber, n, ResultAt(StepAsk(s, e), m.p)), Destroyed(n));
  }

  lemma AskIgnored(s: State, e: Event, m: RequestMonitor)
    requires Legal(s, e) && e.Ask? && s.pc.fiber in s.fibers && e.request != m.p && !e.ask.Exit?
    ensures Feed(RequestNext, m, AskEmits(s, e)) == m
  {
    forall x | x in AskEmits(s, e)
      ensures RequestNext(m, x) == m
    {
    }
    FeedQuiet(RequestNext, m, AskEmits(s, e));
  }

  // ---------------------------------------------------------------- every run

  lemma DeliverStep(s: State, e: Event, m: RequestMonitor)
    requires Inv(s) && Legal(s, e) && PhaseOk(s, m)
    ensures PhaseOk(Step(s, e), Feed(RequestNext, m, Emits(s, e)))
  {
    hide Inv, PhaseOk, StepAsk;
    match e
    case Admit(c) => DeliverAdmit(s, c, m);
    case Tick => DeliverTick(s, m);
    case Kernel(k) =>
      if k.Post? {
        DeliverPost(s, k, m);
      } else {
        DeliverEnter(s, k, m);
      }
    case Ask(_, ask, _, _) =>
      if AtOnce(ask) {
        DeliverAtOnce(s, e, m);
      } else if ask.Exit? {
        DeliverExit(s, e, m);
      } else if ask.Join? && s.fibers[ask.target].life.Exited? {
        DeliverTake(s, e, m);
      } else if ask.Join? || ask.Await? {
        DeliverPending(s, e, m);
      } else {
        RunnerExists(s);
        DeliverStop(s, e, m);
      }
  }

  lemma DeliverStop(s: State, e: Event, m: RequestMonitor)
    requires Legal(s, e) && PhaseOk(s, m) && e.Ask? && e.ask.ProcessExit? && s.pc.fiber in s.fibers
    ensures PhaseOk(Step(s, e), Feed(RequestNext, m, Emits(s, e)))
  {
    PhaseAnyPc(s, Step(s, e), m);
  }

  lemma DeliverAdmit(s: State, c: Handle, m: RequestMonitor)
    requires Legal(s, Admit(c)) && PhaseOk(s, m)
    ensures PhaseOk(Step(s, Admit(c)), Feed(RequestNext, m, Emits(s, Admit(c))))
  {
    FeedOne(RequestNext, m, Born(s.born, c, None));
  }

  /** In every run every request goes through its stages in order and exactly once: an
      AWAIT returns to its asker the result of the one completion of its own submission,
      which differs from the caller's only in `user_data`. */
  lemma {:induction false} EveryRequestServedOnce(s: State, es: seq<Event>, p: Ptr)
    requires Inv(s) && s.requests == map[] && LegalRun(s, es)
    ensures PhaseOk(Exec(s, es), Feed(RequestNext, Follow(p, 0, Idle), Record(s, es)))
  {
    hide Inv, PhaseOk, RequestNext;
    if es == [] {
      assert PhaseOk(s, Follow(p, 0, Idle)) by {
        IdleAtFirst(s, p);
      }
    } else {
      var before, last := es[..|es| - 1], es[|es| - 1];
      EveryRequestServedOnce(s, before, p);
      RunKeeps(s, before);
      FeedAppend(RequestNext, Follow(p, 0, Idle), Record(s, before), Emits(Exec(s, before), last));
      DeliverStep(Exec(s, before), last, Feed(RequestNext, Follow(p, 0, Idle), Record(s, before)));
    }
  }

  lemma IdleAtFirst(s: State, p: Ptr)
    requires s.requests == map[]
    ensures PhaseOk(s, Follow(p, 0, Idle))
  {
  }

  // ---------------------------------------------------------------- reading the phases

  /** The call with its request at `p` returns. */
  predicate ReturnsFor(x: Entry, p: Ptr) { x.CallReturned? && x.request == p }

  lemma {:induction false} BrokenStays(m: RequestMonitor, es: seq<Entry>)
    requires m.phase.Broken?
    ensures Feed(RequestNext, m, es).phase.Broken?
    decreases |es|
  {
    if es != [] {
      BrokenStays(RequestNext(m, es[0]), es[1..]);
    }
  }

  lemma Unbroken(m: RequestMonitor, es: seq<Entry>)
    requires !Feed(RequestNext, m, es).phase.Broken?
    ensures !m.phase.Broken?
  {
    if m.phase.Broken? {
      BrokenStays(m, es);
    }
  }

  lemma NeverBroken(s: State, m: RequestMonitor)
    requires PhaseOk(s, m)
    ensures !m.phase.Broken?
  {
  }

  lemma {:induction false} FollowsSame(m: RequestMonitor, es: seq<Entry>)
    ensures Feed(RequestNext, m, es).p == m.p
    decreases |es|
  {
    if es != [] {
      FollowsSame(RequestNext(m, es[0]), es[1..]);
    }
  }

  lemma {:induction false} RepliedStays(m: RequestMonitor, es: seq<Entry>)
    requires m.phase.Replied? && !Feed(RequestNext, m, es).phase.Broken?
    requires forall x :: x in es ==> !ReturnsFor(x, m.p)
    ensures Feed(RequestNext, m, es) == m
    decreases |es|
  {
    if es != [] {
      assert es[0] in es;
      Unbroken(RequestNext(m, es[0]), es[1..]);
      RepliedStays(RequestNext(m, es[0]), es[1..]);
    }
  }
}
