/** The reactor of src/scheduler/scheduler.c with the fibers of src/fiber/fiber.c, as a
    state machine whose steps are interleaved with the fibers' requests and the kernel.

    Addresses of records and of requests index the two maps `fibers` and `requests`; a
    release removes the key, so a later access through a stale address ends in the
    outcome `Trapped(Fault, _)`. Addresses may be used again after a release. */
module Machine {
  import opened Base
  import opened RingModel

  /** The address of a request on a suspended frame; it travels as `user_data`. */
  type Ptr = nat

  datatype Life = Live | Detached | Exited

  /** Where the fiber stopped. `OnCpu` is the stale context of the running fiber and
      `Poisoned` the zeroed context of an exited one. */
  datatype Context = Fresh | Suspended(frame: Ptr) | OnCpu | Poisoned

  /** `serial` is a history variable: the order of birth, read by no branch. */
  datatype Fiber = Fiber(serial: nat, context: Context, joiner: Option<Ptr>, status: int, life: Life)

  datatype Ask =
    | Yield
    | Exit(status: int)
    | Await(sqe: Sqe)
    | Spawn
    | Join(target: Handle)
    | Detach(target: Handle)
    | ProcessExit(code: int)

  /** A history variable: how far the scheduler has taken a request. */
  datatype Stage = Pending | Parked(sqe: Sqe) | Done

  datatype Request = Request(ask: Ask, result: int, fiber: Handle, stage: Stage)

  datatype Reason =
    | Fault
    | UnmapFailed
    | BadAwait
    | SubmitFailed
    | SubmissionFull
    | BadJoin
    | BadDetach
    | Stream
    | JoinCycle

  /** The control points of `__libuc_scheduler_run`, `park` and `__libuc_ring_submit`. */
  datatype Pc =
    | Top
    | Sweep(turns: nat)
    | Running(fiber: Handle, turns: nat)
    | Appending(request: Ptr, turns: nat, retry: bool)
    | Flushing(request: Ptr, turns: nat)
    | Submitting(minComplete: nat)
    | Reaping(owed: nat)
    | Trapped(reason: Reason, at: Pc)
    | Returned(status: int, at: Pc)

  datatype State = State(
    fibers: map<Handle, Fiber>,
    requests: map<Ptr, Request>,
    ready: seq<Handle>,
    readyCount: nat,
    parkedCount: nat,
    joiningCount: nat,
    born: nat,
    ring: RingState,
    pc: Pc)

  datatype Event =
    /** The caller enqueues a spawned fiber before running. */
    | Admit(fiber: Handle)
    /** The reactor takes a step of its own. */
    | Tick
    /** The running fiber suspends with a request at `request`. `spawned` is what the
        allocation gave a SPAWN, `unmapped` whether a release, if any, succeeds. */
    | Ask(request: Ptr, ask: Ask, spawned: Option<Handle>, unmapped: bool)
    | Kernel(event: KernelEvent)

  // ---------------------------------------------------------------- environment

  predicate Halted(pc: Pc) { pc.Trapped? || pc.Returned? }

  /** What the reactor may assume of its callers, its fibers and the kernel: a request
      lies on a frame of its own, a mapping returned by the system is not in use, fewer
      than 2^32 records exist at once, and JOIN and DETACH name a handle that is not dead
      (src/fiber/fiber.h:112-121). */
  predicate Legal(s: State, e: Event) {
    !Halted(s.pc) &&
    match e
    case Admit(c) => s.pc.Top? && FreshHandle(s, c)
    case Tick => s.pc.Top? || s.pc.Sweep? || s.pc.Appending? || s.pc.Reaping?
    case Ask(p, ask, spawned, _) =>
      && s.pc.Running?
      && p !in s.requests
      && (ask.Spawn? && spawned.Some? ==> FreshHandle(s, spawned.value))
      && (ask.Join? || ask.Detach? ==> ask.target in s.fibers)
    case Kernel(k) =>
      && (k.Enter? ==> s.pc.Submitting? || s.pc.Flushing?)
      && KernelLegal(s.ring, k)
  }

  predicate FreshHandle(s: State, c: Handle) {
    c != 0 && c !in s.fibers && |s.fibers| + 1 < TWO32
  }

  function Boot(sqEntries: nat, cqEntries: nat): State {
    State(map[], map[], [], 0, 0, 0, 0, RingState(sqEntries, cqEntries, [], [], []), Top)
  }

  // ---------------------------------------------------------------- steps

  function Trap(s: State, reason: Reason): State {
    s.(pc := Trapped(reason, s.pc))
  }

  /** `__libuc_scheduler_enqueue`. */
  function Enqueue(s: State, h: Handle): State {
    s.(ready := s.ready + [h], readyCount := Inc32(s.readyCount))
  }

  function Newborn(s: State, c: Handle): State {
    s.(fibers := s.fibers[c := Fiber(s.born, Fresh, None, 0, Live)], born := s.born + 1)
  }

  /** The loop test and, once drained, the verdict on blocked joiners. */
  function StepTop(s: State): State {
    if (s.parkedCount + s.readyCount) % TWO32 != 0 then s.(pc := Sweep(s.readyCount))
    else if s.joiningCount != 0 then Trap(s, JoinCycle)
    else s.(pc := Returned(0, Top))
  }

  function StepSweepEnd(s: State): State {
    if s.parkedCount == 0 then s.(pc := Top)
    else s.(pc := Submitting(if s.readyCount == 0 then 1 else 0))
  }

  /** Pop the head and switch to it; its suspended call, if any, returns now. */
  function StepDispatch(s: State, turns: nat): State
    requires turns > 0
  {
    if s.ready == [] || s.ready[0] !in s.fibers then Trap(s, Fault)
    else
      var h := s.ready[0];
      var f := s.fibers[h];
      if f.context.OnCpu? || f.context.Poisoned? || (f.context.Suspended? && f.context.frame !in s.requests)
      then Trap(s, Fault)
      else
        s.(ready := s.ready[1..],
           readyCount := Dec32(s.readyCount),
           fibers := s.fibers[h := f.(context := OnCpu)],
           requests := if f.context.Suspended? then s.requests - {f.context.frame} else s.requests,
           pc := Running(h, turns - 1))
  }

  /** The frame of the running fiber now holds its request, stamped with the asker. */
  function Suspend(s: State, h: Handle, p: Ptr, ask: Ask, result: int, stage: Stage): State
    requires h in s.fibers
  {
    s.(fibers := s.fibers[h := s.fibers[h].(context := Suspended(p))],
       requests := s.requests[p := Request(ask, result, h, stage)])
  }

  /** EXIT: record the status, then reclaim by a detach mark or by a waiting join. */
  function StepExit(s: State, h: Handle, turns: nat, status: int, unmapped: bool): State
    requires h in s.fibers
  {
    var f := s.fibers[h];
    if f.life.Detached? then
      if !unmapped then Trap(s, UnmapFailed)
      else s.(fibers := s.fibers - {h}, pc := Sweep(turns))
    else if f.joiner.None? then
      s.(fibers := s.fibers[h := f.(context := Poisoned, status := status, life := Exited)],
         pc := Sweep(turns))
    else
      var q := f.joiner.value;
      if q !in s.requests || s.requests[q].fiber !in s.fibers - {h} then Trap(s, Fault)
      else if !unmapped then Trap(s, UnmapFailed)
      else
        Enqueue(
          s.(joiningCount := Dec32(s.joiningCount),
             requests := s.requests[q := s.requests[q].(result := status, stage := Done)],
             fibers := s.fibers - {h},
             pc := Sweep(turns)),
          s.requests[q].fiber)
  }

  function StepAwait(s: State, h: Handle, turns: nat, p: Ptr, sqe: Sqe): State
    requires h in s.fibers
  {
    if sqe.flags != 0 || s.parkedCount == s.ring.cqEntries then Trap(s, BadAwait)
    else Suspend(s, h, p, Await(sqe), 0, Pending).(pc := Appending(p, turns, false))
  }

  function StepSpawn(s: State, h: Handle, turns: nat, p: Ptr, spawned: Option<Handle>): State
    requires h in s.fibers
  {
    match spawned
    case None => Enqueue(Suspend(s, h, p, Spawn, 0, Done), h).(pc := Sweep(turns))
    case Some(c) =>
      Enqueue(Newborn(Enqueue(Suspend(s, h, p, Spawn, c, Done), h), c), c).(pc := Sweep(turns))
  }

  function StepJoin(s: State, h: Handle, turns: nat, p: Ptr, t: Handle, unmapped: bool): State
    requires h in s.fibers && t in s.fibers
  {
    var target := s.fibers[t];
    if t == h || target.joiner.Some? || target.life.Detached? then Trap(s, BadJoin)
    else if target.life.Exited? then
      if !unmapped then Trap(s, UnmapFailed)
      else
        var taken := Suspend(s, h, p, Join(t), target.status, Done);
        Enqueue(taken.(fibers := taken.fibers - {t}), h).(pc := Sweep(turns))
    else
      var asked := Suspend(s, h, p, Join(t), 0, Pending);
      asked.(fibers := asked.fibers[t := target.(joiner := Some(p))],
             joiningCount := Inc32(s.joiningCount),
             pc := Sweep(turns))
  }

  function StepDetach(s: State, h: Handle, turns: nat, p: Ptr, t: Handle, unmapped: bool): State
    requires h in s.fibers && t in s.fibers
  {
    var target := s.fibers[t];
    if target.joiner.Some? || target.life.Detached? then Trap(s, BadDetach)
    else
      var asked := Suspend(s, h, p, Detach(t), 0, Done);
      if target.life.Exited? then
        if !unmapped then Trap(s, UnmapFailed)
        else Enqueue(asked.(fibers := asked.fibers - {t}), h).(pc := Sweep(turns))
      else
        Enqueue(asked.(fibers := asked.fibers[t := asked.fibers[t].(life := Detached)]), h).(pc := Sweep(turns))
  }

  function StepAsk(s: State, e: Event): State
    requires Legal(s, e) && e.Ask?
  {
    var h := s.pc.fiber;
    if h !in s.fibers then Trap(s, Fault)
    else
      match e.ask
      case Yield => Enqueue(Suspend(s, h, e.request, Yield, 0, Done), h).(pc := Sweep(s.pc.turns))
      case Exit(status) => StepExit(s, h, s.pc.turns, status, e.unmapped)
      case Await(sqe) => StepAwait(s, h, s.pc.turns, e.request, sqe)
      case Spawn => StepSpawn(s, h, s.pc.turns, e.request, e.spawned)
      case Join(t) => StepJoin(s, h, s.pc.turns, e.request, t, e.unmapped)
      case Detach(t) => StepDetach(s, h, s.pc.turns, e.request, t, e.unmapped)
      case ProcessExit(code) => s.(pc := Returned(code, s.pc))
  }

  /** `park` from its first or second append on. */
  function StepAppend(s: State, p: Ptr, turns: nat, retry: bool): State {
    if p !in s.requests || !s.requests[p].ask.Await? then Trap(s, Fault)
    else if |s.ring.batch| == s.ring.sqEntries then
      if retry then Trap(s, SubmissionFull) else s.(pc := Flushing(p, turns))
    else
      var sqe := s.requests[p].ask.sqe.(userData := p);
      s.(ring := s.ring.(batch := s.ring.batch + [sqe]),
         requests := s.requests[p := s.requests[p].(stage := Parked(sqe))],
         parkedCount := Inc32(s.parkedCount),
         pc := Sweep(turns))
  }

  /** One turn of the reap loop. */
  function StepReap(s: State): State {
    if s.ring.cq == [] then s.(pc := Top)
    else
      var c := s.ring.cq[0];
      if c.streams then Trap(s, Stream)
      else if c.userData !in s.requests || s.requests[c.userData].fiber !in s.fibers then Trap(s, Fault)
      else
        var q := s.requests[c.userData];
        Enqueue(
          s.(ring := s.ring.(cq := s.ring.cq[1..]),
             requests := s.requests[c.userData := q.(result := c.res, stage := Done)],
             parkedCount := Dec32(s.parkedCount),
             pc := Reaping(0)),
          q.fiber)
  }

  function StepTick(s: State): State
    requires Legal(s, Tick)
  {
    match s.pc
    case Top => StepTop(s)
    case Sweep(turns) => if turns == 0 then StepSweepEnd(s) else StepDispatch(s, turns)
    case Appending(p, turns, retry) => StepAppend(s, p, turns, retry)
    case _ => StepReap(s)
  }

  /** A pass of the submit loop, or a completion landing. */
  function StepKernel(s: State, k: KernelEvent): State
    requires Legal(s, Kernel(k))
  {
    var ring := KernelStep(s.ring, k);
    var next :=
      match k
      case Enter(Failed(_)) => Trapped(SubmitFailed, s.pc)
      case Enter(Accepted(n)) =>
        if n < |s.ring.batch| then s.pc
        else if s.pc.Submitting? then Reaping(s.pc.minComplete)
        else Appending(s.pc.request, s.pc.turns, true)
      case _ => s.pc;
    s.(ring := ring, pc := next)
  }

  function Step(s: State, e: Event): State
    requires Legal(s, e)
  {
    match e
    case Admit(c) => Enqueue(Newborn(s, c), c)
    case Tick => StepTick(s)
    case Ask(_, _, _, _) => StepAsk(s, e)
    case Kernel(k) => StepKernel(s, k)
  }

  // ---------------------------------------------------------------- runs

  ghost predicate LegalRun(s: State, es: seq<Event>)
    decreases |es|, 0
  {
    es == [] || (LegalRun(s, es[..|es| - 1]) && Legal(Exec(s, es[..|es| - 1]), es[|es| - 1]))
  }

  ghost function Exec(s: State, es: seq<Event>): State
    requires LegalRun(s, es)
    decreases |es|, 1
  {
    if es == [] then s else Step(Exec(s, es[..|es| - 1]), es[|es| - 1])
  }

  lemma {:induction false} LegalRunPrefix(s: State, es: seq<Event>, n: nat)
    requires LegalRun(s, es) && n <= |es|
    ensures LegalRun(s, es[..n])
    decreases |es|
  {
    if n == |es| {
      assert es[..n] == es;
    } else {
      LegalRunPrefix(s, es[..|es| - 1], n);
      assert es[..|es| - 1][..n] == es[..n];
    }
  }

  /** One run after another is a run. */
  lemma {:induction false} RunAppend(s: State, a: seq<Event>, b: seq<Event>)
    requires LegalRun(s, a) && LegalRun(Exec(s, a), b)
    ensures LegalRun(s, a + b) && Exec(s, a + b) == Exec(Exec(s, a), b)
    decreases |b|
  {
    hide Legal, Step;
    if b == [] {
      assert a + b == a;
    } else {
      RunAppend(s, a, b[..|b| - 1]);
      assert (a + b)[..|a + b| - 1] == a + b[..|b| - 1];
    }
  }

  /** A run cut in two. */
  lemma {:induction false} SplitRun(s: State, a: seq<Event>, b: seq<Event>)
    requires LegalRun(s, a + b) && LegalRun(s, a)
    ensures LegalRun(Exec(s, a), b) && Exec(Exec(s, a), b) == Exec(s, a + b)
    decreases |b|
  {
    hide Legal, Step;
    if b == [] {
      assert a + b == a;
    } else {
      var front := b[..|b| - 1];
      assert (a + b)[..|a + b| - 1] == a + front;
      SplitRun(s, a, front);
    }
  }
}
