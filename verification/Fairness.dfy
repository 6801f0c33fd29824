/** Order and progress over whole runs: generations of a sweep, completions, spawns. */
module Fairness {
  import opened Base
  import opened RingModel
  import opened Machine
  import opened Invariant
  import opened InvariantProof
  import opened Trace

  // ---------------------------------------------------------------- sweeps

  /** What is left of the queue the current sweep began with. */
  datatype SweepMonitor = Sweeping(rest: seq<Handle>) | BrokenSweep

  function SweepNext(m: SweepMonitor, e: Entry): SweepMonitor {
    match m
    case BrokenSweep => m
    case Sweeping(rest) =>
      match e
      case SweepBegan(queue) => if rest == [] then Sweeping(queue) else BrokenSweep
      case Resumed(h, _) => if rest != [] && rest[0] == h then Sweeping(rest[1..]) else BrokenSweep
      case _ => m
  }

  ghost predicate SweepOk(s: State, m: SweepMonitor) {
    m.Sweeping? && (!Halted(s.pc) ==> Turns(s.pc) <= |s.ready| && m.rest == s.ready[..Turns(s.pc)])
  }

  lemma SweepQuiet(m: SweepMonitor, es: seq<Entry>)
    requires forall x :: x in es ==> !x.SweepBegan? && !x.Resumed?
    ensures Feed(SweepNext, m, es) == m
  {
    FeedQuiet(SweepNext, m, es);
  }

  lemma SweepTop(s: State, m: SweepMonitor)
    requires s.pc.Top? && SweepOk(s, m) && s.readyCount == |s.ready|
    ensures SweepOk(StepTop(s), Feed(SweepNext, m, if StepTop(s).pc.Sweep? then [SweepBegan(s.ready)] else []))
  {
    FeedOne(SweepNext, m, SweepBegan(s.ready));
    assert s.ready[..|s.ready|] == s.ready;
  }

  lemma SweepTick(s: State, m: SweepMonitor)
    requires Inv(s) && Legal(s, Tick) && SweepOk(s, m)
    ensures SweepOk(Step(s, Tick), Feed(SweepNext, m, Emits(s, Tick)))
  {
    hide Frames, Queue, Holding, Copies, Joins, Lives, Cpu, Undecided, Serials, Held, Targets;
    hide SweepNext;
    if s.pc.Top? {
      SweepTop(s, m);
    } else if s.pc.Sweep? && s.pc.turns > 0 {
      KeepDispatch(s, s.pc.turns);
      SweepDispatch(s, m);
    } else {
      SweepQuiet(m, Emits(s, Tick));
    }
  }

  lemma SweepDispatch(s: State, m: SweepMonitor)
    requires s.pc.Sweep? && s.pc.turns > 0 && SweepOk(s, m)
    requires !Halted(StepDispatch(s, s.pc.turns).pc)
    ensures SweepOk(StepDispatch(s, s.pc.turns), Feed(SweepNext, m, DispatchEmits(s)))
  {
    FeedDispatch(SweepNext, m, s);
    assert s.ready[..s.pc.turns][1..] == s.ready[1..][..s.pc.turns - 1];
  }

  lemma SweepStep(s: State, e: Event, m: SweepMonitor)
    requires Inv(s) && Legal(s, e) && SweepOk(s, m)
    ensures SweepOk(Step(s, e), Feed(SweepNext, m, Emits(s, e)))
  {
    hide Frames, Queue, Holding, Copies, Joins, Lives, Cpu, Undecided, Serials, Held, Targets;
    match e
    case Admit(c) =>
      SweepQuiet(m, Emits(s, e));
    case Tick =>
      SweepTick(s, m);
    case Ask(_, _, _, _) =>
      CpuAt(s.fibers, s.pc.fiber);
      AskEntries(s, e);
      AskShape(s, e);
      SweepQuiet(m, Emits(s, e));
    case Kernel(k) =>
      KernelEntries(s, k);
      SweepQuiet(m, Emits(s, e));
  }

  /** Each sweep resumes exactly the fibers queued when it began, once each and in order,
      and the next sweep begins only after the last of them. */
  lemma {:induction false} SweepsAreGenerations(s: State, es: seq<Event>)
    requires Inv(s) && s.pc.Top? && LegalRun(s, es)
    ensures SweepOk(Exec(s, es), Feed(SweepNext, Sweeping([]), Record(s, es)))
  {
    hide Frames, Queue, Holding, Copies, Joins, Lives, Cpu, Undecided, Serials, Held, Targets;
    if es != [] {
      var before, last := es[..|es| - 1], es[|es| - 1];
      SweepsAreGenerations(s, before);
      RunKeeps(s, before);
      FeedAppend(SweepNext, Sweeping([]), Record(s, before), Emits(Exec(s, before), last));
      SweepStep(Exec(s, before), last, Feed(SweepNext, Sweeping([]), Record(s, before)));
    }
  }

  /** A queue lists nobody twice, so a sweep resumes each of its fibers once. */
  lemma {:induction false} QueuesAreDistinct(s: State, es: seq<Event>)
    requires Inv(s) && LegalRun(s, es)
    ensures forall x :: x in Record(s, es) && x.SweepBegan? ==> Distinct(x.queue)
  {
    hide Inv, Legal, Step, Emits;
    if es != [] {
      var before, last := es[..|es| - 1], es[|es| - 1];
      QueuesAreDistinct(s, before);
      RunKeeps(s, before);
      QueueDistinct(Exec(s, before));
      SweepQueue(Exec(s, before), last);
    }
  }

  lemma SweepQueue(s: State, e: Event)
    requires Legal(s, e)
    ensures forall x :: x in Emits(s, e) && x.SweepBegan? ==> x.queue == s.ready
  {
    if e.Ask? && s.pc.fiber in s.fibers {
      AskEntries(s, e);
    }
  }

  // ---------------------------------------------------------------- completions

  /** `unreaped` are the completions posted and not yet reaped, `due` how many of them
      were visible at the last submit, `woken` the fibers woken since the last sweep. */
  datatype ReapMonitor =
    | Reaper(unreaped: seq<(Ptr, int)>, due: nat, woken: set<Handle>)
    | BrokenReap

  function ReapNext(m: ReapMonitor, e: Entry): ReapMonitor {
    match m
    case BrokenReap => m
    case Reaper(unreaped, due, woken) =>
      match e
      case Posted(p, res) => m.(unreaped := unreaped + [(p, res)])
      case Submitted => m.(due := |unreaped|)
      case Woken(p, value, h) =>
        if unreaped != [] && unreaped[0] == (p, value)
        then Reaper(unreaped[1..], if due == 0 then 0 else due - 1, woken + {h})
        else BrokenReap
      case SweepBegan(queue) =>
        if due == 0 && forall h :: h in woken ==> h in queue then m.(woken := {}) else BrokenReap
      case _ => m
  }

  function Posts(cq: seq<Cqe>): (r: seq<(Ptr, int)>)
    ensures |r| == |cq| && forall i :: 0 <= i < |cq| ==> r[i] == (cq[i].userData, cq[i].res)
  {
    seq(|cq|, i requires 0 <= i < |cq| => (cq[i].userData, cq[i].res))
  }

  ghost predicate ReapOk(s: State, m: ReapMonitor) {
    && m.Reaper?
    && (!Halted(s.pc) ==>
          && m.unreaped == Posts(s.ring.cq)
          && m.due <= |s.ring.cq|
          && (!s.pc.Reaping? ==> m.due == 0)
          && (forall h :: h in m.woken ==> h in s.ready)
          && (!s.pc.Reaping? && !s.pc.Top? ==> m.woken == {}))
  }

  lemma ReapTurn(s: State, m: ReapMonitor)
    requires s.pc.Reaping? && ReapOk(s, m) && !Halted(StepReap(s).pc)
    ensures ReapOk(StepReap(s), Feed(ReapNext, m, ReapEmits(s, StepReap(s))))
  {
    if s.ring.cq != [] {
      var p := s.ring.cq[0].userData;
      FeedOne(ReapNext, m, Woken(p, ResultAt(StepReap(s), p), s.requests[p].fiber));
      assert Posts(s.ring.cq)[1..] == Posts(s.ring.cq[1..]);
    }
  }

  lemma ReapTop(s: State, m: ReapMonitor)
    requires s.pc.Top? && ReapOk(s, m)
    ensures ReapOk(StepTop(s), Feed(ReapNext, m, if StepTop(s).pc.Sweep? then [SweepBegan(s.ready)] else []))
  {
    FeedOne(ReapNext, m, SweepBegan(s.ready));
  }

  lemma ReapQuiet(m: ReapMonitor, es: seq<Entry>)
    requires forall x :: x in es ==> !x.Posted? && !x.Submitted? && !x.Woken? && !x.SweepBegan?
    ensures Feed(ReapNext, m, es) == m
  {
    FeedQuiet(ReapNext, m, es);
  }

  lemma ReapPost(s: State, k: KernelEvent, m: ReapMonitor)
    requires Legal(s, Kernel(k)) && k.Post? && ReapOk(s, m)
    ensures ReapOk(StepKernel(s, k), Feed(ReapNext, m, KernelEmits(s, k)))
  {
    FeedOne(ReapNext, m, Posted(s.ring.inflight[k.index].userData, k.res));
    assert Posts(KernelStep(s.ring, k).cq) == Posts(s.ring.cq) + [(s.ring.inflight[k.index].userData, k.res)];
  }

  lemma ReapEnter(s: State, k: KernelEvent, m: ReapMonitor)
    requires Legal(s, Kernel(k)) && k.Enter? && ReapOk(s, m)
    ensures ReapOk(StepKernel(s, k), Feed(ReapNext, m, Emits(s, Kernel(k))))
  {
    hide Posts;
    if k.result.Accepted? {
      FeedOne(ReapNext, m, Consumed(s.ring.batch[..k.result.count]));
      FeedTwo(ReapNext, m, Consumed(s.ring.batch[..k.result.count]), Submitted);
    }
  }

  lemma ReapKernel(s: State, k: KernelEvent, m: ReapMonitor)
    requires Legal(s, Kernel(k)) && ReapOk(s, m)
    ensures ReapOk(StepKernel(s, k), Feed(ReapNext, m, Emits(s, Kernel(k))))
  {
    hide ReapOk, ReapNext;
    if k.Post? {
      ReapPost(s, k, m);
    } else {
      ReapEnter(s, k, m);
    }
  }

  lemma ReapStep(s: State, e: Event, m: ReapMonitor)
    requires Inv(s) && Legal(s, e) && ReapOk(s, m)
    ensures ReapOk(Step(s, e), Feed(ReapNext, m, Emits(s, e)))
  {
    hide Frames, Queue, Holding, Copies, Joins, Lives, Cpu, Undecided, Serials, Held, Targets;
    match e
    case Admit(c) =>
      ReapQuiet(m, Emits(s, e));
    case Tick =>
      ReapTick(s, m);
    case Ask(_, _, _, _) =>
      CpuAt(s.fibers, s.pc.fiber);
      AskEntries(s, e);
      AskShape(s, e);
      AskRing(s, e);
      ReapQuiet(m, Emits(s, e));
    case Kernel(k) =>
      ReapKernel(s, k, m);
  }

  lemma AskRing(s: State, e: Event)
    requires Legal(s, e) && e.Ask?
    ensures StepAsk(s, e).ring == s.ring
  {
  }

  lemma ReapTick(s: State, m: ReapMonitor)
    requires Inv(s) && Legal(s, Tick) && ReapOk(s, m)
    ensures ReapOk(Step(s, Tick), Feed(ReapNext, m, Emits(s, Tick)))
  {
    hide Frames, Queue, Holding, Copies, Joins, Lives, Cpu, Undecided, Serials, Held, Targets;
    if s.pc.Top? {
      ReapTop(s, m);
    } else if s.pc.Reaping? && !StepReap(s).pc.Trapped? {
      ReapTurn(s, m);
    } else {
      ReapQuiet(m, Emits(s, Tick));
    }
  }

  /** From any state of any run, completions are reaped exactly as posted, in order. Those
      that are due, be it because they were visible at a sweep's submit or because they are in
      the queue at any point of the reap loop (`EverythingDue`), are all delivered before the
      next sweep, which then runs every fiber they woke. */
  lemma {:induction false} CompletionsAreNotStarved(s: State, es: seq<Event>, m: ReapMonitor)
    requires Inv(s) && LegalRun(s, es) && ReapOk(s, m)
    ensures ReapOk(Exec(s, es), Feed(ReapNext, m, Record(s, es)))
  {
    hide Frames, Queue, Holding, Copies, Joins, Lives, Cpu, Undecided, Serials, Held, Targets;
    if es != [] {
      var before, last := es[..|es| - 1], es[|es| - 1];
      CompletionsAreNotStarved(s, before, m);
      RunKeeps(s, before);
      FeedAppend(ReapNext, m, Record(s, before), Emits(Exec(s, before), last));
      ReapStep(Exec(s, before), last, Feed(ReapNext, m, Record(s, before)));
    }
  }

  /** In the reap loop the whole queue is due, whenever it was posted. */
  lemma EverythingDue(s: State)
    requires s.pc.Reaping?
    ensures ReapOk(s, Reaper(Posts(s.ring.cq), |s.ring.cq|, {}))
  {
  }

  // ---------------------------------------------------------------- spawns

  /** `owed` pairs the parents that have not run since with the children they made. */
  datatype SpawnMonitor = Spawns(owed: set<(nat, nat)>) | BrokenSpawn

  function SpawnNext(m: SpawnMonitor, e: Entry): SpawnMonitor {
    match m
    case BrokenSpawn => m
    case Spawns(owed) =>
      match e
      case Born(child, _, Some(parent)) => Spawns(owed + {(parent, child)})
      case Resumed(_, n) =>
        if exists o :: o in owed && o.1 == n then BrokenSpawn
        else Spawns(set o | o in owed && o.0 != n)
      case _ => m
  }

  /** The parent stands in the queue somewhere before the child. */
  ghost predicate Before(fs: Records, ready: seq<Handle>, parent: nat, child: nat) {
    exists i, j :: 0 <= i < j < |ready| && ready[i] in fs && ready[j] in fs
                   && fs[ready[i]].serial == parent && fs[ready[j]].serial == child
  }

  ghost predicate SpawnOk(s: State, m: SpawnMonitor) {
    && m.Spawns?
    && (!Halted(s.pc) ==> forall o :: o in m.owed ==> Before(s.fibers, s.ready, o.0, o.1))
  }

  lemma SpawnQuiet(m: SpawnMonitor, es: seq<Entry>)
    requires forall x :: x in es ==> !x.Resumed? && !(x.Born? && x.parent.Some?)
    ensures Feed(SpawnNext, m, es) == m
  {
    FeedQuiet(SpawnNext, m, es);
  }

  /** Queued fibers keep their places when others are appended and none of them is released. */
  lemma BeforeGrows(fs: Records, ready: seq<Handle>, fs': Records, ready': seq<Handle>, parent: nat, child: nat)
    requires Before(fs, ready, parent, child) && ready <= ready'
    requires forall h :: h in ready && h in fs ==> h in fs' && fs'[h].serial == fs[h].serial
    ensures Before(fs', ready', parent, child)
  {
    var i, j :| 0 <= i < j < |ready| && ready[i] in fs && ready[j] in fs
                && fs[ready[i]].serial == parent && fs[ready[j]].serial == child;
    assert ready'[i] == ready[i] && ready'[j] == ready[j];
  }

  lemma SpawnGrows(s: State, s': State, m: SpawnMonitor)
    requires SpawnOk(s, m) && !Halted(s.pc) && (Halted(s'.pc) || s.ready <= s'.ready)
    requires Halted(s'.pc) || forall h :: h in s.ready && h in s.fibers ==> h in s'.fibers && s'.fibers[h].serial == s.fibers[h].serial
    ensures SpawnOk(s', m)
  {
    if !Halted(s'.pc) {
      forall o | o in m.owed
        ensures Before(s'.fibers, s'.ready, o.0, o.1)
      {
        BeforeGrows(s.fibers, s.ready, s'.fibers, s'.ready, o.0, o.1);
      }
    }
  }

  lemma SpawnDispatch(s: State, m: SpawnMonitor)
    requires Inv(s) && s.pc.Sweep? && s.pc.turns > 0 && SpawnOk(s, m)
    ensures SpawnOk(StepDispatch(s, s.pc.turns), Feed(SpawnNext, m, DispatchEmits(s)))
  {
    hide Frames, Queue, Holding, Copies, Joins, Lives, Cpu, Undecided, Serials, Held, Targets;
    KeepDispatch(s, s.pc.turns);
    FeedDispatch(SpawnNext, m, s);
    var h := s.ready[0];
    ReadyFrame(s.fibers, s.requests, s.ready, h);
    var s' := StepDispatch(s, s.pc.turns);
    var n := s.fibers[h].serial;
    forall o | o in m.owed
      ensures o.1 != n
      ensures o.0 != n ==> Before(s'.fibers, s'.ready, o.0, o.1)
    {
      ReadySerials(s);
      BeforeTail(s, o.0, o.1);
    }
  }

  lemma ReadySerials(s: State)
    requires Inv(s)
    ensures forall i, j :: 0 <= i < |s.ready| && 0 <= j < |s.ready| && i != j ==>
              s.ready[i] in s.fibers && s.ready[j] in s.fibers
              && s.fibers[s.ready[i]].serial != s.fibers[s.ready[j]].serial
  {
    hide Frames, Holding, Copies, Joins, Lives, Cpu, Undecided, Counts, Control, PlaceIn;
    forall i, j | 0 <= i < |s.ready| && 0 <= j < |s.ready| && i != j
      ensures s.ready[i] in s.fibers && s.ready[j] in s.fibers
              && s.fibers[s.ready[i]].serial != s.fibers[s.ready[j]].serial
    {
      assert s.ready[i] in s.ready && s.ready[j] in s.ready;
    }
  }

  lemma BeforeTail(s: State, parent: nat, child: nat)
    requires s.ready != [] && s.ready[0] in s.fibers && Before(s.fibers, s.ready, parent, child)
    requires forall i, j :: 0 <= i < |s.ready| && 0 <= j < |s.ready| && i != j ==>
              s.ready[i] in s.fibers && s.ready[j] in s.fibers
              && s.fibers[s.ready[i]].serial != s.fibers[s.ready[j]].serial
    ensures child != s.fibers[s.ready[0]].serial
    ensures parent != s.fibers[s.ready[0]].serial ==>
              Before(s.fibers[s.ready[0] := s.fibers[s.ready[0]].(context := OnCpu)], s.ready[1..], parent, child)
  {
    var i, j :| 0 <= i < j < |s.ready| && s.ready[i] in s.fibers && s.ready[j] in s.fibers
                && s.fibers[s.ready[i]].serial == parent && s.fibers[s.ready[j]].serial == child;
    if i > 0 {
      assert s.ready[1..][i - 1] == s.ready[i] && s.ready[1..][j - 1] == s.ready[j];
    }
  }

  /** Records keep their serial number for as long as they exist. */
  lemma SerialKept(s: State, e: Event)
    requires Legal(s, e)
    ensures forall h :: h in s.fibers && h in Step(s, e).fibers ==> Step(s, e).fibers[h].serial == s.fibers[h].serial
  {
    if e.Ask? {
      hide StepAsk;
      AskKeepsSerials(s, e);
    } else {
      hide KernelStep;
    }
  }

  lemma AskKeepsSerials(s: State, e: Event)
    requires Legal(s, e) && e.Ask?
    ensures forall h :: h in s.fibers && h in StepAsk(s, e).fibers ==> StepAsk(s, e).fibers[h].serial == s.fibers[h].serial
  {
    if s.pc.fiber in s.fibers {
      match e.ask
      case Exit(status) =>
      case Join(t) =>
      case Detach(t) =>
      case _ =>
    }
  }

  lemma QueuedExist(s: State)
    requires Inv(s)
    ensures forall h :: h in s.ready ==> h in s.fibers
  {
    hide Frames, Holding, Copies, Joins, Lives, Cpu, Undecided, Serials, Counts, Control, PlaceIn;
  }

  lemma SpawnOther(s: State, e: Event, m: SpawnMonitor)
    requires Inv(s) && Legal(s, e) && SpawnOk(s, m)
    requires Halted(Step(s, e).pc) || s.ready <= Step(s, e).ready
    ensures SpawnOk(Step(s, e), m)
  {
    hide Inv;
    var s' := Step(s, e);
    StepKeeps(s, e);
    QueuedExist(s');
    SerialKept(s, e);
    SpawnGrows(s, s', m);
  }

  lemma SpawnChild(s: State, e: Event, m: SpawnMonitor)
    requires Inv(s) && Legal(s, e) && SpawnOk(s, m)
    requires e.Ask? && e.ask.Spawn? && e.spawned.Some? && s.pc.fiber in s.fibers
    ensures SpawnOk(Step(s, e), Feed(SpawnNext, m, Emits(s, e)))
  {
    hide Inv, Before;
    SpawnOther(s, e, m);
    var h, c := s.pc.fiber, e.spawned.value;
    ChildQueued(s, h, s.pc.turns, e.request, c);
    SpawnFeed(m, Emits(s, e)[0], Emits(s, e)[1], s.fibers[h].serial, s.born, c);
  }

  lemma ChildQueued(s: State, h: Handle, turns: nat, p: Ptr, c: Handle)
    requires h in s.fibers && c !in s.fibers
    ensures var s' := StepSpawn(s, h, turns, p, Some(c));
            !Halted(s'.pc) && Before(s'.fibers, s'.ready, s.fibers[h].serial, s.born)
  {
    var s' := StepSpawn(s, h, turns, p, Some(c));
    assert s'.ready[|s.ready|] == h && s'.ready[|s.ready| + 1] == c;
  }

  lemma SpawnFeed(m: SpawnMonitor, a: Entry, b: Entry, parent: nat, child: nat, c: Handle)
    requires m.Spawns? && a.Asked? && b.Answered?
    ensures Feed(SpawnNext, m, [a, b, Born(child, c, Some(parent))]) == Spawns(m.owed + {(parent, child)})
  {
    FeedThree(SpawnNext, m, a, b, Born(child, c, Some(parent)));
  }

  lemma SpawnStep(s: State, e: Event, m: SpawnMonitor)
    requires Inv(s) && Legal(s, e) && SpawnOk(s, m)
    ensures SpawnOk(Step(s, e), Feed(SpawnNext, m, Emits(s, e)))
  {
    hide Frames, Queue, Holding, Copies, Joins, Lives, Cpu, Undecided, Serials, Held, Targets;
    match e
    case Admit(c) =>
      SpawnOther(s, e, m);
      SpawnQuiet(m, Emits(s, e));
    case Tick =>
      if s.pc.Sweep? && s.pc.turns > 0 {
        KeepDispatch(s, s.pc.turns);
        SpawnDispatch(s, m);
      } else {
        SpawnOther(s, e, m);
        SpawnQuiet(m, Emits(s, e));
      }
    case Ask(_, ask, spawned, _) =>
      CpuAt(s.fibers, s.pc.fiber);
      if ask.Spawn? && spawned.Some? {
        SpawnChild(s, e, m);
      } else {
        AskShape(s, e);
        SpawnOther(s, e, m);
        AskNoBirth(s, e);
        SpawnQuiet(m, Emits(s, e));
      }
    case Kernel(k) =>
      SpawnOther(s, e, m);
      KernelEntries(s, k);
      SpawnQuiet(m, Emits(s, e));
  }

  lemma AskNoBirth(s: State, e: Event)
    requires Legal(s, e) && e.Ask? && s.pc.fiber in s.fibers && !(e.ask.Spawn? && e.spawned.Some?)
    ensures forall x :: x in AskEmits(s, e) ==> !x.Resumed? && !x.Born?
  {
  }

  /** A successful spawn's parent runs again before the child's first turn. */
  lemma {:induction false} ParentRunsFirst(s: State, es: seq<Event>)
    requires Inv(s) && s.pc.Top? && LegalRun(s, es)
    ensures SpawnOk(Exec(s, es), Feed(SpawnNext, Spawns({}), Record(s, es)))
  {
    hide Frames, Queue, Holding, Copies, Joins, Lives, Cpu, Undecided, Serials, Held, Targets;
    if es != [] {
      var before, last := es[..|es| - 1], es[|es| - 1];
      ParentRunsFirst(s, before);
      RunKeeps(s, before);
      FeedAppend(SpawnNext, Spawns({}), Record(s, before), Emits(Exec(s, before), last));
      SpawnStep(Exec(s, before), last, Feed(SpawnNext, Spawns({}), Record(s, before)));
    }
  }

  // ---------------------------------------------------------------- progress

  /** The kernel honours `min_complete`: an enter that was to wait for a completion
      returns with one in the queue. */
  predicate Honours(s: State, e: Event) {
    s.pc.Reaping? && s.pc.owed != 0 && e.Tick? ==> s.ring.cq != []
  }

  ghost predicate HonestRun(s: State, es: seq<Event>)
    requires LegalRun(s, es)
  {
    es == [] || (HonestRun(s, es[..|es| - 1]) && Honours(Exec(s, es[..|es| - 1]), es[|es| - 1]))
  }

  /** Whether nobody ran or was woken since the last sweep began. */
  datatype IdleMonitor = Round(idle: bool) | BrokenRound

  function IdleNext(m: IdleMonitor, e: Entry): IdleMonitor {
    match m
    case BrokenRound => m
    case Round(idle) =>
      match e
      case SweepBegan(_) => if idle then BrokenRound else Round(true)
      case Resumed(_, _) => Round(false)
      case Woken(_, _, _) => Round(false)
      case _ => m
  }

  ghost predicate IdleOk(s: State, m: IdleMonitor) {
    && m.Round?
    && (m.idle && !Halted(s.pc) ==>
          match s.pc
          case Sweep(turns) => turns > 0 || (s.ready == [] && 0 < s.parkedCount)
          case Submitting(min) => min == 1
          case Reaping(owed) => owed == 1
          case _ => false)
  }

  lemma IdleQuiet(m: IdleMonitor, es: seq<Entry>)
    requires forall x :: x in es ==> !x.Resumed? && !x.SweepBegan? && !x.Woken?
    ensures Feed(IdleNext, m, es) == m
  {
    FeedQuiet(IdleNext, m, es);
  }

  lemma IdleTop(s: State, m: IdleMonitor)
    requires s.pc.Top? && IdleOk(s, m) && s.readyCount == |s.ready|
    requires StepTop(s).pc.Sweep? <==> !Drained(s)
    ensures IdleOk(StepTop(s), Feed(IdleNext, m, if StepTop(s).pc.Sweep? then [SweepBegan(s.ready)] else []))
  {
    FeedOne(IdleNext, m, SweepBegan(s.ready));
  }

  lemma IdleDispatch(s: State, m: IdleMonitor)
    requires s.pc.Sweep? && s.pc.turns > 0 && IdleOk(s, m) && !Halted(StepDispatch(s, s.pc.turns).pc)
    ensures IdleOk(StepDispatch(s, s.pc.turns), Feed(IdleNext, m, DispatchEmits(s)))
  {
    FeedDispatch(IdleNext, m, s);
  }

  lemma IdleReap(s: State, m: IdleMonitor)
    requires s.pc.Reaping? && IdleOk(s, m) && Honours(s, Tick) && s.pc.owed <= 1
    requires s.ring.cq != [] ==> s.ring.cq[0].userData in s.requests && s.requests[s.ring.cq[0].userData].fiber in s.fibers
    ensures IdleOk(StepReap(s), Feed(IdleNext, m, if StepReap(s).pc.Trapped? then [] else ReapEmits(s, StepReap(s))))
  {
    if s.ring.cq != [] {
      var p := s.ring.cq[0].userData;
      FeedOne(IdleNext, m, Woken(p, ResultAt(StepReap(s), p), s.requests[p].fiber));
    }
  }

  lemma IdleTick(s: State, m: IdleMonitor)
    requires Inv(s) && Legal(s, Tick) && IdleOk(s, m) && Honours(s, Tick)
    ensures IdleOk(Step(s, Tick), Feed(IdleNext, m, Emits(s, Tick)))
  {
    hide Frames, Queue, Holding, Copies, Joins, Lives, Cpu, Undecided, Serials, Held, Targets;
    hide IdleNext;
    if s.pc.Top? {
      KeepTop(s);
      IdleTop(s, m);
    } else if s.pc.Sweep? && s.pc.turns > 0 {
      KeepDispatch(s, s.pc.turns);
      IdleDispatch(s, m);
    } else if s.pc.Reaping? {
      if s.ring.cq != [] {
        CompletionAt(s);
      }
      IdleReap(s, m);
    } else {
      IdleQuiet(m, Emits(s, Tick));
    }
  }

  lemma IdleStep(s: State, e: Event, m: IdleMonitor)
    requires Inv(s) && Legal(s, e) && IdleOk(s, m) && Honours(s, e)
    ensures IdleOk(Step(s, e), Feed(IdleNext, m, Emits(s, e)))
  {
    hide Frames, Queue, Holding, Copies, Joins, Lives, Cpu, Undecided, Serials, Held, Targets;
    match e
    case Admit(c) =>
      IdleQuiet(m, Emits(s, e));
    case Tick =>
      IdleTick(s, m);
    case Ask(_, _, _, _) =>
      CpuAt(s.fibers, s.pc.fiber);
      AskEntries(s, e);
      IdleQuiet(m, Emits(s, e));
    case Kernel(k) =>
      KernelEntries(s, k);
      IdleQuiet(m, Emits(s, e));
  }

  /** No work is stranded: between two sweeps somebody ran or was woken. */
  lemma {:induction false} NoIdleRounds(s: State, es: seq<Event>)
    requires Inv(s) && s.pc.Top? && LegalRun(s, es) && HonestRun(s, es)
    ensures IdleOk(Exec(s, es), Feed(IdleNext, Round(false), Record(s, es)))
  {
    hide Frames, Queue, Holding, Copies, Joins, Lives, Cpu, Undecided, Serials, Held, Targets;
    if es != [] {
      var before, last := es[..|es| - 1], es[|es| - 1];
      NoIdleRounds(s, before);
      RunKeeps(s, before);
      FeedAppend(IdleNext, Round(false), Record(s, before), Emits(Exec(s, before), last));
      IdleStep(Exec(s, before), last, Feed(IdleNext, Round(false), Record(s, before)));
    }
  }
}
