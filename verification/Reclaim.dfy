/** The life of a record over whole runs: born, possibly detached, exited once, its status
    taken by at most one join, released exactly once and never resumed again. */
module Reclaim {
  import opened Base
  import opened RingModel
  import opened Machine
  import opened Invariant
  import opened InvariantProof
  import opened Deadlock
  import opened Trace
  import opened Delivery

  datatype Stay =
    | Unborn
    | Alive(detached: bool)
    | Zombie(detached: bool, status: int)
    | Claimed
    | Gone
    | Misused

  /** Follows the record with birth number `serial`. */
  datatype RecordMonitor = Watch(serial: nat, stay: Stay)

  function RecordNext(m: RecordMonitor, e: Entry): RecordMonitor {
    match e
    case Born(n, _, _) =>
      if n != m.serial then m else m.(stay := if m.stay.Unborn? then Alive(false) else Misused)
    case Resumed(_, n) =>
      if n != m.serial then m else m.(stay := if m.stay.Alive? then m.stay else Misused)
    case Marked(n) =>
      if n != m.serial then m else m.(stay := if m.stay == Alive(false) then Alive(true) else Misused)
    case Ended(n, status) =>
      if n != m.serial then m else m.(stay := if m.stay.Alive? then Zombie(m.stay.detached, status) else Misused)
    case JoinAnswered(_, _, n, value) =>
      if n != m.serial then m else m.(stay := if m.stay == Zombie(false, value) then Claimed else Misused)
    case Discarded(n) =>
      if n != m.serial then m
      else m.(stay := if m.stay.Zombie? && !m.stay.detached then Claimed else Misused)
    case Destroyed(n) =>
      if n != m.serial then m
      else m.(stay := if m.stay.Claimed? || (m.stay.Zombie? && m.stay.detached) then Gone else Misused)
    case _ => m
  }

  function StayOf(f: Fiber): Stay {
    match f.life
    case Live => Alive(false)
    case Detached => Alive(true)
    case Exited => Zombie(false, f.status)
  }

  /** The stay of a record read off the state. */
  ghost predicate StayOk(s: State, m: RecordMonitor) {
    && (m.serial >= s.born ==> m.stay.Unborn?)
    && (m.serial < s.born && (forall h :: h in s.fibers ==> s.fibers[h].serial != m.serial) ==> m.stay.Gone?)
    && (forall h :: h in s.fibers && s.fibers[h].serial == m.serial ==> m.stay == StayOf(s.fibers[h]))
  }

  /** A step that changes neither births nor the record followed. */
  lemma StayUntouched(s: State, s': State, m: RecordMonitor)
    requires StayOk(s, m) && s'.born == s.born
    requires forall h :: h in s.fibers && s.fibers[h].serial == m.serial ==>
               h in s'.fibers && s'.fibers[h].serial == m.serial && StayOf(s'.fibers[h]) == StayOf(s.fibers[h])
    requires forall h :: h in s'.fibers && s'.fibers[h].serial == m.serial ==> h in s.fibers && s.fibers[h].serial == m.serial
    ensures StayOk(s', m)
  {
    if forall h :: h in s'.fibers ==> s'.fibers[h].serial != m.serial {
      assert forall h :: h in s.fibers ==> s.fibers[h].serial != m.serial;
    }
  }

  /** The record at `t` is the only one with its number, and it is released. */
  lemma StayReleased(s: State, s': State, t: Handle, m: RecordMonitor)
    requires Serials(s.fibers, s.born) && t in s.fibers && s.fibers[t].serial == m.serial
    requires s'.born == s.born && t !in s'.fibers && m.stay.Gone?
    requires forall h :: h in s'.fibers ==> h in s.fibers && s'.fibers[h].serial == s.fibers[h].serial
    ensures StayOk(s', m)
  {
  }

  lemma StayBirth(s: State, c: Handle, m: RecordMonitor)
    requires Inv(s) && FreshHandle(s, c) && StayOk(s, m)
    ensures StayOk(Newborn(s, c), RecordNext(m, Born(s.born, c, None)))
  {
    hide Frames, Queue, Holding, Copies, Joins, Lives, Cpu, Undecided, Held, Targets, Counts, Control;
    var s' := Newborn(s, c);
    assert forall h :: h in s.fibers ==> h in s'.fibers && s'.fibers[h] == s.fibers[h];
    assert s'.fibers[c].serial == s.born;
  }

  /** Steps after which every record is as long-lived as before. */
  ghost predicate SameStays(fs: Records, fs': Records) {
    && fs'.Keys == fs.Keys
    && forall h :: h in fs ==> fs'[h].serial == fs[h].serial && StayOf(fs'[h]) == StayOf(fs[h])
  }

  lemma StaySame(s: State, s': State, m: RecordMonitor)
    requires StayOk(s, m) && s'.born == s.born && SameStays(s.fibers, s'.fibers)
    ensures StayOk(s', m)
  {
    StayUntouched(s, s', m);
  }

  predicate Unrelated(x: Entry) {
    !x.Born? && !x.Resumed? && !x.Marked? && !x.Ended? && !x.JoinAnswered? && !x.Discarded? && !x.Destroyed?
  }

  lemma RecordQuiet(m: RecordMonitor, es: seq<Entry>)
    requires forall x :: x in es ==> Unrelated(x)
    ensures Feed(RecordNext, m, es) == m
  {
    FeedQuiet(RecordNext, m, es);
  }

  // ---------------------------------------------------------------- ticks and the kernel

  lemma ReclaimDispatch(s: State, m: RecordMonitor)
    requires Inv(s) && s.pc.Sweep? && s.pc.turns > 0 && StayOk(s, m)
    ensures StayOk(StepDispatch(s, s.pc.turns), Feed(RecordNext, m, DispatchEmits(s)))
  {
    hide Frames, Queue, Holding, Copies, Joins, Lives, Cpu, Undecided, Serials, Held, Targets;
    KeepDispatch(s, s.pc.turns);
    var h := s.ready[0];
    ReadyFrame(s.fibers, s.requests, s.ready, h);
    LifeAt(s.fibers, h);
    StaySame(s, StepDispatch(s, s.pc.turns), m);
    assert RecordNext(m, Resumed(h, s.fibers[h].serial)) == m;
    FeedDispatch(RecordNext, m, s);
  }

  lemma ReclaimTick(s: State, m: RecordMonitor)
    requires Inv(s) && Legal(s, Tick) && StayOk(s, m)
    ensures StayOk(Step(s, Tick), Feed(RecordNext, m, Emits(s, Tick)))
  {
    hide Frames, Queue, Holding, Copies, Joins, Lives, Cpu, Undecided, Serials, Held, Targets;
    hide StayOk;
    if s.pc.Sweep? && s.pc.turns > 0 {
      KeepDispatch(s, s.pc.turns);
      ReclaimDispatch(s, m);
    } else {
      StaySame(s, Step(s, Tick), m);
      RecordQuiet(m, Emits(s, Tick));
    }
  }

  lemma ReclaimKernel(s: State, k: KernelEvent, m: RecordMonitor)
    requires Legal(s, Kernel(k)) && StayOk(s, m)
    ensures StayOk(StepKernel(s, k), Feed(RecordNext, m, Emits(s, Kernel(k))))
  {
    hide StayOk;
    StaySame(s, StepKernel(s, k), m);
    KernelEntries(s, k);
    RecordQuiet(m, Emits(s, Kernel(k)));
  }

  // ---------------------------------------------------------------- requests

  lemma ReclaimPlain(s: State, e: Event, m: RecordMonitor)
    requires Legal(s, e) && StayOk(s, m) && e.Ask? && s.pc.fiber in s.fibers
    requires e.ask.Yield? || e.ask.Await? || e.ask.ProcessExit?
             || (e.ask.Spawn? && e.spawned.None?)
             || (e.ask.Join? && !s.fibers[e.ask.target].life.Exited?)
    ensures StayOk(Step(s, e), Feed(RecordNext, m, Emits(s, e)))
  {
    hide StayOk;
    assert SameStays(s.fibers, Step(s, e).fibers);
    StaySame(s, Step(s, e), m);
    RecordQuiet(m, Emits(s, e));
  }

  lemma ReclaimSpawn(s: State, e: Event, m: RecordMonitor)
    requires Inv(s) && Legal(s, e) && StayOk(s, m) && e.Ask? && e.ask.Spawn? && e.spawned.Some?
    requires s.pc.fiber in s.fibers
    ensures StayOk(Step(s, e), Feed(RecordNext, m, Emits(s, e)))
  {
    hide Inv, StayOk;
    var h, c := s.pc.fiber, e.spawned.value;
    StayBirth(s, c, m);
    var s' := Step(s, e);
    assert SameStays(Newborn(s, c).fibers, s'.fibers);
    StaySame(Newborn(s, c), s', RecordNext(m, Born(s.born, c, None)));
    var es := Emits(s, e);
    var n := s.fibers[h].serial;
    FeedThree(RecordNext, m, es[0], es[1], Born(s.born, c, Some(n)));
  }

  /** The record at `t` goes, the others stay as they are. */
  ghost predicate Releases(fs: Records, fs': Records, t: Handle) {
    && fs'.Keys == fs.Keys - {t}
    && forall h :: h in fs' ==> fs'[h].serial == fs[h].serial && StayOf(fs'[h]) == StayOf(fs[h])
  }

  lemma StayAfterRelease(s: State, s': State, t: Handle, m: RecordMonitor, m': RecordMonitor)
    requires Inv(s) && StayOk(s, m) && t in s.fibers
    requires Releases(s.fibers, s'.fibers, t) && s'.born == s.born
    requires m' == if s.fibers[t].serial == m.serial then m.(stay := Gone) else m
    ensures StayOk(s', m')
  {
    hide Frames, Queue, Holding, Copies, Joins, Lives, Cpu, Undecided, Held, Targets, Counts, Control;
    if s.fibers[t].serial == m.serial {
      StayReleased(s, s', t, m');
    } else {
      StayUntouched(s, s', m);
    }
  }

  lemma ReclaimTake(s: State, e: Event, m: RecordMonitor)
    requires Inv(s) && Legal(s, e) && StayOk(s, m) && e.Ask? && s.pc.fiber in s.fibers
    requires e.ask.Join? && s.fibers[e.ask.target].life.Exited?
    ensures StayOk(Step(s, e), Feed(RecordNext, m, Emits(s, e)))
  {
    hide Inv;
    var s' := Step(s, e);
    var h, t := s.pc.fiber, e.ask.target;
    if s'.pc.Trapped? {
      StaySame(s, s', m);
    } else {
      hide RecordNext, StayOk;
      var es := Emits(s, e);
      var n := s.fibers[t].serial;
      ExitedStay(s, t, m);
      TakeFeed(m, es[0], e.request, t, n, s.fibers[t].status);
      assert Releases(s.fibers, s'.fibers, t);
      StayAfterRelease(s, s', t, m, if n == m.serial then m.(stay := Gone) else m);
    }
  }

  lemma ExitedStay(s: State, t: Handle, m: RecordMonitor)
    requires StayOk(s, m) && t in s.fibers && s.fibers[t].life.Exited?
    ensures s.fibers[t].serial == m.serial ==> m.stay == Zombie(false, s.fibers[t].status)
  {
  }

  lemma TakeFeed(m: RecordMonitor, a: Entry, p: Ptr, t: Handle, n: nat, status: int)
    requires a.Asked? && (n == m.serial ==> m.stay == Zombie(false, status))
    ensures Feed(RecordNext, m, [a, JoinAnswered(p, t, n, status), Destroyed(n)]) ==
            if n == m.serial then m.(stay := Gone) else m
  {
    FeedThree(RecordNext, m, a, JoinAnswered(p, t, n, status), Destroyed(n));
  }

  lemma ReclaimDetach(s: State, e: Event, m: RecordMonitor)
    requires Inv(s) && Legal(s, e) && StayOk(s, m) && e.Ask? && s.pc.fiber in s.fibers && e.ask.Detach?
    ensures StayOk(Step(s, e), Feed(RecordNext, m, Emits(s, e)))
  {
    hide Inv;
    var s' := Step(s, e);
    var t := e.ask.target;
    var es := Emits(s, e);
    var n := s.fibers[t].serial;
    if s'.pc.Trapped? {
      StaySame(s, s', m);
    } else if s.fibers[t].life.Exited? {
      hide StayOf, RecordNext;
      ExitedStay(s, t, m);
      DiscardFeed(m, es[0], es[1], n);
      StayAfterRelease(s, s', t, m, if n == m.serial then m.(stay := Gone) else m);
    } else {
      FeedThree(RecordNext, m, es[0], es[1], Marked(n));
      ReclaimMark(s, s', t, m);
    }
  }

  lemma DiscardFeed(m: RecordMonitor, a: Entry, b: Entry, n: nat)
    requires a.Asked? && b.Answered? && (n == m.serial ==> m.stay.Zombie? && !m.stay.detached)
    ensures Feed(RecordNext, m, [a, b, Discarded(n), Destroyed(n)]) == if n == m.serial then m.(stay := Gone) else m
  {
    FeedFour(RecordNext, m, a, b, Discarded(n), Destroyed(n));
  }

  lemma ReclaimMark(s: State, s': State, t: Handle, m: RecordMonitor)
    requires Inv(s) && StayOk(s, m) && t in s.fibers && s.fibers[t].life.Live?
    requires s'.fibers.Keys == s.fibers.Keys && s'.born == s.born && s'.fibers[t].life.Detached?
    requires forall h :: h in s.fibers ==> s'.fibers[h].serial == s.fibers[h].serial
    requires forall h :: h in s.fibers && h != t ==> StayOf(s'.fibers[h]) == StayOf(s.fibers[h])
    ensures StayOk(s', RecordNext(m, Marked(s.fibers[t].serial)))
  {
    hide Frames, Queue, Holding, Copies, Joins, Lives, Cpu, Undecided, Held, Targets, Counts, Control;
    if s.fibers[t].serial != m.serial {
      StayUntouched(s, s', m);
    }
  }

  lemma ReclaimExit(s: State, e: Event, m: RecordMonitor)
    requires Inv(s) && Legal(s, e) && StayOk(s, m) && e.Ask? && s.pc.fiber in s.fibers && e.ask.Exit?
    ensures StayOk(Step(s, e), Feed(RecordNext, m, Emits(s, e)))
  {
    hide Inv, RecordNext;
    var s' := Step(s, e);
    var h := s.pc.fiber;
    var f := s.fibers[h];
    SlotOfRunner(s);
    if s'.pc.Trapped? {
      StaySame(s, s', m);
    } else if f.joiner.None? && !f.life.Detached? {
      FeedOne(RecordNext, m, Ended(f.serial, e.ask.status));
      ReclaimZombie(s, s', h, e.ask.status, m);
    } else {
      RunningStay(s, h, m);
      hide StayOf;
      if f.life.Detached? {
        DetachedFeed(m, f.serial, e.ask.status);
      } else {
        assert ResultAt(s', f.joiner.value) == e.ask.status;
        JoinedFeed(m, f.joiner.value, h, f.serial, e.ask.status);
      }
      StayAfterRelease(s, s', h, m, if f.serial == m.serial then m.(stay := Gone) else m);
    }
  }

  lemma RunningStay(s: State, h: Handle, m: RecordMonitor)
    requires StayOk(s, m) && h in s.fibers && !s.fibers[h].life.Exited?
    ensures s.fibers[h].serial == m.serial ==> m.stay == Alive(s.fibers[h].life.Detached?)
  {
  }

  lemma DetachedFeed(m: RecordMonitor, n: nat, status: int)
    requires n == m.serial ==> m.stay == Alive(true)
    ensures Feed(RecordNext, m, [Ended(n, status), Destroyed(n)]) == if n == m.serial then m.(stay := Gone) else m
  {
    FeedTwo(RecordNext, m, Ended(n, status), Destroyed(n));
  }

  lemma JoinedFeed(m: RecordMonitor, p: Ptr, t: Handle, n: nat, status: int)
    requires n == m.serial ==> m.stay == Alive(false)
    ensures Feed(RecordNext, m, [Ended(n, status), JoinAnswered(p, t, n, status), Destroyed(n)]) ==
            if n == m.serial then m.(stay := Gone) else m
  {
    FeedThree(RecordNext, m, Ended(n, status), JoinAnswered(p, t, n, status), Destroyed(n));
  }

  lemma ReclaimZombie(s: State, s': State, h: Handle, status: int, m: RecordMonitor)
    requires Inv(s) && StayOk(s, m) && h in s.fibers && s.fibers[h].life.Live?
    requires s'.born == s.born
    requires s'.fibers == s.fibers[h := s.fibers[h].(context := Poisoned, status := status, life := Exited)]
    ensures StayOk(s', RecordNext(m, Ended(s.fibers[h].serial, status)))
  {
    hide Frames, Queue, Holding, Copies, Joins, Lives, Cpu, Undecided, Held, Targets, Counts, Control;
    if s.fibers[h].serial != m.serial {
      StayUntouched(s, s', m);
    } else {
      assert s'.fibers[h].serial == m.serial;
    }
  }

  // ---------------------------------------------------------------- every run

  lemma ReclaimStep(s: State, e: Event, m: RecordMonitor)
    requires Inv(s) && Legal(s, e) && StayOk(s, m)
    ensures StayOk(Step(s, e), Feed(RecordNext, m, Emits(s, e)))
  {
    hide Inv, StayOk, StepAsk;
    match e
    case Admit(c) => ReclaimAdmit(s, c, m);
    case Tick => ReclaimTick(s, m);
    case Kernel(k) => ReclaimKernel(s, k, m);
    case Ask(_, ask, spawned, _) =>
      RunnerExists(s);
      if ask.Exit? {
        ReclaimExit(s, e, m);
      } else if ask.Detach? {
        ReclaimDetach(s, e, m);
      } else if ask.Join? && s.fibers[ask.target].life.Exited? {
        ReclaimTake(s, e, m);
      } else if ask.Spawn? && spawned.Some? {
        ReclaimSpawn(s, e, m);
      } else {
        ReclaimPlain(s, e, m);
      }
  }

  lemma ReclaimAdmit(s: State, c: Handle, m: RecordMonitor)
    requires Inv(s) && Legal(s, Admit(c)) && StayOk(s, m)
    ensures StayOk(Step(s, Admit(c)), Feed(RecordNext, m, Emits(s, Admit(c))))
  {
    hide Inv, StayOk;
    FeedOne(RecordNext, m, Born(s.born, c, None));
    StayBirth(s, c, m);
    StaySame(Newborn(s, c), Step(s, Admit(c)), RecordNext(m, Born(s.born, c, None)));
  }

  /** In every run every record is released at most once, only after its exit, never runs
      again afterwards, and a join is answered with exactly the status it exited with. */
  lemma {:induction false} EveryRecordReleasedOnce(s: State, es: seq<Event>, serial: nat)
    requires Inv(s) && s.fibers == map[] && s.born == 0 && LegalRun(s, es)
    ensures StayOk(Exec(s, es), Feed(RecordNext, Watch(serial, Unborn), Record(s, es)))
  {
    hide Inv, RecordNext;
    if es != [] {
      var before, last := es[..|es| - 1], es[|es| - 1];
      EveryRecordReleasedOnce(s, before, serial);
      RunKeeps(s, before);
      FeedAppend(RecordNext, Watch(serial, Unborn), Record(s, before), Emits(Exec(s, before), last));
      ReclaimStep(Exec(s, before), last, Feed(RecordNext, Watch(serial, Unborn), Record(s, before)));
    }
  }

  /** If the reactor returned by draining, every fiber ever born has exited; those not
      released are exactly the exited ones that no join and no detach took. */
  lemma DrainConservesRecords(s: State, es: seq<Event>, serial: nat)
    requires Inv(s) && s.fibers == map[] && s.born == 0 && LegalRun(s, es)
    requires Exec(s, es).pc == Returned(0, Top) && serial < Exec(s, es).born
    ensures var stay := Feed(RecordNext, Watch(serial, Unborn), Record(s, es)).stay;
            && (stay.Gone? || (stay.Zombie? && !stay.detached))
            && (stay.Zombie? <==> exists h :: h in Exec(s, es).fibers && Exec(s, es).fibers[h].serial == serial)
  {
    hide Inv, RecordNext;
    EveryRecordReleasedOnce(s, es, serial);
    RunKeeps(s, es);
    DrainLeavesExited(Exec(s, es));
    MonitorKeepsSerial(Watch(serial, Unborn), Record(s, es));
  }

  lemma {:induction false} MonitorKeepsSerial(m: RecordMonitor, es: seq<Entry>)
    ensures Feed(RecordNext, m, es).serial == m.serial
    decreases |es|
  {
    if es != [] {
      MonitorKeepsSerial(RecordNext(m, es[0]), es[1..]);
    }
  }
}
