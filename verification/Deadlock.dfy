/** The verdict of a drained scheduler: it traps exactly when some fibers join each other
    in a cycle, and returns zero exactly when every fiber left has exited. */
module Deadlock {
  import opened Base
  import opened RingModel
  import opened Machine
  import opened Invariant
  import opened Ownership

  /** The fiber that `h` is blocked on. */
  predicate WaitsFor(s: State, h: Handle, t: Handle) {
    && h in s.fibers && s.fibers[h].context.Suspended?
    && s.fibers[h].context.frame in s.requests
    && s.requests[s.fibers[h].context.frame].stage.Pending?
    && s.requests[s.fibers[h].context.frame].ask == Join(t)
  }

  /** A closed walk of joins, without repetition. */
  ghost predicate IsCycle(s: State, path: seq<Handle>) {
    && path != []
    && Distinct(path)
    && (forall i :: 0 <= i < |path| - 1 ==> WaitsFor(s, path[i], path[i + 1]))
    && WaitsFor(s, path[|path| - 1], path[0])
  }

  ghost predicate OnCycle(s: State, h: Handle) {
    exists path :: IsCycle(s, path) && path[0] == h
  }

  ghost predicate IsChain(s: State, path: seq<Handle>) {
    && path != []
    && Distinct(path)
    && (forall i :: 0 <= i < |path| ==> path[i] in s.fibers && PlaceOf(s, path[i]) == Blocked)
    && (forall i :: 0 <= i < |path| - 1 ==> WaitsFor(s, path[i], path[i + 1]))
  }

  /** A slot holds one join, so two fibers cannot wait for the same one. */
  lemma WaitsInjective(s: State, g: Handle, h: Handle, t: Handle)
    requires Frames(s.fibers, s.requests) && Joins(s.fibers, s.requests)
    requires WaitsFor(s, g, t) && WaitsFor(s, h, t)
    ensures g == h
  {
  }

  /** Once drained, whoever is waited for waits too. */
  lemma TargetBlocked(s: State, h: Handle)
    requires Inv(s) && Drained(s) && Runner(s.pc).None? && Parker(s.pc).None?
    requires h in s.fibers && PlaceOf(s, h) == Blocked
    ensures exists t :: WaitsFor(s, h, t) && t in s.fibers && PlaceOf(s, t) == Blocked
  {
    var t := s.requests[s.fibers[h].context.frame].ask.target;
    assert WaitsFor(s, h, t);
    BlockedTargetLives(s, h, t);
    OnlyBlocked(s, t);
  }

  lemma BlockedTargetLives(s: State, h: Handle, t: Handle)
    requires Inv(s) && WaitsFor(s, h, t)
    ensures t in s.fibers && !s.fibers[t].life.Exited?
  {
    hide Frames, Queue, Holding, Copies, Lives, Cpu, Undecided, Serials, Counts, Control;
  }

  lemma OnlyBlocked(s: State, t: Handle)
    requires Inv(s) && Drained(s) && Runner(s.pc).None? && Parker(s.pc).None?
    requires t in s.fibers && !s.fibers[t].life.Exited?
    ensures PlaceOf(s, t) == Blocked
  {
    hide Frames, Queue, Holding, Copies, Joins, Lives, Cpu, Undecided, Serials, Control, Held, Targets;
    Partition(s);
    JoinPlaced(s);
    assert QueuedFibers(s) == {} && RingFibers(s) == {};
    assert t in JoinFibers(s);
  }

  lemma {:induction false} ChainCloses(s: State, path: seq<Handle>)
    requires Inv(s) && Drained(s) && Runner(s.pc).None? && Parker(s.pc).None?
    requires IsChain(s, path)
    ensures exists cycle :: IsCycle(s, cycle) && cycle[0] == path[0]
    decreases |s.fibers| - |path|
  {
    hide Queue, Holding, Copies, Lives, Cpu, Undecided, Serials, Counts, Control, PlaceOf;
    var last := path[|path| - 1];
    TargetBlocked(s, last);
    var t :| WaitsFor(s, last, t) && t in s.fibers && PlaceOf(s, t) == Blocked;
    ChainShort(s, path);
    if t in path {
      var i :| 0 <= i < |path| && path[i] == t;
      if i > 0 {
        WaitsInjective(s, path[i - 1], last, t);
      }
      assert IsCycle(s, path);
    } else {
      ExtendChain(s, path, t);
      ChainShort(s, path + [t]);
      ChainCloses(s, path + [t]);
    }
  }

  lemma ExtendChain(s: State, path: seq<Handle>, t: Handle)
    requires IsChain(s, path) && t !in path && t in s.fibers && PlaceOf(s, t) == Blocked
    requires WaitsFor(s, path[|path| - 1], t)
    ensures IsChain(s, path + [t])
  {
    hide PlaceOf, WaitsFor;
  }

  lemma ChainShort(s: State, path: seq<Handle>)
    requires IsChain(s, path)
    ensures |path| <= |s.fibers|
  {
    hide PlaceOf, WaitsFor;
    var hs := set h | h in path;
    DistinctCard(path, hs);
    assert hs <= s.fibers.Keys;
    assert s.fibers.Keys == hs + (s.fibers.Keys - hs);
  }

  /** Every joiner blocked at a drain lies on a join cycle. */
  lemma BlockedOnCycle(s: State, h: Handle)
    requires Inv(s) && Drained(s) && Runner(s.pc).None? && Parker(s.pc).None?
    requires h in JoinFibers(s)
    ensures OnCycle(s, h)
  {
    hide Frames, Queue, Holding, Copies, Joins, Lives, Cpu, Undecided, Serials, Counts, Control;
    JoinPlaced(s);
    assert h in Placed(s, Blocked);
    assert IsChain(s, [h]);
    ChainCloses(s, [h]);
  }

  /** Whoever waits is counted, so a cycle anywhere shows up in `joining_count`. */
  lemma WaiterCounted(s: State, h: Handle, t: Handle)
    requires Inv(s) && WaitsFor(s, h, t)
    ensures h in JoinFibers(s) && s.joiningCount != 0
  {
    hide Frames, Queue, Holding, Copies, Joins, Lives, Cpu, Undecided, Serials, Control, Held, Targets;
    JoinPlaced(s);
    assert h in Placed(s, Blocked);
    Partition(s);
  }

  /** The drained scheduler traps if and only if there is a join cycle; then the blocked
      fibers are exactly those on cycles. Otherwise it returns zero. */
  lemma DrainVerdict(s: State)
    requires Inv(s) && s.pc.Top? && Drained(s)
    ensures StepTop(s).pc == Trapped(JoinCycle, Top) <==> exists h :: OnCycle(s, h)
    ensures StepTop(s).pc == Returned(0, Top) <==> !exists h :: OnCycle(s, h)
    ensures forall h :: h in JoinFibers(s) <==> OnCycle(s, h)
  {
    hide Inv, OnCycle, JoinFibers, QueuedFibers, RingFibers, ExitedFibers, RunningFibers, ParkingFibers;
    forall h
      ensures h in JoinFibers(s) <==> OnCycle(s, h)
    {
      if h in JoinFibers(s) {
        BlockedOnCycle(s, h);
      }
      if OnCycle(s, h) {
        CycleBlocked(s, h);
      }
    }
    assert s.joiningCount == |JoinFibers(s)| by {
      Partition(s);
    }
    if s.joiningCount != 0 {
      var h :| h in JoinFibers(s);
      assert OnCycle(s, h);
    } else {
      assert JoinFibers(s) == {};
    }
  }

  lemma CycleBlocked(s: State, h: Handle)
    requires Inv(s) && OnCycle(s, h)
    ensures h in JoinFibers(s)
  {
    hide Inv, WaitsFor, JoinFibers;
    var path :| IsCycle(s, path) && path[0] == h;
    WaiterCounted(s, h, if |path| == 1 then path[0] else path[1]);
  }

  /** A run that returned by draining left only exited fibers that nobody took. */
  lemma DrainLeavesExited(s: State)
    requires Inv(s) && s.pc == Returned(0, Top)
    ensures forall h :: h in s.fibers ==> s.fibers[h].life.Exited? && s.fibers[h].joiner.None?
    ensures s.requests == map[] && Held(s.ring) == [] && s.ready == []
  {
    hide Frames, Queue, Holding, Copies, Joins, Lives, Cpu, Undecided, Serials, Targets;
    AllExited(s);
    NoRequests(s);
    NoSlots(s);
  }

  lemma AllExited(s: State)
    requires Inv(s) && s.pc == Returned(0, Top)
    ensures s.fibers.Keys == ExitedFibers(s)
  {
    hide Frames, Queue, Holding, Copies, Joins, Lives, Cpu, Undecided, Serials, Held, Targets;
    Partition(s);
    assert QueuedFibers(s) == {} && RingFibers(s) == {} && JoinFibers(s) == {};
  }

  lemma NoRequests(s: State)
    requires Inv(s) && s.fibers.Keys == ExitedFibers(s)
    ensures s.requests == map[]
  {
    hide Queue, Holding, Copies, Joins, Cpu, Undecided, Serials, Held, Targets, Counts, Control;
    forall h | h in s.fibers
      ensures !s.fibers[h].context.Suspended?
    {
      assert h in ExitedFibers(s);
    }
  }

  lemma NoSlots(s: State)
    requires Inv(s) && s.fibers.Keys == ExitedFibers(s)
    ensures forall h :: h in s.fibers ==> s.fibers[h].joiner.None?
  {
    hide Frames, Queue, Holding, Copies, Lives, Cpu, Undecided, Serials, Held, Targets, Counts, Control;
    forall h | h in s.fibers
      ensures s.fibers[h].joiner.None?
    {
      assert h in ExitedFibers(s);
    }
  }
}
