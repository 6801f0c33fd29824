/** Consequences of the invariant for every reachable state: the classes partition the
    undestroyed fibers, the counters count them, and every address held is alive. */
module Ownership {
  import opened Base
  import opened RingModel
  import opened Machine
  import opened Invariant

  // ---------------------------------------------------------------- who holds a fiber

  function QueuedFibers(s: State): set<Handle> { set h | h in s.ready }

  /** Askers of the requests in the batch, in the kernel or in the completion queue. */
  function RingFibers(s: State): set<Handle> {
    set p | p in Held(s.ring) && p in s.requests :: s.requests[p].fiber
  }

  /** Askers of the requests standing in a join slot. */
  function JoinFibers(s: State): set<Handle> {
    set t | t in s.fibers && s.fibers[t].joiner.Some? && s.fibers[t].joiner.value in s.requests ::
      s.requests[s.fibers[t].joiner.value].fiber
  }

  function ExitedFibers(s: State): set<Handle> { set h | h in s.fibers && s.fibers[h].life.Exited? }

  function RunningFibers(s: State): set<Handle> {
    if Runner(s.pc).Some? then {Runner(s.pc).value} else {}
  }

  function ParkingFibers(s: State): set<Handle> {
    if Parker(s.pc).Some? && Parker(s.pc).value in s.requests then {s.requests[Parker(s.pc).value].fiber} else {}
  }

  ghost function Placed(s: State, place: Place): set<Handle> {
    set h | h in s.fibers && PlaceOf(s, h) == place
  }

  lemma QueuedPlaced(s: State)
    requires Inv(s)
    ensures QueuedFibers(s) == Placed(s, Ready)
  {
    hide Holding, Copies, Joins, Lives, Cpu, Undecided, Serials, Counts, Control;
  }

  lemma RingPlaced(s: State)
    requires Inv(s)
    ensures RingFibers(s) == Placed(s, InRing)
  {
    hide Queue, Copies, Joins, Lives, Cpu, Undecided, Serials, Counts, Control, Held;
    forall h | h in Placed(s, InRing)
      ensures h in RingFibers(s)
    {
      var p := s.fibers[h].context.frame;
      assert p in Held(s.ring) && s.requests[p].fiber == h;
    }
  }

  lemma JoinPlaced(s: State)
    requires Inv(s)
    ensures JoinFibers(s) == Placed(s, Blocked)
  {
    hide Queue, Holding, Copies, Lives, Cpu, Undecided, Serials, Counts, Control, Held;
    forall h | h in Placed(s, Blocked)
      ensures h in JoinFibers(s)
    {
      var p := s.fibers[h].context.frame;
      var t := s.requests[p].ask.target;
      assert s.fibers[t].joiner == Some(p);
    }
  }

  lemma OthersPlaced(s: State)
    requires Inv(s)
    ensures ExitedFibers(s) == Placed(s, Finished)
    ensures RunningFibers(s) == Placed(s, OnTheCpu)
    ensures ParkingFibers(s) == Placed(s, Parking)
  {
    hide Queue, Holding, Copies, Joins, Serials, Counts, Control, Held;
    forall h | h in Placed(s, Parking)
      ensures h in ParkingFibers(s)
    {
      assert s.requests[s.fibers[h].context.frame].stage.Pending?;
    }
  }

  /** Distinct addresses are held for distinct fibers. */
  lemma RingCard(s: State)
    requires Inv(s)
    ensures |RingFibers(s)| == |Held(s.ring)|
  {
    hide Queue, Copies, Joins, Lives, Cpu, Undecided, Serials, Counts, Control, Held;
    var held := Held(s.ring);
    assert forall p :: p in held ==> p in s.requests;
    var askers := seq(|held|, i requires 0 <= i < |held| => s.requests[held[i]].fiber);
    forall i, j | 0 <= i < j < |askers|
      ensures askers[i] != askers[j]
    {
      assert held[i] in s.requests && held[j] in s.requests && held[i] != held[j];
    }
    forall h
      ensures h in askers <==> h in RingFibers(s)
    {
      if h in RingFibers(s) {
        var p :| p in held && p in s.requests && s.requests[p].fiber == h;
        var i :| 0 <= i < |held| && held[i] == p;
        assert askers[i] == h;
      }
    }
    DistinctCard(askers, RingFibers(s));
  }

  lemma JoinCard(s: State)
    requires Inv(s)
    ensures |JoinFibers(s)| == |Targets(s.fibers)|
  {
    hide Queue, Holding, Copies, Lives, Cpu, Undecided, Serials, Counts, Control, Held;
    JoinCardIn(s, Targets(s.fibers), JoinFibers(s));
  }

  lemma {:induction false} JoinCardIn(s: State, ts: set<Handle>, hs: set<Handle>)
    requires Frames(s.fibers, s.requests) && Joins(s.fibers, s.requests)
    requires ts <= Targets(s.fibers)
    requires hs == set t | t in ts :: s.requests[s.fibers[t].joiner.value].fiber
    ensures |hs| == |ts|
    decreases ts
  {
    if ts != {} {
      var t :| t in ts;
      var h := s.requests[s.fibers[t].joiner.value].fiber;
      var rest := set u | u in ts - {t} :: s.requests[s.fibers[u].joiner.value].fiber;
      assert hs == rest + {h};
      assert h !in rest;
      JoinCardIn(s, ts - {t}, rest);
    }
  }

  /** In every state of every run each undestroyed fiber is in exactly one class, and the
      three counters of the scheduler are the sizes of theirs, so none ever wraps. */
  lemma Partition(s: State)
    requires Inv(s)
    ensures s.fibers.Keys ==
            QueuedFibers(s) + RingFibers(s) + JoinFibers(s) + ExitedFibers(s) + RunningFibers(s) + ParkingFibers(s)
    ensures QueuedFibers(s) !! RingFibers(s) !! JoinFibers(s) !! ExitedFibers(s) !! RunningFibers(s) !! ParkingFibers(s)
    ensures |s.fibers| ==
            s.readyCount + s.parkedCount + s.joiningCount
            + |ExitedFibers(s)| + |RunningFibers(s)| + |ParkingFibers(s)|
    ensures s.readyCount == |QueuedFibers(s)|
    ensures s.parkedCount == |RingFibers(s)|
    ensures s.joiningCount == |JoinFibers(s)|
    ensures |s.fibers| < TWO32
  {
    hide Frames, Queue, Holding, Copies, Joins, Lives, Cpu, Undecided, Serials, Control, Held, Targets;
    hide Placed, QueuedFibers, RingFibers, JoinFibers, ExitedFibers, RunningFibers, ParkingFibers;
    QueuedPlaced(s);
    RingPlaced(s);
    JoinPlaced(s);
    OthersPlaced(s);
    RingCard(s);
    JoinCard(s);
    QueuedCard(s);
    PlacesApart(s);
    PlacesPartition(s);
  }

  lemma PlacesPartition(s: State)
    ensures s.fibers.Keys == Placed(s, Ready) + Placed(s, InRing) + Placed(s, Blocked)
                             + Placed(s, Finished) + Placed(s, OnTheCpu) + Placed(s, Parking)
    ensures |s.fibers| == |Placed(s, Ready)| + |Placed(s, InRing)| + |Placed(s, Blocked)|
                          + |Placed(s, Finished)| + |Placed(s, OnTheCpu)| + |Placed(s, Parking)|
  {
    hide Placed;
    PlacesCover(s);
    PlacesApart(s);
    DisjointSum(Placed(s, Ready), Placed(s, InRing), Placed(s, Blocked),
                Placed(s, Finished), Placed(s, OnTheCpu), Placed(s, Parking));
  }

  lemma PlacesCover(s: State)
    ensures s.fibers.Keys == Placed(s, Ready) + Placed(s, InRing) + Placed(s, Blocked)
                             + Placed(s, Finished) + Placed(s, OnTheCpu) + Placed(s, Parking)
  {
    hide PlaceOf;
    var all := Placed(s, Ready) + Placed(s, InRing) + Placed(s, Blocked)
               + Placed(s, Finished) + Placed(s, OnTheCpu) + Placed(s, Parking);
    forall h | h in s.fibers
      ensures h in all
    {
      assert h in Placed(s, PlaceOf(s, h));
    }
  }

  lemma PlacesApart(s: State)
    ensures Placed(s, Ready) !! Placed(s, InRing) !! Placed(s, Blocked)
            !! Placed(s, Finished) !! Placed(s, OnTheCpu) !! Placed(s, Parking)
  {
    hide PlaceOf;
  }

  lemma DisjointSum<T>(a: set<T>, b: set<T>, c: set<T>, d: set<T>, e: set<T>, f: set<T>)
    requires a !! b !! c !! d !! e !! f
    ensures |a + b + c + d + e + f| == |a| + |b| + |c| + |d| + |e| + |f|
  {
    assert |a + b| == |a| + |b|;
    assert |a + b + c| == |a + b| + |c|;
    assert |a + b + c + d| == |a + b + c| + |d|;
    assert |a + b + c + d + e| == |a + b + c + d| + |e|;
  }

  lemma QueuedCard(s: State)
    requires Inv(s)
    ensures |QueuedFibers(s)| == |s.ready|
  {
    hide Frames, Holding, Copies, Joins, Lives, Cpu, Undecided, Serials, Counts, Control, Held;
    DistinctCard(s.ready, QueuedFibers(s));
  }
}
