/** Two runs written out: the environment's obligations can be met, and both verdicts of a
    drained reactor are reached. */
module Scenarios {
  import opened Base
  import opened RingModel
  import opened Machine
  import opened Invariant
  import opened Theorems

  predicate Leads(s: State, e: Event, s': State) { Legal(s, e) && Step(s, e) == s' }

  /** A chain of steps is a run. */
  lemma {:induction false} Walk(states: seq<State>, es: seq<Event>)
    requires |states| == |es| + 1
    requires forall i :: 0 <= i < |es| ==> Leads(states[i], es[i], states[i + 1])
    ensures LegalRun(states[0], es) && Exec(states[0], es) == states[|es|]
    decreases |es|
  {
    hide Legal, Step;
    if es != [] {
      Walk(states[..|es|], es[..|es| - 1]);
      assert Leads(states[|es| - 1], es[|es| - 1], states[|es|]);
    }
  }

  function Asks(p: Ptr, ask: Ask): Event { Ask(p, ask, None, true) }

  // ---------------------------------------------------------------- two joins

  function Pair(a: Context, x: Option<Ptr>, b: Context, y: Option<Ptr>): Records {
    map[1 := Fiber(0, a, x, 0, Live), 2 := Fiber(1, b, y, 0, Live)]
  }

  function Waits(n: nat): Requests {
    if n == 0 then map[]
    else if n == 1 then map[10 := Request(Join(2), 0, 1, Pending)]
    else map[10 := Request(Join(2), 0, 1, Pending), 20 := Request(Join(1), 0, 2, Pending)]
  }

  function Scene(fs: Records, n: nat, ready: seq<Handle>, pc: Pc): State {
    State(fs, Waits(n), ready, |ready|, 0, n, |fs|, RingState(8, 16, [], [], []), pc)
  }

  const ALONE: Records := map[1 := Fiber(0, Fresh, None, 0, Live)]
  const NEWCOMERS: Records := Pair(Fresh, None, Fresh, None)
  const FIRST_UP: Records := Pair(OnCpu, None, Fresh, None)
  const FIRST_WAITS: Records := Pair(Suspended(10), None, Fresh, Some(10))
  const SECOND_UP: Records := Pair(Suspended(10), None, OnCpu, Some(10))
  const BOTH_WAIT: Records := Pair(Suspended(10), Some(20), Suspended(20), Some(10))

  lemma Arrivals()
    ensures Leads(Boot(8, 16), Admit(1), Scene(ALONE, 0, [1], Top))
    ensures Leads(Scene(ALONE, 0, [1], Top), Admit(2), Scene(NEWCOMERS, 0, [1, 2], Top))
    ensures Leads(Scene(NEWCOMERS, 0, [1, 2], Top), Tick, Scene(NEWCOMERS, 0, [1, 2], Sweep(2)))
  {
    assert |ALONE| == 1 && |NEWCOMERS| == 2;
  }

  lemma FirstTurn()
    ensures Leads(Scene(NEWCOMERS, 0, [1, 2], Sweep(2)), Tick, Scene(FIRST_UP, 0, [2], Running(1, 1)))
  {
  }

  lemma FirstJoin()
    ensures Leads(Scene(FIRST_UP, 0, [2], Running(1, 1)), Asks(10, Join(2)), Scene(FIRST_WAITS, 1, [2], Sweep(1)))
  {
  }

  lemma SecondTurn()
    ensures Leads(Scene(FIRST_WAITS, 1, [2], Sweep(1)), Tick, Scene(SECOND_UP, 1, [], Running(2, 0)))
  {
  }

  lemma SecondJoin()
    ensures Leads(Scene(SECOND_UP, 1, [], Running(2, 0)), Asks(20, Join(1)), Scene(BOTH_WAIT, 2, [], Sweep(0)))
  {
  }

  lemma BothBlocked()
    ensures Leads(Scene(BOTH_WAIT, 2, [], Sweep(0)), Tick, Scene(BOTH_WAIT, 2, [], Top))
    ensures Leads(Scene(BOTH_WAIT, 2, [], Top), Tick, Scene(BOTH_WAIT, 2, [], Trapped(JoinCycle, Top)))
  {
  }

  const EMBRACE: seq<Event> :=
    [Admit(1), Admit(2), Tick, Tick, Asks(10, Join(2)), Tick, Asks(20, Join(1)), Tick, Tick]

  /** Two fibers that join each other: a run from boot that ends in the deadlock trap. */
  lemma MutualJoinTraps()
    ensures BootRun(8, 16, EMBRACE) && After(8, 16, EMBRACE).pc == Trapped(JoinCycle, Top)
  {
    hide Leads, Pair, LegalRun, Exec;
    Arrivals();
    FirstTurn();
    FirstJoin();
    SecondTurn();
    SecondJoin();
    BothBlocked();
    Walk([Boot(8, 16), Scene(ALONE, 0, [1], Top), Scene(NEWCOMERS, 0, [1, 2], Top),
          Scene(NEWCOMERS, 0, [1, 2], Sweep(2)), Scene(FIRST_UP, 0, [2], Running(1, 1)),
          Scene(FIRST_WAITS, 1, [2], Sweep(1)), Scene(SECOND_UP, 1, [], Running(2, 0)),
          Scene(BOTH_WAIT, 2, [], Sweep(0)), Scene(BOTH_WAIT, 2, [], Top),
          Scene(BOTH_WAIT, 2, [], Trapped(JoinCycle, Top))], EMBRACE);
  }

  // ---------------------------------------------------------------- one await

  const WISH: Sqe := Sqe(5, 0, 0)
  const SENT: Sqe := Sqe(5, 0, 10)

  function One(context: Context): Records {
    map[1 := Fiber(0, context, None, 0, Live)]
  }

  const OVER: Records := map[1 := Fiber(0, Poisoned, None, 3, Exited)]

  function Frame(result: int, stage: Stage): Requests {
    map[10 := Request(Await(WISH), result, 1, stage)]
  }

  function Solo(fs: Records, rs: Requests, ready: seq<Handle>, parked: nat, batch: seq<Sqe>, flight: seq<Sqe>,
                cq: seq<Cqe>, pc: Pc): State
  {
    State(fs, rs, ready, |ready|, parked, 0, 1, RingState(8, 16, batch, flight, cq), pc)
  }

  const PARKING: Records := One(Suspended(10))

  lemma Begins()
    ensures Leads(Boot(8, 16), Admit(1), Solo(One(Fresh), map[], [1], 0, [], [], [], Top))
    ensures Leads(Solo(One(Fresh), map[], [1], 0, [], [], [], Top), Tick,
                  Solo(One(Fresh), map[], [1], 0, [], [], [], Sweep(1)))
    ensures Leads(Solo(One(Fresh), map[], [1], 0, [], [], [], Sweep(1)), Tick,
                  Solo(One(OnCpu), map[], [], 0, [], [], [], Running(1, 0)))
  {
  }

  lemma Awaits()
    ensures Leads(Solo(One(OnCpu), map[], [], 0, [], [], [], Running(1, 0)), Asks(10, Await(WISH)),
                  Solo(PARKING, Frame(0, Pending), [], 0, [], [], [], Appending(10, 0, false)))
    ensures Leads(Solo(PARKING, Frame(0, Pending), [], 0, [], [], [], Appending(10, 0, false)), Tick,
                  Solo(PARKING, Frame(0, Parked(SENT)), [], 1, [SENT], [], [], Sweep(0)))
    ensures Leads(Solo(PARKING, Frame(0, Parked(SENT)), [], 1, [SENT], [], [], Sweep(0)), Tick,
                  Solo(PARKING, Frame(0, Parked(SENT)), [], 1, [SENT], [], [], Submitting(1)))
  {
  }

  lemma Submits()
    ensures Leads(Solo(PARKING, Frame(0, Parked(SENT)), [], 1, [SENT], [], [], Submitting(1)), Kernel(Enter(Interrupted)),
                  Solo(PARKING, Frame(0, Parked(SENT)), [], 1, [SENT], [], [], Submitting(1)))
    ensures Leads(Solo(PARKING, Frame(0, Parked(SENT)), [], 1, [SENT], [], [], Submitting(1)), Kernel(Enter(Accepted(1))),
                  Solo(PARKING, Frame(0, Parked(SENT)), [], 1, [], [SENT], [], Reaping(1)))
    ensures Leads(Solo(PARKING, Frame(0, Parked(SENT)), [], 1, [], [SENT], [], Reaping(1)), Kernel(Post(0, 7, false)),
                  Solo(PARKING, Frame(0, Parked(SENT)), [], 1, [], [], [Cqe(10, 7, false)], Reaping(1)))
  {
  }

  lemma Wakes()
    ensures Leads(Solo(PARKING, Frame(0, Parked(SENT)), [], 1, [], [], [Cqe(10, 7, false)], Reaping(1)), Tick,
                  Solo(PARKING, Frame(7, Done), [1], 0, [], [], [], Reaping(0)))
    ensures Leads(Solo(PARKING, Frame(7, Done), [1], 0, [], [], [], Reaping(0)), Tick,
                  Solo(PARKING, Frame(7, Done), [1], 0, [], [], [], Top))
    ensures Leads(Solo(PARKING, Frame(7, Done), [1], 0, [], [], [], Top), Tick,
                  Solo(PARKING, Frame(7, Done), [1], 0, [], [], [], Sweep(1)))
    ensures Leads(Solo(PARKING, Frame(7, Done), [1], 0, [], [], [], Sweep(1)), Tick,
                  Solo(One(OnCpu), map[], [], 0, [], [], [], Running(1, 0)))
  {
  }

  lemma Ends()
    ensures Leads(Solo(One(OnCpu), map[], [], 0, [], [], [], Running(1, 0)), Asks(10, Exit(3)),
                  Solo(OVER, map[], [], 0, [], [], [], Sweep(0)))
    ensures Leads(Solo(OVER, map[], [], 0, [], [], [], Sweep(0)), Tick, Solo(OVER, map[], [], 0, [], [], [], Top))
    ensures Leads(Solo(OVER, map[], [], 0, [], [], [], Top), Tick, Solo(OVER, map[], [], 0, [], [], [], Returned(0, Top)))
  {
  }

  const ERRAND: seq<Event> :=
    [Admit(1), Tick, Tick, Asks(10, Await(WISH)), Tick, Tick, Kernel(Enter(Interrupted)),
     Kernel(Enter(Accepted(1))), Kernel(Post(0, 7, false)), Tick, Tick, Tick, Tick, Asks(10, Exit(3)), Tick, Tick]

  /** A fiber awaits through an interrupted submit, is woken and exits: a run from boot that
      drains and leaves one exited record. */
  lemma AwaitThenExitDrains()
    ensures BootRun(8, 16, ERRAND) && After(8, 16, ERRAND).pc == Returned(0, Top)
    ensures After(8, 16, ERRAND).fibers == OVER
  {
    hide Leads, One, Frame, LegalRun, Exec;
    Begins();
    Awaits();
    Submits();
    Wakes();
    Ends();
    var parked := Frame(0, Parked(SENT));
    Walk([Boot(8, 16),
          Solo(One(Fresh), map[], [1], 0, [], [], [], Top),
          Solo(One(Fresh), map[], [1], 0, [], [], [], Sweep(1)),
          Solo(One(OnCpu), map[], [], 0, [], [], [], Running(1, 0)),
          Solo(PARKING, Frame(0, Pending), [], 0, [], [], [], Appending(10, 0, false)),
          Solo(PARKING, parked, [], 1, [SENT], [], [], Sweep(0)),
          Solo(PARKING, parked, [], 1, [SENT], [], [], Submitting(1)),
          Solo(PARKING, parked, [], 1, [SENT], [], [], Submitting(1)),
          Solo(PARKING, parked, [], 1, [], [SENT], [], Reaping(1)),
          Solo(PARKING, parked, [], 1, [], [], [Cqe(10, 7, false)], Reaping(1)),
          Solo(PARKING, Frame(7, Done), [1], 0, [], [], [], Reaping(0)),
          Solo(PARKING, Frame(7, Done), [1], 0, [], [], [], Top),
          Solo(PARKING, Frame(7, Done), [1], 0, [], [], [], Sweep(1)),
          Solo(One(OnCpu), map[], [], 0, [], [], [], Running(1, 0)),
          Solo(OVER, map[], [], 0, [], [], [], Sweep(0)),
          Solo(OVER, map[], [], 0, [], [], [], Top),
          Solo(OVER, map[], [], 0, [], [], [], Returned(0, Top))], ERRAND);
  }
}
