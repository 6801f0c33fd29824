/** What an observer of a run sees, and monitors that read such a record. A monitor is an
    automaton with a `Broken` state; the theorems say that no run ever breaks one. */
module Trace {
  import opened Base
  import opened RingModel
  import opened Machine
  import opened Invariant

  datatype Entry =
    /** A sweep starts on this queue. */
    | SweepBegan(queue: seq<Handle>)
    | Resumed(fiber: Handle, serial: nat)
    /** The suspended call whose request was at `request` returns `value` to its fiber. */
    | CallReturned(request: Ptr, value: int, serial: nat)
    | Asked(request: Ptr, ask: Ask, serial: nat)
    /** A submission is written to the batch for this request. */
    | Batched(request: Ptr, sqe: Sqe)
    /** The kernel accepts submissions. */
    | Consumed(sqes: seq<Sqe>)
    | Posted(request: Ptr, res: int)
    /** The submit that ends a sweep succeeds. */
    | Submitted
    /** A completion is reaped: its request is answered and its fiber enqueued. */
    | Woken(request: Ptr, value: int, fiber: Handle)
    | Answered(request: Ptr, value: int)
    | Born(serial: nat, fiber: Handle, parent: Option<nat>)
    | Marked(serial: nat)
    | Ended(serial: nat, status: int)
    | JoinAnswered(request: Ptr, target: Handle, serial: nat, value: int)
    | Discarded(serial: nat)
    | Destroyed(serial: nat)

  /** The result word of a request, as it stands in memory. */
  function ResultAt(s: State, p: Ptr): int {
    if p in s.requests then s.requests[p].result else 0
  }

  function DispatchEmits(s: State): seq<Entry> {
    if s.ready == [] || s.ready[0] !in s.fibers then []
    else
      var f := s.fibers[s.ready[0]];
      var resumed := Resumed(s.ready[0], f.serial);
      if f.context.Suspended? then
        [resumed, CallReturned(f.context.frame, ResultAt(s, f.context.frame), f.serial)]
      else [resumed]
  }

  function ReapEmits(s: State, s': State): seq<Entry> {
    if s.ring.cq == [] || s.ring.cq[0].userData !in s.requests then []
    else
      var p := s.ring.cq[0].userData;
      [Woken(p, ResultAt(s', p), s.requests[p].fiber)]
  }

  function TickEmits(s: State): seq<Entry>
    requires Legal(s, Tick)
  {
    var s' := StepTick(s);
    match s.pc
    case Top => if s'.pc.Sweep? then [SweepBegan(s.ready)] else []
    case Sweep(turns) => if turns == 0 then [] else DispatchEmits(s)
    case Appending(p, _, _) =>
      if |s'.ring.batch| == |s.ring.batch| + 1 then [Batched(p, s'.ring.batch[|s.ring.batch|])] else []
    case Reaping(_) => ReapEmits(s, s')
    case _ => []
  }

  function ExitEmits(s: State, s': State, h: Handle, status: int): seq<Entry>
    requires h in s.fibers
  {
    var f := s.fibers[h];
    if f.life.Detached? then [Ended(f.serial, status), Destroyed(f.serial)]
    else if f.joiner.None? then [Ended(f.serial, status)]
    else
      [Ended(f.serial, status),
       JoinAnswered(f.joiner.value, h, f.serial, ResultAt(s', f.joiner.value)),
       Destroyed(f.serial)]
  }

  function AskEmits(s: State, e: Event): seq<Entry>
    requires Legal(s, e) && e.Ask? && s.pc.fiber in s.fibers
  {
    var s' := StepAsk(s, e);
    var h := s.pc.fiber;
    var p := e.request;
    var asked := Asked(p, e.ask, s.fibers[h].serial);
    var answered := Answered(p, ResultAt(s', p));
    match e.ask
    case Yield => [asked, answered]
    case Exit(status) => ExitEmits(s, s', h, status)
    case Await(_) => [asked]
    case Spawn =>
      if e.spawned.None? then [asked, answered]
      else [asked, answered, Born(s.born, e.spawned.value, Some(s.fibers[h].serial))]
    case Join(t) =>
      if s.fibers[t].life.Exited? then
        [asked, JoinAnswered(p, t, s.fibers[t].serial, ResultAt(s', p)), Destroyed(s.fibers[t].serial)]
      else [asked]
    case Detach(t) =>
      if s.fibers[t].life.Exited? then
        [asked, answered, Discarded(s.fibers[t].serial), Destroyed(s.fibers[t].serial)]
      else [asked, answered, Marked(s.fibers[t].serial)]
    case ProcessExit(_) => []
  }

  function KernelEmits(s: State, k: KernelEvent): seq<Entry>
    requires Legal(s, Kernel(k))
  {
    match k
    case Enter(Accepted(n)) =>
      if StepKernel(s, k).pc.Reaping? then [Consumed(s.ring.batch[..n]), Submitted] else [Consumed(s.ring.batch[..n])]
    case Enter(_) => []
    case Post(i, res, _) => [Posted(s.ring.inflight[i].userData, res)]
  }

  function Emits(s: State, e: Event): seq<Entry>
    requires Legal(s, e)
  {
    if Step(s, e).pc.Trapped? then []
    else
      match e
      case Admit(c) => [Born(s.born, c, None)]
      case Tick => TickEmits(s)
      case Ask(_, _, _, _) => if s.pc.fiber in s.fibers then AskEmits(s, e) else []
      case Kernel(k) => KernelEmits(s, k)
  }

  ghost function Record(s: State, es: seq<Event>): seq<Entry>
    requires LegalRun(s, es)
  {
    if es == [] then []
    else Record(s, es[..|es| - 1]) + Emits(Exec(s, es[..|es| - 1]), es[|es| - 1])
  }

  /** The record of one run after another. */
  lemma {:induction false} RecordAppend(s: State, a: seq<Event>, b: seq<Event>)
    requires LegalRun(s, a) && LegalRun(Exec(s, a), b)
    ensures LegalRun(s, a + b) && Record(s, a + b) == Record(s, a) + Record(Exec(s, a), b)
    decreases |b|
  {
    hide Legal, Step, Emits;
    RunAppend(s, a, b);
    if b == [] {
      assert a + b == a;
    } else {
      var front, last := b[..|b| - 1], b[|b| - 1];
      RecordAppend(s, a, front);
      RunAppend(s, a, front);
      assert (a + b)[..|a + b| - 1] == a + front;
    }
  }

  // ---------------------------------------------------------------- reading a record

  ghost function Feed<M>(next: (M, Entry) -> M, m: M, es: seq<Entry>): M {
    if es == [] then m else Feed(next, next(m, es[0]), es[1..])
  }

  lemma {:induction false} FeedAppend<M>(next: (M, Entry) -> M, m: M, a: seq<Entry>, b: seq<Entry>)
    ensures Feed(next, m, a + b) == Feed(next, Feed(next, m, a), b)
    decreases |a|
  {
    if a == [] {
      assert a + b == b;
    } else {
      assert (a + b)[1..] == a[1..] + b;
      FeedAppend(next, next(m, a[0]), a[1..], b);
    }
  }

  lemma FeedOne<M>(next: (M, Entry) -> M, m: M, a: Entry)
    ensures Feed(next, m, [a]) == next(m, a)
  {
    assert [a][1..] == [];
  }

  lemma FeedTwo<M>(next: (M, Entry) -> M, m: M, a: Entry, b: Entry)
    ensures Feed(next, m, [a, b]) == next(next(m, a), b)
  {
    assert [a, b][1..] == [b];
    FeedOne(next, next(m, a), b);
  }

  lemma FeedThree<M>(next: (M, Entry) -> M, m: M, a: Entry, b: Entry, c: Entry)
    ensures Feed(next, m, [a, b, c]) == next(next(next(m, a), b), c)
  {
    assert [a, b, c][1..] == [b, c] && [b, c][1..] == [c] && [c][1..] == [];
    assert Feed(next, next(next(m, a), b), [c]) == next(next(next(m, a), b), c);
  }

  lemma FeedFour<M>(next: (M, Entry) -> M, m: M, a: Entry, b: Entry, c: Entry, d: Entry)
    ensures Feed(next, m, [a, b, c, d]) == next(next(next(next(m, a), b), c), d)
  {
    assert [a, b, c, d][1..] == [b, c, d];
    FeedThree(next, next(m, a), b, c, d);
  }

  /** What a monitor makes of a dispatch. */
  lemma FeedDispatch<M>(next: (M, Entry) -> M, m: M, s: State)
    requires s.ready != [] && s.ready[0] in s.fibers
    ensures var f := s.fibers[s.ready[0]];
            var m' := next(m, Resumed(s.ready[0], f.serial));
            Feed(next, m, DispatchEmits(s)) ==
            if f.context.Suspended? then next(m', CallReturned(f.context.frame, ResultAt(s, f.context.frame), f.serial))
            else m'
  {
    var f := s.fibers[s.ready[0]];
    FeedOne(next, m, Resumed(s.ready[0], f.serial));
    if f.context.Suspended? {
      FeedTwo(next, m, Resumed(s.ready[0], f.serial),
              CallReturned(f.context.frame, ResultAt(s, f.context.frame), f.serial));
    }
  }

  /** Entries a monitor ignores leave it alone. */
  lemma {:induction false} FeedQuiet<M>(next: (M, Entry) -> M, m: M, es: seq<Entry>)
    requires forall x :: x in es ==> next(m, x) == m
    ensures Feed(next, m, es) == m
  {
    if es != [] {
      assert es[0] in es;
      FeedQuiet(next, m, es[1..]);
    }
  }

  // ---------------------------------------------------------------- shapes of steps

  /** A request never takes anybody off the queue nor ends the sweep. */
  lemma AskShape(s: State, e: Event)
    requires Legal(s, e) && e.Ask?
    ensures var s' := StepAsk(s, e);
            Halted(s'.pc) || (Turns(s'.pc) == s.pc.turns && s.ready <= s'.ready && (s'.pc.Sweep? || s'.pc.Appending?))
  {
  }

  lemma AskEntries(s: State, e: Event)
    requires Legal(s, e) && e.Ask? && s.pc.fiber in s.fibers
    ensures forall x :: x in AskEmits(s, e) ==>
              x.Asked? || x.Answered? || x.Born? || x.Marked? || x.Ended? || x.JoinAnswered? || x.Discarded? || x.Destroyed?
  {
  }

  lemma KernelEntries(s: State, k: KernelEvent)
    requires Legal(s, Kernel(k))
    ensures forall x :: x in KernelEmits(s, k) ==> x.Consumed? || x.Submitted? || x.Posted?
  {
  }
}
