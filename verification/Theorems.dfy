/** The results for runs from boot, stated on the record of a run without the monitors. */
module Theorems {
  import opened Base
  import opened RingModel
  import opened Machine
  import opened Invariant
  import opened InvariantProof
  import opened Ownership
  import opened Deadlock
  import opened Trace
  import opened Fairness
  import opened Delivery
  import opened Attribution
  import opened Reclaim

  /** A run of a reactor that booted with a usable ring. */
  ghost predicate BootRun(sqEntries: nat, cqEntries: nat, es: seq<Event>) {
    0 < sqEntries && cqEntries < TWO32 && LegalRun(Boot(sqEntries, cqEntries), es)
  }

  ghost function After(sqEntries: nat, cqEntries: nat, es: seq<Event>): State
    requires BootRun(sqEntries, cqEntries, es)
  {
    Exec(Boot(sqEntries, cqEntries), es)
  }

  ghost function Seen(sqEntries: nat, cqEntries: nat, es: seq<Event>): seq<Entry>
    requires BootRun(sqEntries, cqEntries, es)
  {
    Record(Boot(sqEntries, cqEntries), es)
  }

  // ---------------------------------------------------------------- safety

  /** In every state of every run each undestroyed fiber is in exactly one class, and the three counters are the sizes of theirs. */
  lemma EveryFiberHasOnePlace(sqEntries: nat, cqEntries: nat, es: seq<Event>)
    requires BootRun(sqEntries, cqEntries, es)
    ensures var s := After(sqEntries, cqEntries, es);
            && s.fibers.Keys == QueuedFibers(s) + RingFibers(s) + JoinFibers(s)
                                + ExitedFibers(s) + RunningFibers(s) + ParkingFibers(s)
            && QueuedFibers(s) !! RingFibers(s) !! JoinFibers(s) !! ExitedFibers(s) !! RunningFibers(s) !! ParkingFibers(s)
            && |s.fibers| == |QueuedFibers(s)| + |RingFibers(s)| + |JoinFibers(s)|
                             + |ExitedFibers(s)| + |RunningFibers(s)| + |ParkingFibers(s)|
            && s.readyCount == |QueuedFibers(s)|
            && s.parkedCount == |RingFibers(s)|
            && s.joiningCount == |JoinFibers(s)|
  {
    hide Inv, Exec, LegalRun;
    BootHolds(sqEntries, cqEntries);
    RunKeeps(Boot(sqEntries, cqEntries), es);
    Partition(After(sqEntries, cqEntries, es));
  }

  /** The frame of this request is that of a suspended fiber that still exists. */
  predicate AliveRequest(s: State, p: Ptr) {
    && p in s.requests
    && s.requests[p].fiber in s.fibers
    && s.fibers[s.requests[p].fiber].context == Suspended(p)
  }

  /** In every state of every run: no dereference has faulted, `park` never found the batch
      full after a flush, every address in the batch, in the kernel, in the completion
      queue or in a join slot is alive, and the completion queue cannot overflow. */
  lemma EveryRunIsSafe(sqEntries: nat, cqEntries: nat, es: seq<Event>)
    requires BootRun(sqEntries, cqEntries, es)
    ensures var s := After(sqEntries, cqEntries, es);
            && !(s.pc.Trapped? && (s.pc.reason == Fault || s.pc.reason == SubmissionFull))
            && (forall p :: p in Held(s.ring) ==> AliveRequest(s, p))
            && (forall t :: t in s.fibers && s.fibers[t].joiner.Some? ==> AliveRequest(s, s.fibers[t].joiner.value))
            && |s.ring.batch| + |s.ring.inflight| + |s.ring.cq| == s.parkedCount <= s.ring.cqEntries
  {
    BootHolds(sqEntries, cqEntries);
    RunKeeps(Boot(sqEntries, cqEntries), es);
    SafeState(After(sqEntries, cqEntries, es));
  }

  lemma SafeState(s: State)
    requires Inv(s)
    ensures !(s.pc.Trapped? && (s.pc.reason == Fault || s.pc.reason == SubmissionFull))
    ensures forall p :: p in Held(s.ring) ==> AliveRequest(s, p)
    ensures forall t :: t in s.fibers && s.fibers[t].joiner.Some? ==> AliveRequest(s, s.fibers[t].joiner.value)
    ensures |s.ring.batch| + |s.ring.inflight| + |s.ring.cq| == s.parkedCount <= s.ring.cqEntries
  {
    hide Queue, Copies, Lives, Cpu, Undecided, Serials, Targets;
  }

  /** A submission never waits across a sweep, and the kernel is asked to wait only when
      something is parked and nothing is ready. */
  lemma WaitsOnlyWhenIdle(sqEntries: nat, cqEntries: nat, es: seq<Event>)
    requires BootRun(sqEntries, cqEntries, es)
    ensures var s := After(sqEntries, cqEntries, es);
            && (s.pc.Top? ==> s.ring.batch == [])
            && (s.pc.Submitting? ==> 0 < s.parkedCount && (s.pc.minComplete == 1 <==> s.readyCount == 0))
  {
    hide Frames, Queue, Holding, Copies, Joins, Lives, Cpu, Undecided, Serials, Held, Targets;
    BootHolds(sqEntries, cqEntries);
    RunKeeps(Boot(sqEntries, cqEntries), es);
  }

  /** The reactor aborts for blocked joins only on a drained scheduler in which every
      blocked fiber lies on a join cycle. */
  lemma AbortMeansCycle(sqEntries: nat, cqEntries: nat, es: seq<Event>)
    requires BootRun(sqEntries, cqEntries, es)
    requires After(sqEntries, cqEntries, es).pc == Trapped(JoinCycle, Top)
    ensures var s := After(sqEntries, cqEntries, es);
            JoinFibers(s) != {} && forall h :: h in JoinFibers(s) ==> OnCycle(s, h)
  {
    hide OnCycle;
    BootHolds(sqEntries, cqEntries);
    RunKeeps(Boot(sqEntries, cqEntries), es);
    var s := After(sqEntries, cqEntries, es);
    assert Drained(s) && s.joiningCount != 0 by {
      hide Frames, Queue, Holding, Copies, Joins, Lives, Cpu, Undecided, Serials, Held, Targets;
    }
    hide Inv;
    Partition(s);
    forall h | h in JoinFibers(s)
      ensures OnCycle(s, h)
    {
      BlockedOnCycle(s, h);
    }
  }

  // ---------------------------------------------------------------- spawns

  lemma {:induction false} BrokenSpawnStays(es: seq<Entry>)
    ensures Feed(SpawnNext, BrokenSpawn, es) == BrokenSpawn
  {
    if es != [] {
      BrokenSpawnStays(es[1..]);
    }
  }

  /** As long as the parent does not run, the debt to the child stands. */
  lemma {:induction false} DebtStands(m: SpawnMonitor, parent: nat, child: nat, es: seq<Entry>)
    requires m.Spawns? && (parent, child) in m.owed
    requires forall x :: x in es ==> !(x.Resumed? && x.serial == parent)
    requires Feed(SpawnNext, m, es).Spawns?
    ensures (parent, child) in Feed(SpawnNext, m, es).owed
    decreases |es|
  {
    if es != [] {
      assert es[0] in es;
      if SpawnNext(m, es[0]).BrokenSpawn? {
        BrokenSpawnStays(es[1..]);
      }
      DebtStands(SpawnNext(m, es[0]), parent, child, es[1..]);
    }
  }

  /** Between a birth and the child's first turn the parent has a turn. */
  lemma ParentBeforeChild(sqEntries: nat, cqEntries: nat, es: seq<Event>, i: nat, j: nat)
    requires BootRun(sqEntries, cqEntries, es) && i < j < |Seen(sqEntries, cqEntries, es)|
    requires var r := Seen(sqEntries, cqEntries, es);
             r[i].Born? && r[i].parent.Some? && r[j].Resumed? && r[j].serial == r[i].serial
    ensures var r := Seen(sqEntries, cqEntries, es);
            exists k :: i < k < j && r[k].Resumed? && r[k].serial == r[i].parent.value
  {
    hide Inv, Exec, LegalRun, Feed;
    var r := Seen(sqEntries, cqEntries, es);
    BootHolds(sqEntries, cqEntries);
    ParentRunsFirst(Boot(sqEntries, cqEntries), es);
    var m := Feed(SpawnNext, Spawns({}), r[..i]);
    var mid := r[i + 1..j];
    SplitSpawn(r, i, j);
    DebtMeansTurn(SpawnNext(m, r[i]), r[i].parent.value, r[i].serial, mid, r[j]);
    var x :| x in mid && x.Resumed? && x.serial == r[i].parent.value;
    var k :| 0 <= k < |mid| && mid[k] == x;
    assert r[i + 1 + k] == x;
  }

  lemma DebtMeansTurn(m: SpawnMonitor, parent: nat, child: nat, es: seq<Entry>, last: Entry)
    requires m.Spawns? && (parent, child) in m.owed && last.Resumed? && last.serial == child
    requires Feed(SpawnNext, m, es).Spawns? && SpawnNext(Feed(SpawnNext, m, es), last).Spawns?
    ensures exists x :: x in es && x.Resumed? && x.serial == parent
  {
    assert forall o :: o in Feed(SpawnNext, m, es).owed ==> o.1 != child;
    if forall x :: x in es ==> !(x.Resumed? && x.serial == parent) {
      DebtStands(m, parent, child, es);
    }
  }

  /** An unbroken record is unbroken before, at and after each of its entries. */
  lemma SplitSpawn(r: seq<Entry>, i: nat, j: nat)
    requires i < j < |r| && Feed(SpawnNext, Spawns({}), r).Spawns?
    ensures var m := Feed(SpawnNext, Spawns({}), r[..i]);
            && m.Spawns? && SpawnNext(m, r[i]).Spawns?
            && Feed(SpawnNext, SpawnNext(m, r[i]), r[i + 1..j]).Spawns?
            && SpawnNext(Feed(SpawnNext, SpawnNext(m, r[i]), r[i + 1..j]), r[j]).Spawns?
  {
    var m := Feed(SpawnNext, Spawns({}), r[..i]);
    var a := SpawnNext(m, r[i]);
    var b := Feed(SpawnNext, a, r[i + 1..j]);
    var c := SpawnNext(b, r[j]);
    hide Feed;
    SplitFeed(SpawnNext, Spawns({}), r, i, j);
    BrokenSpawnStays(r[j + 1..]);
    BrokenSpawnStays(r[i + 1..j]);
  }

  lemma SplitFeed<M>(next: (M, Entry) -> M, m: M, r: seq<Entry>, i: nat, j: nat)
    requires i < j < |r|
    ensures Feed(next, m, r) ==
            Feed(next, next(Feed(next, next(Feed(next, m, r[..i]), r[i]), r[i + 1..j]), r[j]), r[j + 1..])
  {
    hide Feed;
    SplitAt(next, m, r, i);
    var tail := r[i + 1..];
    var k := j - i - 1;
    SplitAt(next, next(Feed(next, m, r[..i]), r[i]), tail, k);
    assert tail[..k] == r[i + 1..j] && tail[k] == r[j] && tail[k + 1..] == r[j + 1..];
  }

  lemma SplitAt<M>(next: (M, Entry) -> M, m: M, r: seq<Entry>, i: nat)
    requires i < |r|
    ensures Feed(next, m, r) == Feed(next, next(Feed(next, m, r[..i]), r[i]), r[i + 1..])
  {
    FeedAppend(next, m, r[..i], r[i..]);
    assert r[..i] + r[i..] == r;
    assert r[i..][0] == r[i] && r[i..][1..] == r[i + 1..];
  }

  // ---------------------------------------------------------------- releases

  lemma {:induction false} GoneStays(m: RecordMonitor, es: seq<Entry>)
    requires m.stay.Gone? || m.stay.Misused?
    ensures var m' := Feed(RecordNext, m, es);
            m'.stay.Misused? || (m'.stay.Gone? && m.stay.Gone?)
    decreases |es|
  {
    if es != [] {
      GoneStays(RecordNext(m, es[0]), es[1..]);
    }
  }

  /** Entries that use a record. */
  predicate Uses(x: Entry, serial: nat) {
    || (x.Resumed? && x.serial == serial) || (x.Ended? && x.serial == serial)
    || (x.Marked? && x.serial == serial) || (x.Discarded? && x.serial == serial)
    || (x.JoinAnswered? && x.serial == serial) || (x.Destroyed? && x.serial == serial)
  }

  /** After its release a record is never run, answered for, marked or released again. */
  lemma ReleasedForGood(sqEntries: nat, cqEntries: nat, es: seq<Event>, serial: nat, i: nat, j: nat)
    requires BootRun(sqEntries, cqEntries, es) && i < j < |Seen(sqEntries, cqEntries, es)|
    requires Seen(sqEntries, cqEntries, es)[i] == Destroyed(serial)
    ensures !Uses(Seen(sqEntries, cqEntries, es)[j], serial)
  {
    var r := Seen(sqEntries, cqEntries, es);
    var m := Watch(serial, Unborn);
    BootHolds(sqEntries, cqEntries);
    EveryRecordReleasedOnce(Boot(sqEntries, cqEntries), es, serial);
    NeverMisused(After(sqEntries, cqEntries, es), Feed(RecordNext, m, r));
    NoUseAfterRelease(m, r, i, j);
  }

  lemma NoUseAfterRelease(m: RecordMonitor, r: seq<Entry>, i: nat, j: nat)
    requires i < j < |r| && r[i] == Destroyed(m.serial) && !Feed(RecordNext, m, r).stay.Misused?
    ensures !Uses(r[j], m.serial)
  {
    SplitFeed(RecordNext, m, r, i, j);
    var a := Feed(RecordNext, m, r[..i]);
    MonitorKeepsSerial(m, r[..i]);
    var b := RecordNext(a, r[i]);
    GoneStays(b, r[i + 1..j]);
    var c := Feed(RecordNext, b, r[i + 1..j]);
    MonitorKeepsSerial(b, r[i + 1..j]);
    if Uses(r[j], m.serial) {
      GoneStays(RecordNext(c, r[j]), r[j + 1..]);
    }
  }

  lemma NeverMisused(s: State, m: RecordMonitor)
    requires StayOk(s, m)
    ensures !m.stay.Misused?
  {
  }

  // ---------------------------------------------------------------- results

  function PostCount(es: seq<Entry>, p: Ptr): nat {
    if es == [] then 0 else PostCount(es[1..], p) + (if es[0].Posted? && es[0].request == p then 1 else 0)
  }

  /** How many completions of this request are still to come while it is being served. */
  function PostsLeft(phase: Phase): nat {
    if phase.WasAsked? || phase.InBatch? || phase.InKernel? then 1 else 0
  }

  predicate Serving(phase: Phase) {
    (phase.WasAsked? && phase.ask.Await?) || phase.InBatch? || phase.InKernel? || phase.Completed? || phase.Replied?
  }

  /** While an AWAIT is served, exactly one completion is posted, and the reply is its
      result. */
  lemma {:induction false} OnePost(m: RequestMonitor, es: seq<Entry>, value: int)
    requires Serving(m.phase)
    requires forall x :: x in es ==> !ReturnsFor(x, m.p)
    requires Feed(RequestNext, m, es).phase == Replied(value)
    ensures PostCount(es, m.p) == PostsLeft(m.phase)
    ensures forall x :: x in es && x.Posted? && x.request == m.p ==> x.res == value
    ensures m.phase.Completed? ==> m.phase.res == value
    ensures m.phase.Replied? ==> m.phase.value == value
    ensures Feed(RequestNext, m, es).asker == m.asker
    decreases |es|
  {
    if es != [] {
      assert es[0] in es;
      var next := RequestNext(m, es[0]);
      if next.phase.Broken? {
        BrokenStays(next, es[1..]);
      }
      OnePost(next, es[1..], value);
    }
  }

  /** The course of a served AWAIT: its submission is written at `d`, taken by the kernel at
      `c`, completed at `k` and its completion reaped at `w`. */
  predicate Course(es: seq<Entry>, p: Ptr, sqe: Sqe, value: int, d: nat, c: nat, k: nat, w: nat) {
    && d < c < k < w < |es|
    && es[d] == Batched(p, sqe)
    && es[c].Consumed? && OnlyCopy(es[c].sqes, sqe)
    && es[k] == Posted(p, value)
    && WakesFor(es[w], p) && es[w].value == value
  }

  lemma {:induction false} ReapedAt(m: RequestMonitor, es: seq<Entry>, value: int) returns (w: nat)
    requires m.phase.Completed? && Feed(RequestNext, m, es).phase == Replied(value)
    requires forall x :: x in es ==> !ReturnsFor(x, m.p)
    ensures w < |es| && WakesFor(es[w], m.p) && es[w].value == value == m.phase.res
    decreases |es|
  {
    assert es[0] in es;
    var next := RequestNext(m, es[0]);
    Unbroken(next, es[1..]);
    if next.phase.Replied? {
      RepliedStays(next, es[1..]);
      w := 0;
    } else {
      w := ReapedAt(next, es[1..], value);
      w := w + 1;
    }
  }

  lemma {:induction false} PostedAt(m: RequestMonitor, es: seq<Entry>, value: int) returns (k: nat, w: nat)
    requires m.phase.InKernel? && Feed(RequestNext, m, es).phase == Replied(value)
    requires forall x :: x in es ==> !ReturnsFor(x, m.p)
    ensures k < w < |es| && es[k] == Posted(m.p, value) && WakesFor(es[w], m.p) && es[w].value == value
    decreases |es|
  {
    assert es[0] in es;
    var next := RequestNext(m, es[0]);
    Unbroken(next, es[1..]);
    if next.phase.Completed? {
      w := ReapedAt(next, es[1..], value);
      k, w := 0, w + 1;
    } else {
      k, w := PostedAt(next, es[1..], value);
      k, w := k + 1, w + 1;
    }
  }

  lemma {:induction false} TakenAt(m: RequestMonitor, es: seq<Entry>, value: int) returns (c: nat, k: nat, w: nat)
    requires m.phase.InBatch? && Feed(RequestNext, m, es).phase == Replied(value)
    requires forall x :: x in es ==> !ReturnsFor(x, m.p)
    ensures c < k < w < |es| && es[c].Consumed? && OnlyCopy(es[c].sqes, m.phase.sqe)
    ensures es[k] == Posted(m.p, value) && WakesFor(es[w], m.p) && es[w].value == value
    decreases |es|
  {
    assert es[0] in es;
    var next := RequestNext(m, es[0]);
    Unbroken(next, es[1..]);
    if next.phase.InKernel? {
      k, w := PostedAt(next, es[1..], value);
      c, k, w := 0, k + 1, w + 1;
    } else {
      c, k, w := TakenAt(next, es[1..], value);
      c, k, w := c + 1, k + 1, w + 1;
    }
  }

  lemma {:induction false} CourseOf(m: RequestMonitor, es: seq<Entry>, value: int)
    returns (d: nat, c: nat, k: nat, w: nat)
    requires m.phase.WasAsked? && m.phase.ask.Await? && Feed(RequestNext, m, es).phase == Replied(value)
    requires forall x :: x in es ==> !ReturnsFor(x, m.p)
    ensures Course(es, m.p, m.phase.ask.sqe.(userData := m.p), value, d, c, k, w)
    decreases |es|
  {
    assert es[0] in es;
    var next := RequestNext(m, es[0]);
    Unbroken(next, es[1..]);
    if next.phase.InBatch? {
      c, k, w := TakenAt(next, es[1..], value);
      d, c, k, w := 0, c + 1, k + 1, w + 1;
    } else {
      d, c, k, w := CourseOf(next, es[1..], value);
      d, c, k, w := d + 1, c + 1, k + 1, w + 1;
    }
  }

  /** Every AWAIT that returns gives its asker the result of the one completion posted for
      it since it was asked; in between, in this order, its submission was written, taken by
      the kernel and completed, and that completion was reaped. */
  lemma AwaitReturnsItsCompletion(sqEntries: nat, cqEntries: nat, es: seq<Event>, i: nat, j: nat)
    requires BootRun(sqEntries, cqEntries, es) && i < j < |Seen(sqEntries, cqEntries, es)|
    requires var r := Seen(sqEntries, cqEntries, es);
             && r[i].Asked? && r[i].ask.Await? && ReturnsFor(r[j], r[i].request)
             && forall k :: i < k < j ==> !ReturnsFor(r[k], r[i].request)
    ensures var r := Seen(sqEntries, cqEntries, es);
            var p := r[i].request;
            && r[j].serial == r[i].serial
            && PostCount(r[i + 1..j], p) == 1
            && (forall k :: i < k < j && r[k].Posted? && r[k].request == p ==> r[k].res == r[j].value)
            && exists d: nat, c: nat, k: nat, w: nat :: i < d && w < j && Course(r, p, r[i].ask.sqe.(userData := p), r[j].value, d, c, k, w)
  {
    hide Inv, Exec, LegalRun, Feed, PhaseOk;
    var r := Seen(sqEntries, cqEntries, es);
    BootHolds(sqEntries, cqEntries);
    EveryRequestServedOnce(Boot(sqEntries, cqEntries), es, r[i].request);
    NeverBroken(After(sqEntries, cqEntries, es), Feed(RequestNext, Follow(r[i].request, 0, Idle), r));
    var d, c, k, w := AwaitBetween(Follow(r[i].request, 0, Idle), r, i, j);
  }

  lemma AwaitBetween(m: RequestMonitor, r: seq<Entry>, i: nat, j: nat) returns (d: nat, c: nat, k: nat, w: nat)
    requires i < j < |r| && !Feed(RequestNext, m, r).phase.Broken?
    requires r[i].Asked? && r[i].ask.Await? && r[i].request == m.p && ReturnsFor(r[j], m.p)
    requires forall n :: i < n < j ==> !ReturnsFor(r[n], m.p)
    ensures r[j].serial == r[i].serial && PostCount(r[i + 1..j], m.p) == 1
    ensures forall n :: i < n < j && r[n].Posted? && r[n].request == m.p ==> r[n].res == r[j].value
    ensures i < d && w < j && Course(r, m.p, r[i].ask.sqe.(userData := m.p), r[j].value, d, c, k, w)
  {
    hide Feed, RequestNext, PostCount, OnlyCopy;
    Served(m, r, i, j);
    var b := RequestNext(Feed(RequestNext, m, r[..i]), r[i]);
    var mid := r[i + 1..j];
    OnePost(b, mid, r[j].value);
    forall n | i < n < j && r[n].Posted? && r[n].request == m.p
      ensures r[n].res == r[j].value
    {
      assert mid[n - i - 1] == r[n];
    }
    d, c, k, w := CourseOf(b, mid, r[j].value);
    assert mid[d] == r[i + 1 + d] && mid[c] == r[i + 1 + c] && mid[k] == r[i + 1 + k] && mid[w] == r[i + 1 + w];
    d, c, k, w := i + 1 + d, i + 1 + c, i + 1 + k, i + 1 + w;
  }

  // ---------------------------------------------------------------- joins

  /** A JOIN under way, up to its reply: the reply is the first entry about it. */
  lemma {:induction false} JoinReply(m: RequestMonitor, t: Handle, es: seq<Entry>, value: int) returns (k: nat)
    requires m.phase == WasAsked(Join(t))
    requires Feed(RequestNext, m, es).phase == Replied(value)
    requires forall x :: x in es ==> !ReturnsFor(x, m.p)
    ensures k < |es| && AnswerTo(es[k], m.p, t) && es[k].value == value
    ensures forall n :: 0 <= n <= k ==> Feed(RequestNext, m, es[..n]) == m
    ensures Feed(RequestNext, m, es).asker == m.asker
    decreases |es|
  {
    var next := RequestNext(m, es[0]);
    assert es[0] in es;
    Unbroken(next, es[1..]);
    if next.phase.Replied? {
      RepliedStays(next, es[1..]);
      k := 0;
    } else {
      k := JoinReply(next, t, es[1..], value);
      k := k + 1;
      forall n | 0 < n <= k
        ensures Feed(RequestNext, m, es[..n]) == m
      {
        assert es[..n][0] == es[0] && es[..n][1..] == es[1..][..n - 1];
      }
    }
  }

  /** A record with a status to take exited with that status. */
  lemma {:induction false} ZombieEnded(m: RecordMonitor, es: seq<Entry>)
    requires !m.stay.Zombie?
    requires Feed(RecordNext, m, es).stay.Zombie?
    ensures Ended(m.serial, Feed(RecordNext, m, es).stay.status) in es
    decreases |es|
  {
    if es != [] {
      var next := RecordNext(m, es[0]);
      if next.stay.Zombie? {
        ZombieHolds(next, es[1..]);
      } else {
        ZombieEnded(next, es[1..]);
      }
    }
  }

  lemma {:induction false} ZombieHolds(m: RecordMonitor, es: seq<Entry>)
    requires m.stay.Zombie? && Feed(RecordNext, m, es).stay.Zombie?
    ensures Feed(RecordNext, m, es).stay == m.stay
    decreases |es|
  {
    if es != [] {
      if !RecordNext(m, es[0]).stay.Zombie? {
        NoWayBack(RecordNext(m, es[0]), es[1..]);
      }
      ZombieHolds(RecordNext(m, es[0]), es[1..]);
    }
  }

  lemma {:induction false} NoWayBack(m: RecordMonitor, es: seq<Entry>)
    requires m.stay.Claimed? || m.stay.Gone? || m.stay.Misused?
    ensures var stay := Feed(RecordNext, m, es).stay; stay.Claimed? || stay.Gone? || stay.Misused?
    decreases |es|
  {
    if es != [] {
      NoWayBack(RecordNext(m, es[0]), es[1..]);
    }
  }

  lemma {:induction false} MisusedStays(m: RecordMonitor, es: seq<Entry>)
    requires m.stay.Misused?
    ensures Feed(RecordNext, m, es).stay.Misused?
    decreases |es|
  {
    if es != [] {
      MisusedStays(RecordNext(m, es[0]), es[1..]);
    }
  }

  /** Every status a join is given is the one its target exited with, before that. */
  lemma AnswerIsExitStatus(sqEntries: nat, cqEntries: nat, es: seq<Event>, j: nat)
    requires BootRun(sqEntries, cqEntries, es) && j < |Seen(sqEntries, cqEntries, es)|
    requires Seen(sqEntries, cqEntries, es)[j].JoinAnswered?
    ensures var r := Seen(sqEntries, cqEntries, es);
            Ended(r[j].serial, r[j].value) in r[..j]
  {
    hide Inv, Exec, LegalRun, StayOk;
    var r := Seen(sqEntries, cqEntries, es);
    var m := Watch(r[j].serial, Unborn);
    BootHolds(sqEntries, cqEntries);
    EveryRecordReleasedOnce(Boot(sqEntries, cqEntries), es, r[j].serial);
    NeverMisused(After(sqEntries, cqEntries, es), Feed(RecordNext, m, r));
    SplitAt(RecordNext, m, r, j);
    var a := Feed(RecordNext, m, r[..j]);
    MonitorKeepsSerial(m, r[..j]);
    if RecordNext(a, r[j]).stay.Misused? {
      MisusedStays(RecordNext(a, r[j]), r[j + 1..]);
    }
    ZombieEnded(m, r[..j]);
  }

  /** The fiber of this record has exited, or the record was misused. */
  predicate Past(stay: Stay) { stay.Zombie? || stay.Claimed? || stay.Gone? || stay.Misused? }

  lemma {:induction false} PastStays(m: RecordMonitor, es: seq<Entry>)
    requires Past(m.stay)
    ensures Past(Feed(RecordNext, m, es).stay)
    decreases |es|
  {
    if es != [] {
      PastStays(RecordNext(m, es[0]), es[1..]);
    }
  }

  /** A fiber exits once. */
  lemma EndsOnce(sqEntries: nat, cqEntries: nat, es: seq<Event>, i: nat, j: nat)
    requires BootRun(sqEntries, cqEntries, es) && i < j < |Seen(sqEntries, cqEntries, es)|
    requires Seen(sqEntries, cqEntries, es)[i].Ended?
    ensures var r := Seen(sqEntries, cqEntries, es);
            !(r[j].Ended? && r[j].serial == r[i].serial)
  {
    hide Inv, Exec, LegalRun, StayOk, Feed;
    var r := Seen(sqEntries, cqEntries, es);
    var m := Watch(r[i].serial, Unborn);
    BootHolds(sqEntries, cqEntries);
    EveryRecordReleasedOnce(Boot(sqEntries, cqEntries), es, r[i].serial);
    NeverMisused(After(sqEntries, cqEntries, es), Feed(RecordNext, m, r));
    OneEnd(m, r, i, j);
  }

  lemma OneEnd(m: RecordMonitor, r: seq<Entry>, i: nat, j: nat)
    requires i < j < |r| && r[i].Ended? && r[i].serial == m.serial && !Feed(RecordNext, m, r).stay.Misused?
    ensures !(r[j].Ended? && r[j].serial == m.serial)
  {
    hide Feed;
    SplitFeed(RecordNext, m, r, i, j);
    MonitorKeepsSerial(m, r[..i]);
    var b := RecordNext(Feed(RecordNext, m, r[..i]), r[i]);
    PastStays(b, r[i + 1..j]);
    MonitorKeepsSerial(b, r[i + 1..j]);
    var c := Feed(RecordNext, b, r[i + 1..j]);
    if r[j].Ended? && r[j].serial == m.serial {
      MisusedStays(RecordNext(c, r[j]), r[j + 1..]);
    }
  }

  /** So a status a fiber is known to have exited with is its only one. */
  lemma OnlyStatus(sqEntries: nat, cqEntries: nat, es: seq<Event>, serial: nat, status: int)
    requires BootRun(sqEntries, cqEntries, es) && Ended(serial, status) in Seen(sqEntries, cqEntries, es)
    ensures forall x :: x in Seen(sqEntries, cqEntries, es) && x.Ended? && x.serial == serial ==> x.status == status
  {
    hide BootRun, Seen, After;
    var r := Seen(sqEntries, cqEntries, es);
    var i :| 0 <= i < |r| && r[i] == Ended(serial, status);
    forall x | x in r && x.Ended? && x.serial == serial
      ensures x.status == status
    {
      var j :| 0 <= j < |r| && r[j] == x;
      if i < j {
        EndsOnce(sqEntries, cqEntries, es, i, j);
      } else if j < i {
        EndsOnce(sqEntries, cqEntries, es, j, i);
      }
    }
  }

  /** The latest birth at an address before the end of a record. */
  lemma {:induction false} LastBirth(m: TargetMonitor, es: seq<Entry>) returns (b: int)
    ensures -1 <= b < |es|
    ensures b >= 0 ==> BirthAt(es[b], m.t) && Feed(BindNext, m, es).last == Some(es[b].serial)
    ensures b < 0 ==> Feed(BindNext, m, es).last == m.last
    ensures forall c :: b < c < |es| ==> !BirthAt(es[c], m.t)
    decreases |es|
  {
    hide RequestNext;
    b := -1;
    if es != [] {
      b := LastBirth(BindNext(m, es[0]), es[1..]);
      b := if b >= 0 then b + 1 else if BirthAt(es[0], m.t) then 0 else -1;
    }
  }

  lemma BindSplit(m: TargetMonitor, r: seq<Entry>, c: nat)
    requires c < |r| && Feed(BindNext, m, r).ok
    ensures BindNext(Feed(BindNext, m, r[..c]), r[c]).ok
    ensures Feed(BindNext, m, r[..c]).req == Feed(RequestNext, m.req, r[..c])
    ensures Feed(BindNext, m, r[..c]).t == m.t && Feed(BindNext, m, r[..c]).req.p == m.req.p
  {
    hide Feed, BindNext;
    SplitAt(BindNext, m, r, c);
    BindFollows(BindNext(Feed(BindNext, m, r[..c]), r[c]), r[c + 1..]);
    BindFollows(m, r[..c]);
    FollowsSame(m.req, r[..c]);
  }

  /** A join that waits from `i` to its answer at `k` is about the record born at `b`. */
  lemma TargetBorn(m: TargetMonitor, r: seq<Entry>, i: nat, k: nat) returns (b: nat)
    requires i < k < |r| && Feed(BindNext, m, r).ok && m.last.None?
    requires AnswerTo(r[k], m.req.p, m.t)
    requires forall c :: i < c <= k ==> Feed(RequestNext, m.req, r[..c]).phase == WasAsked(Join(m.t))
    requires !r[i].Born?
    ensures b < i && BirthAt(r[b], m.t) && r[b].serial == r[k].serial
    ensures forall c :: b < c < k ==> !BirthAt(r[c], m.t)
  {
    hide Feed, RequestNext;
    BindSplit(m, r, k);
    var last := LastBirth(m, r[..k]);
    forall c | i < c < k
      ensures !BirthAt(r[c], m.t)
    {
      BindSplit(m, r, c);
    }
    assert r[..k][last] == r[last];
    b := last;
    forall c | b < c < k
      ensures !BirthAt(r[c], m.t)
    {
      assert r[..k][c] == r[c];
    }
  }

  /** The join asked at `i` is answered at `k` with the status of the record born at `b`, the
      only one born at that address from then until the answer. */
  ghost predicate JoinCourse(r: seq<Entry>, i: nat, b: nat, k: nat, value: int)
    requires i < |r| && r[i].Asked? && r[i].ask.Join?
  {
    && b < i < k < |r|
    && AnswerTo(r[k], r[i].request, r[i].ask.target) && r[k].value == value
    && BirthAt(r[b], r[i].ask.target) && r[b].serial == r[k].serial
    && (forall c :: b < c < k ==> !BirthAt(r[c], r[i].ask.target))
    && Ended(r[b].serial, value) in r[..k]
    && (forall x :: x in r && x.Ended? && x.serial == r[b].serial ==> x.status == value)
  }

  /** A JOIN returns to its asker exactly the status its target exited with, whether the
      join came before or after the exit. The target is the record that its address stood
      for when the join was asked, whatever addresses are used again meanwhile. */
  lemma JoinReturnsExitStatus(sqEntries: nat, cqEntries: nat, es: seq<Event>, i: nat, j: nat)
    requires BootRun(sqEntries, cqEntries, es) && i < j < |Seen(sqEntries, cqEntries, es)|
    requires var r := Seen(sqEntries, cqEntries, es);
             && r[i].Asked? && r[i].ask.Join? && ReturnsFor(r[j], r[i].request)
             && forall k :: i < k < j ==> !ReturnsFor(r[k], r[i].request)
    ensures var r := Seen(sqEntries, cqEntries, es);
            && r[j].serial == r[i].serial
            && exists b: nat, k: nat :: k < j && JoinCourse(r, i, b, k, r[j].value)
  {
    hide Inv, Exec, LegalRun, PhaseOk, Feed;
    var r := Seen(sqEntries, cqEntries, es);
    var p, t := r[i].request, r[i].ask.target;
    BootHolds(sqEntries, cqEntries);
    EveryRequestServedOnce(Boot(sqEntries, cqEntries), es, p);
    NeverBroken(After(sqEntries, cqEntries, es), Feed(RequestNext, Follow(p, 0, Idle), r));
    var k := JoinBetween(Follow(p, 0, Idle), r, i, j);
    JoinsKeepTheirTargets(Boot(sqEntries, cqEntries), es, p, t);
    var b := TargetBorn(Bind(Follow(p, 0, Idle), t, None, true), r, i, k);
    AnswerIsExitStatus(sqEntries, cqEntries, es, k);
    OnlyStatus(sqEntries, cqEntries, es, r[k].serial, r[j].value);
    assert JoinCourse(r, i, b, k, r[j].value);
  }

  lemma JoinBetween(m: RequestMonitor, r: seq<Entry>, i: nat, j: nat) returns (k: nat)
    requires i < j < |r| && !Feed(RequestNext, m, r).phase.Broken?
    requires r[i].Asked? && r[i].ask.Join? && r[i].request == m.p && ReturnsFor(r[j], m.p)
    requires forall n :: i < n < j ==> !ReturnsFor(r[n], m.p)
    ensures i < k < j && AnswerTo(r[k], m.p, r[i].ask.target)
    ensures r[k].value == r[j].value && r[j].serial == r[i].serial
    ensures forall c :: i < c <= k ==> Feed(RequestNext, m, r[..c]).phase == WasAsked(r[i].ask)
  {
    hide Feed, RequestNext;
    Served(m, r, i, j);
    var b := RequestNext(Feed(RequestNext, m, r[..i]), r[i]);
    var mid := r[i + 1..j];
    var n := JoinReply(b, r[i].ask.target, mid, r[j].value);
    k := i + 1 + n;
    forall c | i < c <= k
      ensures Feed(RequestNext, m, r[..c]).phase == WasAsked(r[i].ask)
    {
      SplitAt(RequestNext, m, r[..c], i);
      assert r[..c][..i] == r[..i] && r[..c][i + 1..] == mid[..c - i - 1];
    }
  }

  /** Between an ask and the return of its call an unbroken record goes from asked to
      replied. */
  lemma Served(m: RequestMonitor, r: seq<Entry>, i: nat, j: nat)
    requires i < j < |r| && !Feed(RequestNext, m, r).phase.Broken?
    requires r[i].Asked? && r[i].request == m.p && r[j].CallReturned? && r[j].request == m.p
    ensures var b := RequestNext(Feed(RequestNext, m, r[..i]), r[i]);
            var c := Feed(RequestNext, b, r[i + 1..j]);
            && b == Follow(m.p, r[i].serial, WasAsked(r[i].ask))
            && c.phase == Replied(r[j].value) && c.asker == r[j].serial
  {
    hide Feed;
    SplitFeed(RequestNext, m, r, i, j);
    var a := Feed(RequestNext, m, r[..i]);
    FollowsSame(m, r[..i]);
    var b := RequestNext(a, r[i]);
    var c := Feed(RequestNext, b, r[i + 1..j]);
    FollowsSame(b, r[i + 1..j]);
    Unbroken(RequestNext(c, r[j]), r[j + 1..]);
    Unbroken(b, r[i + 1..j]);
  }

  // ---------------------------------------------------------------- sweeps

  /** The fibers resumed, in order. */
  function Resumes(es: seq<Entry>): seq<Handle> {
    if es == [] then []
    else (if es[0].Resumed? then [es[0].fiber] else []) + Resumes(es[1..])
  }

  lemma {:induction false} BrokenSweepStays(es: seq<Entry>)
    ensures Feed(SweepNext, BrokenSweep, es) == BrokenSweep
  {
    if es != [] {
      BrokenSweepStays(es[1..]);
    }
  }

  lemma {:induction false} SweepConsumes(m: SweepMonitor, es: seq<Entry>)
    requires m.Sweeping? && Feed(SweepNext, m, es).Sweeping?
    requires forall x :: x in es ==> !x.SweepBegan?
    ensures m.rest == Resumes(es) + Feed(SweepNext, m, es).rest
    decreases |es|
  {
    hide SweepNext;
    if es == [] {
      assert Resumes(es) == [] && m.rest == [] + m.rest;
    } else {
      assert es[0] in es;
      var next := SweepNext(m, es[0]);
      if next.BrokenSweep? {
        BrokenSweepStays(es[1..]);
      }
      SweepConsumesOne(m, es[0]);
      SweepConsumes(next, es[1..]);
      var first := if es[0].Resumed? then [es[0].fiber] else [];
      assert first + (Resumes(es[1..]) + Feed(SweepNext, next, es[1..]).rest)
          == (first + Resumes(es[1..])) + Feed(SweepNext, next, es[1..]).rest;
    }
  }

  lemma SweepConsumesOne(m: SweepMonitor, x: Entry)
    requires m.Sweeping? && SweepNext(m, x).Sweeping? && !x.SweepBegan?
    ensures m.rest == (if x.Resumed? then [x.fiber] else []) + SweepNext(m, x).rest
  {
  }

  /** From one sweep to the next, exactly the queue it began with is resumed, once each and
      in order. */
  lemma SweepRunsItsQueue(sqEntries: nat, cqEntries: nat, es: seq<Event>, i: nat, j: nat)
    requires BootRun(sqEntries, cqEntries, es) && i < j < |Seen(sqEntries, cqEntries, es)|
    requires var r := Seen(sqEntries, cqEntries, es);
             r[i].SweepBegan? && r[j].SweepBegan? && forall k :: i < k < j ==> !r[k].SweepBegan?
    ensures var r := Seen(sqEntries, cqEntries, es);
            Resumes(r[i + 1..j]) == r[i].queue && Distinct(r[i].queue)
  {
    hide Inv, Exec, LegalRun, Feed, Distinct;
    BootHolds(sqEntries, cqEntries);
    QueuesAreDistinct(Boot(sqEntries, cqEntries), es);
    SweepsAreGenerations(Boot(sqEntries, cqEntries), es);
    GenerationBetween(Seen(sqEntries, cqEntries, es), i, j);
  }

  lemma GenerationBetween(r: seq<Entry>, i: nat, j: nat)
    requires i < j < |r| && r[i].SweepBegan? && r[j].SweepBegan? && forall k :: i < k < j ==> !r[k].SweepBegan?
    requires Feed(SweepNext, Sweeping([]), r).Sweeping?
    ensures Resumes(r[i + 1..j]) == r[i].queue
  {
    hide Feed, Resumes;
    SplitFeed(SweepNext, Sweeping([]), r, i, j);
    var b := SweepNext(Feed(SweepNext, Sweeping([]), r[..i]), r[i]);
    BrokenSweepStays(r[i + 1..j]);
    BrokenSweepStays(r[j + 1..]);
    SweepConsumes(b, r[i + 1..j]);
  }

  /** The last sweep so far has resumed a prefix of its queue, and all of it once no turn is
      left. */
  lemma SweepUnderWay(sqEntries: nat, cqEntries: nat, es: seq<Event>, i: nat)
    requires BootRun(sqEntries, cqEntries, es) && i < |Seen(sqEntries, cqEntries, es)|
    requires var r := Seen(sqEntries, cqEntries, es);
             r[i].SweepBegan? && forall k :: i < k < |r| ==> !r[k].SweepBegan?
    ensures var r := Seen(sqEntries, cqEntries, es);
            var s := After(sqEntries, cqEntries, es);
            && Resumes(r[i + 1..]) <= r[i].queue
            && (!Halted(s.pc) ==> Turns(s.pc) <= |s.ready| && r[i].queue == Resumes(r[i + 1..]) + s.ready[..Turns(s.pc)])
  {
    hide Inv, Exec, LegalRun, Feed, Resumes;
    BootHolds(sqEntries, cqEntries);
    SweepsAreGenerations(Boot(sqEntries, cqEntries), es);
    GenerationSoFar(Seen(sqEntries, cqEntries, es), i);
  }

  lemma GenerationSoFar(r: seq<Entry>, i: nat)
    requires i < |r| && r[i].SweepBegan? && forall k :: i < k < |r| ==> !r[k].SweepBegan?
    requires Feed(SweepNext, Sweeping([]), r).Sweeping?
    ensures r[i].queue == Resumes(r[i + 1..]) + Feed(SweepNext, Sweeping([]), r).rest
  {
    hide Feed, Resumes;
    SplitAt(SweepNext, Sweeping([]), r, i);
    var b := SweepNext(Feed(SweepNext, Sweeping([]), r[..i]), r[i]);
    BrokenSweepStays(r[i + 1..]);
    SweepConsumes(b, r[i + 1..]);
  }

  // ---------------------------------------------------------------- completions

  lemma {:induction false} BrokenReapStays(es: seq<Entry>)
    ensures Feed(ReapNext, BrokenReap, es) == BrokenReap
  {
    if es != [] {
      BrokenReapStays(es[1..]);
    }
  }

  ghost predicate WokenIn(es: seq<Entry>, p: Ptr, res: int) {
    exists x :: x in es && x.Woken? && x.request == p && x.value == res
  }

  /** A completion in the queue is reaped, or still there nearer to the front. */
  lemma {:induction false} StillQueued(m: ReapMonitor, es: seq<Entry>, at: nat) returns (at': nat)
    requires m.Reaper? && at < |m.unreaped| && Feed(ReapNext, m, es).Reaper?
    ensures var m' := Feed(ReapNext, m, es);
            WokenIn(es, m.unreaped[at].0, m.unreaped[at].1) ||
            (&& at' < |m'.unreaped| && m'.unreaped[at'] == m.unreaped[at]
             && (at < m.due ==> at' < m'.due && forall x :: x in es ==> !x.SweepBegan?))
    decreases |es|
  {
    at' := at;
    if es != [] {
      assert es[0] in es;
      var next := ReapNext(m, es[0]);
      if next.BrokenReap? {
        BrokenReapStays(es[1..]);
      }
      if es[0].Woken? {
        if at > 0 {
          at' := StillQueued(next, es[1..], at - 1);
        }
      } else {
        at' := StillQueued(next, es[1..], at);
      }
    }
  }

  /** A completion visible at a submit is reaped before the next sweep begins. */
  lemma VisibleIsReaped(sqEntries: nat, cqEntries: nat, es: seq<Event>, i: nat, j: nat, k: nat)
    requires BootRun(sqEntries, cqEntries, es) && i < j < k < |Seen(sqEntries, cqEntries, es)|
    requires var r := Seen(sqEntries, cqEntries, es); r[i].Posted? && r[j].Submitted? && r[k].SweepBegan?
    ensures var r := Seen(sqEntries, cqEntries, es); WokenIn(r[i + 1..k], r[i].request, r[i].res)
  {
    hide Inv, Exec, LegalRun, Feed, WokenIn;
    BootHolds(sqEntries, cqEntries);
    CompletionsAreNotStarved(Boot(sqEntries, cqEntries), es, Reaper([], 0, {}));
    ReapedBetween(Seen(sqEntries, cqEntries, es), i, j, k);
  }

  lemma ReapedBetween(r: seq<Entry>, i: nat, j: nat, k: nat)
    requires i < j < k < |r| && r[i].Posted? && r[j].Submitted? && r[k].SweepBegan?
    requires Feed(ReapNext, Reaper([], 0, {}), r).Reaper?
    ensures WokenIn(r[i + 1..k], r[i].request, r[i].res)
  {
    hide Feed, WokenIn;
    var m := Reaper([], 0, {});
    SplitFeed(ReapNext, m, r, i, j);
    var b := ReapNext(Feed(ReapNext, m, r[..i]), r[i]);
    var x, y, z := r[i + 1..j], r[j + 1..k], r[j + 1..];
    var c := Feed(ReapNext, b, x);
    BrokenReapStays(x);
    BrokenReapStays(z);
    assert r[i + 1..k] == x + ([r[j]] + y);
    var at := StillQueued(b, x, |b.unreaped| - 1);
    if !WokenIn(x, r[i].request, r[i].res) {
      SliceOfSuffix(r, j + 1, k);
      DueIsReaped(ReapNext(c, r[j]), z, at, k - j - 1);
      WokenWider([r[j]], y, r[i].request, r[i].res);
    }
    WokenWider(x, [r[j]] + y, r[i].request, r[i].res);
  }

  lemma SliceOfSuffix<T>(r: seq<T>, a: nat, k: nat)
    requires a <= k < |r|
    ensures r[a..][..k - a] == r[a..k] && r[a..][k - a] == r[k]
  {
  }

  lemma WokenWider(a: seq<Entry>, b: seq<Entry>, p: Ptr, res: int)
    requires WokenIn(a, p, res) || WokenIn(b, p, res)
    ensures WokenIn(a + b, p, res)
  {
    if WokenIn(a, p, res) {
      var x :| x in a && x.Woken? && x.request == p && x.value == res;
      assert x in a + b;
    } else {
      var x :| x in b && x.Woken? && x.request == p && x.value == res;
      assert x in a + b;
    }
  }

  lemma DueIsReaped(m: ReapMonitor, es: seq<Entry>, at: nat, k: nat)
    requires m.Reaper? && at < |m.unreaped| && at < m.due && k < |es|
    requires Feed(ReapNext, m, es).Reaper? && es[k].SweepBegan?
    ensures WokenIn(es[..k], m.unreaped[at].0, m.unreaped[at].1)
  {
    hide Feed, WokenIn;
    SplitAt(ReapNext, m, es, k);
    var c := Feed(ReapNext, m, es[..k]);
    BrokenReapStays(es[k + 1..]);
    var at' := StillQueued(m, es[..k], at);
  }

  lemma {:induction false} WokenKept(m: ReapMonitor, es: seq<Entry>, h: Handle)
    requires m.Reaper? && h in m.woken && Feed(ReapNext, m, es).Reaper?
    requires forall x :: x in es ==> !x.SweepBegan?
    ensures h in Feed(ReapNext, m, es).woken
    decreases |es|
  {
    if es != [] {
      assert es[0] in es;
      var next := ReapNext(m, es[0]);
      if next.BrokenReap? {
        BrokenReapStays(es[1..]);
      }
      WokenKept(next, es[1..], h);
    }
  }

  /** A fiber woken by a completion is in the queue of the very next sweep. */
  lemma WokenRunsNext(sqEntries: nat, cqEntries: nat, es: seq<Event>, i: nat, j: nat)
    requires BootRun(sqEntries, cqEntries, es) && i < j < |Seen(sqEntries, cqEntries, es)|
    requires var r := Seen(sqEntries, cqEntries, es);
             r[i].Woken? && r[j].SweepBegan? && forall k :: i < k < j ==> !r[k].SweepBegan?
    ensures var r := Seen(sqEntries, cqEntries, es); r[i].fiber in r[j].queue
  {
    hide Inv, Exec, LegalRun, Feed;
    BootHolds(sqEntries, cqEntries);
    CompletionsAreNotStarved(Boot(sqEntries, cqEntries), es, Reaper([], 0, {}));
    WokenBetween(Seen(sqEntries, cqEntries, es), i, j);
  }

  lemma WokenBetween(r: seq<Entry>, i: nat, j: nat)
    requires i < j < |r| && r[i].Woken? && r[j].SweepBegan? && forall k :: i < k < j ==> !r[k].SweepBegan?
    requires Feed(ReapNext, Reaper([], 0, {}), r).Reaper?
    ensures r[i].fiber in r[j].queue
  {
    hide Feed;
    var m := Reaper([], 0, {});
    SplitFeed(ReapNext, m, r, i, j);
    var b := ReapNext(Feed(ReapNext, m, r[..i]), r[i]);
    BrokenReapStays(r[i + 1..j]);
    BrokenReapStays(r[j + 1..]);
    WokenKept(b, r[i + 1..j], r[i].fiber);
  }

  /** A completion in the queue at any point of the reap loop is reaped before the next sweep
      begins, whenever it was posted: before the submit, by the submit itself, or later. */
  lemma QueuedIsReaped(sqEntries: nat, cqEntries: nat, a: seq<Event>, b: seq<Event>, at: nat, k: nat)
    requires BootRun(sqEntries, cqEntries, a) && BootRun(sqEntries, cqEntries, a + b)
    requires After(sqEntries, cqEntries, a).pc.Reaping? && at < |After(sqEntries, cqEntries, a).ring.cq|
    requires |Seen(sqEntries, cqEntries, a)| <= k < |Seen(sqEntries, cqEntries, a + b)|
    requires Seen(sqEntries, cqEntries, a + b)[k].SweepBegan?
    ensures var c := After(sqEntries, cqEntries, a).ring.cq[at];
            WokenIn(Seen(sqEntries, cqEntries, a + b)[|Seen(sqEntries, cqEntries, a)|..k], c.userData, c.res)
  {
    hide Inv, Exec, LegalRun, Record, WokenIn;
    var s0, s := Boot(sqEntries, cqEntries), After(sqEntries, cqEntries, a);
    BootHolds(sqEntries, cqEntries);
    RunKeeps(s0, a);
    SplitRun(s0, a, b);
    RecordAppend(s0, a, b);
    var head, rest := Record(s0, a), Record(s, b);
    LoopReaps(s, b, at, k - |head|);
    assert (head + rest)[|head|..k] == rest[..k - |head|];
  }

  lemma LoopReaps(s: State, es: seq<Event>, at: nat, k: nat)
    requires Inv(s) && s.pc.Reaping? && at < |s.ring.cq| && LegalRun(s, es)
    requires k < |Record(s, es)| && Record(s, es)[k].SweepBegan?
    ensures WokenIn(Record(s, es)[..k], s.ring.cq[at].userData, s.ring.cq[at].res)
  {
    hide Inv, Exec, LegalRun, Feed, WokenIn, ReapOk;
    var m := Reaper(Posts(s.ring.cq), |s.ring.cq|, {});
    EverythingDue(s);
    CompletionsAreNotStarved(s, es, m);
    ReapUnbroken(Exec(s, es), Feed(ReapNext, m, Record(s, es)));
    DueIsReaped(m, Record(s, es), at, k);
  }

  lemma ReapUnbroken(s: State, m: ReapMonitor)
    requires ReapOk(s, m)
    ensures m.Reaper?
  {
  }

  /** An answered request stays so, and a sweep that began since stays on record, until its
      call returns with the answer. */
  lemma {:induction false} ReturnsWithin(m: ReturnMonitor, es: seq<Entry>, value: int)
    requires m.req.phase == Replied(value) && !Feed(HomingNext, m, es).req.phase.Broken?
    ensures (exists x :: x in es && ReturnsFor(x, m.req.p) && x.value == value) ||
            (Feed(HomingNext, m, es).req == m.req && (m.due ==> Feed(HomingNext, m, es).due))
    decreases |es|
  {
    if es != [] {
      assert es[0] in es;
      var next := HomingNext(m, es[0]);
      HomingFollows(next, es[1..]);
      Unbroken(next.req, es[1..]);
      if !ReturnsFor(es[0], m.req.p) {
        ReturnsWithin(next, es[1..], value);
      }
    }
  }

  lemma ReturnsBetween(m: ReturnMonitor, r: seq<Entry>, w: nat, k: nat, l: nat)
    requires w < k < l < |r| && RepliesTo(r[w], m.req.p) && r[k].SweepBegan? && r[l].SweepBegan?
    requires Feed(HomingNext, m, r).ok && !Feed(HomingNext, m, r).req.phase.Broken?
    ensures exists x :: x in r[w + 1..l] && ReturnsFor(x, m.req.p) && x.value == r[w].value
  {
    hide Feed, HomingNext;
    var a := Feed(HomingNext, m, r[..w]);
    var b := HomingNext(a, r[w]);
    var c := Feed(HomingNext, b, r[w + 1..k]);
    var d := HomingNext(c, r[k]);
    var e := Feed(HomingNext, d, r[k + 1..l]);
    assert Feed(HomingNext, HomingNext(e, r[l]), r[l + 1..]) == Feed(HomingNext, m, r) by {
      SplitFeed(HomingNext, m, r, w, k);
      SplitAt(HomingNext, d, r[k + 1..], l - k - 1);
      assert r[k + 1..][..l - k - 1] == r[k + 1..l] && r[k + 1..][l - k - 1] == r[l];
      assert r[k + 1..][l - k - 1 + 1..] == r[l + 1..];
    }
    HomingBack(HomingNext(e, r[l]), r[l + 1..]);
    NothingDue(e, r[l]);
    HomingBackOne(e, r[l]);
    HomingBack(d, r[k + 1..l]);
    HomingBackOne(c, r[k]);
    HomingBack(b, r[w + 1..k]);
    HomingFollows(m, r[..w]);
    FollowsSame(m.req, r[..w]);
    ReplyFollows(a, r[w]);
    ReturnsWithin(b, r[w + 1..k], r[w].value);
    Inner(r, w + 1, w + 1, k, l);
    if forall x :: x in r[w + 1..k] ==> !(ReturnsFor(x, m.req.p) && x.value == r[w].value) {
      SweepMakesDue(c, r[k]);
      ReturnsWithin(d, r[k + 1..l], r[w].value);
      Inner(r, w + 1, k + 1, l, l);
    }
  }

  /** What is sound at the end was sound before. */
  lemma HomingBack(m: ReturnMonitor, es: seq<Entry>)
    requires Feed(HomingNext, m, es).ok && !Feed(HomingNext, m, es).req.phase.Broken?
    ensures m.ok && !m.req.phase.Broken?
  {
    HomingFollows(m, es);
    Unbroken(m.req, es);
  }

  lemma HomingBackOne(m: ReturnMonitor, x: Entry)
    requires HomingNext(m, x).ok && !HomingNext(m, x).req.phase.Broken?
    ensures m.ok && !m.req.phase.Broken?
  {
    FeedOne(HomingNext, m, x);
    HomingBack(m, [x]);
  }

  lemma ReplyFollows(m: ReturnMonitor, x: Entry)
    requires RepliesTo(x, m.req.p) && !HomingNext(m, x).req.phase.Broken?
    ensures HomingNext(m, x).req.phase == Replied(x.value) && HomingNext(m, x).req.p == m.req.p
  {
  }

  lemma SweepMakesDue(m: ReturnMonitor, x: Entry)
    requires x.SweepBegan? && m.req.phase.Replied?
    ensures HomingNext(m, x).due && HomingNext(m, x).req == m.req
  {
  }

  lemma NothingDue(m: ReturnMonitor, x: Entry)
    requires x.SweepBegan? && HomingNext(m, x).ok
    ensures !m.due
  {
  }

  /** Nobody is starved: once a request of any kind is answered, its call has returned with
      the answer by the end of the first whole sweep after that. */
  lemma AnswerReturnsInTime(sqEntries: nat, cqEntries: nat, es: seq<Event>, p: Ptr, w: nat, k: nat, l: nat)
    requires BootRun(sqEntries, cqEntries, es) && w < k < l < |Seen(sqEntries, cqEntries, es)|
    requires var r := Seen(sqEntries, cqEntries, es);
             RepliesTo(r[w], p) && r[k].SweepBegan? && r[l].SweepBegan?
    ensures var r := Seen(sqEntries, cqEntries, es);
            exists x :: x in r[w + 1..l] && ReturnsFor(x, p) && x.value == r[w].value
  {
    hide Inv, Exec, LegalRun, Feed, HomingOk, HomingNext;
    BootHolds(sqEntries, cqEntries);
    AnsweredCallsReturn(Boot(sqEntries, cqEntries), es, p);
    var m := Homing(Follow(p, 0, Idle), false, false, true);
    HomingSafe(After(sqEntries, cqEntries, es), Feed(HomingNext, m, Seen(sqEntries, cqEntries, es)));
    ReturnsBetween(m, Seen(sqEntries, cqEntries, es), w, k, l);
  }

  /** A completion visible at a submit at `j` has returned from its call, with its result, by
      the end of the first whole sweep after that submit. */
  lemma VisibleReturnsInTime(sqEntries: nat, cqEntries: nat, es: seq<Event>, i: nat, j: nat, k: nat, l: nat)
    requires BootRun(sqEntries, cqEntries, es) && i < j < k < l < |Seen(sqEntries, cqEntries, es)|
    requires var r := Seen(sqEntries, cqEntries, es);
             r[i].Posted? && r[j].Submitted? && r[k].SweepBegan? && r[l].SweepBegan?
    ensures var r := Seen(sqEntries, cqEntries, es);
            exists x :: x in r[i + 1..l] && ReturnsFor(x, r[i].request) && x.value == r[i].res
  {
    hide BootRun, Seen, WokenIn;
    var r := Seen(sqEntries, cqEntries, es);
    VisibleIsReaped(sqEntries, cqEntries, es, i, j, k);
    var w := WokenPlace(r, i + 1, k, r[i].request, r[i].res);
    AnswerReturnsInTime(sqEntries, cqEntries, es, r[i].request, w, k, l);
    Inner(r, i + 1, w + 1, l, l);
  }

  /** A completion in the queue at any point of the reap loop has returned from its call, with
      its result, by the end of the very next sweep, however many fibers keep yielding. This
      covers a completion that the submit itself produced (test/sweep_generation.c:7-9). */
  lemma QueuedReturnsInTime(sqEntries: nat, cqEntries: nat, a: seq<Event>, b: seq<Event>, at: nat, k: nat, l: nat)
    requires BootRun(sqEntries, cqEntries, a) && BootRun(sqEntries, cqEntries, a + b)
    requires After(sqEntries, cqEntries, a).pc.Reaping? && at < |After(sqEntries, cqEntries, a).ring.cq|
    requires |Seen(sqEntries, cqEntries, a)| <= k < l < |Seen(sqEntries, cqEntries, a + b)|
    requires Seen(sqEntries, cqEntries, a + b)[k].SweepBegan? && Seen(sqEntries, cqEntries, a + b)[l].SweepBegan?
    ensures var c := After(sqEntries, cqEntries, a).ring.cq[at];
            exists x :: x in Seen(sqEntries, cqEntries, a + b)[|Seen(sqEntries, cqEntries, a)|..l]
                        && ReturnsFor(x, c.userData) && x.value == c.res
  {
    hide BootRun, Seen, After, WokenIn;
    var c := After(sqEntries, cqEntries, a).ring.cq[at];
    var r, n := Seen(sqEntries, cqEntries, a + b), |Seen(sqEntries, cqEntries, a)|;
    QueuedIsReaped(sqEntries, cqEntries, a, b, at, k);
    var w := WokenPlace(r, n, k, c.userData, c.res);
    AnswerReturnsInTime(sqEntries, cqEntries, a + b, c.userData, w, k, l);
    Inner(r, n, w + 1, l, l);
  }

  lemma WokenPlace(r: seq<Entry>, from: nat, k: nat, p: Ptr, res: int) returns (w: nat)
    requires from <= k <= |r| && WokenIn(r[from..k], p, res)
    ensures from <= w < k && WakesFor(r[w], p) && r[w].value == res
  {
    var part := r[from..k];
    var x :| x in part && x.Woken? && x.request == p && x.value == res;
    var n :| 0 <= n < |part| && part[n] == x;
    w := from + n;
  }

  lemma Inner(r: seq<Entry>, a: nat, b: nat, c: nat, d: nat)
    requires a <= b <= c <= d <= |r|
    ensures forall x :: x in r[b..c] ==> x in r[a..d]
  {
    forall x | x in r[b..c]
      ensures x in r[a..d]
    {
      var n :| 0 <= n < c - b && r[b..c][n] == x;
      assert r[a..d][b - a + n] == x;
    }
  }

  lemma HomingSafe(s: State, m: ReturnMonitor)
    requires HomingOk(s, m)
    ensures m.ok && !m.req.phase.Broken?
  {
    NeverBroken(s, m.req);
  }

  // ---------------------------------------------------------------- progress

  lemma {:induction false} BrokenRoundStays(es: seq<Entry>)
    ensures Feed(IdleNext, BrokenRound, es) == BrokenRound
  {
    if es != [] {
      BrokenRoundStays(es[1..]);
    }
  }

  lemma {:induction false} IdleWithout(es: seq<Entry>)
    requires forall x :: x in es ==> !x.Resumed? && !x.Woken?
    ensures var m := Feed(IdleNext, Round(true), es); m == Round(true) || m == BrokenRound
  {
    if es != [] {
      assert es[0] in es;
      if IdleNext(Round(true), es[0]).BrokenRound? {
        BrokenRoundStays(es[1..]);
      } else {
        IdleWithout(es[1..]);
      }
    }
  }

  /** With a kernel that honours `min_complete`, every round of the loop runs a fiber or
      wakes one: nothing is stranded and nothing spins. */
  lemma EveryRoundProgresses(sqEntries: nat, cqEntries: nat, es: seq<Event>, i: nat, j: nat)
    requires BootRun(sqEntries, cqEntries, es) && HonestRun(Boot(sqEntries, cqEntries), es)
    requires i < j < |Seen(sqEntries, cqEntries, es)|
    requires var r := Seen(sqEntries, cqEntries, es); r[i].SweepBegan? && r[j].SweepBegan?
    ensures var r := Seen(sqEntries, cqEntries, es);
            exists k :: i < k < j && (r[k].Resumed? || r[k].Woken?)
  {
    hide Inv, Exec, LegalRun, Feed;
    BootHolds(sqEntries, cqEntries);
    NoIdleRounds(Boot(sqEntries, cqEntries), es);
    ProgressBetween(Seen(sqEntries, cqEntries, es), i, j);
  }

  lemma ProgressBetween(r: seq<Entry>, i: nat, j: nat)
    requires i < j < |r| && r[i].SweepBegan? && r[j].SweepBegan?
    requires Feed(IdleNext, Round(false), r).Round?
    ensures exists k :: i < k < j && (r[k].Resumed? || r[k].Woken?)
  {
    hide Feed;
    SplitFeed(IdleNext, Round(false), r, i, j);
    var mid := r[i + 1..j];
    BrokenRoundStays(mid);
    BrokenRoundStays(r[j + 1..]);
    NotIdle(mid, r[j]);
    var x :| x in mid && (x.Resumed? || x.Woken?);
    var k :| 0 <= k < |mid| && mid[k] == x;
    assert r[i + 1 + k] == x;
  }

  lemma NotIdle(es: seq<Entry>, last: Entry)
    requires last.SweepBegan? && IdleNext(Feed(IdleNext, Round(true), es), last).Round?
    ensures exists x :: x in es && (x.Resumed? || x.Woken?)
  {
    if forall x :: x in es ==> !x.Resumed? && !x.Woken? {
      IdleWithout(es);
    }
  }
}
