/** What whole runs conserve: submissions, completions and records, stated on the record of
    a run from boot. */
module Conservation {
  import opened Base
  import opened RingModel
  import opened Machine
  import opened Invariant
  import opened InvariantProof
  import opened Trace
  import opened Fairness
  import opened Delivery
  import opened Reclaim
  import opened Theorems

  // ---------------------------------------------------------------- submissions

  /** The submissions written to the batch, in order. */
  function Written(es: seq<Entry>): seq<Sqe> {
    if es == [] then []
    else Written(es[..|es| - 1]) + (if es[|es| - 1].Batched? then [es[|es| - 1].sqe] else [])
  }

  /** The submissions the kernel took, in order. */
  function TakenOver(es: seq<Entry>): seq<Sqe> {
    if es == [] then []
    else TakenOver(es[..|es| - 1]) + (if es[|es| - 1].Consumed? then es[|es| - 1].sqes else [])
  }

  lemma {:induction false} WrittenAppend(a: seq<Entry>, b: seq<Entry>)
    ensures Written(a + b) == Written(a) + Written(b)
    ensures TakenOver(a + b) == TakenOver(a) + TakenOver(b)
    decreases |b|
  {
    if b == [] {
      assert a + b == a;
    } else {
      var front := b[..|b| - 1];
      assert (a + b)[..|a + b| - 1] == a + front;
      WrittenAppend(a, front);
    }
  }

  lemma {:induction false} NothingSubmitted(es: seq<Entry>)
    requires forall x :: x in es ==> !x.Batched? && !x.Consumed?
    ensures Written(es) == [] && TakenOver(es) == []
  {
    if es != [] {
      assert es[|es| - 1] in es;
      NothingSubmitted(es[..|es| - 1]);
    }
  }

  lemma OneWritten(x: Entry)
    ensures Written([x]) == (if x.Batched? then [x.sqe] else [])
    ensures TakenOver([x]) == (if x.Consumed? then x.sqes else [])
  {
    assert [x][..0] == [];
  }

  /** One step writes, takes and leaves the same submissions. */
  lemma StepConserves(s: State, e: Event)
    requires Legal(s, e)
    ensures s.ring.batch + Written(Emits(s, e)) == TakenOver(Emits(s, e)) + Step(s, e).ring.batch
  {
    hide Written, TakenOver;
    var out := Emits(s, e);
    if e.Kernel? && e.event.Enter? && e.event.result.Accepted? {
      AcceptConserves(s, e.event);
    } else if e.Tick? && s.pc.Appending? && out != [] {
      OneWritten(out[0]);
      assert out == [out[0]];
    } else {
      if e.Ask? && out != [] {
        AskEntries(s, e);
      }
      NothingSubmitted(out);
    }
  }

  lemma AcceptConserves(s: State, k: KernelEvent)
    requires Legal(s, Kernel(k)) && k.Enter? && k.result.Accepted?
    ensures var out := Emits(s, Kernel(k));
            s.ring.batch + Written(out) == TakenOver(out) + Step(s, Kernel(k)).ring.batch
  {
    hide Written, TakenOver;
    var taken := Consumed(s.ring.batch[..k.result.count]);
    OneWritten(taken);
    OneWritten(Submitted);
    WrittenAppend([taken], [Submitted]);
    assert [taken] + [Submitted] == [taken, Submitted];
  }

  /** In every state of every run, through every flush, short count, interrupt and failure,
      the submissions ever written are those the kernel took followed by the batch. */
  lemma {:induction false} SubmissionsConserved(sqEntries: nat, cqEntries: nat, es: seq<Event>)
    requires BootRun(sqEntries, cqEntries, es)
    ensures var r := Seen(sqEntries, cqEntries, es);
            Written(r) == TakenOver(r) + After(sqEntries, cqEntries, es).ring.batch
    decreases |es|
  {
    hide Legal, Step, Emits, Written, TakenOver;
    if es == [] {
      NothingSubmitted([]);
    } else {
      var before, last := es[..|es| - 1], es[|es| - 1];
      SubmissionsConserved(sqEntries, cqEntries, before);
      var s := After(sqEntries, cqEntries, before);
      var r, out := Seen(sqEntries, cqEntries, before), Emits(s, last);
      StepConserves(s, last);
      WrittenAppend(r, out);
      calc {
        Written(r) + Written(out);
        (TakenOver(r) + s.ring.batch) + Written(out);
        TakenOver(r) + (s.ring.batch + Written(out));
        TakenOver(r) + (TakenOver(out) + Step(s, last).ring.batch);
        (TakenOver(r) + TakenOver(out)) + Step(s, last).ring.batch;
      }
    }
  }

  // ---------------------------------------------------------------- completions

  /** Addresses and results of the completions the kernel posted, in order. */
  function PostedIn(es: seq<Entry>): seq<(Ptr, int)> {
    if es == [] then []
    else (if es[0].Posted? then [(es[0].request, es[0].res)] else []) + PostedIn(es[1..])
  }

  /** Addresses and results of the completions the reactor delivered, in order. */
  function DeliveredIn(es: seq<Entry>): seq<(Ptr, int)> {
    if es == [] then []
    else (if es[0].Woken? then [(es[0].request, es[0].value)] else []) + DeliveredIn(es[1..])
  }

  lemma {:induction false} QueueAccounts(m: ReapMonitor, es: seq<Entry>)
    requires m.Reaper? && Feed(ReapNext, m, es).Reaper?
    ensures m.unreaped + PostedIn(es) == DeliveredIn(es) + Feed(ReapNext, m, es).unreaped
    decreases |es|
  {
    if es != [] {
      var next := ReapNext(m, es[0]);
      if next.BrokenReap? {
        BrokenReapStays(es[1..]);
      } else {
        QueueAccounts(next, es[1..]);
        QueueAccountsOne(m, es[0], PostedIn(es[1..]), DeliveredIn(es[1..]), Feed(ReapNext, next, es[1..]).unreaped);
      }
    }
  }

  lemma QueueAccountsOne(m: ReapMonitor, x: Entry, posted: seq<(Ptr, int)>, delivered: seq<(Ptr, int)>, left: seq<(Ptr, int)>)
    requires m.Reaper? && ReapNext(m, x).Reaper? && ReapNext(m, x).unreaped + posted == delivered + left
    ensures m.unreaped + ((if x.Posted? then [(x.request, x.res)] else []) + posted) ==
            (if x.Woken? then [(x.request, x.value)] else []) + delivered + left
  {
    if x.Woken? {
      assert m.unreaped == [(x.request, x.value)] + ReapNext(m, x).unreaped;
      assert m.unreaped + posted == [(x.request, x.value)] + (ReapNext(m, x).unreaped + posted);
      assert [(x.request, x.value)] + (delivered + left) == [(x.request, x.value)] + delivered + left;
      assert [] + posted == posted;
    } else if x.Posted? {
      assert m.unreaped + ([(x.request, x.res)] + posted) == ReapNext(m, x).unreaped + posted;
      assert [] + delivered + left == delivered + left;
    } else {
      assert [] + posted == posted && [] + delivered + left == delivered + left;
    }
  }

  /** In every run the completions delivered are those posted, in the order posted, without
      loss or duplication; the ones not yet delivered are the contents of the queue. */
  lemma CompletionsInOrder(sqEntries: nat, cqEntries: nat, es: seq<Event>)
    requires BootRun(sqEntries, cqEntries, es)
    ensures var r := Seen(sqEntries, cqEntries, es);
            var s := After(sqEntries, cqEntries, es);
            && DeliveredIn(r) <= PostedIn(r)
            && (!Halted(s.pc) ==> PostedIn(r) == DeliveredIn(r) + Posts(s.ring.cq))
  {
    hide Inv, Exec, LegalRun, Feed;
    BootHolds(sqEntries, cqEntries);
    CompletionsAreNotStarved(Boot(sqEntries, cqEntries), es, Reaper([], 0, {}));
    QueueAccounts(Reaper([], 0, {}), Seen(sqEntries, cqEntries, es));
    assert [] + PostedIn(Seen(sqEntries, cqEntries, es)) == PostedIn(Seen(sqEntries, cqEntries, es));
  }

  // ---------------------------------------------------------------- one submission a call

  function Carrying(sqes: seq<Sqe>, p: Ptr): seq<Sqe> {
    if sqes == [] then []
    else (if sqes[0].userData == p then [sqes[0]] else []) + Carrying(sqes[1..], p)
  }

  /** The submissions the kernel took that carry this address. */
  function TakenFor(es: seq<Entry>, p: Ptr): seq<Sqe> {
    if es == [] then []
    else (if es[0].Consumed? then Carrying(es[0].sqes, p) else []) + TakenFor(es[1..], p)
  }

  lemma {:induction false} CarryingNone(sqes: seq<Sqe>, p: Ptr)
    requires !Carries(sqes, p)
    ensures Carrying(sqes, p) == []
  {
    if sqes != [] {
      assert sqes[0] in sqes;
      assert !Carries(sqes[1..], p);
      CarryingNone(sqes[1..], p);
    }
  }

  lemma {:induction false} CarryingOne(sqes: seq<Sqe>, sqe: Sqe)
    requires OnlyCopy(sqes, sqe)
    ensures Carrying(sqes, sqe.userData) == [sqe]
  {
    var i :| 0 <= i < |sqes| && sqes[i] == sqe
             && forall j :: 0 <= j < |sqes| && j != i ==> sqes[j].userData != sqe.userData;
    var rest := sqes[1..];
    assert forall j :: 0 <= j < |rest| ==> rest[j] == sqes[j + 1];
    if i == 0 {
      CarryingNone(rest, sqe.userData);
    } else {
      assert rest[i - 1] == sqe;
      CarryingOne(rest, sqe);
    }
  }

  /** What the kernel has still to take for a request being served. */
  function StillToTake(m: RequestMonitor): seq<Sqe> {
    match m.phase
    case WasAsked(Await(sqe)) => [sqe.(userData := m.p)]
    case InBatch(sqe) => [sqe]
    case _ => []
  }

  lemma TakeOne(m: RequestMonitor, x: Entry)
    requires Serving(m.phase) && !ReturnsFor(x, m.p) && Serving(RequestNext(m, x).phase)
    ensures StillToTake(m) ==
            (if x.Consumed? then Carrying(x.sqes, m.p) else []) + StillToTake(RequestNext(m, x))
  {
    if x.Consumed? {
      if Carries(x.sqes, m.p) {
        CarryingOne(x.sqes, m.phase.sqe);
      } else {
        CarryingNone(x.sqes, m.p);
      }
    }
  }

  lemma ServingGoesOn(m: RequestMonitor, x: Entry)
    requires Serving(m.phase) && !ReturnsFor(x, m.p)
    ensures Serving(RequestNext(m, x).phase) || RequestNext(m, x).phase.Broken?
    ensures RequestNext(m, x).p == m.p
  {
  }

  lemma {:induction false} TakenWhileServed(m: RequestMonitor, es: seq<Entry>)
    requires Serving(m.phase) && Feed(RequestNext, m, es).phase.Replied?
    requires forall x :: x in es ==> !ReturnsFor(x, m.p)
    ensures TakenFor(es, m.p) == StillToTake(m)
    decreases |es|
  {
    hide RequestNext, StillToTake, Serving, Carrying;
    if es == [] {
      assert StillToTake(m) == [] by {
        RepliedTakesNothing(m);
      }
    } else {
      assert es[0] in es;
      var next := RequestNext(m, es[0]);
      ServingGoesOn(m, es[0]);
      Unbroken(next, es[1..]);
      TakenWhileServed(next, es[1..]);
      TakeOne(m, es[0]);
    }
  }

  lemma RepliedTakesNothing(m: RequestMonitor)
    requires m.phase.Replied?
    ensures StillToTake(m) == []
  {
  }

  /** Between an AWAIT and its return the kernel took exactly one submission under the
      request's address: the caller's, with nothing but `user_data` changed. */
  lemma AwaitSubmitsItsSqe(sqEntries: nat, cqEntries: nat, es: seq<Event>, i: nat, j: nat)
    requires BootRun(sqEntries, cqEntries, es) && i < j < |Seen(sqEntries, cqEntries, es)|
    requires var r := Seen(sqEntries, cqEntries, es);
             && r[i].Asked? && r[i].ask.Await?
             && ReturnsFor(r[j], r[i].request)
             && forall k :: i < k < j ==> !ReturnsFor(r[k], r[i].request)
    ensures var r := Seen(sqEntries, cqEntries, es);
            TakenFor(r[i + 1..j], r[i].request) == [r[i].ask.sqe.(userData := r[i].request)]
  {
    hide Inv, Exec, LegalRun, Feed, PhaseOk, TakenFor, RequestNext;
    var r := Seen(sqEntries, cqEntries, es);
    var m := Follow(r[i].request, 0, Idle);
    BootHolds(sqEntries, cqEntries);
    EveryRequestServedOnce(Boot(sqEntries, cqEntries), es, r[i].request);
    NeverBroken(After(sqEntries, cqEntries, es), Feed(RequestNext, m, r));
    Served(m, r, i, j);
    TakenWhileServed(RequestNext(Feed(RequestNext, m, r[..i]), r[i]), r[i + 1..j]);
  }

  // ---------------------------------------------------------------- records

  ghost predicate HasBegun(es: seq<Entry>, serial: nat) {
    exists x :: x in es && x.Born? && x.serial == serial
  }

  ghost predicate HasEnded(es: seq<Entry>, serial: nat) {
    exists x :: x in es && x.Ended? && x.serial == serial
  }

  /** A join took the status of this record, or a detach gave it up, before or after its
      exit. */
  predicate Disposes(x: Entry, serial: nat) {
    (x.JoinAnswered? && x.serial == serial) || (x.Marked? && x.serial == serial) || (x.Discarded? && x.serial == serial)
  }

  ghost predicate Disposed(es: seq<Entry>, serial: nat) {
    exists x :: x in es && Disposes(x, serial)
  }

  predicate Over(stay: Stay) { stay.Zombie? || stay.Claimed? || stay.Gone? }

  predicate Given(stay: Stay) {
    stay.Claimed? || stay.Gone? || (stay.Alive? && stay.detached) || (stay.Zombie? && stay.detached)
  }

  /** The stay of a record summarises what its record holds. */
  ghost predicate Summary(es: seq<Entry>, m: RecordMonitor) {
    && (!m.stay.Unborn? <==> HasBegun(es, m.serial))
    && (Over(m.stay) <==> HasEnded(es, m.serial))
    && (Given(m.stay) <==> Disposed(es, m.serial))
    && (m.stay.Gone? <==> Destroyed(m.serial) in es)
    && (m.stay.Unborn? ==> Marked(m.serial) !in es)
    && (m.stay.Alive? || m.stay.Zombie? ==> (m.stay.detached <==> Marked(m.serial) in es))
  }

  lemma SummaryOne(es: seq<Entry>, m: RecordMonitor, x: Entry)
    requires Summary(es, m) && !RecordNext(m, x).stay.Misused?
    ensures Summary(es + [x], RecordNext(m, x))
  {
    assert forall y :: y in es + [x] <==> y in es || y == x;
    var m' := RecordNext(m, x);
    assert HasBegun(es + [x], m.serial) <==> HasBegun(es, m.serial) || (x.Born? && x.serial == m.serial) by {
      assert x in es + [x];
      if HasBegun(es, m.serial) {
        var y :| y in es && y.Born? && y.serial == m.serial;
        assert y in es + [x];
      }
    }
    assert HasEnded(es + [x], m.serial) <==> HasEnded(es, m.serial) || (x.Ended? && x.serial == m.serial) by {
      assert x in es + [x];
      if HasEnded(es, m.serial) {
        var y :| y in es && y.Ended? && y.serial == m.serial;
        assert y in es + [x];
      }
    }
    assert Disposed(es + [x], m.serial) <==> Disposed(es, m.serial) || Disposes(x, m.serial) by {
      assert x in es + [x];
      if Disposed(es, m.serial) {
        var y :| y in es && Disposes(y, m.serial);
        assert y in es + [x];
      }
    }
    hide HasBegun, HasEnded, Disposed;
  }

  lemma {:induction false} Summarised(serial: nat, es: seq<Entry>)
    requires !Feed(RecordNext, Watch(serial, Unborn), es).stay.Misused?
    ensures Summary(es, Feed(RecordNext, Watch(serial, Unborn), es))
    decreases |es|
  {
    var m := Watch(serial, Unborn);
    if es != [] {
      hide Summary;
      var front, x := es[..|es| - 1], es[|es| - 1];
      assert front + [x] == es;
      FeedAppend(RecordNext, m, front, [x]);
      FeedOne(RecordNext, Feed(RecordNext, m, front), x);
      if Feed(RecordNext, m, front).stay.Misused? {
        MisusedStays(Feed(RecordNext, m, front), [x]);
      }
      Summarised(serial, front);
      SummaryOne(front, Feed(RecordNext, m, front), x);
    }
  }

  ghost predicate Undestroyed(s: State, serial: nat) {
    exists h :: h in s.fibers && s.fibers[h].serial == serial
  }

  /** Released, and at one point of the record only. */
  ghost predicate ReleasedOnce(r: seq<Entry>, serial: nat) {
    exists i :: 0 <= i < |r| && r[i] == Destroyed(serial)
                && forall j :: 0 <= j < |r| && j != i ==> r[j] != Destroyed(serial)
  }

  /** In every run, however it ends or goes on: a record is released exactly once if its
      fiber has exited and a join or a detach disposed of it, in either order, and not at all
      otherwise; until then, and from its birth on, it exists. */
  lemma EveryRecordAccounted(sqEntries: nat, cqEntries: nat, es: seq<Event>, serial: nat)
    requires BootRun(sqEntries, cqEntries, es)
    ensures var r := Seen(sqEntries, cqEntries, es);
            var s := After(sqEntries, cqEntries, es);
            && (ReleasedOnce(r, serial) <==> HasEnded(r, serial) && Disposed(r, serial))
            && (Destroyed(serial) in r <==> HasEnded(r, serial) && Disposed(r, serial))
            && (Undestroyed(s, serial) <==> HasBegun(r, serial) && Destroyed(serial) !in r)
            && (HasBegun(r, serial) <==> serial < s.born)
  {
    hide Inv, Exec, LegalRun, Feed, StayOk, HasBegun, HasEnded, Disposed, ReleasedOnce, Undestroyed;
    var r := Seen(sqEntries, cqEntries, es);
    var s := After(sqEntries, cqEntries, es);
    var m := Feed(RecordNext, Watch(serial, Unborn), r);
    BootHolds(sqEntries, cqEntries);
    EveryRecordReleasedOnce(Boot(sqEntries, cqEntries), es, serial);
    RunKeeps(Boot(sqEntries, cqEntries), es);
    MonitorKeepsSerial(Watch(serial, Unborn), r);
    NeverMisused(s, m);
    NeverClaimed(s, m);
    Summarised(serial, r);
    StayTells(s, m);
    if Destroyed(serial) in r {
      forall i, j | 0 <= i < j < |r| && r[i] == Destroyed(serial)
        ensures r[j] != Destroyed(serial)
      {
        ReleasedForGood(sqEntries, cqEntries, es, serial, i, j);
      }
      OnlyPlace(r, serial);
    } else {
      NoPlace(r, serial);
    }
  }

  /** A record whose status was taken is released in the same step, so no state shows it in
      between; nor does one show a detached record that has exited. */
  lemma NeverClaimed(s: State, m: RecordMonitor)
    requires StayOk(s, m)
    ensures !m.stay.Claimed? && !(m.stay.Zombie? && m.stay.detached)
  {
  }

  lemma StayTells(s: State, m: RecordMonitor)
    requires Inv(s) && StayOk(s, m)
    ensures Undestroyed(s, m.serial) <==> m.serial < s.born && !m.stay.Gone?
    ensures m.stay.Unborn? <==> m.serial >= s.born
  {
    hide Frames, Queue, Holding, Copies, Joins, Lives, Cpu, Undecided, Held, Targets, Counts, Control;
  }

  lemma OnlyPlace(r: seq<Entry>, serial: nat)
    requires Destroyed(serial) in r
    requires forall i, j :: 0 <= i < j < |r| && r[i] == Destroyed(serial) ==> r[j] != Destroyed(serial)
    ensures ReleasedOnce(r, serial)
  {
    var i :| 0 <= i < |r| && r[i] == Destroyed(serial);
  }

  lemma NoPlace(r: seq<Entry>, serial: nat)
    requires Destroyed(serial) !in r
    ensures !ReleasedOnce(r, serial)
  {
  }

  /** If the reactor returned by draining then every fiber ever born has exited, and its
      record was released if and only if a join or a detach disposed of it. */
  lemma DrainedRunAccounts(sqEntries: nat, cqEntries: nat, es: seq<Event>, serial: nat)
    requires BootRun(sqEntries, cqEntries, es)
    requires After(sqEntries, cqEntries, es).pc == Returned(0, Top)
    requires HasBegun(Seen(sqEntries, cqEntries, es), serial)
    ensures var r := Seen(sqEntries, cqEntries, es);
            && HasEnded(r, serial)
            && (ReleasedOnce(r, serial) <==> Disposed(r, serial))
            && (Undestroyed(After(sqEntries, cqEntries, es), serial) <==> !Disposed(r, serial))
  {
    hide Inv, Exec, LegalRun, Feed, StayOk, HasBegun, HasEnded, Disposed, ReleasedOnce, Undestroyed;
    BootHolds(sqEntries, cqEntries);
    var r := Seen(sqEntries, cqEntries, es);
    EveryRecordAccounted(sqEntries, cqEntries, es, serial);
    DrainConservesRecords(Boot(sqEntries, cqEntries), es, serial);
    MonitorKeepsSerial(Watch(serial, Unborn), r);
    Summarised(serial, r);
  }

  // ---------------------------------------------------------------- spawned handles

  predicate ChildAt(r: seq<Entry>, k: nat, parent: nat) {
    k < |r| && r[k].Born? && r[k].parent == Some(parent)
  }

  /** A SPAWN at `k` is answered at once: with the handle of the child born of it there and
      then if there is one, and with null if there is none. */
  predicate SpawnAnswered(r: seq<Entry>, k: nat)
    requires k < |r| && r[k].Asked?
  {
    && k + 1 < |r| && r[k + 1].Answered? && r[k + 1].request == r[k].request
    && (r[k + 1].value != 0 <==> ChildAt(r, k + 2, r[k].serial))
    && (ChildAt(r, k + 2, r[k].serial) ==> r[k + 2].fiber == r[k + 1].value)
  }

  ghost predicate SpawnsAnswered(r: seq<Entry>) {
    forall k: nat :: k < |r| && r[k].Asked? && r[k].ask.Spawn? ==> SpawnAnswered(r, k)
  }

  lemma SpawnsAppend(a: seq<Entry>, b: seq<Entry>)
    requires SpawnsAnswered(a) && SpawnsAnswered(b)
    requires b != [] && b[0].Born? ==> b[0].parent.None?
    ensures SpawnsAnswered(a + b)
  {
    forall k: nat | k < |a + b| && (a + b)[k].Asked? && (a + b)[k].ask.Spawn?
      ensures SpawnAnswered(a + b, k)
    {
      if k < |a| {
        assert SpawnAnswered(a, k);
      } else {
        assert SpawnAnswered(b, k - |a|);
      }
    }
  }

  lemma StepAnswersSpawn(s: State, e: Event)
    requires Legal(s, e)
    ensures SpawnsAnswered(Emits(s, e))
    ensures Emits(s, e) != [] && Emits(s, e)[0].Born? ==> Emits(s, e)[0].parent.None?
  {
    hide StepKernel, StepTick;
    if e.Kernel? {
      KernelEntries(s, e.event);
    }
  }

  lemma {:induction false} RunAnswersSpawns(s: State, es: seq<Event>)
    requires LegalRun(s, es)
    ensures SpawnsAnswered(Record(s, es))
  {
    hide Legal, Step, Emits, SpawnsAnswered;
    if es == [] {
      assert SpawnsAnswered([]) by {
        NoSpawns();
      }
    } else {
      RunAnswersSpawns(s, es[..|es| - 1]);
      StepAnswersSpawn(Exec(s, es[..|es| - 1]), es[|es| - 1]);
      SpawnsAppend(Record(s, es[..|es| - 1]), Emits(Exec(s, es[..|es| - 1]), es[|es| - 1]));
    }
  }

  lemma NoSpawns()
    ensures SpawnsAnswered([])
  {
  }

  /** A SPAWN that returns gives its asker the handle of the child born of it, and null exactly
      when no child was born. */
  lemma SpawnReturnsItsChild(sqEntries: nat, cqEntries: nat, es: seq<Event>, i: nat, j: nat)
    requires BootRun(sqEntries, cqEntries, es) && i < j < |Seen(sqEntries, cqEntries, es)|
    requires var r := Seen(sqEntries, cqEntries, es);
             && r[i].Asked? && r[i].ask.Spawn?
             && ReturnsFor(r[j], r[i].request)
             && forall k :: i < k < j ==> !ReturnsFor(r[k], r[i].request)
    ensures var r := Seen(sqEntries, cqEntries, es);
            && r[j].serial == r[i].serial
            && (r[j].value != 0 <==> ChildAt(r, i + 2, r[i].serial))
            && (ChildAt(r, i + 2, r[i].serial) ==> i + 2 < j && r[i + 2].fiber == r[j].value)
  {
    hide Inv, Exec, LegalRun, Feed, PhaseOk, RequestNext, SpawnAnswered;
    var r := Seen(sqEntries, cqEntries, es);
    var m := Follow(r[i].request, 0, Idle);
    BootHolds(sqEntries, cqEntries);
    EveryRequestServedOnce(Boot(sqEntries, cqEntries), es, r[i].request);
    NeverBroken(After(sqEntries, cqEntries, es), Feed(RequestNext, m, r));
    RunAnswersSpawns(Boot(sqEntries, cqEntries), es);
    Served(m, r, i, j);
    SpawnBetween(RequestNext(Feed(RequestNext, m, r[..i]), r[i]), r, i, j);
  }

  lemma SpawnBetween(b: RequestMonitor, r: seq<Entry>, i: nat, j: nat)
    requires i < j < |r| && r[i].Asked? && SpawnAnswered(r, i)
    requires b == Follow(r[i].request, r[i].serial, WasAsked(Spawn))
    requires r[j].CallReturned?
    requires forall k :: i < k < j ==> !ReturnsFor(r[k], r[i].request)
    requires Feed(RequestNext, b, r[i + 1..j]).phase == Replied(r[j].value)
    requires Feed(RequestNext, b, r[i + 1..j]).asker == r[j].serial
    ensures r[j].serial == r[i].serial
    ensures r[j].value != 0 <==> ChildAt(r, i + 2, r[i].serial)
    ensures ChildAt(r, i + 2, r[i].serial) ==> i + 2 < j && r[i + 2].fiber == r[j].value
  {
    var mid := r[i + 1..j];
    assert mid[0] == r[i + 1] && mid[1..] == r[i + 2..j];
    var next := RequestNext(b, mid[0]);
    assert next == b.(phase := Replied(r[i + 1].value));
    hide RequestNext;
    RepliedStays(next, mid[1..]);
  }

  // ---------------------------------------------------------------- the reap loop

  function Ticks(es: seq<Event>): nat {
    if es == [] then 0 else Ticks(es[..|es| - 1]) + (if es[|es| - 1].Tick? then 1 else 0)
  }

  /** Control does not leave the reap loop. */
  ghost predicate StaysReaping(s: State, es: seq<Event>)
    requires LegalRun(s, es)
  {
    Exec(s, es).pc.Reaping? && (es == [] || StaysReaping(s, es[..|es| - 1]))
  }

  /** Whatever lands meanwhile, each turn of the reap loop takes one from `parked_count`, so
      the loop turns at most that often. */
  lemma {:induction false} ReapLoopBounded(s: State, es: seq<Event>)
    requires Inv(s) && LegalRun(s, es) && StaysReaping(s, es)
    ensures Exec(s, es).parkedCount + Ticks(es) == s.parkedCount
  {
    hide Inv, Legal, Step;
    if es != [] {
      var before, last := es[..|es| - 1], es[|es| - 1];
      ReapLoopBounded(s, before);
      RunKeeps(s, before);
      ReapTurnTakesOne(Exec(s, before), last);
    }
  }

  lemma ReapTurnTakesOne(s: State, e: Event)
    requires Inv(s) && s.pc.Reaping? && Legal(s, e) && Step(s, e).pc.Reaping?
    ensures Step(s, e).parkedCount + (if e.Tick? then 1 else 0) == s.parkedCount
  {
    hide Frames, Queue, Holding, Copies, Joins, Lives, Cpu, Undecided, Serials, Targets;
  }
}
