/** src/scheduler/scheduler.c and src/fiber/fiber.c as written: an intrusive queue, three
    wrapping counters and records released while the loop runs. Every access goes through
    the maps of live addresses, so verification shows that none is stale. */
module Scheduler {
  import opened Base
  import opened RingModel
  import opened Machine
  import opened Invariant
  import opened InvariantProof
  import opened Ring

  /** `struct __libuc_fiber`; `readyNext` is zero where the source has a null pointer. */
  datatype Record = Record(context: Context, readyNext: Handle, joiner: Option<Ptr>, status: int, life: Life)

  /** `struct __libuc_fiber_request` on the asker's frame. */
  datatype Frame = Frame(ask: Ask, result: int, fiber: Handle)

  type RecordStore = map<Handle, Record>
  type FrameStore = map<Ptr, Frame>

  // ---------------------------------------------------------------- representation

  ghost predicate RecordsMatch(store: RecordStore, fs: Records) {
    && store.Keys == fs.Keys
    && 0 !in fs
    && forall h :: h in fs ==>
         && store[h].context == fs[h].context && store[h].joiner == fs[h].joiner
         && store[h].status == fs[h].status && store[h].life == fs[h].life
  }

  ghost predicate FramesMatch(store: FrameStore, rs: Requests) {
    && store.Keys == rs.Keys
    && forall p :: p in rs ==>
         store[p].ask == rs[p].ask && store[p].result == rs[p].result && store[p].fiber == rs[p].fiber
  }

  /** The links from `head` to `tail` spell out the queue. */
  ghost predicate Linked(store: RecordStore, head: Handle, tail: Handle, queue: seq<Handle>) {
    && (forall i :: 0 <= i < |queue| ==> queue[i] in store && queue[i] != 0)
    && (if queue == [] then head == 0 && tail == 0
        else
          && head == queue[0] && tail == queue[|queue| - 1]
          && store[tail].readyNext == 0
          && forall i :: 0 <= i < |queue| - 1 ==> store[queue[i]].readyNext == queue[i + 1])
  }

  /** Only links differ. */
  ghost predicate SameButLinks(a: RecordStore, b: RecordStore) {
    b.Keys == a.Keys && forall h :: h in a ==> b[h] == a[h].(readyNext := b[h].readyNext)
  }

  lemma MatchAfterLinks(a: RecordStore, b: RecordStore, fs: Records)
    requires RecordsMatch(a, fs) && SameButLinks(a, b)
    ensures RecordsMatch(b, fs)
  {
  }

  /** Rewriting the other fields of a record does not disturb the queue. */
  lemma LinkedRecord(store: RecordStore, head: Handle, tail: Handle, queue: seq<Handle>, h: Handle, r: Record)
    requires Linked(store, head, tail, queue) && h in store && r.readyNext == store[h].readyNext
    ensures Linked(store[h := r], head, tail, queue)
  {
  }

  lemma LinkedAdd(store: RecordStore, head: Handle, tail: Handle, queue: seq<Handle>, c: Handle, r: Record)
    requires Linked(store, head, tail, queue) && c !in store
    ensures Linked(store[c := r], head, tail, queue)
  {
  }

  lemma LinkedRemove(store: RecordStore, head: Handle, tail: Handle, queue: seq<Handle>, h: Handle)
    requires Linked(store, head, tail, queue) && h !in queue
    ensures Linked(store - {h}, head, tail, queue)
  {
  }

  lemma MatchPut(store: RecordStore, fs: Records, h: Handle, r: Record, f: Fiber)
    requires RecordsMatch(store, fs) && h != 0
    requires r.context == f.context && r.joiner == f.joiner && r.status == f.status && r.life == f.life
    ensures RecordsMatch(store[h := r], fs[h := f])
  {
  }

  lemma MatchDrop(store: RecordStore, fs: Records, h: Handle)
    requires RecordsMatch(store, fs)
    ensures RecordsMatch(store - {h}, fs - {h})
  {
  }

  lemma MatchAt(store: RecordStore, fs: Records, h: Handle)
    requires RecordsMatch(store, fs) && h in fs
    ensures h in store && h != 0 && store[h].context == fs[h].context && store[h].joiner == fs[h].joiner
    ensures store[h].status == fs[h].status && store[h].life == fs[h].life
  {
  }

  lemma FramePut(store: FrameStore, rs: Requests, p: Ptr, f: Frame, q: Request)
    requires FramesMatch(store, rs) && f == Frame(q.ask, q.result, q.fiber)
    ensures FramesMatch(store[p := f], rs[p := q])
  {
  }

  lemma FrameDrop(store: FrameStore, rs: Requests, p: Ptr)
    requires FramesMatch(store, rs)
    ensures FramesMatch(store - {p}, rs - {p})
  {
  }

  lemma FrameAt(store: FrameStore, rs: Requests, p: Ptr)
    requires FramesMatch(store, rs) && p in rs
    ensures p in store && store[p] == Frame(rs[p].ask, rs[p].result, rs[p].fiber)
  {
  }

  lemma RunnerNotQueued(s: State)
    requires Inv(s) && s.pc.Running?
    ensures s.pc.fiber in s.fibers && s.fibers[s.pc.fiber].context.OnCpu? && s.pc.fiber !in s.ready
  {
    hide Frames, Queue, Holding, Copies, Joins, Lives, Cpu, Undecided, Serials, Held, Targets;
    CpuAt(s.fibers, s.pc.fiber);
    NotQueued(s, s.pc.fiber);
  }

  class Reactor {
    const ring: RingBuffer
    var records: RecordStore
    var frames: FrameStore
    var readyHead: Handle
    var readyTail: Handle
    var readyCount: nat
    var parkedCount: nat
    var joiningCount: nat
    ghost var model: State

    /** A trap ends the process, so memory is accounted for in all other states. */
    ghost predicate Valid()
      reads this, ring, ring.sqes, ring.cqes
    {
      Inv(model) && (model.pc.Trapped? || Represents(model))
    }

    /** The memory holds this state of the machine. */
    ghost predicate Represents(s: State)
      reads this, ring, ring.sqes, ring.cqes
    {
      && ring.Valid() && ring.View() == s.ring
      && RecordsMatch(records, s.fibers)
      && FramesMatch(frames, s.requests)
      && Linked(records, readyHead, readyTail, s.ready)
      && readyCount == s.readyCount && parkedCount == s.parkedCount && joiningCount == s.joiningCount
    }

    /** `__libuc_scheduler_become`, given the ring the kernel set up. */
    constructor (ring: RingBuffer)
      requires ring.Valid() && ring.View() == RingState(ring.sqEntries, ring.cqEntries, [], [], [])
      requires 0 < ring.sqEntries && ring.cqEntries < TWO32
      ensures Valid() && this.ring == ring && model == Boot(ring.sqEntries, ring.cqEntries)
    {
      this.ring := ring;
      records, frames, readyHead, readyTail := map[], map[], 0, 0;
      readyCount, parkedCount, joiningCount := 0, 0, 0;
      model := Boot(ring.sqEntries, ring.cqEntries);
      BootHolds(ring.sqEntries, ring.cqEntries);
    }

    /** `__libuc_scheduler_enqueue`. */
    method Enqueue(h: Handle, ghost queue: seq<Handle>)
      requires Linked(records, readyHead, readyTail, queue)
      requires h in records && h != 0 && h !in queue && Distinct(queue)
      modifies this`records, this`readyHead, this`readyTail, this`readyCount
      ensures Linked(records, readyHead, readyTail, queue + [h])
      ensures SameButLinks(old(records), records)
      ensures readyCount == Inc32(old(readyCount))
    {
      readyCount := Inc32(readyCount);
      records := records[h := records[h].(readyNext := 0)];
      if readyTail == 0 {
        readyHead := h;
      } else {
        records := records[readyTail := records[readyTail].(readyNext := h)];
      }
      readyTail := h;
    }

    /** The pop at the start of a turn. */
    method Dequeue(ghost queue: seq<Handle>) returns (h: Handle)
      requires Linked(records, readyHead, readyTail, queue) && queue != [] && Distinct(queue)
      modifies this`records, this`readyHead, this`readyTail, this`readyCount
      ensures h == queue[0] && h in records
      ensures Linked(records, readyHead, readyTail, queue[1..])
      ensures SameButLinks(old(records), records)
      ensures readyCount == Dec32(old(readyCount))
    {
      h := readyHead;
      readyHead := records[h].readyNext;
      readyCount := Dec32(readyCount);
      if readyHead == 0 {
        readyTail := 0;
      }
      records := records[h := records[h].(readyNext := 0)];
    }

    // -------------------------------------------------------------- turns

    /** A caller enqueues a fiber it spawned before running the reactor. */
    method Admit(c: Handle)
      requires Valid() && Legal(model, Event.Admit(c))
      modifies this
      ensures Valid() && model == Step(old(model), Event.Admit(c))
    {
      hide Inv, RecordsMatch, FramesMatch, Linked;
      QueueDistinct(model);
      NewcomerNotQueued(model, c);
      Adopt(c, model);
      StepKeeps(model, Event.Admit(c));
      model := Step(model, Event.Admit(c));
    }

    /** Pop the head and switch to it; the frame it was suspended in is gone once its call
        returns. */
    method SwitchIn() returns (h: Handle)
      requires Valid() && model.pc.Sweep? && model.pc.turns > 0
      modifies this
      ensures Valid() && model == Step(old(model), Tick)
      ensures model.pc == Running(h, old(model).pc.turns - 1)
    {
      hide Inv, RecordsMatch, FramesMatch, Linked;
      TurnsLeft(model);
      QueueDistinct(model);
      HeadReady(model);
      ghost var before := records;
      h := Dequeue(model.ready);
      MatchAfterLinks(before, records, model.fibers);
      MatchAt(records, model.fibers, h);
      var r := records[h];
      if r.context.Suspended? {
        FrameDrop(frames, model.requests, r.context.frame);
        frames := frames - {r.context.frame};
      }
      MatchPut(records, model.fibers, h, r.(context := OnCpu), model.fibers[h].(context := OnCpu));
      LinkedRecord(records, readyHead, readyTail, model.ready[1..], h, r.(context := OnCpu));
      records := records[h := r.(context := OnCpu)];
      StepKeeps(model, Tick);
      model := Step(model, Tick);
    }

    /** The switch back: the request is on the asker's frame and the record says where it
        stopped. */
    method SwitchOut(h: Handle, p: Ptr, ask: Ask, result: int, ghost stage: Stage)
      requires Represents(model) && Inv(model) && model.pc.Running? && h == model.pc.fiber
      modifies this`records, this`frames
      ensures h in model.fibers && Represents(Suspend(model, h, p, ask, result, stage))
      ensures records.Keys == old(records.Keys) && h in records && h != 0
    {
      hide Inv, RecordsMatch, FramesMatch, Linked;
      RunnerNotQueued(model);
      MatchAt(records, model.fibers, h);
      MatchKeys(records, model.fibers);
      var r := records[h].(context := Suspended(p));
      MatchPut(records, model.fibers, h, r, model.fibers[h].(context := Suspended(p)));
      LinkedRecord(records, readyHead, readyTail, model.ready, h, r);
      FramePut(frames, model.requests, p, Frame(ask, result, h), Request(ask, result, h, stage));
      records := records[h := r];
      frames := frames[p := Frame(ask, result, h)];
    }

    /** Enqueue within a state that the memory already represents. */
    method Ready(h: Handle, ghost s: State)
      requires Represents(s) && h in s.fibers && h !in s.ready && Distinct(s.ready)
      modifies this`records, this`readyHead, this`readyTail, this`readyCount
      ensures Represents(Machine.Enqueue(s, h))
    {
      hide RecordsMatch, FramesMatch, Linked;
      MatchAt(records, s.fibers, h);
      ghost var before := records;
      Enqueue(h, s.ready);
      MatchAfterLinks(before, records, s.fibers);
    }

    method OnYield(h: Handle, e: Event)
      requires Valid() && Legal(model, e) && e.Ask? && e.ask.Yield? && h == model.pc.fiber
      modifies this
      ensures Valid() && model == Step(old(model), e)
    {
      hide Inv, RecordsMatch, FramesMatch, Linked;
      RunnerNotQueued(model);
      QueueDistinct(model);
      SwitchOut(h, e.request, e.ask, 0, Done);
      Ready(h, Suspend(model, h, e.request, e.ask, 0, Done));
      StepKeeps(model, e);
      model := Step(model, e);
    }

    /** `exit_fiber`, the end of `__libuc_fiber_resume` and the EXIT case of the loop. */
    method OnExit(h: Handle, e: Event) returns (alive: bool)
      requires Valid() && Legal(model, e) && e.Ask? && e.ask.Exit? && h == model.pc.fiber
      modifies this
      ensures Valid() && model == Step(old(model), e) && alive == !model.pc.Trapped?
    {
      hide Inv, RecordsMatch, FramesMatch, Linked;
      RunnerNotQueued(model);
      QueueDistinct(model);
      SlotOfRunner(model);
      MatchAt(records, model.fibers, h);
      StepKeeps(model, e);
      var life := if records[h].life.Live? then Exited else records[h].life;
      var r := records[h].(status := e.ask.status, context := Poisoned, life := life);
      ghost var f := model.fibers[h];
      MatchPut(records, model.fibers, h, r, f.(status := r.status, context := Poisoned, life := life));
      LinkedRecord(records, readyHead, readyTail, model.ready, h, r);
      assert model.fibers[h := f.(status := r.status, context := Poisoned, life := life)] - {h} == model.fibers - {h};
      records := records[h := r];
      if records[h].life.Detached? {
        alive := e.unmapped;
        if e.unmapped {
          Release(h, model.fibers[h := f.(status := r.status, context := Poisoned, life := life)]);
        }
      } else if records[h].joiner.Some? {
        var q := records[h].joiner.value;
        FrameAt(frames, model.requests, q);
        joiningCount := Dec32(joiningCount);
        FramePut(frames, model.requests, q, frames[q].(result := records[h].status),
                 model.requests[q].(result := e.ask.status, stage := Done));
        frames := frames[q := frames[q].(result := records[h].status)];
        alive := e.unmapped;
        if e.unmapped {
          Release(h, model.fibers[h := f.(status := r.status, context := Poisoned, life := life)]);
          var g := frames[q].fiber;
          Ready(g, Answered(model, h, q, e.ask.status));
        }
      } else {
        alive := true;
      }
      model := Step(model, e);
    }

    /** `__libuc_fiber_destroy`: the mapping with the record in it goes. */
    method Release(t: Handle, ghost fs: Records)
      requires RecordsMatch(records, fs) && Linked(records, readyHead, readyTail, model.ready) && t !in model.ready
      modifies this`records
      ensures RecordsMatch(records, fs - {t}) && Linked(records, readyHead, readyTail, model.ready)
    {
      hide RecordsMatch, Linked;
      MatchDrop(records, fs, t);
      LinkedRemove(records, readyHead, readyTail, model.ready, t);
      records := records - {t};
    }

    method OnAwait(h: Handle, e: Event) returns (alive: bool)
      requires Valid() && Legal(model, e) && e.Ask? && e.ask.Await? && h == model.pc.fiber
      modifies this
      ensures Valid() && model == Step(old(model), e) && alive == !model.pc.Trapped?
      ensures alive ==> model.pc == Appending(e.request, old(model).pc.turns, false)
    {
      hide Inv, RecordsMatch, FramesMatch, Linked;
      RunnerNotQueued(model);
      StepKeeps(model, e);
      if e.ask.sqe.flags != 0 || parkedCount == ring.cqEntries {
        alive := false;
      } else {
        SwitchOut(h, e.request, e.ask, 0, Pending);
        alive := true;
      }
      model := Step(model, e);
    }

    /** A zeroed record comes to be and is enqueued. */
    method Adopt(c: Handle, ghost s: State)
      requires Represents(s) && c != 0 && c !in s.fibers && c !in s.ready && Distinct(s.ready)
      modifies this`records, this`readyHead, this`readyTail, this`readyCount
      ensures Represents(Machine.Enqueue(Newborn(s, c), c))
    {
      hide RecordsMatch, FramesMatch, Linked;
      MatchKeys(records, s.fibers);
      var r := Record(Fresh, 0, None, 0, Live);
      LinkedAdd(records, readyHead, readyTail, s.ready, c, r);
      MatchPut(records, s.fibers, c, r, Fiber(s.born, Fresh, None, 0, Live));
      records := records[c := r];
      Ready(c, Newborn(s, c));
    }

    /** Parent first, then child: that order is what lets the parent store the handle. */
    method OnSpawn(h: Handle, e: Event)
      requires Valid() && Legal(model, e) && e.Ask? && e.ask.Spawn? && h == model.pc.fiber
      modifies this
      ensures Valid() && model == Step(old(model), e)
    {
      hide Inv, RecordsMatch, FramesMatch, Linked;
      RunnerNotQueued(model);
      QueueDistinct(model);
      StepKeeps(model, e);
      var result := if e.spawned.Some? then e.spawned.value else 0;
      SwitchOut(h, e.request, e.ask, result, Done);
      ghost var asked := Suspend(model, h, e.request, e.ask, result, Done);
      Ready(h, asked);
      if e.spawned.Some? {
        NewcomerNotQueued(model, e.spawned.value);
        Adopt(e.spawned.value, Machine.Enqueue(asked, h));
      }
      model := Step(model, e);
    }

    method OnJoin(h: Handle, e: Event) returns (alive: bool)
      requires Valid() && Legal(model, e) && e.Ask? && e.ask.Join? && h == model.pc.fiber
      modifies this
      ensures Valid() && model == Step(old(model), e) && alive == !model.pc.Trapped?
    {
      hide Inv, RecordsMatch, FramesMatch, Linked;
      RunnerNotQueued(model);
      QueueDistinct(model);
      StepKeeps(model, e);
      var t := e.ask.target;
      MatchAt(records, model.fibers, t);
      alive := true;
      if t == h || records[t].joiner.Some? || records[t].life.Detached? {
        alive := false;
      } else if records[t].life.Exited? {
        alive := e.unmapped;
        if e.unmapped {
          ExitedNotQueued(model, t);
          var status := records[t].status;
          SwitchOut(h, e.request, e.ask, status, Done);
          ghost var taken := Suspend(model, h, e.request, e.ask, status, Done);
          Release(t, taken.fibers);
          Ready(h, taken.(fibers := taken.fibers - {t}));
        }
      } else {
        SwitchOut(h, e.request, e.ask, 0, Pending);
        ghost var asked := Suspend(model, h, e.request, e.ask, 0, Pending);
        MatchAt(records, asked.fibers, t);
        var r := records[t].(joiner := Some(e.request));
        MatchPut(records, asked.fibers, t, r, asked.fibers[t].(joiner := Some(e.request)));
        LinkedRecord(records, readyHead, readyTail, asked.ready, t, r);
        records := records[t := r];
        joiningCount := Inc32(joiningCount);
      }
      model := Step(model, e);
    }

    method OnDetach(h: Handle, e: Event) returns (alive: bool)
      requires Valid() && Legal(model, e) && e.Ask? && e.ask.Detach? && h == model.pc.fiber
      modifies this
      ensures Valid() && model == Step(old(model), e) && alive == !model.pc.Trapped?
    {
      hide Inv, RecordsMatch, FramesMatch, Linked;
      RunnerNotQueued(model);
      QueueDistinct(model);
      StepKeeps(model, e);
      var t := e.ask.target;
      MatchAt(records, model.fibers, t);
      alive := true;
      if records[t].joiner.Some? || records[t].life.Detached? {
        alive := false;
      } else if records[t].life.Exited? {
        alive := e.unmapped;
        if e.unmapped {
          ExitedNotQueued(model, t);
          SwitchOut(h, e.request, e.ask, 0, Done);
          ghost var asked := Suspend(model, h, e.request, e.ask, 0, Done);
          Release(t, asked.fibers);
          Ready(h, asked.(fibers := asked.fibers - {t}));
        }
      } else {
        SwitchOut(h, e.request, e.ask, 0, Done);
        ghost var asked := Suspend(model, h, e.request, e.ask, 0, Done);
        MatchAt(records, asked.fibers, t);
        var r := records[t].(life := Detached);
        MatchPut(records, asked.fibers, t, r, asked.fibers[t].(life := Detached));
        LinkedRecord(records, readyHead, readyTail, asked.ready, t, r);
        records := records[t := r];
        Ready(h, asked.(fibers := asked.fibers[t := asked.fibers[t].(life := Detached)]));
      }
      model := Step(model, e);
    }

    /** One attempt of `park` to put the submission in the batch. */
    method Append(p: Ptr, retry: bool) returns (done: bool)
      requires Valid() && model.pc.Appending? && p == model.pc.request && retry == model.pc.retry
      modifies this, ring, ring.sqes
      ensures Valid() && model == Step(old(model), Tick)
      ensures done ==> model.pc == Sweep(old(model).pc.turns)
      ensures !done ==> !retry && model.pc == Flushing(p, old(model).pc.turns)
    {
      hide Inv, RecordsMatch, FramesMatch, Linked;
      StepKeeps(model, Tick);
      ParkedAsk(model);
      if Step(model, Tick).pc.Trapped? {
        NoFull(Step(model, Tick));
      }
      FrameAt(frames, model.requests, p);
      var slot := ring.AppendSqe();
      if slot.Some? {
        var sqe := frames[p].ask.sqe.(userData := p);
        ring.WriteSlot(slot.value, sqe);
        FramePut(frames, model.requests, p, frames[p], model.requests[p].(stage := Parked(sqe)));
        assert frames[p := frames[p]] == frames;
        assert (model.ring.batch + [Sqe(0, 0, 0)])[|model.ring.batch| := sqe] == model.ring.batch + [sqe];
        parkedCount := Inc32(parkedCount);
      }
      done := slot.Some?;
      model := Step(model, Tick);
    }

    /** One turn of the reap loop; the answer goes through the request the completion
        carries, and the request says whom to wake. */
    method ReapOne() returns (more: bool, alive: bool)
      requires Valid() && model.pc.Reaping?
      modifies this, ring
      ensures Valid() && model == Step(old(model), Tick) && alive == !model.pc.Trapped?
      ensures more ==> model.pc == Reaping(0)
      ensures alive && !more ==> model.pc.Top?
    {
      hide Inv, RecordsMatch, FramesMatch, Linked;
      StepKeeps(model, Tick);
      var completion := ring.Reap();
      more, alive := completion.Some?, true;
      if completion.Some? {
        if completion.value.streams {
          more, alive := false, false;
        } else {
          HeadParked(model);
          QueueDistinct(model);
          var p := completion.value.userData;
          FrameAt(frames, model.requests, p);
          FramePut(frames, model.requests, p, frames[p].(result := completion.value.res),
                   model.requests[p].(result := completion.value.res, stage := Done));
          frames := frames[p := frames[p].(result := completion.value.res)];
          var woken := frames[p].fiber;
          parkedCount := Dec32(parkedCount);
          Ready(woken, Reaped(model));
        }
      }
      model := Step(model, Tick);
    }

    // -------------------------------------------------------------- the loop

    /** A completion lands; the reactor takes no step. */
    method Post(e: Event)
      requires Valid() && Legal(model, e) && IsPost(e)
      modifies this`model, ring, ring.cqes
      ensures Valid() && model == Step(old(model), e) && model == old(model).(ring := model.ring)
    {
      hide Inv, RecordsMatch, FramesMatch, Linked;
      PostRoom(model, e.event);
      StepKeeps(model, e);
      ring.KernelPost(e.event.index, e.event.res, e.event.streams);
      model := Step(model, e);
    }

    /** Completions land whenever the kernel likes. */
    method Interfere(script: seq<Event>, i: nat, ghost s0: State) returns (j: nat)
      requires Valid() && At(s0, script, i, model) && !Halted(model.pc)
      modifies this`model, ring, ring.cqes
      ensures Valid() && At(s0, script, j, model) && i <= j <= |script|
      ensures model == old(model).(ring := model.ring)
      ensures j < |script| ==> Legal(model, script[j]) && !IsPost(script[j])
      ensures j < |script| ==> At(s0, script, j + 1, Step(model, script[j]))
    {
      hide Inv, RecordsMatch, FramesMatch, Linked, At, Valid, Represents, Step, Legal, Exec, LegalRun;
      AtRange(s0, script, i, model);
      j := i;
      while j < |script| && IsPost(script[j])
        invariant i <= j <= |script| && Valid() && At(s0, script, j, model)
        invariant model == old(model).(ring := model.ring)
      {
        Advance(s0, script, j, model);
        Post(script[j]);
        j := j + 1;
      }
      if j < |script| {
        Advance(s0, script, j, model);
      }
    }

    /** The switch over the request kinds. */
    method Dispatch(h: Handle, e: Event) returns (stop: Option<Verdict>)
      requires Valid() && Legal(model, e) && e.Ask? && h == model.pc.fiber
      modifies this
      ensures Valid() && model == Step(old(model), e)
      ensures stop.Some? ==> Halted(model.pc) && stop.value == VerdictOf(model.pc)
      ensures stop.None? && !e.ask.Await? ==> model.pc == Sweep(old(model).pc.turns)
      ensures stop.None? && e.ask.Await? ==> model.pc == Appending(e.request, old(model).pc.turns, false)
    {
      hide Inv, RecordsMatch, FramesMatch, Linked;
      RunnerNotQueued(model);
      AskPc(model, e);
      var alive := true;
      match e.ask {
      case Yield => OnYield(h, e);
      case Exit(_) => alive := OnExit(h, e);
      case Await(_) => alive := OnAwait(h, e);
      case Spawn => OnSpawn(h, e);
      case Join(_) => alive := OnJoin(h, e);
      case Detach(_) => alive := OnDetach(h, e);
      case ProcessExit(code) =>
        StepKeeps(model, e);
        model := Step(model, e);
        return Some(ExitCode(code));
      }
      stop := if alive then None else Some(Aborted);
    }

    /** `__libuc_ring_submit` from within the loop or from `park`. */
    method SubmitBatch(script: seq<Event>, i: nat, minComplete: nat, ghost s0: State)
      returns (j: nat, stop: Option<Verdict>)
      requires Valid() && At(s0, script, i, model)
      requires model.pc == Submitting(minComplete) || (model.pc.Flushing? && minComplete == 0)
      modifies this`model, ring, ring.sqes, ring.cqes
      ensures Valid() && At(s0, script, j, model) && i <= j
      ensures stop.None? ==> i < j && model.pc == AfterSubmit(old(model).pc)
      ensures stop.None? ==> model == old(model).(ring := model.ring, pc := model.pc)
      ensures StopsAt(stop, model.pc, j, script)
    {
      hide Inv, RecordsMatch, FramesMatch, Linked, At, Step, Legal, Exec, LegalRun, StillWaiting;
      hide KernelExec, KernelLegalRun, KernelStep, Held, Taken, Calls, Stretched, LeadingKernel;
      AtRange(s0, script, i, model);
      var ks := LeadingKernel(script[i..]);
      Stretch(s0, script, i, model, |ks|);
      assert ks[..|ks|] == ks;
      StretchVerdict(model, ks, Exec(s0, script[..i + |ks|]));
      HeldRoom(model);
      var outcome, used, _ := ring.Submit(ks, minComplete);
      Stretch(s0, script, i, model, used);
      j := i + used;
      ghost var next := Exec(s0, script[..j]);
      StretchVerdict(model, ks[..used], next);
      if outcome.Complete? {
        stop := None;
      } else if outcome.Errno? {
        stop := Some(Aborted);
      } else {
        stop := Some(StillRunning);
        EndOfStretch(s0, script, i, next);
      }
      ReachedKeeps(model, s0, script, i, j);
      model := next;
    }

    /** `park` after its checks: append, or flush and append again. */
    method Park(script: seq<Event>, i: nat, p: Ptr, turns: nat, ghost s0: State) returns (j: nat, stop: Option<Verdict>)
      requires Valid() && At(s0, script, i, model) && model.pc == Appending(p, turns, false)
      modifies this, ring, ring.sqes, ring.cqes
      ensures Valid() && At(s0, script, j, model) && i <= j
      ensures stop.None? ==> model.pc == Sweep(turns)
      ensures StopsAt(stop, model.pc, j, script)
    {
      hide Inv, RecordsMatch, FramesMatch, Linked, At, Valid, Represents, Step, Legal, Exec, LegalRun;
      stop := Some(StillRunning);
      AtRange(s0, script, i, model);
      j := Interfere(script, i, s0);
      AtRange(s0, script, j, model);
      if j == |script| {
        return;
      }
      NextIsTick(model, script[j]);
      var done := Append(p, false);
      j := j + 1;
      if !done {
        j, stop := SubmitBatch(script, j, 0, s0);
        AtRange(s0, script, j, model);
        if stop.Some? {
          return;
        }
        stop := Some(StillRunning);
        j := Interfere(script, j, s0);
        AtRange(s0, script, j, model);
        if j == |script| {
          return;
        }
        NextIsTick(model, script[j]);
        done := Append(p, true);
        j := j + 1;
      }
      stop := None;
    }

    /** The body of the sweep: pop, resume, answer. */
    method Turn(script: seq<Event>, i: nat, turns: nat, ghost s0: State) returns (j: nat, stop: Option<Verdict>)
      requires Valid() && At(s0, script, i, model) && turns > 0 && model.pc == Sweep(turns)
      modifies this, ring, ring.sqes, ring.cqes
      ensures Valid() && At(s0, script, j, model) && i <= j
      ensures stop.None? ==> model.pc == Sweep(turns - 1)
      ensures StopsAt(stop, model.pc, j, script)
    {
      hide Inv, RecordsMatch, FramesMatch, Linked, At, Valid, Represents, Step, Legal, Exec, LegalRun;
      stop := Some(StillRunning);
      j := Interfere(script, i, s0);
      AtRange(s0, script, j, model);
      if j == |script| {
        return;
      }
      NextIsTick(model, script[j]);
      var h := SwitchIn();
      j := Interfere(script, j + 1, s0);
      AtRange(s0, script, j, model);
      if j == |script| {
        return;
      }
      NextIsAsk(model, script[j]);
      var e := script[j];
      stop := Dispatch(h, e);
      j := j + 1;
      if stop.None? && e.ask.Await? {
        j, stop := Park(script, j, e.request, turns - 1, s0);
      }
    }

    /** Completions in, until the queue is seen empty. */
    method ReapAll(script: seq<Event>, i: nat, ghost s0: State) returns (j: nat, stop: Option<Verdict>)
      requires Valid() && At(s0, script, i, model) && model.pc.Reaping?
      modifies this, ring, ring.cqes
      ensures Valid() && At(s0, script, j, model) && i <= j
      ensures stop.None? ==> model.pc.Top?
      ensures StopsAt(stop, model.pc, j, script)
    {
      hide Inv, RecordsMatch, FramesMatch, Linked, At, Valid, Represents, Step, Legal, Exec, LegalRun;
      AtRange(s0, script, i, model);
      j := i;
      var more := true;
      while more
        invariant i <= j <= |script| && Valid() && At(s0, script, j, model)
        invariant if more then model.pc.Reaping? else model.pc.Top?
        decreases |script| - j, more
      {
        j := Interfere(script, j, s0);
        AtRange(s0, script, j, model);
        if j == |script| {
          return j, Some(StillRunning);
        }
        NextIsTick(model, script[j]);
        var alive;
        more, alive := ReapOne();
        j := j + 1;
        if !alive {
          return j, Some(Aborted);
        }
      }
      stop := None;
    }

    /** `__libuc_scheduler_run` against any history of fibers and kernel: the loop does
        exactly what the machine does on that history, up to its end or to the return. */
    method Run(script: seq<Event>) returns (verdict: Verdict, used: nat)
      requires Valid() && model.pc.Top? && LegalRun(model, script)
      requires forall e :: e in script ==> !e.Admit?
      modifies this, ring, ring.sqes, ring.cqes
      ensures Valid()
      ensures used <= |script| && LegalRun(old(model), script[..used])
      ensures model == Exec(old(model), script[..used])
      ensures verdict == VerdictOf(model.pc)
      ensures verdict.StillRunning? ==> used == |script|
    {
      hide Inv, RecordsMatch, FramesMatch, Linked, At, Valid, Represents, Step, Legal, Exec, LegalRun;
      ghost var s0 := model;
      var i := 0;
      AtStart(s0, script);
      while true
        invariant i <= |script| && Valid() && At(s0, script, i, model) && model.pc.Top?
        decreases |script| - i
      {
        ghost var start := i;
        i := Interfere(script, i, s0);
        AtRange(s0, script, i, model);
        if i == |script| {
          return StillRunning, i;
        }
        assert script[i] in script;
        NextIsTick(model, script[i]);
        i := i + 1;
        var drained := LoopTest();
        AtRange(s0, script, i, model);
        if drained.Some? {
          return drained.value, i;
        }
        var turns := readyCount;
        while turns != 0
          invariant i <= |script| && Valid() && At(s0, script, i, model) && model.pc == Sweep(turns)
          invariant start < i
          decreases turns
        {
          var stop;
          i, stop := Turn(script, i, turns, s0);
          AtRange(s0, script, i, model);
          if stop.Some? {
            return stop.value, i;
          }
          turns := turns - 1;
        }
        var stop;
        i, stop := AfterSweep(script, i, s0);
        AtRange(s0, script, i, model);
        if stop.Some? {
          return stop.value, i;
        }
      }
    }

    /** The test of the outer loop and what follows it when it fails. */
    method LoopTest() returns (drained: Option<Verdict>)
      requires Valid() && model.pc.Top?
      modifies this`model
      ensures Valid() && model == Step(old(model), Tick)
      ensures drained.None? ==> model.pc == Sweep(readyCount)
      ensures drained.Some? ==> drained.value == VerdictOf(model.pc) && !drained.value.StillRunning?
    {
      hide Inv, RecordsMatch, FramesMatch, Linked;
      StepKeeps(model, Tick);
      if (parkedCount + readyCount) % TWO32 != 0 {
        drained := None;
      } else {
        drained := Some(if joiningCount != 0 then Aborted else ExitCode(0));
      }
      model := Step(model, Tick);
    }

    /** Whether the submit can be skipped. */
    method SweepTest() returns (idle: bool)
      requires Valid() && model.pc == Sweep(0)
      modifies this`model
      ensures Valid() && model == Step(old(model), Tick)
      ensures model.pc == if idle then Top else Submitting(if readyCount == 0 then 1 else 0)
    {
      hide Inv, RecordsMatch, FramesMatch, Linked;
      StepKeeps(model, Tick);
      idle := parkedCount == 0;
      model := Step(model, Tick);
    }

    /** Submit and reap, unless nothing is parked. */
    method AfterSweep(script: seq<Event>, i: nat, ghost s0: State) returns (j: nat, stop: Option<Verdict>)
      requires Valid() && At(s0, script, i, model) && model.pc == Sweep(0)
      modifies this, ring, ring.sqes, ring.cqes
      ensures Valid() && At(s0, script, j, model) && i <= j
      ensures stop.None? ==> model.pc.Top?
      ensures StopsAt(stop, model.pc, j, script)
    {
      hide Inv, RecordsMatch, FramesMatch, Linked, At, Valid, Represents, Step, Legal, Exec, LegalRun;
      stop := Some(StillRunning);
      j := Interfere(script, i, s0);
      AtRange(s0, script, j, model);
      if j == |script| {
        return;
      }
      NextIsTick(model, script[j]);
      j := j + 1;
      var idle := SweepTest();
      if idle {
        return j, None;
      }
      var minComplete := if readyCount == 0 then 1 else 0;
      j, stop := SubmitBatch(script, j, minComplete, s0);
      if stop.None? {
        j, stop := ReapAll(script, j, s0);
      }
    }
  }

  predicate IsPost(e: Event) { e.Kernel? && e.event.Post? }

  lemma NextIsTick(m: State, e: Event)
    requires Legal(m, e) && !IsPost(e) && (m.pc.Top? ==> !e.Admit?)
    requires m.pc.Top? || m.pc.Sweep? || m.pc.Appending? || m.pc.Reaping?
    ensures e == Tick
  {
  }

  lemma NextIsAsk(m: State, e: Event)
    requires Legal(m, e) && !IsPost(e) && m.pc.Running?
    ensures e.Ask?
  {
  }

  datatype Verdict = ExitCode(status: int) | Aborted | StillRunning

  function VerdictOf(pc: Pc): Verdict {
    match pc
    case Returned(status, _) => ExitCode(status)
    case Trapped(_, _) => Aborted
    case _ => StillRunning
  }

  /** A stop carries the verdict of the control point, or the history ran out. */
  ghost predicate StopsAt(stop: Option<Verdict>, pc: Pc, j: nat, script: seq<Event>) {
    stop.Some? ==> stop.value == VerdictOf(pc) && (stop.value.StillRunning? ==> j == |script|)
  }

  // ---------------------------------------------------------------- positions in a history

  /** `m` is where the machine is after `i` events. */
  ghost predicate At(s0: State, script: seq<Event>, i: nat, m: State) {
    && i <= |script| && LegalRun(s0, script) && LegalRun(s0, script[..i])
    && m == Exec(s0, script[..i])
  }

  lemma AtRange(s0: State, script: seq<Event>, i: nat, m: State)
    requires At(s0, script, i, m)
    ensures i <= |script| && LegalRun(s0, script[..i]) && m == Exec(s0, script[..i])
  {
  }

  lemma AtStart(s0: State, script: seq<Event>)
    requires LegalRun(s0, script)
    ensures At(s0, script, 0, s0)
  {
    assert script[..0] == [];
  }

  lemma Advance(s0: State, script: seq<Event>, i: nat, m: State)
    requires At(s0, script, i, m) && i < |script|
    ensures Legal(m, script[i]) && At(s0, script, i + 1, Step(m, script[i]))
  {
    hide Legal, Step;
    LegalRunPrefix(s0, script, i + 1);
    assert script[..i + 1][..i] == script[..i];
  }

  /** The kernel's events at the front of a history. */
  function LeadingKernel(es: seq<Event>): (ks: seq<KernelEvent>)
    ensures |ks| <= |es|
    ensures forall i :: 0 <= i < |ks| ==> es[i] == Kernel(ks[i])
    ensures |ks| < |es| ==> !es[|ks|].Kernel?
  {
    if es == [] || !es[0].Kernel? then [] else [es[0].event] + LeadingKernel(es[1..])
  }

  function AfterSubmit(pc: Pc): Pc {
    match pc
    case Submitting(min) => Reaping(min)
    case Flushing(p, turns) => Appending(p, turns, true)
    case _ => pc
  }

  /** Over a stretch of kernel events only the ring moves, and control stays in the submit
      until the event that ends it. */
  ghost predicate Stretched(m: State, ks: seq<KernelEvent>, m': State) {
    && KernelLegalRun(m.ring, ks)
    && m' == m.(ring := KernelExec(m.ring, ks), pc := m'.pc)
    && (StillWaiting(m.ring, ks) ==> m'.pc == m.pc)
    && (EndsSubmit(m.ring, ks) ==>
          if ks[|ks| - 1].result.Failed? then m'.pc == Trapped(SubmitFailed, m.pc) else m'.pc == AfterSubmit(m.pc))
  }

  lemma {:induction false} Stretch(s0: State, script: seq<Event>, i: nat, m: State, n: nat)
    requires At(s0, script, i, m) && (m.pc.Submitting? || m.pc.Flushing?)
    requires n <= |LeadingKernel(script[i..])|
    ensures i + n <= |script| && LegalRun(s0, script[..i + n])
    ensures At(s0, script, i + n, Exec(s0, script[..i + n]))
    ensures Stretched(m, LeadingKernel(script[i..])[..n], Exec(s0, script[..i + n]))
  {
    hide Legal, Step, At, Exec, LegalRun, Stretched, LeadingKernel;
    AtRange(s0, script, i, m);
    var all := LeadingKernel(script[i..]);
    if n == 0 {
      assert all[..0] == [];
      assert script[..i + 0] == script[..i];
      StretchNone(m);
    } else {
      Stretch(s0, script, i, m, n - 1);
      var before := Exec(s0, script[..i + n - 1]);
      Advance(s0, script, i + n - 1, before);
      AtRange(s0, script, i + n, Step(before, script[i + n - 1]));
      assert script[i..][n - 1] == script[i + n - 1];
      assert all[..n][..n - 1] == all[..n - 1];
      StretchStep(m, before, all[..n]);
    }
  }

  lemma StretchNone(m: State)
    ensures Stretched(m, [], m)
  {
  }

  lemma StretchStep(m: State, before: State, ks: seq<KernelEvent>)
    requires m.pc.Submitting? || m.pc.Flushing?
    requires ks != [] && Stretched(m, ks[..|ks| - 1], before)
    requires Legal(before, Kernel(ks[|ks| - 1]))
    ensures Stretched(m, ks, Step(before, Kernel(ks[|ks| - 1])))
  {
    hide KernelStep;
  }

  /** The verdict of a submit that used this much of a stretch. */
  lemma StretchVerdict(m: State, ks: seq<KernelEvent>, m': State)
    requires (m.pc.Submitting? || m.pc.Flushing?) && Stretched(m, ks, m')
    ensures KernelLegalRun(m.ring, ks) && m' == m.(ring := KernelExec(m.ring, ks), pc := m'.pc)
    ensures StillWaiting(m.ring, ks) ==> m'.pc == m.pc
    ensures EndsSubmit(m.ring, ks) && ks[|ks| - 1].result.Failed? ==> m'.pc == Trapped(SubmitFailed, m.pc)
    ensures EndsSubmit(m.ring, ks) && !ks[|ks| - 1].result.Failed? ==> m'.pc == AfterSubmit(m.pc)
  {
  }

  lemma EndOfStretch(s0: State, script: seq<Event>, i: nat, m: State)
    requires i <= |script| && At(s0, script, i + |LeadingKernel(script[i..])|, m)
    requires m.pc.Submitting? || m.pc.Flushing?
    ensures i + |LeadingKernel(script[i..])| == |script|
  {
    var ks := LeadingKernel(script[i..]);
    var j := i + |ks|;
    assert j < |script| ==> script[i..][|ks|] == script[j];
    if j < |script| {
      Advance(s0, script, j, m);
    }
  }

  lemma {:induction false} ReachedKeeps(m: State, s0: State, script: seq<Event>, i: nat, j: nat)
    requires At(s0, script, i, m) && Inv(m) && i <= j <= |script| && LegalRun(s0, script[..j])
    ensures Inv(Exec(s0, script[..j]))
    decreases j
  {
    hide Inv, Legal, Step;
    if i < j {
      LegalRunPrefix(s0, script, j - 1);
      ReachedKeeps(m, s0, script, i, j - 1);
      Advance(s0, script, j - 1, Exec(s0, script[..j - 1]));
      StepKeeps(Exec(s0, script[..j - 1]), script[j - 1]);
      assert script[..j][..j - 1] == script[..j - 1];
    }
  }

  lemma HeldRoom(s: State)
    requires Inv(s)
    ensures |Held(s.ring)| <= s.ring.cqEntries
  {
    hide Frames, Queue, Holding, Copies, Joins, Lives, Cpu, Undecided, Serials, Held, Targets;
  }

  /** The completion queue always has room for what is in flight. */
  lemma PostRoom(s: State, k: KernelEvent)
    requires Inv(s) && k.Post? && KernelLegal(s.ring, k)
    ensures |s.ring.cq| < s.ring.cqEntries
  {
    hide Frames, Queue, Holding, Copies, Joins, Lives, Cpu, Undecided, Serials, Held, Targets;
    RoomToPost(s.ring, k.index);
  }

  lemma AskPc(s: State, e: Event)
    requires Legal(s, e) && e.Ask? && s.pc.fiber in s.fibers
    ensures var s' := Step(s, e);
            Halted(s'.pc) || s'.pc == if e.ask.Await? then Appending(e.request, s.pc.turns, false) else Sweep(s.pc.turns)
    ensures e.ask.ProcessExit? <==> Step(s, e).pc.Returned?
  {
  }

  ghost function Reaped(s: State): State
    requires s.ring.cq != [] && s.ring.cq[0].userData in s.requests
  {
    var c := s.ring.cq[0];
    s.(ring := s.ring.(cq := s.ring.cq[1..]),
       requests := s.requests[c.userData := s.requests[c.userData].(result := c.res, stage := Done)],
       parkedCount := Dec32(s.parkedCount))
  }

  lemma HeadParked(s: State)
    requires Inv(s) && s.ring.cq != []
    ensures var p := s.ring.cq[0].userData;
            p in s.requests && s.requests[p].fiber in s.fibers && s.requests[p].fiber !in s.ready
  {
    hide Frames, Queue, Holding, Copies, Joins, Lives, Cpu, Undecided, Serials, Held, Targets;
    CompletionAt(s);
    NotQueued(s, s.requests[s.ring.cq[0].userData].fiber);
  }

  lemma ExitedNotQueued(s: State, t: Handle)
    requires Inv(s) && t in s.fibers && s.fibers[t].life.Exited?
    ensures t !in s.ready && s.fibers[t].context.Poisoned?
  {
    hide Frames, Queue, Holding, Copies, Joins, Lives, Cpu, Undecided, Serials, Held, Targets;
    LifeAt(s.fibers, t);
    NotQueued(s, t);
  }

  lemma ParkedAsk(s: State)
    requires Inv(s) && s.pc.Appending?
    ensures s.pc.request in s.requests && s.requests[s.pc.request].ask.Await?
  {
    hide Frames, Queue, Holding, Copies, Joins, Lives, Cpu, Undecided, Serials, Held, Targets;
    ParkerAt(s.requests, s.pc.request);
  }

  /** Dereferences never fault and the second append of `park` always finds room. */
  lemma NoFull(s: State)
    requires Inv(s) && s.pc.Trapped?
    ensures s.pc.reason != Fault && s.pc.reason != SubmissionFull
  {
    hide Frames, Queue, Holding, Copies, Joins, Lives, Cpu, Undecided, Serials, Held, Targets;
  }

  /** An exit whose join has been answered, before the joiner is enqueued. */
  ghost function Answered(s: State, h: Handle, q: Ptr, status: int): State
    requires q in s.requests
  {
    s.(joiningCount := Dec32(s.joiningCount),
       requests := s.requests[q := s.requests[q].(result := status, stage := Done)],
       fibers := s.fibers - {h})
  }

  lemma MatchKeys(store: RecordStore, fs: Records)
    requires RecordsMatch(store, fs)
    ensures store.Keys == fs.Keys && 0 !in fs
  {
  }

  lemma NewcomerNotQueued(s: State, c: Handle)
    requires Inv(s) && c !in s.fibers
    ensures c !in s.ready
  {
    hide Frames, Holding, Copies, Joins, Lives, Cpu, Undecided, Serials, Counts, Control;
  }

  lemma TurnsLeft(s: State)
    requires Inv(s)
    ensures Turns(s.pc) <= |s.ready|
  {
    hide Frames, Queue, Holding, Copies, Joins, Lives, Cpu, Undecided, Serials, Held, Targets;
  }

  lemma HeadReady(s: State)
    requires Inv(s) && s.ready != []
    ensures var h := s.ready[0];
            && h in s.fibers && !s.fibers[h].context.OnCpu? && !s.fibers[h].context.Poisoned?
            && (s.fibers[h].context.Suspended? ==> s.fibers[h].context.frame in s.requests)
  {
    hide Frames, Queue, Holding, Copies, Joins, Lives, Cpu, Undecided, Serials, Held, Targets;
    ReadyFrame(s.fibers, s.requests, s.ready, s.ready[0]);
  }
}
