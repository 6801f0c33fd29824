/** The invariant holds in every reachable state. Each lemma of the first part treats one
    conjunct under one kind of update; the second part assembles them step by step. */
module InvariantProof {
  import opened Base
  import opened RingModel
  import opened Machine
  import opened Invariant
  import opened Ownership

  // ---------------------------------------------------------------- frames

  lemma FramesDispatch(fs: Records, rs: Requests, h: Handle, rs': Requests)
    requires Frames(fs, rs) && h in fs
    requires rs' == if fs[h].context.Suspended? then rs - {fs[h].context.frame} else rs
    ensures Frames(fs[h := fs[h].(context := OnCpu)], rs')
  {
  }

  lemma FramesSuspend(fs: Records, rs: Requests, h: Handle, p: Ptr, q: Request)
    requires Frames(fs, rs) && h in fs && fs[h].context.OnCpu? && p !in rs && q.fiber == h
    ensures Frames(fs[h := fs[h].(context := Suspended(p))], rs[p := q])
  {
  }

  lemma FramesAnswer(fs: Records, rs: Requests, p: Ptr, q: Request)
    requires Frames(fs, rs) && p in rs && q.fiber == rs[p].fiber
    ensures Frames(fs, rs[p := q])
  {
  }

  lemma FramesRecord(fs: Records, rs: Requests, h: Handle, f: Fiber)
    requires Frames(fs, rs)
    requires h in fs ==> f.context == fs[h].context || (!f.context.Suspended? && !fs[h].context.Suspended?)
    requires h !in fs ==> !f.context.Suspended?
    ensures Frames(fs[h := f], rs)
  {
  }

  lemma FramesRemove(fs: Records, rs: Requests, h: Handle)
    requires Frames(fs, rs) && h in fs && !fs[h].context.Suspended?
    ensures Frames(fs - {h}, rs)
  {
  }

  // ---------------------------------------------------------------- queue

  lemma QueueDispatch(fs: Records, rs: Requests, ready: seq<Handle>, rs': Requests)
    requires Frames(fs, rs) && Queue(fs, rs, ready) && ready != []
    requires rs' == if fs[ready[0]].context.Suspended? then rs - {fs[ready[0]].context.frame} else rs
    ensures Queue(fs[ready[0] := fs[ready[0]].(context := OnCpu)], rs', ready[1..])
  {
    var h := ready[0];
    var fs' := fs[h := fs[h].(context := OnCpu)];
    forall g | g in fs && g != h
      ensures PlaceIn(fs', rs', g) == PlaceIn(fs, rs, g)
    {
    }
  }

  lemma QueueSuspend(fs: Records, rs: Requests, ready: seq<Handle>, h: Handle, p: Ptr, q: Request)
    requires Frames(fs, rs) && Queue(fs, rs, ready) && h in fs && fs[h].context.OnCpu? && p !in rs
    ensures Queue(fs[h := fs[h].(context := Suspended(p))], rs[p := q], if q.stage.Done? then ready + [h] else ready)
  {
    var fs', rs' := fs[h := fs[h].(context := Suspended(p))], rs[p := q];
    forall g | g in fs && g != h
      ensures PlaceIn(fs', rs', g) == PlaceIn(fs, rs, g)
    {
    }
  }

  lemma QueueAnswer(fs: Records, rs: Requests, ready: seq<Handle>, p: Ptr, q: Request)
    requires Frames(fs, rs) && Queue(fs, rs, ready) && p in rs && !rs[p].stage.Done?
    ensures Queue(fs, rs[p := q], if q.stage.Done? then ready + [rs[p].fiber] else ready)
  {
    var rs' := rs[p := q];
    forall g | g in fs && g != rs[p].fiber
      ensures PlaceIn(fs, rs', g) == PlaceIn(fs, rs, g)
    {
    }
  }

  lemma QueueRecord(fs: Records, rs: Requests, ready: seq<Handle>, h: Handle, f: Fiber)
    requires Queue(fs, rs, ready) && h in fs
    requires f.context == fs[h].context || (fs[h].context.OnCpu? && f.context.Poisoned?)
    ensures Queue(fs[h := f], rs, ready)
  {
    forall g | g in fs
      ensures (PlaceIn(fs[h := f], rs, g) == Ready) == (PlaceIn(fs, rs, g) == Ready)
    {
    }
  }

  lemma QueueNewborn(fs: Records, rs: Requests, ready: seq<Handle>, c: Handle, f: Fiber)
    requires Queue(fs, rs, ready) && c !in fs && f.context.Fresh?
    ensures Queue(fs[c := f], rs, ready + [c])
  {
    forall g | g in fs
      ensures PlaceIn(fs[c := f], rs, g) == PlaceIn(fs, rs, g)
    {
    }
  }

  lemma QueueRemove(fs: Records, rs: Requests, ready: seq<Handle>, h: Handle)
    requires Queue(fs, rs, ready) && h in fs && PlaceIn(fs, rs, h) != Ready
    ensures Queue(fs - {h}, rs, ready)
  {
    forall g | g in fs - {h}
      ensures PlaceIn(fs - {h}, rs, g) == PlaceIn(fs, rs, g)
    {
    }
  }

  // ---------------------------------------------------------------- joins

  lemma JoinsDispatch(fs: Records, rs: Requests, h: Handle, rs': Requests)
    requires Frames(fs, rs) && Joins(fs, rs) && h in fs && PlaceIn(fs, rs, h) == Ready
    requires rs' == if fs[h].context.Suspended? then rs - {fs[h].context.frame} else rs
    ensures Joins(fs[h := fs[h].(context := OnCpu)], rs')
  {
  }

  lemma JoinsSuspend(fs: Records, rs: Requests, h: Handle, p: Ptr, q: Request)
    requires Joins(fs, rs) && h in fs && p !in rs
    requires !(q.stage.Pending? && q.ask.Join?)
    ensures Joins(fs[h := fs[h].(context := Suspended(p))], rs[p := q])
  {
  }

  lemma JoinsBlock(fs: Records, rs: Requests, h: Handle, p: Ptr, q: Request, t: Handle)
    requires Joins(fs, rs) && h in fs && t in fs && h != t && p !in rs
    requires fs[t].joiner.None? && fs[t].life.Live?
    requires q.stage.Pending? && q.ask == Join(t)
    ensures Joins(fs[h := fs[h].(context := Suspended(p))][t := fs[t].(joiner := Some(p))], rs[p := q])
  {
  }

  lemma JoinsExit(fs: Records, rs: Requests, h: Handle, p: Ptr, q: Request)
    requires Joins(fs, rs) && h in fs && fs[h].joiner == Some(p) && p in rs && q.stage.Done?
    ensures Joins(fs - {h}, rs[p := q])
  {
  }

  lemma JoinsAnswer(fs: Records, rs: Requests, p: Ptr, q: Request)
    requires Joins(fs, rs) && p in rs && !rs[p].ask.Join? && q.ask == rs[p].ask
    ensures Joins(fs, rs[p := q])
  {
  }

  lemma JoinsRecord(fs: Records, rs: Requests, h: Handle, f: Fiber)
    requires Joins(fs, rs) && f.joiner.None?
    requires h in fs ==> fs[h].joiner.None?
    ensures Joins(fs[h := f], rs)
  {
  }

  lemma JoinsRemove(fs: Records, rs: Requests, h: Handle)
    requires Joins(fs, rs) && h in fs && fs[h].joiner.None?
    ensures Joins(fs - {h}, rs)
  {
  }

  // ---------------------------------------------------------------- ring

  lemma HoldingDrop(rs: Requests, held: seq<Ptr>, p: Ptr)
    requires Holding(rs, held) && (p in rs ==> !rs[p].stage.Parked?)
    ensures Holding(rs - {p}, held)
  {
  }

  lemma HoldingPut(rs: Requests, held: seq<Ptr>, p: Ptr, q: Request)
    requires Holding(rs, held) && (p in rs ==> !rs[p].stage.Parked?) && !q.stage.Parked?
    ensures Holding(rs[p := q], held)
  {
  }

  lemma HoldingPark(rs: Requests, r: RingState, p: Ptr, q: Request)
    requires Holding(rs, Held(r)) && p in rs && !rs[p].stage.Parked?
    requires q.stage.Parked? && q.stage.sqe.userData == p
    ensures Held(r.(batch := r.batch + [q.stage.sqe])) == Held(r) + [p]
    ensures Holding(rs[p := q], Held(r.(batch := r.batch + [q.stage.sqe])))
  {
    assert SqePtrs(r.batch + [q.stage.sqe]) == SqePtrs(r.batch) + [p];
  }

  lemma HoldingReap(rs: Requests, r: RingState, q: Request)
    requires Holding(rs, Held(r)) && r.cq != [] && !q.stage.Parked?
    ensures Held(r.(cq := r.cq[1..])) == Held(r)[1..]
    ensures Holding(rs[r.cq[0].userData := q], Held(r.(cq := r.cq[1..])))
  {
    var held := Held(r);
    assert CqePtrs(r.cq) == [r.cq[0].userData] + CqePtrs(r.cq[1..]);
    assert held == [held[0]] + held[1..] && held[0] == r.cq[0].userData;
  }

  /** A completion moves one address from the in-flight part to the end of the queue. */
  lemma HeldPost(r: RingState, i: nat, res: int, streams: bool)
    requires i < |r.inflight|
    ensures var r' := KernelStep(r, Post(i, res, streams));
            && |Held(r')| == |Held(r)|
            && (forall p :: p in Held(r') <==> p in Held(r))
            && (Distinct(Held(r)) ==> Distinct(Held(r')))
  {
    var c, f, b := CqePtrs(r.cq), SqePtrs(r.inflight), SqePtrs(r.batch);
    var r' := KernelStep(r, Post(i, res, streams));
    assert CqePtrs(r'.cq) == c + [f[i]];
    assert SqePtrs(r'.inflight) == f[..i] + f[i + 1..];
    assert Held(r) == c + (f[..i] + [f[i]] + f[i + 1..]) + b;
    assert Held(r') == (c + [f[i]]) + (f[..i] + f[i + 1..]) + b;
    Rotate(c, f[..i], f[i], f[i + 1..] + b, Held(r), Held(r'));
  }

  lemma Rotate<T>(a: seq<T>, b: seq<T>, x: T, d: seq<T>, before: seq<T>, after: seq<T>)
    requires before == a + b + [x] + d && after == a + [x] + b + d
    ensures |after| == |before|
    ensures forall y :: y in after <==> y in before
    ensures Distinct(before) ==> Distinct(after)
  {
    var m, n := |a|, |a| + |b|;
    forall k | 0 <= k < |after|
      ensures after[k] == before[if k < m || k > n then k else if k == m then n else k - 1]
    {
    }
    forall k | 0 <= k < |before|
      ensures before[k] == after[if k < m || k > n then k else if k == n then m else k + 1]
    {
    }
  }

  lemma HeldEnter(r: RingState, n: nat)
    requires n <= |r.batch|
    ensures Held(r.(batch := r.batch[n..], inflight := r.inflight + r.batch[..n])) == Held(r)
  {
    assert SqePtrs(r.inflight + r.batch[..n]) + SqePtrs(r.batch[n..]) == SqePtrs(r.inflight) + SqePtrs(r.batch);
  }

  lemma CopiesKernel(rs: Requests, r: RingState, k: KernelEvent)
    requires Copies(rs, r) && KernelLegal(r, k)
    ensures Copies(rs, KernelStep(r, k))
  {
  }

  lemma CopiesDrop(rs: Requests, r: RingState, p: Ptr)
    requires Copies(rs, r) && (p in rs ==> !rs[p].stage.Parked?)
    ensures Copies(rs - {p}, r)
  {
  }

  lemma CopiesPut(rs: Requests, r: RingState, p: Ptr, q: Request)
    requires Copies(rs, r) && (p in rs ==> !rs[p].stage.Parked?) && !q.stage.Parked?
    ensures Copies(rs[p := q], r)
  {
  }

  lemma CopiesPark(rs: Requests, r: RingState, p: Ptr, q: Request)
    requires Copies(rs, r) && p in rs && !rs[p].stage.Parked?
    requires q.ask.Await? && q.stage == Parked(q.ask.sqe.(userData := p))
    ensures Copies(rs[p := q], r.(batch := r.batch + [q.stage.sqe]))
  {
  }

  lemma CopiesReap(rs: Requests, r: RingState, q: Request)
    requires Holding(rs, Held(r)) && Copies(rs, r) && r.cq != [] && !q.stage.Parked?
    ensures Copies(rs[r.cq[0].userData := q], r.(cq := r.cq[1..]))
  {
    hide Held, Holding;
    HeadElsewhere(rs, r);
  }

  /** The address at the head of the completion queue is nowhere else in the ring. */
  lemma HeadElsewhere(rs: Requests, r: RingState)
    requires Holding(rs, Held(r)) && r.cq != []
    ensures forall x :: x in r.inflight ==> x.userData != r.cq[0].userData
    ensures forall x :: x in r.batch ==> x.userData != r.cq[0].userData
    ensures forall j :: 0 < j < |r.cq| ==> r.cq[j].userData != r.cq[0].userData
  {
    var held := Held(r);
    var c, f, b := CqePtrs(r.cq), SqePtrs(r.inflight), SqePtrs(r.batch);
    assert held == c + f + b && held[0] == r.cq[0].userData;
    hide Held;
    forall x | x in r.inflight
      ensures x.userData != held[0]
    {
      var i :| 0 <= i < |r.inflight| && r.inflight[i] == x;
      assert held[|c| + i] == f[i];
    }
    forall x | x in r.batch
      ensures x.userData != held[0]
    {
      var i :| 0 <= i < |r.batch| && r.batch[i] == x;
      assert held[|c| + |f| + i] == b[i];
    }
    forall j | 0 < j < |r.cq|
      ensures r.cq[j].userData != held[0]
    {
      assert held[j] == c[j];
    }
  }

  // ---------------------------------------------------------------- counting

  /** The queue is no longer than the map of records, so its count cannot wrap. */
  lemma ReadyBound(fs: Records, rs: Requests, ready: seq<Handle>, extra: set<Handle>)
    requires Queue(fs, rs, ready)
    requires forall h :: h in extra ==> h in fs && h !in ready
    ensures |ready| + |extra| <= |fs|
  {
    var queued := set h | h in ready;
    DistinctCard(ready, queued);
    assert queued !! extra && queued + extra <= fs.Keys;
    Subset(queued + extra, fs.Keys);
  }

  lemma {:induction false} Subset<T>(a: set<T>, b: set<T>)
    requires a <= b
    ensures |a| <= |b|
  {
    assert b == a + (b - a);
  }

  /** Replacing one record leaves the set of join targets unless its slot changes. */
  lemma TargetsRecord(fs: Records, h: Handle, f: Fiber)
    requires f.joiner.Some? <==> h in fs && fs[h].joiner.Some?
    ensures Targets(fs[h := f]) == Targets(fs)
  {
  }

  lemma TargetsBound(fs: Records)
    ensures |Targets(fs)| <= |fs|
  {
    Subset(Targets(fs), fs.Keys);
  }

  lemma SizeUpdate<K, V>(m: map<K, V>, k: K, v: V)
    ensures |m[k := v]| == if k in m then |m| else |m| + 1
  {
    assert m[k := v].Keys == m.Keys + {k};
  }

  lemma SizeRemove<K, V>(m: map<K, V>, k: K)
    requires k in m
    ensures |m - {k}| == |m| - 1
  {
    assert (m - {k}).Keys == m.Keys - {k};
  }

  // ---------------------------------------------------------------- lookups

  lemma ReadyFrame(fs: Records, rs: Requests, ready: seq<Handle>, h: Handle)
    requires Frames(fs, rs) && Queue(fs, rs, ready) && h in ready
    ensures h in fs && PlaceIn(fs, rs, h) == Ready
    ensures !fs[h].context.OnCpu? && !fs[h].context.Poisoned?
    ensures fs[h].context.Suspended? ==> fs[h].context.frame in rs && rs[fs[h].context.frame].stage.Done?
  {
  }

  lemma CpuSwitchIn(fs: Records, h: Handle)
    requires Cpu(fs, None) && h in fs
    ensures Cpu(fs[h := fs[h].(context := OnCpu)], Some(h))
  {
  }

  lemma CpuAt(fs: Records, h: Handle)
    requires Cpu(fs, Some(h))
    ensures h in fs && fs[h].context.OnCpu?
  {
  }

  lemma CpuSwitchOut(fs: Records, h: Handle, f: Fiber)
    requires Cpu(fs, Some(h)) && !f.context.OnCpu?
    ensures Cpu(fs[h := f], None)
  {
  }

  lemma CpuRecord(fs: Records, runner: Option<Handle>, h: Handle, f: Fiber)
    requires Cpu(fs, runner)
    requires if h in fs then f.context == fs[h].context else !f.context.OnCpu? && runner != Some(h)
    ensures Cpu(fs[h := f], runner)
  {
  }

  lemma CpuRemove(fs: Records, runner: Option<Handle>, h: Handle)
    requires Cpu(fs, runner) && h in fs
    ensures fs[h].context.OnCpu? ==> Cpu(fs - {h}, None)
    ensures !fs[h].context.OnCpu? ==> Cpu(fs - {h}, runner)
  {
  }

  lemma UndecidedDrop(rs: Requests, parker: Option<Ptr>, p: Ptr)
    requires Undecided(rs, parker) && (p in rs ==> rs[p].stage.Done?)
    ensures Undecided(rs - {p}, parker)
  {
  }

  lemma UndecidedPut(rs: Requests, p: Ptr, q: Request)
    requires Undecided(rs, None) && (q.stage.Pending? ==> q.ask.Join?)
    ensures Undecided(rs[p := q], None)
  {
  }

  lemma UndecidedHold(rs: Requests, p: Ptr, q: Request)
    requires Undecided(rs, None) && q.stage.Pending? && q.ask.Await?
    ensures Undecided(rs[p := q], Some(p))
  {
  }

  lemma UndecidedRelease(rs: Requests, p: Ptr, q: Request)
    requires Undecided(rs, Some(p)) && !q.stage.Pending?
    ensures Undecided(rs[p := q], None)
  {
  }

  lemma SerialsRecord(fs: Records, born: nat, h: Handle, f: Fiber)
    requires Serials(fs, born) && h in fs && f.serial == fs[h].serial
    ensures Serials(fs[h := f], born)
  {
  }

  lemma SerialsNewborn(fs: Records, born: nat, c: Handle, f: Fiber)
    requires Serials(fs, born) && c !in fs && f.serial == born
    ensures Serials(fs[c := f], born + 1)
  {
  }

  lemma SerialsRemove(fs: Records, born: nat, h: Handle)
    requires Serials(fs, born)
    ensures Serials(fs - {h}, born)
  {
  }

  lemma LivesRecord(fs: Records, h: Handle, f: Fiber)
    requires Lives(fs) && (f.context.Poisoned? <==> f.life.Exited?)
    ensures Lives(fs[h := f])
  {
  }

  lemma LivesRemove(fs: Records, h: Handle)
    requires Lives(fs)
    ensures Lives(fs - {h})
  {
  }

  lemma LifeAt(fs: Records, h: Handle)
    requires Lives(fs) && h in fs
    ensures fs[h].context.Poisoned? <==> fs[h].life.Exited?
  {
  }

  // ---------------------------------------------------------------- steps

  lemma SumBound(s: State)
    requires Inv(s)
    ensures s.parkedCount + s.readyCount < TWO32
  {
    hide Inv;
    Partition(s);
  }

  /** The sum in the loop test cannot wrap: the classes it adds are disjoint. */
  lemma KeepTop(s: State)
    requires Inv(s) && s.pc.Top?
    ensures Inv(StepTop(s))
    ensures StepTop(s).pc.Sweep? <==> !Drained(s)
  {
    hide Frames, Queue, Holding, Copies, Joins, Lives, Cpu, Undecided, Serials, Held, Targets;
    SumBound(s);
  }

  lemma KeepSweepEnd(s: State)
    requires Inv(s) && s.pc == Sweep(0)
    ensures Inv(StepSweepEnd(s))
  {
    hide Frames, Queue, Holding, Copies, Joins, Lives, Cpu, Undecided, Serials, Targets;
  }

  lemma KeepDispatch(s: State, turns: nat)
    requires Inv(s) && s.pc == Sweep(turns) && turns > 0
    ensures Inv(StepDispatch(s, turns))
    ensures !Halted(StepDispatch(s, turns).pc)
  {
    hide Frames, Queue, Holding, Copies, Joins, Lives, Cpu, Undecided, Serials, Held, Targets;
    var h := s.ready[0];
    ReadyFrame(s.fibers, s.requests, s.ready, h);
    var s' := StepDispatch(s, turns);
    FramesDispatch(s.fibers, s.requests, h, s'.requests);
    QueueDispatch(s.fibers, s.requests, s.ready, s'.requests);
    JoinsDispatch(s.fibers, s.requests, h, s'.requests);
    if s.fibers[h].context.Suspended? {
      var p := s.fibers[h].context.frame;
      HoldingDrop(s.requests, Held(s.ring), p);
      CopiesDrop(s.requests, s.ring, p);
      UndecidedDrop(s.requests, None, p);
    }
    LifeAt(s.fibers, h);
    LivesRecord(s.fibers, h, s'.fibers[h]);
    CpuSwitchIn(s.fibers, h);
    SerialsRecord(s.fibers, s.born, h, s'.fibers[h]);
    TargetsRecord(s.fibers, h, s'.fibers[h]);
    SizeUpdate(s.fibers, h, s'.fibers[h]);
    ReadyBound(s.fibers, s.requests, s.ready, {});
  }

  /** Any request that is answered at once puts its asker back on the queue. */
  lemma KeepSuspendDone(s: State, h: Handle, turns: nat, p: Ptr, ask: Ask, result: int)
    requires Inv(s) && s.pc == Running(h, turns) && p !in s.requests
    ensures h in s.fibers
    ensures Inv(Enqueue(Suspend(s, h, p, ask, result, Done), h).(pc := Sweep(turns)))
  {
    hide Frames, Queue, Holding, Copies, Joins, Lives, Cpu, Undecided, Serials, Held, Targets;
    CpuAt(s.fibers, h);
    var q := Request(ask, result, h, Done);
    var f := s.fibers[h].(context := Suspended(p));
    CpuSwitchOut(s.fibers, h, f);
    FramesSuspend(s.fibers, s.requests, h, p, q);
    QueueSuspend(s.fibers, s.requests, s.ready, h, p, q);
    JoinsSuspend(s.fibers, s.requests, h, p, q);
    HoldingPut(s.requests, Held(s.ring), p, q);
    CopiesPut(s.requests, s.ring, p, q);
    UndecidedPut(s.requests, p, q);
    LifeAt(s.fibers, h);
    LivesRecord(s.fibers, h, f);
    SerialsRecord(s.fibers, s.born, h, f);
    TargetsRecord(s.fibers, h, f);
    SizeUpdate(s.fibers, h, f);
    ReadyBound(s.fibers[h := f], s.requests[p := q], s.ready + [h], {});
  }

  /** A fiber that is not suspended, not queued and not waited for can be released. */
  lemma KeepRelease(s: State, t: Handle)
    requires Inv(s) && s.pc.Sweep? && t in s.fibers
    requires s.fibers[t].context.Poisoned? && s.fibers[t].joiner.None?
    ensures Inv(s.(fibers := s.fibers - {t}))
  {
    hide Frames, Queue, Holding, Copies, Joins, Lives, Cpu, Undecided, Serials, Held, Targets;
    FramesRemove(s.fibers, s.requests, t);
    QueueRemove(s.fibers, s.requests, s.ready, t);
    JoinsRemove(s.fibers, s.requests, t);
    LivesRemove(s.fibers, t);
    CpuRemove(s.fibers, None, t);
    SerialsRemove(s.fibers, s.born, t);
    TargetsRemove(s.fibers, t);
    SizeRemove(s.fibers, t);
  }

  lemma KeepExit(s: State, h: Handle, turns: nat, status: int, unmapped: bool)
    requires Inv(s) && s.pc == Running(h, turns)
    ensures h in s.fibers
    ensures Inv(StepExit(s, h, turns, status, unmapped))
  {
    hide Frames, Queue, Holding, Copies, Joins, Lives, Cpu, Undecided, Serials, Held, Targets;
    CpuAt(s.fibers, h);
    var f := s.fibers[h];
    if f.life.Detached? {
      SlotNeedsLive(s.fibers, s.requests, h);
      KeepExitDetached(s, h, turns);
    } else if f.joiner.None? {
      LifeAt(s.fibers, h);
      KeepExitZombie(s, h, turns, status);
    } else {
      SlotAt(s.fibers, s.requests, h);
      KeepExitJoined(s, h, turns, status);
    }
  }

  lemma SlotNeedsLive(fs: Records, rs: Requests, t: Handle)
    requires Joins(fs, rs) && t in fs
    ensures fs[t].joiner.Some? ==> fs[t].life.Live?
  {
  }

  /** A join slot names a blocked request whose asker is another, undestroyed fiber. */
  lemma SlotAt(fs: Records, rs: Requests, t: Handle)
    requires Frames(fs, rs) && Joins(fs, rs) && t in fs && fs[t].joiner.Some?
    ensures var p := fs[t].joiner.value;
            && p in rs && rs[p].ask == Join(t) && rs[p].stage.Pending?
            && rs[p].fiber in fs && fs[rs[p].fiber].context == Suspended(p)
  {
  }

  lemma KeepExitDetached(s: State, h: Handle, turns: nat)
    requires Inv(s) && s.pc == Running(h, turns)
    requires h in s.fibers && s.fibers[h].context.OnCpu? && s.fibers[h].joiner.None?
    ensures Inv(s.(fibers := s.fibers - {h}, pc := Sweep(turns)))
  {
    hide Frames, Queue, Holding, Copies, Joins, Lives, Cpu, Undecided, Serials, Held, Targets;
    FramesRemove(s.fibers, s.requests, h);
    QueueRemove(s.fibers, s.requests, s.ready, h);
    JoinsRemove(s.fibers, s.requests, h);
    LivesRemove(s.fibers, h);
    CpuRemove(s.fibers, Some(h), h);
    SerialsRemove(s.fibers, s.born, h);
    TargetsRemove(s.fibers, h);
    SizeRemove(s.fibers, h);
  }

  lemma KeepExitZombie(s: State, h: Handle, turns: nat, status: int)
    requires Inv(s) && s.pc == Running(h, turns)
    requires h in s.fibers && s.fibers[h].context.OnCpu? && s.fibers[h].joiner.None?
    ensures Inv(s.(fibers := s.fibers[h := s.fibers[h].(context := Poisoned, status := status, life := Exited)],
                   pc := Sweep(turns)))
  {
    hide Frames, Queue, Holding, Copies, Joins, Lives, Cpu, Undecided, Serials, Held, Targets;
    var f := s.fibers[h].(context := Poisoned, status := status, life := Exited);
    FramesRecord(s.fibers, s.requests, h, f);
    QueueRecord(s.fibers, s.requests, s.ready, h, f);
    JoinsRecord(s.fibers, s.requests, h, f);
    LivesRecord(s.fibers, h, f);
    CpuSwitchOut(s.fibers, h, f);
    SerialsRecord(s.fibers, s.born, h, f);
    TargetsRecord(s.fibers, h, f);
    SizeUpdate(s.fibers, h, f);
  }

  lemma KeepExitJoined(s: State, h: Handle, turns: nat, status: int)
    requires Inv(s) && s.pc == Running(h, turns)
    requires h in s.fibers && s.fibers[h].context.OnCpu? && s.fibers[h].joiner.Some?
    requires !s.fibers[h].life.Detached?
    ensures Inv(StepExit(s, h, turns, status, true))
    ensures !StepExit(s, h, turns, status, true).pc.Trapped?
    ensures Inv(StepExit(s, h, turns, status, false))
  {
    hide Frames, Queue, Holding, Copies, Joins, Lives, Cpu, Undecided, Serials, Held, Targets;
    SlotAt(s.fibers, s.requests, h);
    var p := s.fibers[h].joiner.value;
    var q := s.requests[p].(result := status, stage := Done);
    var g := s.requests[p].fiber;
    FramesRemove(s.fibers, s.requests, h);
    FramesAnswer(s.fibers - {h}, s.requests, p, q);
    QueueRemove(s.fibers, s.requests, s.ready, h);
    QueueAnswer(s.fibers - {h}, s.requests, s.ready, p, q);
    JoinsExit(s.fibers, s.requests, h, p, q);
    HoldingPut(s.requests, Held(s.ring), p, q);
    CopiesPut(s.requests, s.ring, p, q);
    UndecidedPut(s.requests, p, q);
    LivesRemove(s.fibers, h);
    CpuRemove(s.fibers, Some(h), h);
    SerialsRemove(s.fibers, s.born, h);
    TargetsRemove(s.fibers, h);
    TargetsBound(s.fibers);
    SizeRemove(s.fibers, h);
    ReadyBound(s.fibers - {h}, s.requests[p := q], s.ready + [g], {});
  }

  lemma TargetsRemove(fs: Records, t: Handle)
    requires t in fs
    ensures |Targets(fs - {t})| == |Targets(fs)| - (if fs[t].joiner.Some? then 1 else 0)
  {
    assert Targets(fs - {t}) == Targets(fs) - {t};
  }

  lemma KeepAwait(s: State, h: Handle, turns: nat, p: Ptr, sqe: Sqe)
    requires Inv(s) && s.pc == Running(h, turns) && p !in s.requests
    ensures h in s.fibers
    ensures Inv(StepAwait(s, h, turns, p, sqe))
  {
    hide Frames, Queue, Holding, Copies, Joins, Lives, Cpu, Undecided, Serials, Held, Targets;
    CpuAt(s.fibers, h);
    var q := Request(Await(sqe), 0, h, Pending);
    var f := s.fibers[h].(context := Suspended(p));
    CpuSwitchOut(s.fibers, h, f);
    FramesSuspend(s.fibers, s.requests, h, p, q);
    QueueSuspend(s.fibers, s.requests, s.ready, h, p, q);
    JoinsSuspend(s.fibers, s.requests, h, p, q);
    HoldingPut(s.requests, Held(s.ring), p, q);
    CopiesPut(s.requests, s.ring, p, q);
    UndecidedHold(s.requests, p, q);
    LifeAt(s.fibers, h);
    LivesRecord(s.fibers, h, f);
    SerialsRecord(s.fibers, s.born, h, f);
    TargetsRecord(s.fibers, h, f);
    SizeUpdate(s.fibers, h, f);
  }

  lemma KeepNewborn(s: State, c: Handle)
    requires Inv(s) && FreshHandle(s, c) && (s.pc.Top? || s.pc.Sweep?)
    ensures Inv(Enqueue(Newborn(s, c), c))
  {
    hide Frames, Queue, Holding, Copies, Joins, Lives, Cpu, Undecided, Serials, Held, Targets;
    var f := Fiber(s.born, Fresh, None, 0, Live);
    FramesRecord(s.fibers, s.requests, c, f);
    QueueNewborn(s.fibers, s.requests, s.ready, c, f);
    JoinsRecord(s.fibers, s.requests, c, f);
    LivesRecord(s.fibers, c, f);
    CpuRecord(s.fibers, None, c, f);
    SerialsNewborn(s.fibers, s.born, c, f);
    TargetsRecord(s.fibers, c, f);
    SizeUpdate(s.fibers, c, f);
    ReadyBound(s.fibers[c := f], s.requests, s.ready + [c], {});
  }

  lemma KeepSpawn(s: State, h: Handle, turns: nat, p: Ptr, spawned: Option<Handle>)
    requires Inv(s) && s.pc == Running(h, turns) && p !in s.requests
    requires spawned.Some? ==> FreshHandle(s, spawned.value)
    ensures h in s.fibers
    ensures Inv(StepSpawn(s, h, turns, p, spawned))
  {
    hide Frames, Queue, Holding, Copies, Joins, Lives, Cpu, Undecided, Serials, Held, Targets;
    CpuAt(s.fibers, h);
    if spawned.None? {
      KeepSuspendDone(s, h, turns, p, Spawn, 0);
    } else {
      var c := spawned.value;
      KeepSuspendDone(s, h, turns, p, Spawn, c);
      var mid := Enqueue(Suspend(s, h, p, Spawn, c, Done), h).(pc := Sweep(turns));
      SizeUpdate(s.fibers, h, s.fibers[h].(context := Suspended(p)));
      KeepNewborn(mid, c);
    }
  }

  lemma KeepJoin(s: State, h: Handle, turns: nat, p: Ptr, t: Handle, unmapped: bool)
    requires Inv(s) && s.pc == Running(h, turns) && p !in s.requests && t in s.fibers
    ensures h in s.fibers
    ensures Inv(StepJoin(s, h, turns, p, t, unmapped))
  {
    hide Frames, Queue, Holding, Copies, Joins, Lives, Cpu, Undecided, Serials, Held, Targets;
    CpuAt(s.fibers, h);
    LifeAt(s.fibers, t);
    if t != h && s.fibers[t].joiner.None? && s.fibers[t].life.Exited? {
      KeepSuspendDone(s, h, turns, p, Join(t), s.fibers[t].status);
      KeepRelease(Enqueue(Suspend(s, h, p, Join(t), s.fibers[t].status, Done), h).(pc := Sweep(turns)), t);
    } else if t != h && s.fibers[t].joiner.None? && s.fibers[t].life.Live? {
      KeepJoinBlock(s, h, turns, p, t);
    }
  }

  lemma KeepJoinBlock(s: State, h: Handle, turns: nat, p: Ptr, t: Handle)
    requires Inv(s) && s.pc == Running(h, turns) && p !in s.requests && t in s.fibers && h in s.fibers
    requires t != h && s.fibers[t].joiner.None? && s.fibers[t].life.Live?
    ensures Inv(StepJoin(s, h, turns, p, t, true))
  {
    hide Frames, Queue, Holding, Copies, Joins, Lives, Cpu, Undecided, Serials, Held, Targets;
    CpuAt(s.fibers, h);
    var q := Request(Join(t), 0, h, Pending);
    var f := s.fibers[h].(context := Suspended(p));
    var fs := s.fibers[h := f];
    var g := s.fibers[t].(joiner := Some(p));
    CpuSwitchOut(s.fibers, h, f);
    CpuRecord(fs, None, t, g);
    FramesSuspend(s.fibers, s.requests, h, p, q);
    FramesRecord(fs, s.requests[p := q], t, g);
    QueueSuspend(s.fibers, s.requests, s.ready, h, p, q);
    QueueRecord(fs, s.requests[p := q], s.ready, t, g);
    JoinsBlock(s.fibers, s.requests, h, p, q, t);
    HoldingPut(s.requests, Held(s.ring), p, q);
    CopiesPut(s.requests, s.ring, p, q);
    UndecidedPut(s.requests, p, q);
    LifeAt(s.fibers, h);
    LifeAt(s.fibers, t);
    LivesRecord(s.fibers, h, f);
    LivesRecord(fs, t, g);
    SerialsRecord(s.fibers, s.born, h, f);
    SerialsRecord(fs, s.born, t, g);
    TargetsRecord(s.fibers, h, f);
    TargetsAdd(fs, t, g);
    SizeUpdate(s.fibers, h, f);
    SizeUpdate(fs, t, g);
    TargetsBound(fs[t := g]);
  }

  lemma TargetsAdd(fs: Records, t: Handle, f: Fiber)
    requires t in fs && fs[t].joiner.None? && f.joiner.Some?
    ensures |Targets(fs[t := f])| == |Targets(fs)| + 1
  {
    assert Targets(fs[t := f]) == Targets(fs) + {t};
  }

  lemma KeepDetach(s: State, h: Handle, turns: nat, p: Ptr, t: Handle, unmapped: bool)
    requires Inv(s) && s.pc == Running(h, turns) && p !in s.requests && t in s.fibers
    ensures h in s.fibers
    ensures Inv(StepDetach(s, h, turns, p, t, unmapped))
  {
    hide Frames, Queue, Holding, Copies, Joins, Lives, Cpu, Undecided, Serials, Held, Targets;
    CpuAt(s.fibers, h);
    LifeAt(s.fibers, t);
    if s.fibers[t].joiner.None? && !s.fibers[t].life.Detached? {
      KeepSuspendDone(s, h, turns, p, Detach(t), 0);
      var mid := Enqueue(Suspend(s, h, p, Detach(t), 0, Done), h).(pc := Sweep(turns));
      if s.fibers[t].life.Exited? {
        KeepRelease(mid, t);
      } else {
        KeepMark(mid, t);
      }
    }
  }

  lemma KeepMark(s: State, t: Handle)
    requires Inv(s) && t in s.fibers && s.pc.Sweep? && s.fibers[t].joiner.None? && s.fibers[t].life.Live?
    ensures Inv(s.(fibers := s.fibers[t := s.fibers[t].(life := Detached)]))
  {
    hide Frames, Queue, Holding, Copies, Joins, Lives, Cpu, Undecided, Serials, Held, Targets;
    var f := s.fibers[t].(life := Detached);
    LifeAt(s.fibers, t);
    FramesRecord(s.fibers, s.requests, t, f);
    QueueRecord(s.fibers, s.requests, s.ready, t, f);
    JoinsRecord(s.fibers, s.requests, t, f);
    LivesRecord(s.fibers, t, f);
    CpuRecord(s.fibers, None, t, f);
    SerialsRecord(s.fibers, s.born, t, f);
    TargetsRecord(s.fibers, t, f);
    SizeUpdate(s.fibers, t, f);
  }

  lemma ParkerAt(rs: Requests, p: Ptr)
    requires Undecided(rs, Some(p))
    ensures p in rs && rs[p].stage.Pending? && rs[p].ask.Await?
  {
  }

  lemma KeepAppend(s: State, p: Ptr, turns: nat, retry: bool)
    requires Inv(s) && s.pc == Appending(p, turns, retry)
    ensures Inv(StepAppend(s, p, turns, retry))
  {
    hide Frames, Queue, Holding, Copies, Joins, Lives, Cpu, Undecided, Serials, Held, Targets;
    ParkerAt(s.requests, p);
    if |s.ring.batch| != s.ring.sqEntries {
      var sqe := s.requests[p].ask.sqe.(userData := p);
      var q := s.requests[p].(stage := Parked(sqe));
      FramesAnswer(s.fibers, s.requests, p, q);
      QueueAnswer(s.fibers, s.requests, s.ready, p, q);
      JoinsAnswer(s.fibers, s.requests, p, q);
      HoldingPark(s.requests, s.ring, p, q);
      CopiesPark(s.requests, s.ring, p, q);
      UndecidedRelease(s.requests, p, q);
    }
  }

  /** The oldest completion names a parked request of an undestroyed fiber. */
  lemma CompletionAt(s: State)
    requires Inv(s) && s.ring.cq != []
    ensures var p := s.ring.cq[0].userData;
            && p in s.requests && s.requests[p].stage.Parked? && s.requests[p].ask.Await?
            && s.requests[p].fiber in s.fibers && s.fibers[s.requests[p].fiber].context == Suspended(p)
            && 0 < s.parkedCount
  {
    hide Queue, Joins, Lives, Cpu, Undecided, Serials, Targets;
    assert Held(s.ring)[0] == s.ring.cq[0].userData;
  }

  lemma KeepReap(s: State)
    requires Inv(s) && s.pc.Reaping?
    ensures Inv(StepReap(s))
  {
    hide Frames, Queue, Holding, Copies, Joins, Lives, Cpu, Undecided, Serials, Held, Targets;
    if s.ring.cq != [] {
      CompletionAt(s);
      var c := s.ring.cq[0];
      var p := c.userData;
      var q := s.requests[p].(result := c.res, stage := Done);
      FramesAnswer(s.fibers, s.requests, p, q);
      QueueAnswer(s.fibers, s.requests, s.ready, p, q);
      JoinsAnswer(s.fibers, s.requests, p, q);
      HoldingReap(s.requests, s.ring, q);
      CopiesReap(s.requests, s.ring, q);
      UndecidedPut(s.requests, p, q);
      ReadyBound(s.fibers, s.requests[p := q], s.ready + [s.requests[p].fiber], {});
    }
  }

  lemma KeepKernel(s: State, k: KernelEvent)
    requires Inv(s) && Legal(s, Kernel(k))
    ensures Inv(StepKernel(s, k))
  {
    hide Frames, Queue, Holding, Copies, Joins, Lives, Cpu, Undecided, Serials, Held, Targets;
    CopiesKernel(s.requests, s.ring, k);
    match k
    case Enter(Accepted(n)) =>
      HeldEnter(s.ring, n);
    case Enter(_) =>
    case Post(i, res, streams) =>
      HeldPost(s.ring, i, res, streams);
      HoldingDistinct(s.requests, Held(s.ring));
      HoldingPermute(s.requests, Held(s.ring), Held(KernelStep(s.ring, k)));
  }

  lemma HoldingDistinct(rs: Requests, held: seq<Ptr>)
    requires Holding(rs, held)
    ensures Distinct(held)
  {
  }

  lemma HoldingPermute(rs: Requests, held: seq<Ptr>, held': seq<Ptr>)
    requires Holding(rs, held) && Distinct(held')
    requires forall p :: p in held' <==> p in held
    ensures Holding(rs, held')
  {
  }

  // ---------------------------------------------------------------- every run

  /** Every step, whatever the fibers ask and the kernel does, keeps the invariant. */
  lemma StepKeeps(s: State, e: Event)
    requires Inv(s) && Legal(s, e)
    ensures Inv(Step(s, e))
  {
    hide Frames, Queue, Holding, Copies, Joins, Lives, Cpu, Undecided, Serials, Held, Targets;
    match e
    case Admit(c) => KeepNewborn(s, c);
    case Kernel(k) => KeepKernel(s, k);
    case Ask(_, _, _, _) => AskKeeps(s, e);
    case Tick =>
      match s.pc
      case Top => KeepTop(s);
      case Sweep(turns) =>
        if turns == 0 {
          KeepSweepEnd(s);
        } else {
          KeepDispatch(s, turns);
        }
      case Appending(p, turns, retry) => KeepAppend(s, p, turns, retry);
      case Reaping(_) => KeepReap(s);
      case _ =>
  }

  lemma AskKeeps(s: State, e: Event)
    requires Inv(s) && Legal(s, e) && e.Ask?
    ensures Inv(StepAsk(s, e))
  {
    hide Frames, Queue, Holding, Copies, Joins, Lives, Cpu, Undecided, Serials, Held, Targets;
    var h, turns, p := s.pc.fiber, s.pc.turns, e.request;
    CpuAt(s.fibers, h);
    match e.ask
    case Yield => KeepSuspendDone(s, h, turns, p, Yield, 0);
    case Exit(status) => KeepExit(s, h, turns, status, e.unmapped);
    case Await(sqe) => KeepAwait(s, h, turns, p, sqe);
    case Spawn => KeepSpawn(s, h, turns, p, e.spawned);
    case Join(t) => KeepJoin(s, h, turns, p, t, e.unmapped);
    case Detach(t) => KeepDetach(s, h, turns, p, t, e.unmapped);
    case ProcessExit(code) =>
  }

  lemma BootHolds(sqEntries: nat, cqEntries: nat)
    requires 0 < sqEntries && cqEntries < TWO32
    ensures Inv(Boot(sqEntries, cqEntries))
  {
  }

  lemma {:induction false} RunKeeps(s: State, es: seq<Event>)
    requires Inv(s) && LegalRun(s, es)
    ensures Inv(Exec(s, es))
  {
    hide Frames, Queue, Holding, Copies, Joins, Lives, Cpu, Undecided, Serials, Held, Targets;
    if es != [] {
      RunKeeps(s, es[..|es| - 1]);
      StepKeeps(Exec(s, es[..|es| - 1]), es[|es| - 1]);
    }
  }

  // ---------------------------------------------------------------- consequences

  lemma QueueDistinct(s: State)
    requires Inv(s)
    ensures Distinct(s.ready)
  {
    hide Frames, Holding, Copies, Joins, Lives, Cpu, Undecided, Serials, Counts, Control;
  }

  /** Everybody outside the queue may be appended to it. */
  lemma NotQueued(s: State, h: Handle)
    requires Inv(s) && h in s.fibers && PlaceOf(s, h) != Ready
    ensures h !in s.ready
  {
    hide Frames, Holding, Copies, Joins, Lives, Cpu, Undecided, Serials, Counts, Control;
  }

  lemma SlotOfRunner(s: State)
    requires Inv(s) && s.pc.Running? && s.pc.fiber in s.fibers
    ensures !s.fibers[s.pc.fiber].life.Exited?
    ensures s.fibers[s.pc.fiber].joiner.Some? ==>
              var q := s.fibers[s.pc.fiber].joiner.value;
              && s.fibers[s.pc.fiber].life.Live?
              && q in s.requests && s.requests[q].ask == Join(s.pc.fiber) && s.requests[q].stage.Pending?
              && s.requests[q].fiber in s.fibers && s.requests[q].fiber != s.pc.fiber
              && s.requests[q].fiber !in s.ready
  {
    hide Frames, Queue, Holding, Copies, Joins, Lives, Cpu, Undecided, Serials, Held, Targets;
    CpuAt(s.fibers, s.pc.fiber);
    LifeAt(s.fibers, s.pc.fiber);
    SlotNeedsLive(s.fibers, s.requests, s.pc.fiber);
    if s.fibers[s.pc.fiber].joiner.Some? {
      SlotAt(s.fibers, s.requests, s.pc.fiber);
      NotQueued(s, s.requests[s.fibers[s.pc.fiber].joiner.value].fiber);
    }
  }
}
