/** Whom an address stands for over a whole run: the record a join was asked about, and the
    fiber whose resume makes a suspended call return. */
module Attribution {
  import opened Base
  import opened RingModel
  import opened Machine
  import opened Invariant
  import opened InvariantProof
  import opened Trace
  import opened Fairness
  import opened Delivery

  // ---------------------------------------------------------------- targets of joins

  predicate Waiting(s: State, p: Ptr, t: Handle) {
    p in s.requests && s.requests[p].stage.Pending? && s.requests[p].ask == Join(t)
  }

  /** The join at `p` is unanswered all along. */
  ghost predicate StaysWaiting(s: State, es: seq<Event>, p: Ptr, t: Handle)
    requires LegalRun(s, es)
  {
    Waiting(Exec(s, es), p, t) && (es == [] || StaysWaiting(s, es[..|es| - 1], p, t))
  }

  lemma WaitedForExists(s: State, p: Ptr, t: Handle)
    requires Inv(s) && Waiting(s, p, t)
    ensures t in s.fibers
  {
    hide Frames, Queue, Holding, Copies, Lives, Cpu, Undecided, Serials, Counts, Control;
  }

  /** While a join waits, its target's address stays with the same record: it is neither
      released nor given to a newborn. */
  lemma {:induction false} TargetStays(s: State, es: seq<Event>, p: Ptr, t: Handle)
    requires Inv(s) && LegalRun(s, es) && StaysWaiting(s, es, p, t)
    ensures t in s.fibers && t in Exec(s, es).fibers && Exec(s, es).fibers[t].serial == s.fibers[t].serial
  {
    hide Inv, Legal, Step, Waiting;
    RunKeeps(s, es);
    WaitedForExists(Exec(s, es), p, t);
    if es != [] {
      TargetStays(s, es[..|es| - 1], p, t);
      SerialKept(Exec(s, es[..|es| - 1]), es[|es| - 1]);
    }
  }

  lemma AnswerNamesTarget(s: State, e: Event, p: Ptr, t: Handle, x: Entry)
    requires Inv(s) && Waiting(s, p, t) && Legal(s, e)
    requires x in Emits(s, e) && x.JoinAnswered? && x.request == p
    ensures t in s.fibers && x.target == t && x.serial == s.fibers[t].serial
  {
    hide Frames, Queue, Holding, Copies, Lives, Undecided, Serials, Counts, Control, StepAsk, StepKernel, StepTick;
  }

  /** However long a join waits and whatever addresses are reused meanwhile, the status it
      is given is that of the record its target was when it began to wait. */
  lemma JoinAnswersItsTarget(s: State, es: seq<Event>, e: Event, p: Ptr, t: Handle, x: Entry)
    requires Inv(s) && LegalRun(s, es) && StaysWaiting(s, es, p, t) && Legal(Exec(s, es), e)
    requires x in Emits(Exec(s, es), e) && x.JoinAnswered? && x.request == p
    ensures t in s.fibers && x.target == t && x.serial == s.fibers[t].serial
  {
    hide Inv, Legal, Step, Waiting, Emits;
    RunKeeps(s, es);
    TargetStays(s, es, p, t);
    AnswerNamesTarget(Exec(s, es), e, p, t, x);
  }

  // ---------------------------------------------------------------- births at an address

  /** Follows the request of `req` and the births at the address `t`: `last` is the number of
      the latest. A birth there while the request joins `t`, or an answer to that join for
      another record than the latest, spoils it. */
  datatype TargetMonitor = Bind(req: RequestMonitor, t: Handle, last: Option<nat>, ok: bool)

  predicate BirthAt(x: Entry, t: Handle) { x.Born? && x.fiber == t }

  predicate AnswerTo(x: Entry, p: Ptr, t: Handle) { x.JoinAnswered? && x.request == p && x.target == t }

  function BindNext(m: TargetMonitor, x: Entry): TargetMonitor {
    Bind(RequestNext(m.req, x), m.t,
         if BirthAt(x, m.t) then Some(x.serial) else m.last,
         && m.ok
         && (BirthAt(x, m.t) ==> m.req.phase != WasAsked(Join(m.t)))
         && (AnswerTo(x, m.req.p, m.t) ==> m.last == Some(x.serial)))
  }

  ghost predicate BindOk(s: State, m: TargetMonitor) {
    && m.ok
    && PhaseOk(s, m.req)
    && (m.t in s.fibers ==> m.last == Some(s.fibers[m.t].serial))
  }

  lemma {:induction false} BindFollows(m: TargetMonitor, es: seq<Entry>)
    ensures Feed(BindNext, m, es).req == Feed(RequestNext, m.req, es)
    ensures Feed(BindNext, m, es).t == m.t
    ensures Feed(BindNext, m, es).ok ==> m.ok
    decreases |es|
  {
    hide RequestNext;
    if es != [] {
      BindFollows(BindNext(m, es[0]), es[1..]);
    }
  }

  lemma {:induction false} BindQuiet(m: TargetMonitor, es: seq<Entry>)
    requires forall x :: x in es ==> !BirthAt(x, m.t) && !AnswerTo(x, m.req.p, m.t)
    ensures Feed(BindNext, m, es).last == m.last && Feed(BindNext, m, es).ok == m.ok
    decreases |es|
  {
    if es != [] {
      assert es[0] in es;
      var next := BindNext(m, es[0]);
      FollowsSame(m.req, es[..1]);
      FeedOne(RequestNext, m.req, es[0]);
      assert es[..1] == [es[0]];
      hide RequestNext, BindNext;
      BindQuiet(next, es[1..]);
    }
  }

  /** Only a birth puts a record at an address. */
  lemma NewcomersAreBorn(s: State, e: Event)
    requires Legal(s, e) && !e.Admit? && !(e.Ask? && e.ask.Spawn?)
    ensures forall h :: h in Step(s, e).fibers ==> h in s.fibers
  {
    if e.Ask? {
      AskAddsNobody(s, e);
    } else {
      hide KernelStep;
    }
  }

  lemma AskAddsNobody(s: State, e: Event)
    requires Legal(s, e) && e.Ask? && !e.ask.Spawn?
    ensures forall h :: h in StepAsk(s, e).fibers ==> h in s.fibers
  {
  }

  /** Joined addresses are in use. */
  lemma JoinedExists(s: State, m: RequestMonitor, t: Handle)
    requires Inv(s) && PhaseOk(s, m) && m.phase == WasAsked(Join(t))
    ensures t in s.fibers
  {
    hide Inv;
    WaitedForExists(s, m.p, t);
  }

  lemma BindQuietStep(s: State, e: Event, m: TargetMonitor)
    requires Inv(s) && Legal(s, e) && BindOk(s, m)
    requires forall h :: h in Step(s, e).fibers ==> h in s.fibers
    requires forall x :: x in Emits(s, e) ==> !BirthAt(x, m.t) && !AnswerTo(x, m.req.p, m.t)
    ensures BindOk(Step(s, e), Feed(BindNext, m, Emits(s, e)))
  {
    hide Inv, Legal, Step, Emits, PhaseOk, BindNext;
    DeliverStep(s, e, m.req);
    BindFollows(m, Emits(s, e));
    BindQuiet(m, Emits(s, e));
    SerialKept(s, e);
  }

  lemma BindAdmit(s: State, c: Handle, m: TargetMonitor)
    requires Inv(s) && Legal(s, Admit(c)) && BindOk(s, m)
    ensures BindOk(Step(s, Admit(c)), Feed(BindNext, m, Emits(s, Admit(c))))
  {
    hide Inv, PhaseOk, RequestNext;
    DeliverStep(s, Admit(c), m.req);
    BindFollows(m, Emits(s, Admit(c)));
    FeedOne(BindNext, m, Born(s.born, c, None));
    if m.req.phase == WasAsked(Join(m.t)) {
      JoinedExists(s, m.req, m.t);
    }
  }

  lemma BindSpawn(s: State, e: Event, m: TargetMonitor)
    requires Inv(s) && Legal(s, e) && BindOk(s, m) && e.Ask? && e.ask.Spawn? && s.pc.fiber in s.fibers
    ensures BindOk(Step(s, e), Feed(BindNext, m, Emits(s, e)))
  {
    hide Inv, PhaseOk, BindNext;
    if e.spawned.None? {
      SpawnsNobody(s, e);
      BindQuietStep(s, e, m);
    } else {
      DeliverStep(s, e, m.req);
      BindFollows(m, Emits(s, e));
      var p, n := e.request, s.fibers[s.pc.fiber].serial;
      var asked, answered := Asked(p, Spawn, n), Answered(p, e.spawned.value);
      if m.req.phase == WasAsked(Join(m.t)) {
        JoinedExists(s, m.req, m.t);
        PendingElsewhere(s, m.req, p);
      }
      SpawnBinds(m, asked, answered, Born(s.born, e.spawned.value, Some(n)));
      SerialKept(s, e);
    }
  }

  lemma SpawnsNobody(s: State, e: Event)
    requires Legal(s, e) && e.Ask? && e.ask.Spawn? && e.spawned.None? && s.pc.fiber in s.fibers
    ensures forall h :: h in Step(s, e).fibers ==> h in s.fibers
  {
  }

  lemma PendingElsewhere(s: State, m: RequestMonitor, p: Ptr)
    requires PhaseOk(s, m) && !m.phase.Idle? && p !in s.requests
    ensures p != m.p
  {
  }

  lemma SpawnBinds(m: TargetMonitor, asked: Entry, answered: Entry, born: Entry)
    requires asked.Asked? && asked.ask.Spawn? && answered.Answered? && answered.request == asked.request && born.Born?
    requires m.ok
    requires m.req.phase == WasAsked(Join(m.t)) ==> born.fiber != m.t && asked.request != m.req.p
    ensures var m' := Feed(BindNext, m, [asked, answered, born]);
            m'.ok && m'.last == if born.fiber == m.t then Some(born.serial) else m.last
  {
    FeedThree(BindNext, m, asked, answered, born);
  }

  /** A join answered by the exit it waits for, or on the spot. */
  lemma BindAnswer(s: State, e: Event, m: TargetMonitor)
    requires Inv(s) && Legal(s, e) && BindOk(s, m) && e.Ask? && !e.ask.Spawn? && s.pc.fiber in s.fibers
    requires exists x :: x in Emits(s, e) && AnswerTo(x, m.req.p, m.t)
    ensures BindOk(Step(s, e), Feed(BindNext, m, Emits(s, e)))
  {
    hide Inv, PhaseOk, BindNext;
    DeliverStep(s, e, m.req);
    var es := Emits(s, e);
    BindFollows(m, es);
    AnswerShape(s, e, m.req.p, m.t);
    NewcomersAreBorn(s, e);
    SerialKept(s, e);
    AnswerBinds(m, es[0], es[1], es[2]);
  }

  lemma AnswerShape(s: State, e: Event, p: Ptr, t: Handle)
    requires Legal(s, e) && e.Ask? && s.pc.fiber in s.fibers
    requires exists x :: x in Emits(s, e) && AnswerTo(x, p, t)
    ensures var es := Emits(s, e);
            && |es| == 3 && es == [es[0], es[1], es[2]]
            && !es[0].Born? && !es[0].JoinAnswered? && es[1].JoinAnswered? && es[2].Destroyed?
            && t in s.fibers && (AnswerTo(es[1], p, t) ==> es[1].serial == s.fibers[t].serial)
  {
    hide StepAsk;
  }

  lemma AnswerBinds(m: TargetMonitor, a: Entry, answer: Entry, c: Entry)
    requires m.ok && !a.Born? && !a.JoinAnswered? && answer.JoinAnswered? && c.Destroyed?
    requires AnswerTo(answer, m.req.p, m.t) ==> m.last == Some(answer.serial)
    ensures var m' := Feed(BindNext, m, [a, answer, c]); m'.ok && m'.last == m.last
  {
    FeedThree(BindNext, m, a, answer, c);
    FollowsSame(m.req, [a]);
    FeedOne(RequestNext, m.req, a);
  }

  lemma BindStep(s: State, e: Event, m: TargetMonitor)
    requires Inv(s) && Legal(s, e) && BindOk(s, m)
    ensures BindOk(Step(s, e), Feed(BindNext, m, Emits(s, e)))
  {
    hide Inv, PhaseOk, BindNext;
    if e.Admit? {
      BindAdmit(s, e.fiber, m);
    } else if e.Ask? {
      RunnerExists(s);
      if e.ask.Spawn? {
        BindSpawn(s, e, m);
      } else if exists x :: x in Emits(s, e) && AnswerTo(x, m.req.p, m.t) {
        BindAnswer(s, e, m);
      } else {
        NewcomersAreBorn(s, e);
        NobodyBorn(s, e);
        BindQuietStep(s, e, m);
      }
    } else {
      NewcomersAreBorn(s, e);
      NobodyAnswered(s, e);
      BindQuietStep(s, e, m);
    }
  }

  lemma NobodyBorn(s: State, e: Event)
    requires Legal(s, e) && e.Ask? && !e.ask.Spawn?
    ensures forall x :: x in Emits(s, e) ==> !x.Born?
  {
    hide StepAsk;
  }

  lemma NobodyAnswered(s: State, e: Event)
    requires Legal(s, e) && (e.Tick? || e.Kernel?)
    ensures forall x :: x in Emits(s, e) ==> !x.Born? && !x.JoinAnswered?
  {
    if e.Kernel? {
      KernelEntries(s, e.event);
    }
  }

  /** In every run nobody is born at an address while a join waits on it, and the join is
      answered for the record last born there. */
  lemma {:induction false} JoinsKeepTheirTargets(s: State, es: seq<Event>, p: Ptr, t: Handle)
    requires Inv(s) && s.requests == map[] && s.fibers == map[] && LegalRun(s, es)
    ensures BindOk(Exec(s, es), Feed(BindNext, Bind(Follow(p, 0, Idle), t, None, true), Record(s, es)))
  {
    hide Inv, PhaseOk, BindNext;
    var m := Bind(Follow(p, 0, Idle), t, None, true);
    if es == [] {
      IdleAtFirst(s, p);
    } else {
      var before, last := es[..|es| - 1], es[|es| - 1];
      JoinsKeepTheirTargets(s, before, p, t);
      RunKeeps(s, before);
      FeedAppend(BindNext, m, Record(s, before), Emits(Exec(s, before), last));
      BindStep(Exec(s, before), last, Feed(BindNext, m, Record(s, before)));
    }
  }

  // ---------------------------------------------------------------- calls that return

  predicate WakesFor(x: Entry, p: Ptr) { x.Woken? && x.request == p }

  /** The request at `p` is answered: by a completion, on the spot, or by an exit. */
  predicate RepliesTo(x: Entry, p: Ptr) {
    WakesFor(x, p) || (x.Answered? && x.request == p) || (x.JoinAnswered? && x.request == p)
  }

  /** Follows an answered request: `landing` says that its asker was resumed just now, so that
      the call must return next, and `due` that a sweep began since the answer, so that the
      call must return before another does. */
  datatype ReturnMonitor = Homing(req: RequestMonitor, landing: bool, due: bool, ok: bool)

  function HomingNext(m: ReturnMonitor, x: Entry): ReturnMonitor {
    Homing(RequestNext(m.req, x),
           x.Resumed? && m.req.phase.Replied? && x.serial == m.req.asker,
           if x.SweepBegan? then m.req.phase.Replied? else m.due && !ReturnsFor(x, m.req.p),
           m.ok && (m.landing ==> ReturnsFor(x, m.req.p)) && (x.SweepBegan? ==> !m.due))
  }

  /** The asker is among those the present sweep has still to run. */
  ghost predicate InTurn(s: State, p: Ptr) {
    Turns(s.pc) <= |s.ready| && p in s.requests && s.requests[p].fiber in s.ready[..Turns(s.pc)]
  }

  ghost predicate HomingOk(s: State, m: ReturnMonitor) {
    && m.ok && !m.landing
    && PhaseOk(s, m.req)
    && (m.due && !Halted(s.pc) ==> m.req.phase.Replied? && InTurn(s, m.req.p))
  }

  lemma {:induction false} HomingFollows(m: ReturnMonitor, es: seq<Entry>)
    ensures Feed(HomingNext, m, es).req == Feed(RequestNext, m.req, es)
    ensures Feed(HomingNext, m, es).ok ==> m.ok
    decreases |es|
  {
    hide RequestNext;
    if es != [] {
      HomingFollows(HomingNext(m, es[0]), es[1..]);
    }
  }

  predicate Bystander(x: Entry) { !x.Resumed? && !x.CallReturned? && !x.SweepBegan? }

  lemma {:induction false} HomingQuiet(m: ReturnMonitor, es: seq<Entry>)
    requires !m.landing && forall x :: x in es ==> Bystander(x)
    ensures var m' := Feed(HomingNext, m, es); m'.due == m.due && !m'.landing && m'.ok == m.ok
    decreases |es|
  {
    hide RequestNext;
    if es != [] {
      assert es[0] in es;
      HomingQuiet(HomingNext(m, es[0]), es[1..]);
    }
  }

  /** A request keeps its asker for as long as it exists. */
  lemma AskerKept(s: State, e: Event)
    requires Legal(s, e)
    ensures forall p :: p in s.requests && p in Step(s, e).requests ==> Step(s, e).requests[p].fiber == s.requests[p].fiber
  {
    if e.Ask? {
      hide StepAsk;
      AskKeepsAskers(s, e);
    } else {
      hide KernelStep;
    }
  }

  lemma AskKeepsAskers(s: State, e: Event)
    requires Legal(s, e) && e.Ask?
    ensures forall p :: p in s.requests && p in StepAsk(s, e).requests ==> StepAsk(s, e).requests[p].fiber == s.requests[p].fiber
  {
    if s.pc.fiber in s.fibers {
      match e.ask
      case Exit(status) =>
      case Join(t) =>
      case Detach(t) =>
      case _ =>
    }
  }

  /** Between dispatches the queue only grows and the turns left stay the same. */
  lemma TurnsKept(s: State, e: Event)
    requires Legal(s, e) && !(e.Tick? && (s.pc.Top? || (s.pc.Sweep? && s.pc.turns > 0)))
    ensures var s' := Step(s, e); Halted(s'.pc) || (Turns(s'.pc) == Turns(s.pc) && s.ready <= s'.ready)
  {
    if e.Ask? {
      hide StepAsk;
      AskShape(s, e);
    } else {
      hide KernelStep;
    }
  }

  lemma RepliedExists(s: State, m: RequestMonitor)
    requires PhaseOk(s, m) && m.phase.Replied?
    ensures m.p in s.requests && s.requests[m.p].stage.Done?
    ensures s.requests[m.p].fiber in s.fibers && s.fibers[s.requests[m.p].fiber].serial == m.asker
  {
  }

  lemma HomingQuietStep(s: State, e: Event, m: ReturnMonitor)
    requires Inv(s) && Legal(s, e) && HomingOk(s, m)
    requires forall x :: x in Emits(s, e) ==> Bystander(x)
    requires var s' := Step(s, e); Halted(s'.pc) || (Turns(s'.pc) == Turns(s.pc) && s.ready <= s'.ready)
    ensures HomingOk(Step(s, e), Feed(HomingNext, m, Emits(s, e)))
  {
    hide Inv, Legal, Step, Emits, PhaseOk, HomingNext, RequestNext, Turns;
    var s' := Step(s, e);
    DeliverStep(s, e, m.req);
    HomingFollows(m, Emits(s, e));
    HomingQuiet(m, Emits(s, e));
    AskerKept(s, e);
    var req := Feed(RequestNext, m.req, Emits(s, e));
    NeverBroken(s', req);
    FollowsSame(m.req, Emits(s, e));
    if m.due && !Halted(s'.pc) {
      StillLive(s, e);
      RepliedStays(m.req, Emits(s, e));
      RepliedExists(s', req);
      assert s'.ready[..Turns(s.pc)] == s.ready[..Turns(s.pc)];
    }
  }

  lemma StillLive(s: State, e: Event)
    requires Legal(s, e)
    ensures !Halted(s.pc)
  {
  }

  lemma HomingDispatch(s: State, m: ReturnMonitor)
    requires Inv(s) && s.pc.Sweep? && s.pc.turns > 0 && HomingOk(s, m)
    ensures HomingOk(Step(s, Tick), Feed(HomingNext, m, Emits(s, Tick)))
  {
    hide Frames, Queue, Holding, Copies, Joins, Lives, Cpu, Undecided, Serials, Held, Targets;
    hide PhaseOk;
    var s' := Step(s, Tick);
    KeepDispatch(s, s.pc.turns);
    var h := s.ready[0];
    ReadyFrame(s.fibers, s.requests, s.ready, h);
    DeliverStep(s, Tick, m.req);
    HomingFollows(m, Emits(s, Tick));
    FeedDispatch(HomingNext, m, s);
    FeedDispatch(RequestNext, m.req, s);
    NeverBroken(s', Feed(RequestNext, m.req, Emits(s, Tick)));
    if s.fibers[h].context.Suspended? {
      FrameOwner(s.fibers, s.requests, h);
    }
    if m.req.phase.Replied? {
      RepliedExists(s, m.req);
      OwnFrame(s.fibers, s.requests, m.req.p);
      SerialNames(s, h, s.requests[m.req.p].fiber);
      assert s'.ready[..s.pc.turns - 1] == s.ready[..s.pc.turns][1..];
    }
  }

  lemma SerialNames(s: State, h: Handle, g: Handle)
    requires Inv(s) && h in s.fibers && g in s.fibers
    ensures s.fibers[h].serial == s.fibers[g].serial ==> h == g
  {
    hide Frames, Queue, Holding, Copies, Joins, Lives, Cpu, Undecided, Counts, Control, Held, Targets;
  }

  lemma OwnFrame(fs: Records, rs: Requests, p: Ptr)
    requires Frames(fs, rs) && p in rs
    ensures rs[p].fiber in fs && fs[rs[p].fiber].context == Suspended(p)
  {
  }

  lemma HomingSweep(s: State, m: ReturnMonitor)
    requires Inv(s) && s.pc.Top? && HomingOk(s, m) && Step(s, Tick).pc.Sweep?
    ensures HomingOk(Step(s, Tick), Feed(HomingNext, m, Emits(s, Tick)))
  {
    hide Frames, Queue, Holding, Copies, Joins, Lives, Cpu, Undecided, Serials, Held, Targets;
    hide PhaseOk;
    DeliverStep(s, Tick, m.req);
    HomingFollows(m, Emits(s, Tick));
    FeedOne(HomingNext, m, SweepBegan(s.ready));
    SweepIgnored(m.req, s.ready);
    assert s.ready[..|s.ready|] == s.ready;
    if m.req.phase.Replied? {
      RepliedExists(s, m.req);
      DoneIsQueued(s, m.req.p);
    }
  }

  /** The asker of an answered request is in the queue. */
  lemma DoneIsQueued(s: State, p: Ptr)
    requires Inv(s) && p in s.requests && s.requests[p].stage.Done?
    ensures s.requests[p].fiber in s.ready
  {
    hide Holding, Copies, Joins, Lives, Cpu, Undecided, Serials, Held, Targets, Counts, Control;
    OwnFrame(s.fibers, s.requests, p);
  }

  lemma HomingStep(s: State, e: Event, m: ReturnMonitor)
    requires Inv(s) && Legal(s, e) && HomingOk(s, m)
    ensures HomingOk(Step(s, e), Feed(HomingNext, m, Emits(s, e)))
  {
    hide Inv, HomingOk;
    if e.Tick? && s.pc.Sweep? && s.pc.turns > 0 {
      HomingDispatch(s, m);
    } else if e.Tick? && s.pc.Top? && Step(s, Tick).pc.Sweep? {
      HomingSweep(s, m);
    } else {
      if e.Ask? {
        RunnerExists(s);
        AskEntries(s, e);
      } else if e.Kernel? {
        KernelEntries(s, e.event);
      }
      if !(e.Tick? && s.pc.Top?) {
        TurnsKept(s, e);
      }
      HomingQuietStep(s, e, m);
    }
  }

  /** In every run, once a request is answered, its asker's next resume is the return of that
      call, and at most one sweep begins before it. */
  lemma {:induction false} AnsweredCallsReturn(s: State, es: seq<Event>, p: Ptr)
    requires Inv(s) && s.requests == map[] && LegalRun(s, es)
    ensures HomingOk(Exec(s, es), Feed(HomingNext, Homing(Follow(p, 0, Idle), false, false, true), Record(s, es)))
  {
    hide Inv, PhaseOk, HomingNext;
    var m := Homing(Follow(p, 0, Idle), false, false, true);
    if es == [] {
      IdleAtFirst(s, p);
    } else {
      var before, last := es[..|es| - 1], es[|es| - 1];
      AnsweredCallsReturn(s, before, p);
      RunKeeps(s, before);
      FeedAppend(HomingNext, m, Record(s, before), Emits(Exec(s, before), last));
      HomingStep(Exec(s, before), last, Feed(HomingNext, m, Record(s, before)));
    }
  }
}
