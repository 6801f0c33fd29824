/** A program from the first instruction of the reactor to its verdict: the imperative loop
    inherits what is proved of runs of the machine. */
module EndToEnd {
  import opened Base
  import opened Bits
  import opened Machine
  import opened Invariant
  import opened Ownership
  import opened Deadlock
  import opened Theorems
  import opened Conservation
  import opened Answers
  import opened Ring
  import opened Scheduler

  function Admits(fibers: seq<Handle>): (es: seq<Event>)
    ensures |es| == |fibers| && forall i :: 0 <= i < |es| ==> es[i] == Admit(fibers[i])
  {
    seq(|fibers|, i requires 0 <= i < |fibers| => Admit(fibers[i]))
  }

  /** The caller spawned these, so they are distinct records. */
  ghost predicate Spawned(fibers: seq<Handle>) {
    Distinct(fibers) && 0 !in fibers && |fibers| < TWO32
  }

  /** The machine once these fibers are admitted and nothing has run. */
  ghost predicate Assembled(s: State, fibers: seq<Handle>) {
    s.pc.Top? && |s.fibers| == |fibers| && forall h :: h in s.fibers <==> h in fibers
  }

  lemma AdmitNext(s: State, fibers: seq<Handle>, n: nat)
    requires n < |fibers| && Spawned(fibers) && Assembled(s, fibers[..n])
    ensures Legal(s, Admit(fibers[n])) && Assembled(Step(s, Admit(fibers[n])), fibers[..n + 1])
  {
    assert fibers[n] !in fibers[..n];
    assert fibers[..n + 1] == fibers[..n] + [fibers[n]];
    var s' := Step(s, Admit(fibers[n]));
    assert s'.fibers.Keys == s.fibers.Keys + {fibers[n]};
    assert |s'.fibers| == |s.fibers| + 1;
  }

  /** Before the run: any list of spawned fibers can be admitted. */
  lemma {:induction false} AdmitsLegal(s: State, fibers: seq<Handle>)
    requires Spawned(fibers) && Assembled(s, [])
    ensures LegalRun(s, Admits(fibers)) && Assembled(Exec(s, Admits(fibers)), fibers)
    decreases |fibers|
  {
    hide Legal, Step, Assembled;
    if fibers == [] {
      assert Admits(fibers) == [];
    } else {
      var n := |fibers| - 1;
      AdmitsLegal(s, fibers[..n]);
      assert Admits(fibers)[..n] == Admits(fibers[..n]);
      AdmitNext(Exec(s, Admits(fibers[..n])), fibers, n);
      assert fibers[..n + 1] == fibers;
    }
  }

  lemma BootAssembled(sqEntries: nat, cqEntries: nat)
    ensures Assembled(Boot(sqEntries, cqEntries), [])
  {
  }

  /** The verdict is that of the last event: an exit asked for, with its status, a drained
      reactor without join cycles, or one of the causes of an abort. */
  ghost predicate VerdictOfLast(sqEntries: nat, cqEntries: nat, es: seq<Event>, e: Event, verdict: Verdict)
    requires BootRun(sqEntries, cqEntries, es) && Legal(After(sqEntries, cqEntries, es), e)
    requires e.Ask? ==> After(sqEntries, cqEntries, es).pc.fiber in After(sqEntries, cqEntries, es).fibers
  {
    var s := After(sqEntries, cqEntries, es);
    && (verdict.Aborted? <==> AbortCause(s, Seen(sqEntries, cqEntries, es), e).Some?)
    && (e.Ask? && e.ask.ProcessExit? ==> verdict == ExitCode(e.ask.code))
    && (verdict.ExitCode? <==>
          || (e.Ask? && e.ask.ProcessExit?)
          || (e.Tick? && s.pc.Top? && Quiescent(s) && forall h :: !OnCycle(s, h)))
    && (verdict.ExitCode? && e.Tick? ==> verdict.status == 0)
  }

  lemma VerdictHolds(sqEntries: nat, cqEntries: nat, es: seq<Event>, e: Event)
    requires BootRun(sqEntries, cqEntries, es + [e])
    ensures BootRun(sqEntries, cqEntries, es)
    ensures var s := After(sqEntries, cqEntries, es);
            && Legal(s, e) && (e.Ask? ==> s.pc.fiber in s.fibers)
            && VerdictOfLast(sqEntries, cqEntries, es, e, VerdictOf(After(sqEntries, cqEntries, es + [e]).pc))
  {
    hide Legal, LegalRun, Exec, AbortCause, OnCycle;
    AbortsExactly(sqEntries, cqEntries, es, e);
    ReturnsExactly(sqEntries, cqEntries, es, e);
  }

  /** What the caller may rely on when the reactor is through with a history `es`. */
  ghost predicate Outcome(sqEntries: nat, cqEntries: nat, es: seq<Event>, verdict: Verdict)
    requires BootRun(sqEntries, cqEntries, es)
  {
    var s := After(sqEntries, cqEntries, es);
    var r := Seen(sqEntries, cqEntries, es);
    && verdict == VerdictOf(s.pc)
    && (es == [] ==> verdict.StillRunning?)
    && (es != [] ==>
          var before, last := es[..|es| - 1], es[|es| - 1];
          && BootRun(sqEntries, cqEntries, before) && Legal(After(sqEntries, cqEntries, before), last)
          && (last.Ask? ==> After(sqEntries, cqEntries, before).pc.fiber in After(sqEntries, cqEntries, before).fibers)
          && VerdictOfLast(sqEntries, cqEntries, before, last, verdict))
    && (verdict.Aborted? ==> s.pc.reason != Fault && s.pc.reason != SubmissionFull)
    && (s.pc == Trapped(JoinCycle, Top) ==> JoinFibers(s) != {} && forall h :: h in JoinFibers(s) ==> OnCycle(s, h))
    && (s.pc == Returned(0, Top) ==>
          forall n: nat :: HasBegun(r, n) ==> HasEnded(r, n) && (ReleasedOnce(r, n) <==> Disposed(r, n)))
    && forall n: nat :: ReleasedOnce(r, n) <==> HasEnded(r, n) && Disposed(r, n)
  }

  lemma OutcomeHolds(sqEntries: nat, cqEntries: nat, es: seq<Event>)
    requires BootRun(sqEntries, cqEntries, es)
    ensures Outcome(sqEntries, cqEntries, es, VerdictOf(After(sqEntries, cqEntries, es).pc))
  {
    hide LegalRun, HasBegun, HasEnded, Disposed, ReleasedOnce, OnCycle, VerdictOfLast, Legal, Step;
    var s := After(sqEntries, cqEntries, es);
    if es != [] {
      assert es[..|es| - 1] + [es[|es| - 1]] == es;
      VerdictHolds(sqEntries, cqEntries, es[..|es| - 1], es[|es| - 1]);
    }
    EveryRunIsSafe(sqEntries, cqEntries, es);
    if s.pc == Trapped(JoinCycle, Top) {
      AbortMeansCycle(sqEntries, cqEntries, es);
    }
    forall n: nat
      ensures ReleasedOnce(Seen(sqEntries, cqEntries, es), n) <==>
              HasEnded(Seen(sqEntries, cqEntries, es), n) && Disposed(Seen(sqEntries, cqEntries, es), n)
    {
      EveryRecordAccounted(sqEntries, cqEntries, es, n);
    }
    if s.pc == Returned(0, Top) {
      forall n: nat | HasBegun(Seen(sqEntries, cqEntries, es), n)
        ensures HasEnded(Seen(sqEntries, cqEntries, es), n)
        ensures ReleasedOnce(Seen(sqEntries, cqEntries, es), n) <==> Disposed(Seen(sqEntries, cqEntries, es), n)
      {
        DrainedRunAccounts(sqEntries, cqEntries, es, n);
      }
    }
  }

  /** Become a scheduler, enqueue the fibers, run. What the loop used of the history and the
      admissions before it are a run from boot, the reactor is where that run ends, and every
      result about such runs holds of it. */
  method Launch(sqEntries: nat, ghost shift: nat, cqEntries: nat, head: nat, fibers: seq<Handle>, script: seq<Event>)
    returns (reactor: Reactor, verdict: Verdict, used: nat)
    requires shift < 32 && cqEntries == Pow2(shift) && head < TWO32
    requires Spawned(fibers)
    requires BootRun(sqEntries, cqEntries, Admits(fibers) + script)
    requires forall e :: e in script ==> !e.Admit?
    ensures used <= |script| && (verdict.StillRunning? ==> used == |script|)
    ensures BootRun(sqEntries, cqEntries, Admits(fibers) + script[..used])
    ensures reactor.Valid() && reactor.model == After(sqEntries, cqEntries, Admits(fibers) + script[..used])
    ensures Outcome(sqEntries, cqEntries, Admits(fibers) + script[..used], verdict)
  {
    hide Inv, Legal, Step, LegalRun, Exec, Assembled, Outcome, Pow2;
    var ring := new RingBuffer(sqEntries, shift, cqEntries, head);
    reactor := new Reactor(ring);
    ghost var s := reactor.model;
    BootAssembled(sqEntries, cqEntries);
    AdmitsLegal(s, fibers);
    assert Admits(fibers)[..0] == [];
    NoEvents(s);
    for n := 0 to |fibers|
      invariant reactor.Valid() && LegalRun(s, Admits(fibers)[..n])
      invariant reactor.model == Exec(s, Admits(fibers)[..n])
      modifies reactor
    {
      AdmitAt(s, fibers, n);
      reactor.Admit(fibers[n]);
    }
    assert Admits(fibers)[..|fibers|] == Admits(fibers);
    SplitRun(s, Admits(fibers), script);
    AssembledTop(reactor.model, fibers);
    verdict, used := reactor.Run(script);
    RunAppend(s, Admits(fibers), script[..used]);
    OutcomeHolds(sqEntries, cqEntries, Admits(fibers) + script[..used]);
  }

  lemma NoEvents(s: State)
    ensures LegalRun(s, []) && Exec(s, []) == s
  {
  }

  lemma AssembledTop(s: State, fibers: seq<Handle>)
    requires Assembled(s, fibers)
    ensures s.pc.Top?
  {
  }

  lemma AdmitAt(s: State, fibers: seq<Handle>, n: nat)
    requires LegalRun(s, Admits(fibers)) && n < |fibers| && LegalRun(s, Admits(fibers)[..n])
    ensures Legal(Exec(s, Admits(fibers)[..n]), Admit(fibers[n]))
    ensures LegalRun(s, Admits(fibers)[..n + 1])
    ensures Exec(s, Admits(fibers)[..n + 1]) == Step(Exec(s, Admits(fibers)[..n]), Admit(fibers[n]))
  {
    hide Legal, Step;
    LegalRunPrefix(s, Admits(fibers), n + 1);
    assert Admits(fibers)[..n + 1][..n] == Admits(fibers)[..n];
  }
}
