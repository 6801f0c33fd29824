/** The transfer of control in src/fiber/fiber.c: a resume may run inside a fiber that was
    itself resumed, and every suspension finds its way back through memory alone. */
module Nesting {
  import opened Base

  /** `return_to` holds the address of the resumer's frame while a resume is pending. */
  datatype Link = Link(threadPointer: nat, returnTo: Option<nat>)

  /** The local variables of a pending `__libuc_fiber_resume`. */
  datatype Pending = Pending(fiber: Handle, callerThreadPointer: nat)

  /** `threadPointer` is the thread register, `tcbs` the fiber word of each block. */
  datatype Cpu = Cpu(
    threadPointer: nat,
    links: map<Handle, Link>,
    frames: map<nat, Pending>,
    tcbs: map<nat, Handle>)

  datatype Op =
    /** `__libuc_fiber_resume(fiber)` with its frame at `here`. */
    | Resume(fiber: Handle, here: nat)
    /** The current fiber suspends, whichever call it does it through. */
    | Suspend

  /** `__libuc_fiber_current`. */
  function Current(c: Cpu): Option<Handle> {
    if c.threadPointer == 0 || c.threadPointer !in c.tcbs then None else Some(c.tcbs[c.threadPointer])
  }

  /** Nothing stands for an access through a null or stale pointer. */
  function Transfer(c: Cpu, op: Op): Option<Cpu> {
    match op
    case Resume(f, here) =>
      if f !in c.links then None
      else
        Some(Cpu(c.links[f].threadPointer,
                 c.links[f := c.links[f].(returnTo := Some(here))],
                 c.frames[here := Pending(f, c.threadPointer)],
                 c.tcbs))
    case Suspend =>
      if Current(c).None? || Current(c).value !in c.links then None
      else
        var back := c.links[Current(c).value].returnTo;
        if back.None? || back.value !in c.frames || c.frames[back.value].fiber !in c.links then None
        else
          var pending := c.frames[back.value];
          Some(Cpu(pending.callerThreadPointer,
                   c.links[pending.fiber := c.links[pending.fiber].(returnTo := None)],
                   c.frames - {back.value},
                   c.tcbs))
  }

  ghost function History(c: Cpu, ops: seq<Op>): Option<Cpu> {
    if ops == [] then Some(c)
    else
      var before := History(c, ops[..|ops| - 1]);
      if before.None? then None else Transfer(before.value, ops[|ops| - 1])
  }

  /** The resumes still pending, outermost first, with the frames they run in. */
  ghost function Chain(ops: seq<Op>): seq<(Handle, nat)> {
    if ops == [] then []
    else
      var before := Chain(ops[..|ops| - 1]);
      match ops[|ops| - 1]
      case Resume(f, here) => before + [(f, here)]
      case Suspend => if before == [] then [] else before[..|before| - 1]
  }

  /** Only fibers that are not already on the chain are resumed, each pending resume has a
      frame of its own, and nobody suspends outside a fiber. */
  ghost predicate WellNested(c: Cpu, ops: seq<Op>) {
    ops == [] ||
    (var before := Chain(ops[..|ops| - 1]);
     && WellNested(c, ops[..|ops| - 1])
     && match ops[|ops| - 1]
        case Resume(f, here) => f in c.links && forall x :: x in before ==> x.0 != f && x.1 != here
        case Suspend => before != [])
  }

  /** Before any resume; every fiber has a block of its own that names it. */
  ghost predicate Quiet(c: Cpu) {
    && c.frames == map[]
    && (forall f :: f in c.links ==>
          && c.links[f].returnTo.None?
          && c.links[f].threadPointer != 0
          && c.links[f].threadPointer in c.tcbs
          && c.tcbs[c.links[f].threadPointer] == f)
  }

  /** The thread pointer in force at the end of a chain. */
  ghost function PointerAt(c: Cpu, chain: seq<(Handle, nat)>): nat {
    if chain == [] || chain[|chain| - 1].0 !in c.links then c.threadPointer
    else c.links[chain[|chain| - 1].0].threadPointer
  }

  ghost predicate OnChain(chain: seq<(Handle, nat)>, f: Handle) {
    exists x :: x in chain && x.0 == f
  }

  ghost predicate SameBlocks(c: Cpu, d: Cpu) {
    && d.tcbs == c.tcbs && d.links.Keys == c.links.Keys
    && forall f :: f in c.links ==> d.links[f].threadPointer == c.links[f].threadPointer
  }

  ghost predicate Apart(c: Cpu, chain: seq<(Handle, nat)>) {
    && (forall i, j :: 0 <= i < j < |chain| ==> chain[i].0 != chain[j].0 && chain[i].1 != chain[j].1)
    && (forall i :: 0 <= i < |chain| ==> chain[i].0 in c.links)
  }

  /** Level `i` of the chain can find its way back. */
  ghost predicate Level(c: Cpu, d: Cpu, chain: seq<(Handle, nat)>, i: int)
    requires 0 <= i < |chain|
  {
    && chain[i].0 in d.links
    && d.links[chain[i].0].returnTo == Some(chain[i].1)
    && chain[i].1 in d.frames
    && d.frames[chain[i].1] == Pending(chain[i].0, PointerAt(c, chain[..i]))
  }

  ghost predicate Clear(d: Cpu, chain: seq<(Handle, nat)>) {
    forall f :: f in d.links && !OnChain(chain, f) ==> d.links[f].returnTo.None?
  }

  /** What the memory looks like with this chain pending, starting from `c`. */
  ghost predicate Shows(c: Cpu, d: Cpu, chain: seq<(Handle, nat)>) {
    && SameBlocks(c, d)
    && Apart(c, chain)
    && d.threadPointer == PointerAt(c, chain)
    && (forall i :: 0 <= i < |chain| ==> Level(c, d, chain, i))
    && Clear(d, chain)
  }

  lemma ResumeShows(c: Cpu, d: Cpu, chain: seq<(Handle, nat)>, f: Handle, here: nat)
    requires Shows(c, d, chain) && f in c.links && forall x :: x in chain ==> x.0 != f && x.1 != here
    ensures Transfer(d, Resume(f, here)).Some?
    ensures Shows(c, Transfer(d, Resume(f, here)).value, chain + [(f, here)])
  {
    var next := chain + [(f, here)];
    var d' := Transfer(d, Resume(f, here)).value;
    assert next[|chain|] == (f, here);
    assert Apart(c, next) by {
      hide Level, Clear, PointerAt;
      assert forall i :: 0 <= i < |chain| ==> next[i] in chain;
    }
    forall i | 0 <= i < |next|
      ensures Level(c, d', next, i)
    {
      hide Clear, PointerAt, Apart, SameBlocks, Level, Transfer;
      LevelMore(c, d, chain, f, here, i);
    }
    assert Clear(d', next) by {
      hide Level, PointerAt, Apart, SameBlocks;
      ClearMore(d, d', chain, f, here);
    }
  }

  lemma LevelMore(c: Cpu, d: Cpu, chain: seq<(Handle, nat)>, f: Handle, here: nat, i: int)
    requires f in d.links && (forall x :: x in chain ==> x.0 != f && x.1 != here) && 0 <= i <= |chain|
    requires i < |chain| ==> Level(c, d, chain, i)
    requires d.threadPointer == PointerAt(c, chain)
    ensures Level(c, Transfer(d, Resume(f, here)).value, chain + [(f, here)], i)
  {
    hide PointerAt;
    var next := chain + [(f, here)];
    if i < |chain| {
      assert next[i] == chain[i] && chain[i] in chain && next[..i] == chain[..i];
    } else {
      assert next[..i] == chain;
    }
  }

  lemma ClearMore(d: Cpu, d': Cpu, chain: seq<(Handle, nat)>, f: Handle, here: nat)
    requires Clear(d, chain) && d'.links.Keys == d.links.Keys
    requires forall g :: g in d.links && g != f ==> d'.links[g] == d.links[g]
    ensures Clear(d', chain + [(f, here)])
  {
    var next := chain + [(f, here)];
    assert (f, here) in next;
    forall g | g in d'.links && !OnChain(next, g)
      ensures d'.links[g].returnTo.None?
    {
      assert forall x :: x in chain ==> x in next;
    }
  }

  lemma SuspendShows(c: Cpu, d: Cpu, chain: seq<(Handle, nat)>)
    requires Quiet(c) && Shows(c, d, chain) && chain != []
    ensures Current(d) == Some(chain[|chain| - 1].0)
    ensures Transfer(d, Suspend).Some?
    ensures Shows(c, Transfer(d, Suspend).value, chain[..|chain| - 1])
  {
    var n := |chain| - 1;
    var rest := chain[..n];
    assert Level(c, d, chain, n);
    var d' := Transfer(d, Suspend).value;
    forall i | 0 <= i < n
      ensures Level(c, d', rest, i)
    {
      hide Clear, PointerAt;
      assert Level(c, d, chain, i) && rest[i] == chain[i] && rest[..i] == chain[..i];
    }
    assert Clear(d', rest) by {
      hide Level, PointerAt, Apart, SameBlocks;
      ClearLess(d, d', chain);
    }
  }

  lemma ClearLess(d: Cpu, d': Cpu, chain: seq<(Handle, nat)>)
    requires chain != [] && Clear(d, chain) && d'.links.Keys == d.links.Keys
    requires forall g :: g in d.links && g != chain[|chain| - 1].0 ==> d'.links[g] == d.links[g]
    requires chain[|chain| - 1].0 in d'.links ==> d'.links[chain[|chain| - 1].0].returnTo.None?
    ensures Clear(d', chain[..|chain| - 1])
  {
    forall g | g in d'.links && !OnChain(chain[..|chain| - 1], g)
      ensures d'.links[g].returnTo.None?
    {
      if g != chain[|chain| - 1].0 {
        NotOnChain(chain, g);
      }
    }
  }

  lemma NotOnChain(chain: seq<(Handle, nat)>, g: Handle)
    requires chain != [] && !OnChain(chain[..|chain| - 1], g) && g != chain[|chain| - 1].0
    ensures !OnChain(chain, g)
  {
    forall x | x in chain
      ensures x.0 != g
    {
      var i :| 0 <= i < |chain| && chain[i] == x;
      if i < |chain| - 1 {
        assert chain[..|chain| - 1][i] == x;
      }
    }
  }

  /** After every well-nested history nothing has faulted, the current fiber is the
      innermost resumed one, `return_to` is set exactly along the chain, and the thread
      pointer is the one in force there, so each resume restores its caller's. */
  lemma {:induction false} NestedResumes(c: Cpu, ops: seq<Op>)
    requires Quiet(c) && WellNested(c, ops)
    ensures History(c, ops).Some?
    ensures Shows(c, History(c, ops).value, Chain(ops))
    ensures Chain(ops) != [] ==> Current(History(c, ops).value) == Some(Chain(ops)[|Chain(ops)| - 1].0)
  {
    hide Shows;
    if ops == [] {
      QuietShows(c);
    } else {
      var before := ops[..|ops| - 1];
      NestedResumes(c, before);
      match ops[|ops| - 1]
      case Resume(f, here) => ResumeShows(c, History(c, before).value, Chain(before), f, here);
      case Suspend => SuspendShows(c, History(c, before).value, Chain(before));
    }
    if Chain(ops) != [] {
      SuspendShows(c, History(c, ops).value, Chain(ops));
    }
  }

  lemma QuietShows(c: Cpu)
    requires Quiet(c)
    ensures Shows(c, c, [])
  {
  }

  /** Whatever happens in between, a suspension back to the same chain finds the thread
      pointer that the resume found. */
  lemma ResumeRestores(c: Cpu, ops: seq<Op>, more: seq<Op>)
    requires Quiet(c) && WellNested(c, ops) && WellNested(c, ops + more) && Chain(ops + more) == Chain(ops)
    ensures History(c, ops).Some? && History(c, ops + more).Some?
    ensures History(c, ops + more).value.threadPointer == History(c, ops).value.threadPointer
  {
    NestedResumes(c, ops);
    NestedResumes(c, ops + more);
  }

  lemma {:induction false} NestedPrefix(c: Cpu, ops: seq<Op>, n: nat)
    requires WellNested(c, ops) && n <= |ops|
    ensures WellNested(c, ops[..n])
    decreases |ops|
  {
    if n == |ops| {
      assert ops[..n] == ops;
    } else {
      NestedPrefix(c, ops[..|ops| - 1], n);
      assert ops[..|ops| - 1][..n] == ops[..n];
    }
  }

  /** The same transfers on mutable memory. */
  class Core {
    var threadPointer: nat
    var links: map<Handle, Link>
    var frames: map<nat, Pending>
    var tcbs: map<nat, Handle>

    function View(): Cpu
      reads this
    {
      Cpu(threadPointer, links, frames, tcbs)
    }

    constructor (threadPointer: nat, links: map<Handle, Link>, tcbs: map<nat, Handle>)
      ensures View() == Cpu(threadPointer, links, map[], tcbs)
    {
      this.threadPointer, this.links, this.frames, this.tcbs := threadPointer, links, map[], tcbs;
    }

    /** `__libuc_fiber_resume` up to the switch. */
    method SwitchIn(fiber: Handle, here: nat)
      requires fiber in links
      modifies this`threadPointer, this`links, this`frames
      ensures Some(View()) == Transfer(old(View()), Resume(fiber, here))
    {
      links := links[fiber := links[fiber].(returnTo := Some(here))];
      frames := frames[here := Pending(fiber, threadPointer)];
      threadPointer := links[fiber].threadPointer;
    }

    /** A suspending call and the rest of the resume it returns to. */
    method SwitchBack()
      requires Transfer(View(), Suspend).Some?
      modifies this`threadPointer, this`links, this`frames
      ensures Some(View()) == Transfer(old(View()), Suspend)
    {
      var current := tcbs[threadPointer];
      var here := links[current].returnTo.value;
      var pending := frames[here];
      frames := frames - {here};
      threadPointer := pending.callerThreadPointer;
      links := links[pending.fiber := links[pending.fiber].(returnTo := None)];
    }

    /** Any well-nested history of resumes and suspensions, carried out in memory: no access
        goes astray, and at the end memory shows exactly the resumes still pending. */
    method Perform(ops: seq<Op>)
      requires Quiet(View()) && WellNested(View(), ops)
      modifies this`threadPointer, this`links, this`frames
      ensures Some(View()) == History(old(View()), ops)
      ensures Shows(old(View()), View(), Chain(ops))
      ensures Chain(ops) == [] ==> View().threadPointer == old(View()).threadPointer
      ensures Chain(ops) != [] ==> Current(View()) == Some(Chain(ops)[|Chain(ops)| - 1].0)
    {
      hide Quiet, Shows, Transfer, Current;
      ghost var start := View();
      for n := 0 to |ops|
        invariant Some(View()) == History(start, ops[..n])
      {
        NestedPrefix(start, ops, n + 1);
        NestedResumes(start, ops[..n + 1]);
        assert ops[..n + 1][..n] == ops[..n];
        match ops[n] {
        case Resume(fiber, here) =>
          Reaches(View(), fiber, here);
          SwitchIn(fiber, here);
        case Suspend =>
          SwitchBack();
        }
      }
      assert ops[..|ops|] == ops;
      NestedResumes(start, ops);
      EmptyChain(start, View(), Chain(ops));
    }
  }

  /** The same from a given memory, with what it shows at the end. */
  method Replay(c: Cpu, ops: seq<Op>) returns (d: Cpu)
    requires Quiet(c) && WellNested(c, ops)
    ensures Some(d) == History(c, ops) && Shows(c, d, Chain(ops))
    ensures Chain(ops) == [] ==> d.threadPointer == c.threadPointer
    ensures Chain(ops) != [] ==> Current(d) == Some(Chain(ops)[|Chain(ops)| - 1].0)
  {
    var core := new Core(c.threadPointer, c.links, c.tcbs);
    assert core.View() == c;
    core.Perform(ops);
    d := core.View();
  }

  lemma Reaches(c: Cpu, fiber: Handle, here: nat)
    requires Transfer(c, Resume(fiber, here)).Some?
    ensures fiber in c.links
  {
  }

  lemma EmptyChain(c: Cpu, d: Cpu, chain: seq<(Handle, nat)>)
    requires Shows(c, d, chain)
    ensures chain == [] ==> d.threadPointer == c.threadPointer
  {
  }
}
