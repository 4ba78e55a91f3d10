/** The asynchronous context against the list of its calls alone: what a resolved slot means for the values last set. */
module AsyncHistory {
  import opened Basics
  import Edges
  import opened AsyncModel
  import opened AsyncProofs
  import opened AsyncSteps
  import opened AsyncRuns

  // -- what the calls say -------------------------------------------------------------------------------

  /** The sources with the values last taken, the computes as they were given, and the open batches. */
  datatype Book = Book(sources: map<Id, Value>, computes: map<Id, Prog>, next: Id, depth: nat)

  const BLANK := Book(map[], map[], 1, 0)

  /** A value set is taken unless the comparison takes it for the one held. */
  function Entered(g: Plan, b: Book, step: Step): Book {
    match step
    case MakeSource(v) => b.(sources := b.sources[b.next := v], next := b.next + 1)
    case MakeComputed(p) => b.(computes := b.computes[b.next := p], next := b.next + 1)
    case Set(x, v) => if x in b.sources && !g.same(b.sources[x], v) then b.(sources := b.sources[x := v]) else b
    case Begin => b.(depth := b.depth + 1)
    case End => b.(depth := if b.depth > 0 then b.depth - 1 else 0)
    case GetAsync(_) => b
    case Tick(_) => b
  }

  function Booked(g: Plan, steps: seq<Step>): Book
    decreases |steps|
  {
    if steps == [] then BLANK else Entered(g, Booked(g, steps[..|steps| - 1]), steps[|steps| - 1])
  }

  /** The value of a node by its compute and the sources, everything computed anew. */
  function Meaning(g: Plan, b: Book, x: Id): Option<Value>
    decreases g.rank(x), 1
  {
    if x in b.sources then Some(b.sources[x])
    else if x in b.computes then MeaningOf(g, b, x, b.computes[x])
    else None
  }

  function MeaningOf(g: Plan, b: Book, x: Id, p: Prog): Option<Value>
    decreases g.rank(x), 0, p
  {
    match p
    case Ret(v) => Some(v)
    case Read(d, next) =>
      if g.rank(d) >= g.rank(x) then None
      else
        var v := Meaning(g, b, d);
        if v.None? || v.value !in next then None else MeaningOf(g, b, x, next[v.value])
  }

  // -- what steps leave of a node ---------------------------------------------------------------------------

  /** The same source with its value, or the same compute. */
  predicate SameCore(m: Node, n: Node) {
    match m
    case Cell(v, _) => n.Cell? && n.value == v
    case Slot(p, _, _, _, _) => n.Slot? && n.compute == p
  }

  ghost predicate SameGiven(s: State, t: State) {
    && t.nodes.Keys == s.nodes.Keys && t.nextId == s.nextId && t.depth == s.depth
    && forall x :: x in s.nodes ==> SameCore(s.nodes[x], t.nodes[x])
  }

  lemma SameGivenTrans(s: State, t: State, u: State)
    requires SameGiven(s, t) && SameGiven(t, u)
    ensures SameGiven(s, u)
  {
    forall x | x in s.nodes ensures SameCore(s.nodes[x], u.nodes[x]) {
      assert SameCore(s.nodes[x], t.nodes[x]) && x in t.nodes && SameCore(t.nodes[x], u.nodes[x]);
    }
  }

  lemma CutGiven(s: State, t: State)
    requires Trimmed(s, t)
    ensures SameGiven(s, t)
  {
    forall x | x in s.nodes ensures SameCore(s.nodes[x], t.nodes[x]) {
      assert NodeCut(s.nodes[x], t.nodes[x]);
    }
  }

  lemma RewiredGiven(s: State, t: State, x: Id)
    requires Rewired(s, t, x)
    ensures SameGiven(s, t)
  {
    forall y | y in s.nodes ensures SameCore(s.nodes[y], t.nodes[y]) {
      assert SameButEdges(s.nodes[y], t.nodes[y]);
    }
  }

  // -- the state holds what the calls said ------------------------------------------------------------------

  ghost predicate Holds(b: Book, s: State) {
    && b.next == s.nextId && b.depth == s.depth
    && (forall x :: x in b.sources <==> IsCell(s, x)) && (forall x :: x in b.sources ==> b.sources[x] == s.nodes[x].value)
    && (forall x :: x in b.computes <==> IsSlot(s, x)) && (forall x :: x in b.computes ==> b.computes[x] == s.nodes[x].compute)
  }

  lemma HoldsSame(b: Book, s: State, t: State)
    requires Holds(b, s) && SameGiven(s, t)
    ensures Holds(b, t)
  {
    forall x | x in s.nodes || x in t.nodes ensures x in s.nodes && x in t.nodes && SameCore(s.nodes[x], t.nodes[x]) {
      assert x in s.nodes.Keys <==> x in t.nodes.Keys;
    }
  }

  lemma DemandGiven(g: Plan, s: State, x: Id)
    requires Frame(g, s) && IsSlot(s, x)
    ensures SameGiven(s, Demand(s, x))
  {
    hide EdgesOk, NodesOk, RunsOk, Rewired;
    if IsEmpty(s, x) {
      ClearRewires(g, s, x);
      var s1 := ClearDeps(s, x);
      RewiredGiven(s, s1, x);
      RewiredReads(s, s1, x);
      assert Demand(s, x) == Begun(s1, x);
      SameGivenTrans(s, s1, Begun(s1, x));
    }
  }

  lemma AwaitGiven(g: Plan, s: State, r: RunId, d: Id)
    requires Frame(g, s) && r in s.runs && s.runs[r].rest.Read? && IsSlot(s, d)
    ensures SameGiven(s, Await(s, r, d))
  {
    hide Frame, Demand;
    DemandGiven(g, s, d);
  }

  lemma AdvanceGiven(g: Plan, s: State, r: RunId)
    requires Frame(g, s) && r in s.runs
    ensures SameGiven(s, Advance(s, r))
  {
    hide Await, Rewired, NodesOk, EdgesOk, Register, Complete;
    var run := s.runs[r];
    assert RunOk(g, s, r);
    if run.done {
    } else if run.wait.Some? {
      if s.runs[run.wait.value].notice.Superseded? {
        AwaitGiven(g, s, r, run.rest.id);
      }
    } else if run.rest.Ret? {
      CompleteEnds(g, s, r, run.rest.result);
      EndsGiven(s, Complete(s, r, run.rest.result), r);
    } else {
      ReadGiven(g, s, r);
    }
  }

  lemma EndsGiven(s: State, t: State, r: RunId)
    requires r in s.runs && Ends(s, t, r)
    ensures SameGiven(s, t)
  {
    var x := s.runs[r].owner;
    forall y | y in s.nodes ensures SameCore(s.nodes[y], t.nodes[y]) {
      assert y != x ==> t.nodes[y] == s.nodes[y];
    }
  }

  lemma ReadGiven(g: Plan, s: State, r: RunId)
    requires Frame(g, s) && r in s.runs && !s.runs[r].done && s.runs[r].wait.None? && s.runs[r].rest.Read?
    ensures SameGiven(s, Advance(s, r))
  {
    hide Await, Frame, Rewired;
    var run := s.runs[r];
    var d := run.rest.id;
    ReadsLower(g, s, r);
    RegisterRewires(g, s, d, run.owner);
    var s1 := Register(s, d, run.owner);
    RewiredFrame(g, s, s1, run.owner);
    RewiredGiven(s, s1, run.owner);
    if s1.nodes[d].Slot? {
      AwaitGiven(g, s1, r, d);
      SameGivenTrans(s, s1, Await(s1, r, d));
    } else {
      SameGivenTrans(s, s1, Receive(s1, r, s1.nodes[d].value));
    }
  }

  /** What a run reads next exists and ranks below its slot. */
  lemma ReadsLower(g: Plan, s: State, r: RunId)
    requires Frame(g, s) && r in s.runs && s.runs[r].rest.Read?
    ensures IsSlot(s, s.runs[r].owner) && s.runs[r].rest.id in s.nodes && s.runs[r].rest.id != s.runs[r].owner
    ensures g.rank(s.runs[r].rest.id) < g.rank(s.runs[r].owner) && EdgesOk(g, s)
  {
    assert RunOk(g, s, r);
  }

  lemma StepHolds(g: Plan, b: Book, s: State, step: Step)
    requires Inv(g, s) && Holds(b, s) && Legal(g, s, step)
    ensures Holds(Entered(g, b, step), Next(g, s, step))
  {
    hide Frame, Coherent, Write, EndBatch, Demand, Advance, Reads, Holds, SameGiven;
    match step
    case MakeSource(v) => NewHolds(g, b, s, step);
    case MakeComputed(p) => NewHolds(g, b, s, step);
    case Set(x, v) => SetHolds(g, b, s, x, v);
    case Begin => DepthHolds(b, s, s.depth + 1);
    case End =>
      DepthHolds(b, s, s.depth);
      if s.depth > 0 {
        EndHolds(g, b, s);
      }
    case GetAsync(x) =>
      if IsSlot(s, x) {
        DemandGiven(g, s, x);
        HoldsSame(b, s, Demand(s, x));
      }
    case Tick(r) =>
      if r in s.runs && s.depth == 0 {
        AdvanceGiven(g, s, r);
        HoldsSame(b, s, Advance(s, r));
      }
  }

  lemma DepthHolds(b: Book, s: State, depth: nat)
    requires Holds(b, s)
    ensures Holds(b.(depth := depth), s.(depth := depth)) && b.depth == s.depth
  {
  }

  lemma NewHolds(g: Plan, b: Book, s: State, step: Step)
    requires Inv(g, s) && Holds(b, s) && (step.MakeSource? || step.MakeComputed?)
    ensures Holds(Entered(g, b, step), Next(g, s, step))
  {
    hide Coherent, EdgesOk, RunsOk, TokensOk, Reads;
    assert s.nextId !in s.nodes;
  }

  lemma SetHolds(g: Plan, b: Book, s: State, x: Id, v: Value)
    requires Inv(g, s) && Holds(b, s)
    ensures Holds(Entered(g, b, Set(x, v)), Next(g, s, Set(x, v)))
  {
    hide Frame, Coherent, Invalidate, SameGiven, Trimmed, Spread;
    if IsCell(s, x) && !g.same(s.nodes[x].value, v) {
      var s1 := Put(s, x, s.nodes[x].(value := v));
      if s.depth == 0 {
        StoreOk(g, s, x, v, s.batched);
        InvalidateOk(g, s1, x);
        var t := Invalidate(g, s1, g.rank(x), Dependents(s1, x));
        CutGiven(s1, t);
        HoldsSame(b.(sources := b.sources[x := v]), s1, t);
      }
    }
  }

  lemma EndHolds(g: Plan, b: Book, s: State)
    requires Inv(g, s) && Holds(b, s) && s.depth > 0
    ensures Holds(Entered(g, b, End), EndBatch(g, s))
  {
    hide Frame, Coherent, Upward, Owners, Spread, Trimmed, SameGiven, InvalidateCells;
    var s1 := s.(depth := s.depth - 1);
    if s1.depth == 0 {
      var s2 := s1.(batched := []);
      EndFrame(g, s);
      FrameGives(g, s2);
      InvalidateCellsCut(g, s2, s.batched);
      var t := InvalidateCells(g, s2, s.batched);
      CutGiven(s2, t);
      assert Holds(Entered(g, b, End), s2);
      HoldsSame(Entered(g, b, End), s2, t);
    }
  }

  lemma {:induction false} BookHolds(g: Plan, steps: seq<Step>)
    ensures match Reach(g, steps) case None => true case Some(s) => Inv(g, s) && Holds(Booked(g, steps), s)
    decreases |steps|
  {
    hide Inv, Legal, Next, Holds, Entered;
    ReachOk(g, steps);
    if steps == [] {
      BlankHolds();
    } else {
      var before := steps[..|steps| - 1];
      BookHolds(g, before);
      var r := Reach(g, before);
      if r.Some? && Legal(g, r.value, steps[|steps| - 1]) {
        StepHolds(g, Booked(g, before), r.value, steps[|steps| - 1]);
      }
    }
  }

  lemma BlankHolds()
    ensures Holds(BLANK, START)
  {
  }

  lemma {:induction false} MeaningIs(g: Plan, b: Book, s: State, x: Id)
    requires Holds(b, s)
    ensures Eval(g, s, x) == Meaning(g, b, x)
    decreases g.rank(x), 1
  {
    if IsSlot(s, x) {
      MeaningOfIs(g, b, s, x, s.nodes[x].compute);
    }
  }

  lemma {:induction false} MeaningOfIs(g: Plan, b: Book, s: State, x: Id, p: Prog)
    requires Holds(b, s)
    ensures EvalProg(g, s, x, p) == MeaningOf(g, b, x, p)
    decreases g.rank(x), 0, p
  {
    hide Holds;
    match p
    case Ret(_) =>
    case Read(d, next) =>
      if g.rank(d) < g.rank(x) {
        MeaningIs(g, b, s, d);
        var v := Eval(g, s, d);
        if v.Some? && v.value in next {
          MeaningOfIs(g, b, s, x, next[v.value]);
        }
      }
  }

  /** What is stored, outside a batch, is what the calls mean. */
  lemma StoredMeans(g: Plan, b: Book, s: State, x: Id)
    requires Inv(g, s) && Holds(b, s) && s.depth == 0 && Cached(s, x).Some?
    ensures Cached(s, x) == Meaning(g, b, x)
  {
    hide Inv, Holds, Eval, Meaning;
    CachedIsEval(g, s, x);
    MeaningIs(g, b, s, x);
  }

  /**
   After any legal run a source holds the value last taken, inside a batch or out, and outside a batch a
   resolved slot holds what its compute, as it was given, means for those values.
   */
  lemma ResolvedMeansTheCalls(g: Plan, steps: seq<Step>, x: Id)
    ensures match Reach(g, steps)
      case None => true
      case Some(s) =>
        var b := Booked(g, steps);
        && (x in b.sources <==> IsCell(s, x)) && (x in b.computes <==> IsSlot(s, x))
        && (x in b.sources ==> Cached(s, x) == Some(b.sources[x]))
        && (b.depth == 0 && x in b.computes && Cached(s, x).Some? ==> Cached(s, x) == Meaning(g, b, x))
  {
    hide Inv, Meaning, Booked;
    BookHolds(g, steps);
    var r := Reach(g, steps);
    if r.Some? && r.value.depth == 0 && Cached(r.value, x).Some? {
      StoredMeans(g, Booked(g, steps), r.value, x);
    }
  }
}
