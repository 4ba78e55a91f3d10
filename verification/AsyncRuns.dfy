/** Writes, batches and whole interleavings of the asynchronous context. */
module AsyncRuns {
  import opened Basics
  import Edges
  import opened AsyncModel
  import opened AsyncProofs
  import opened AsyncSteps

  lemma FrameGives(g: Plan, s: State)
    requires Frame(g, s)
    ensures Owners(s) && Upward(g, s)
  {
    forall x, y | y in Dependents(s, x) ensures IsSlot(s, y) && g.rank(x) < g.rank(y) <= g.limit {
      assert x in Deps(s, y);
    }
  }

  lemma CoherentWiden(s: State, t: State, a: seq<Id>, b: seq<Id>)
    requires Coherent(s, a) && t.nodes == s.nodes && t.runs == s.runs && forall d :: d in a ==> d in b
    ensures Coherent(t, b)
  {
    hide Cached;
    assert forall y :: Clear(t, y, b) ==> Clear(s, y, a);
    assert Good(t, b) by {
      forall y | IsSlot(t, y) && t.nodes[y].phase.Resolved? && Clear(t, y, b)
        ensures Replay(t, t.nodes[y].compute, t.nodes[y].deps) == Some(t.nodes[y].phase.value)
      {
        SameNodes(s, t, []);
        ReplayKept(s, t, s.nodes[y].compute, s.nodes[y].deps, s.nodes[y].deps);
      }
    }
    assert Underway(t, b) by {
      forall q | Live(t, q) && IsSlot(t, t.runs[q].owner) && Clear(t, t.runs[q].owner, b)
        ensures Reaches(t, t.nodes[t.runs[q].owner].compute, t.runs[q].rest, t.nodes[t.runs[q].owner].deps)
      {
        var y := s.runs[q].owner;
        assert Live(s, q);
        SameNodes(s, t, []);
        ReachesKept(s, t, s.nodes[y].compute, s.runs[q].rest, s.nodes[y].deps, s.nodes[y].deps);
      }
    }
    assert Waiting(t) by {
      forall q | Live(t, q) ensures WaitOk(t, q) {
        assert Live(s, q) && WaitOk(s, q);
      }
    }
  }

  lemma FrameAt(g: Plan, s: State, t: State)
    requires Frame(g, s) && t == s.(batched := t.batched, depth := t.depth) && forall c :: c in t.batched ==> IsCell(s, c)
    ensures Frame(g, t)
  {
    hide EdgesOk, Reads;
    SameNodes(s, t, []);
    SameEdgesOk(g, s, t);
    assert RunsOk(g, t) by {
      forall q | q in t.runs ensures RunOk(g, t, q) {
        assert RunOk(g, s, q);
      }
    }
    assert TokensOk(t) by {
      forall y, q | IsComputing(t, y, q)
        ensures Live(t, q) && t.runs[q].owner == y && t.runs[q].notice == Pending && t.runs[q].revision == t.nodes[y].revision
      {
        assert IsComputing(s, y, q);
      }
      forall q | Live(t, q) ensures IsComputing(t, t.runs[q].owner, q) {
        assert Live(s, q) && IsComputing(s, s.runs[q].owner, q);
      }
    }
  }

  lemma WriteOk(g: Plan, s: State, x: Id, v: Value)
    requires Inv(g, s) && IsCell(s, x)
    ensures Inv(g, Write(g, s, x, v))
  {
    hide Frame, Coherent, Invalidate;
    if !g.same(s.nodes[x].value, v) {
      var s1 := Put(s, x, s.nodes[x].(value := v));
      StoreOk(g, s, x, v, s.batched);
      if s.depth > 0 {
        BatchedStore(g, s, s1, x);
      } else {
        SupersedeNow(g, s1, x);
      }
    }
  }

  /** Inside a batch the written cell joins those whose readers are in doubt. */
  lemma BatchedStore(g: Plan, s: State, s1: State, x: Id)
    requires Frame(g, s1) && Coherent(s1, s.batched + [x]) && IsCell(s1, x) && s1.batched == s.batched && s.depth == s1.depth > 0
    ensures Inv(g, s1.(batched := Edges.Insert(s1.batched, x)))
  {
    hide Frame, Coherent;
    var t := s1.(batched := Edges.Insert(s1.batched, x));
    BatchedFrame(g, s1, x);
    CoherentWiden(s1, t, s.batched + [x], t.batched);
  }

  /** Outside one its readers are superseded at once. */
  lemma SupersedeNow(g: Plan, s: State, x: Id)
    requires Frame(g, s) && Coherent(s, s.batched + [x]) && s.batched == [] && IsCell(s, x)
    ensures Inv(g, Invalidate(g, s, g.rank(x), Dependents(s, x)))
  {
    hide Frame, Coherent, Upward, Spread, Trimmed, Invalidate, IsEmpty;
    var t := Invalidate(g, s, g.rank(x), Dependents(s, x));
    InvalidateOk(g, s, x);
    assert [] + [x] == [x];
    CutRestores(g, s, t, [x]);
    CutSame(s, t);
  }

  lemma BatchedFrame(g: Plan, s: State, x: Id)
    requires Frame(g, s) && IsCell(s, x)
    ensures Frame(g, s.(batched := Edges.Insert(s.batched, x)))
  {
    FrameAt(g, s, s.(batched := Edges.Insert(s.batched, x)));
  }

  lemma CutSame(s: State, t: State)
    requires Cut(s, t)
    ensures t.batched == s.batched && t.depth == s.depth
  {
  }

  /** Superseding from one cell empties every reader of it. */
  lemma InvalidateOk(g: Plan, s: State, c: Id)
    requires Frame(g, s)
    ensures var t := Invalidate(g, s, g.rank(c), Dependents(s, c));
      Cut(s, t) && forall y :: y in Dependents(s, c) ==> IsEmpty(t, y)
  {
    FrameGives(g, s);
    InvalidateCuts(g, s, g.rank(c), Dependents(s, c));
  }

  lemma {:induction false} InvalidateCellsCut(g: Plan, s: State, cells: seq<Id>)
    requires Owners(s) && Upward(g, s)
    ensures var t := InvalidateCells(g, s, cells);
      Cut(s, t) && forall c, y :: c in cells && y in Dependents(s, c) ==> IsEmpty(t, y)
    decreases |cells|
  {
    if cells != [] {
      var c, rest := cells[0], cells[1..];
      assert cells == [c] + rest;
      InvalidateCuts(g, s, g.rank(c), Dependents(s, c));
      var s1 := Invalidate(g, s, g.rank(c), Dependents(s, c));
      TrimmedKeeps(g, s, s1);
      InvalidateCellsCut(g, s1, rest);
      var t := InvalidateCells(g, s1, rest);
      TrimmedTrans(s, s1, t);
      SpreadTrans(s, s1, t);
      CutNodes(s, s1);
      CutNodes(s1, t);
      forall b, y | b in cells && y in Dependents(s, b) ensures IsEmpty(t, y) {
        if b in rest {
          assert y in Dependents(s1, b);
        } else {
          assert IsEmpty(s1, y);
          assert NodeCut(s1.nodes[y], t.nodes[y]);
        }
      }
    } else {
      CutRefl(s);
    }
  }

  lemma CutRefl(s: State)
    ensures Cut(s, s)
  {
  }

  lemma EndBatchOk(g: Plan, s: State)
    requires Inv(g, s) && s.depth > 0
    ensures Inv(g, EndBatch(g, s))
  {
    hide Frame, Coherent, Upward, Owners, Spread, Trimmed;
    var s1 := s.(depth := s.depth - 1);
    EndFrame(g, s);
    if s1.depth == 0 {
      var s2 := s1.(batched := []);
      CoherentWiden(s, s2, s.batched, s.batched);
      FrameGives(g, s2);
      InvalidateCellsCut(g, s2, s.batched);
      var t := InvalidateCells(g, s2, s.batched);
      CutRestores(g, s2, t, s.batched);
      CutSame(s2, t);
    } else {
      CoherentWiden(s, s1, s.batched, s1.batched);
    }
  }

  lemma EndFrame(g: Plan, s: State)
    requires Frame(g, s) && s.depth > 0
    ensures Frame(g, s.(depth := s.depth - 1)) && Frame(g, s.(depth := s.depth - 1, batched := []))
  {
    FrameAt(g, s, s.(depth := s.depth - 1));
    FrameAt(g, s, s.(depth := s.depth - 1, batched := []));
  }

  // -- every step, every run -----------------------------------------------------------------------

  ghost predicate Legal(g: Plan, s: State, step: Step) {
    step.MakeComputed? ==> g.rank(s.nextId) <= g.limit && Reads(g, s.nextId, step.p)
  }

  lemma StepOk(g: Plan, s: State, step: Step)
    requires Inv(g, s) && Legal(g, s, step)
    ensures Inv(g, Next(g, s, step))
  {
    hide Frame, Coherent, Write, EndBatch, Demand, Advance, Reads;
    match step
    case MakeSource(v) => NewNodeOk(g, s, Cell(v, []));
    case MakeComputed(p) => NewNodeOk(g, s, Slot(p, Empty, 0, [], []));
    case Set(x, v) =>
      if IsCell(s, x) {
        WriteOk(g, s, x, v);
      }
    case Begin => BeginOk(g, s);
    case End =>
      if s.depth > 0 {
        EndBatchOk(g, s);
      }
    case GetAsync(x) =>
      if IsSlot(s, x) {
        DemandOk(g, s, x, s.batched);
      }
    case Tick(r) =>
      if r in s.runs {
        AdvanceOk(g, s, r, s.batched);
      }
  }

  lemma BeginOk(g: Plan, s: State)
    requires Inv(g, s)
    ensures Inv(g, s.(depth := s.depth + 1))
  {
    hide EdgesOk, Good, Underway, Waiting, Clear;
    BatchCells(g, s);
    FrameAt(g, s, s.(depth := s.depth + 1));
    CoherentWiden(s, s.(depth := s.depth + 1), s.batched, s.batched);
  }

  lemma BatchCells(g: Plan, s: State)
    requires Frame(g, s)
    ensures forall c :: c in s.batched ==> IsCell(s, c)
  {
  }

  lemma StartOk(g: Plan)
    ensures Inv(g, START)
  {
  }

  /** The state after a run of steps from nothing, or None once a step was not legal. */
  ghost function Reach(g: Plan, steps: seq<Step>): Option<State>
    decreases |steps|
  {
    if steps == [] then Some(START)
    else
      var r := Reach(g, steps[..|steps| - 1]);
      var step := steps[|steps| - 1];
      if r.Some? && Legal(g, r.value, step) then Some(Next(g, r.value, step)) else None
  }

  lemma {:induction false} ReachOk(g: Plan, steps: seq<Step>)
    ensures match Reach(g, steps) case None => true case Some(s) => Inv(g, s)
    decreases |steps|
  {
    hide Inv, Legal, Next;
    if steps == [] {
      StartOk(g);
    } else {
      var r, step := Reach(g, steps[..|steps| - 1]), steps[|steps| - 1];
      ReachOk(g, steps[..|steps| - 1]);
      if r.Some? && Legal(g, r.value, step) {
        StepOk(g, r.value, step);
      }
    }
  }

  // -- resolved means from scratch ---------------------------------------------------------------------

  lemma {:induction false} CachedIsEval(g: Plan, s: State, x: Id)
    requires Inv(g, s) && s.depth == 0 && Cached(s, x).Some?
    ensures Eval(g, s, x) == Cached(s, x)
    decreases g.rank(x), 1
  {
    if IsSlot(s, x) {
      assert Clear(s, x, s.batched);
      ReplayIsEval(g, s, x, s.nodes[x].compute, s.nodes[x].deps);
    }
  }

  lemma {:induction false} ReplayIsEval(g: Plan, s: State, x: Id, p: Prog, ds: seq<Id>)
    requires Inv(g, s) && s.depth == 0 && Reads(g, x, p) && Replay(s, p, ds).Some?
    ensures EvalProg(g, s, x, p) == Replay(s, p, ds)
    decreases g.rank(x), 0, p
  {
    hide Inv;
    match p
    case Ret(_) =>
    case Read(d, next) =>
      CachedIsEval(g, s, d);
      ReplayIsEval(g, s, x, next[Cached(s, d).value], ds);
  }

  /**
   No stale publish: in every interleaving of writes, batches, demands and run steps, outside a
   batch a resolved slot holds the from-scratch value for the current cells.
   */
  lemma NoStaleValue(g: Plan, steps: seq<Step>, x: Id)
    ensures match Reach(g, steps)
      case None => true
      case Some(s) => s.depth == 0 && IsSlot(s, x) && s.nodes[x].phase.Resolved? ==> Eval(g, s, x) == Some(s.nodes[x].phase.value)
  {
    hide Inv, Eval;
    ReachOk(g, steps);
    var r := Reach(g, steps);
    if r.Some? && r.value.depth == 0 && IsSlot(r.value, x) && r.value.nodes[x].phase.Resolved? {
      CachedIsEval(g, r.value, x);
    }
  }

  /** Each slot has at most one run that is neither finished nor aborted, and it is the one it waits on. */
  lemma OneLiveRun(g: Plan, steps: seq<Step>, q: RunId, r: RunId)
    ensures match Reach(g, steps)
      case None => true
      case Some(s) => Live(s, q) && Live(s, r) && s.runs[q].owner == s.runs[r].owner ==> q == r && IsComputing(s, s.runs[r].owner, r)
  {
    ReachOk(g, steps);
    var reached := Reach(g, steps);
    if reached.Some? && Live(reached.value, q) && Live(reached.value, r) {
      assert IsComputing(reached.value, reached.value.runs[q].owner, q);
      assert IsComputing(reached.value, reached.value.runs[r].owner, r);
    }
  }

  /** What a notifier delivers was, when delivered, the from-scratch value of its slot. */
  lemma DeliveredValue(g: Plan, steps: seq<Step>, r: RunId)
    ensures match Reach(g, steps)
      case None => true
      case Some(s) =>
        s.depth == 0 && Live(s, r) && s.runs[r].rest.Ret? && s.runs[r].wait.None? ==>
          var t := Next(g, s, Tick(r));
          && t.runs[r].notice == Settled(s.runs[r].rest.result)
          && Eval(g, t, s.runs[r].owner) == Some(s.runs[r].rest.result)
  {
    hide Coherent, Eval;
    ReachOk(g, steps);
    var reached := Reach(g, steps);
    if reached.Some? && reached.value.depth == 0 && Live(reached.value, r) && reached.value.runs[r].rest.Ret?
      && reached.value.runs[r].wait.None?
    {
      var s := reached.value;
      StepOk(g, s, Tick(r));
      LivePublishes(g, s, r, s.runs[r].rest.result);
      CachedIsEval(g, Next(g, s, Tick(r)), s.runs[r].owner);
    }
  }
}
