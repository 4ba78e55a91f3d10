/** What one call of the asynchronous context does, and what it leaves alone. */
module AsyncCalls {
  import opened Basics
  import opened AsyncModel
  import opened AsyncProofs
  import opened AsyncSteps
  import opened AsyncRuns
  import opened AsyncHistory
  import opened AsyncProgress

  // -- what one call does -----------------------------------------------------------------------------------------------

  /** Whether slots are empty, computing or resolved, and how, is the same but for these. */
  ghost predicate PhasesKept(s: State, t: State, but: set<Id>) {
    forall y :: IsSlot(s, y) && y !in but ==> IsSlot(t, y) && t.nodes[y].phase == s.nodes[y].phase
  }

  /** Asking for a slot starts that slot, if it is empty, and no other. */
  lemma AskingStartsOne(g: Plan, s: State, x: Id)
    requires Inv(g, s) && IsSlot(s, x)
    ensures var t := Next(g, s, GetAsync(x));
      && PhasesKept(s, t, {x}) && IsSlot(t, x) && !IsEmpty(t, x) && (!IsEmpty(s, x) ==> t == s)
      && (IsEmpty(s, x) ==> t.nodes[x].phase == Computing(s.nextRun) && s.nextRun !in s.runs)
      && (IsEmpty(s, x) ==>
            t.runs == s.runs[s.nextRun := Run(x, s.nodes[x].revision, false, Pending, s.nodes[x].compute, None, false)])
  {
    hide Frame, Coherent, Rewired, ClearDeps, EdgesOk;
    InvFrame(g, s);
    if IsEmpty(s, x) {
      FrameEdges(g, s);
      ClearRewires(g, s, x);
      var s1 := ClearDeps(s, x);
      RewiredReads(s, s1, x);
      RewiredRuns(s, s1, x);
      FreshRun(g, s);
      DemandIs(s, x);
    }
  }

  lemma FrameEdges(g: Plan, s: State)
    requires Frame(g, s)
    ensures EdgesOk(g, s) && RunsOk(g, s)
  {
  }

  /**
   What a tick of a live run does: it publishes what it returns; it goes on with the value of a source, of a
   slot that is there, or of the notifier it waited for, once that is settled; and it waits for the run of a
   slot that is not there, which is started if it was not under way. What it reads is recorded.
   */
  ghost predicate Resumes(s: State, t: State, r: RunId)
    requires r in s.runs && r in t.runs
  {
    var run := s.runs[r];
    match run.rest
    case Ret(v) =>
      && t.runs[r] == run.(done := true, notice := Settled(v)) && IsSlot(t, run.owner) && t.nodes[run.owner].phase == Resolved(v)
      && PhasesKept(s, t, {run.owner})
    case Read(d, next) =>
      if run.wait.Some? && run.wait.value in s.runs then
        match s.runs[run.wait.value].notice
        case Settled(v) => t == PutRun(s, r, if v in next then run.(rest := next[v], wait := None) else run)
        case _ => t == s
      else
        && d in Deps(t, run.owner) && run.owner in Dependents(t, d) && PhasesKept(s, t, {d})
        && match Cached(s, d)
           case Some(v) => t.runs[r] == (if v in next then run.(rest := next[v], wait := None) else run) && PhasesKept(s, t, {})
           case None => IsSlot(t, d) && t.nodes[d].phase.Computing? && t.runs[r] == run.(wait := Some(t.nodes[d].phase.run))
  }

  lemma TickResumes(g: Plan, s: State, r: RunId)
    requires Inv(g, s) && s.depth == 0 && Live(s, r)
    ensures var t := Next(g, s, Tick(r)); r in t.runs && Resumes(s, t, r)
  {
    hide Frame, Coherent, Await, Complete, Register, Cached;
    LiveGives(g, s, r);
    if s.runs[r].rest.Ret? {
      LivePublishes(g, s, r, s.runs[r].rest.result);
    } else if s.runs[r].wait.Some? {
      assert !s.runs[s.runs[r].wait.value].notice.Superseded?;
    } else {
      ReadResumes(g, s, r);
    }
  }

  lemma ReadResumes(g: Plan, s: State, r: RunId)
    requires Inv(g, s) && Live(s, r) && s.runs[r].wait.None? && s.runs[r].rest.Read?
    ensures var t := Advance(s, r); r in t.runs && Resumes(s, t, r)
  {
    hide Inv, Frame, Rewired, Register, Await, PhasesKept;
    InvFrame(g, s);
    ReadsLower(g, s, r);
    var (d, x) := (s.runs[r].rest.id, s.runs[r].owner);
    RegisterRewires(g, s, d, x);
    RegisterApart(g, s, r);
    var s1 := Register(s, d, x);
    RegisterPhases(s, s1, x);
    RegisterBoth(g, s1, d, x);
    if Cached(s, d).Some? {
      ReceiveIsAwait(s1, r, d, Cached(s1, d).value);
      NothingMore(s1, Advance(s, r), s);
    } else {
      AwaitStarts(g, s1, r, d, x);
      PhasesOn(s, s1, Advance(s, r), d);
    }
  }

  lemma RegisterPhases(s: State, t: State, x: Id)
    requires Rewired(s, t, x)
    ensures PhasesKept(s, t, {})
  {
    RewiredRuns(s, t, x);
  }

  lemma RegisterBoth(g: Plan, s: State, d: Id, x: Id)
    requires Frame(g, s) && d in Deps(s, x)
    ensures x in Dependents(s, d)
  {
  }

  lemma NothingMore(s1: State, t: State, s: State)
    requires t.nodes == s1.nodes && PhasesKept(s, s1, {})
    ensures PhasesKept(s, t, {}) && forall d :: PhasesKept(s, t, {d})
    ensures forall y :: Deps(t, y) == Deps(s1, y) && Dependents(t, y) == Dependents(s1, y)
  {
  }

  lemma PhasesOn(s: State, s1: State, t: State, d: Id)
    requires PhasesKept(s, s1, {}) && PhasesKept(s1, t, {d})
    ensures PhasesKept(s, t, {d})
  {
  }

  /** Awaiting a slot starts it if need be, and records nothing away. */
  lemma AwaitStarts(g: Plan, s: State, r: RunId, d: Id, x: Id)
    requires Frame(g, s) && r in s.runs && !s.runs[r].done && s.runs[r].rest.Read? && IsSlot(s, d) && !s.nodes[d].phase.Resolved?
    requires d in Deps(s, x) && x in Dependents(s, d) && d != x
    ensures var t := Await(s, r, d);
      && PhasesKept(s, t, {d}) && d in Deps(t, x) && x in Dependents(t, d)
      && r in t.runs && IsSlot(t, d) && t.nodes[d].phase.Computing? && t.runs[r] == s.runs[r].(wait := Some(t.nodes[d].phase.run))
  {
    hide Frame, Rewired, ClearDeps, EdgesOk, Demand;
    AwaitApart(g, s, r, d);
    DemandEdges(g, s, d, x);
    DemandApart(g, s, d);
  }

  lemma DemandEdges(g: Plan, s: State, d: Id, x: Id)
    requires Frame(g, s) && IsSlot(s, d) && d in Deps(s, x) && x in Dependents(s, d) && d != x
    ensures var t := Demand(s, d); PhasesKept(s, t, {d}) && d in Deps(t, x) && x in Dependents(t, d)
  {
    hide Frame, Rewired, ClearDeps;
    FrameEdges(g, s);
    if IsEmpty(s, d) {
      ClearRewires(g, s, d);
      var s1 := ClearDeps(s, d);
      RewiredReads(s, s1, d);
      RewiredRuns(s, s1, d);
      RewiredOthers(s, s1, d);
      DemandIs(s, d);
      assert d in Deps(s1, x);
    }
  }

  lemma RewiredOthers(s: State, t: State, x: Id)
    requires Rewired(s, t, x)
    ensures forall y :: y != x ==> Deps(t, y) == Deps(s, y)
  {
  }

  // -- what a write leaves alone -------------------------------------------------------------------------------------------

  /** Whoever reads a node of `U` is in `U`. */
  ghost predicate ReaderClosed(s: State, U: set<Id>) {
    forall y, z :: y in U && z in Dependents(s, y) ==> z in U
  }

  /** Nothing outside `U` is touched. */
  ghost predicate SameOutside(s: State, t: State, U: set<Id>) {
    forall y :: y in s.nodes && y !in U ==> y in t.nodes && t.nodes[y] == s.nodes[y]
  }

  lemma ClosedCut(s: State, t: State, U: set<Id>)
    requires ReaderClosed(s, U) && NodesCut(s, t)
    ensures ReaderClosed(t, U)
  {
    CutNodes(s, t);
  }

  lemma {:induction false} CascadeStaysInside(g: Plan, s: State, floor: nat, xs: seq<Id>, U: set<Id>)
    requires Owners(s) && Upward(g, s) && ReaderClosed(s, U) && forall x :: x in xs ==> x in U && IsSlot(s, x) && floor < g.rank(x) <= g.limit
    ensures SameOutside(s, Invalidate(g, s, floor, xs), U)
    decreases g.limit - floor, |xs|
  {
    hide Owners, Upward, Spread, RunsFollow, RunsCut;
    if xs != [] {
      var x, rest := xs[0], xs[1..];
      assert xs == [x] + rest && x in xs;
      var s0 := Reset(s, x);
      var ds := s.nodes[x].dependents;
      ResetTrims(s, x);
      TrimmedKeeps(g, s, s0);
      ClosedCut(s, s0, U);
      CutNodes(s, s0);
      ReadersUp(g, s, x);
      InvalidateCuts(g, s0, g.rank(x), ds);
      CascadeStaysInside(g, s0, g.rank(x), ds, U);
      var s1 := Invalidate(g, s0, g.rank(x), ds);
      TrimmedTrans(s, s0, s1);
      TrimmedKeeps(g, s, s1);
      ClosedCut(s, s1, U);
      CutNodes(s, s1);
      CascadeStaysInside(g, s1, floor, rest, U);
    }
  }

  lemma ReadersUp(g: Plan, s: State, x: Id)
    requires Upward(g, s) && IsSlot(s, x)
    ensures forall y :: y in s.nodes[x].dependents ==> y in Dependents(s, x) && IsSlot(s, y) && g.rank(x) < g.rank(y) <= g.limit
  {
    forall y | y in s.nodes[x].dependents ensures y in Dependents(s, x) && IsSlot(s, y) && g.rank(x) < g.rank(y) <= g.limit {
      assert y in Dependents(s, x);
    }
  }

  lemma {:induction false} CellsStayInside(g: Plan, s: State, cells: seq<Id>, U: set<Id>)
    requires Owners(s) && Upward(g, s) && ReaderClosed(s, U)
    requires forall c, y :: c in cells && y in Dependents(s, c) ==> y in U
    ensures SameOutside(s, InvalidateCells(g, s, cells), U)
    decreases |cells|
  {
    hide Owners, Spread, RunsFollow, RunsCut, Invalidate;
    if cells != [] {
      var c, rest := cells[0], cells[1..];
      assert cells == [c] + rest && c in cells;
      InvalidateCuts(g, s, g.rank(c), Dependents(s, c));
      CascadeStaysInside(g, s, g.rank(c), Dependents(s, c), U);
      var s1 := Invalidate(g, s, g.rank(c), Dependents(s, c));
      TrimmedKeeps(g, s, s1);
      ClosedCut(s, s1, U);
      CutNodes(s, s1);
      CellsStayInside(g, s1, rest, U);
    }
  }

  /** A write, or the end of a batch, touches only what it writes and who reads that, itself or through others. */
  lemma WritesStayInside(g: Plan, s: State, step: Step, U: set<Id>)
    requires Inv(g, s) && ReaderClosed(s, U) && (step.Set? || step.End?)
    requires step.Set? ==> step.x in U
    requires step.End? && s.depth == 1 ==> forall c :: c in s.batched ==> c in U
    ensures SameOutside(s, Next(g, s, step), U)
  {
    hide Frame, Coherent, Upward, Owners, Invalidate, InvalidateCells;
    match step
    case Set(x, v) =>
      if IsCell(s, x) && !g.same(s.nodes[x].value, v) && s.depth == 0 {
        var s1 := Put(s, x, s.nodes[x].(value := v));
        StoreOk(g, s, x, v, s.batched);
        StoredClosed(s, s1, x, U);
        InvalidateStays(g, s1, x, U);
      }
    case End =>
      if s.depth == 1 {
        EndFrame(g, s);
        var s2 := s.(depth := 0, batched := []);
        FrameGives(g, s2);
        StoredClosed(s, s2, 0, U);
        CellsStayInside(g, s2, s.batched, U);
      }
  }

  lemma StoredClosed(s: State, t: State, x: Id, U: set<Id>)
    requires ReaderClosed(s, U) && forall y :: Dependents(t, y) == Dependents(s, y)
    ensures ReaderClosed(t, U)
  {
  }

  lemma InvalidateStays(g: Plan, s: State, x: Id, U: set<Id>)
    requires Frame(g, s) && ReaderClosed(s, U) && x in U
    ensures SameOutside(s, Invalidate(g, s, g.rank(x), Dependents(s, x)), U)
  {
    hide Owners, Invalidate;
    FrameGives(g, s);
    CascadeStaysInside(g, s, g.rank(x), Dependents(s, x), U);
  }

  /** What a source holds after a write. */
  function Taken(g: Plan, held: Value, v: Value): Value { if g.same(held, v) then held else v }

  /** Until the outermost batch ends, writes reach no slot and no run, and no run goes on. */
  lemma BatchDefers(g: Plan, s: State, step: Step)
    requires s.depth > 0 && Next(g, s, step).depth > 0 && !step.GetAsync?
    ensures var t := Next(g, s, step);
      && t.runs == s.runs && (forall y :: IsSlot(s, y) && y != s.nextId ==> IsSlot(t, y) && t.nodes[y] == s.nodes[y])
      && (step.Set? && IsCell(s, step.x) ==> IsCell(t, step.x) && t.nodes[step.x].value == Taken(g, s.nodes[step.x].value, step.v))
  {
    if step.End? && s.depth == 1 {
      EndsDepth(g, s.(depth := 0, batched := []), s.batched);
    }
  }

  lemma {:induction false} EndsDepth(g: Plan, s: State, cells: seq<Id>)
    ensures InvalidateCells(g, s, cells).depth == s.depth
    decreases |cells|
  {
    if cells != [] {
      CascadeDepth(g, s, g.rank(cells[0]), Dependents(s, cells[0]));
      EndsDepth(g, Invalidate(g, s, g.rank(cells[0]), Dependents(s, cells[0])), cells[1..]);
    }
  }

  lemma {:induction false} CascadeDepth(g: Plan, s: State, floor: nat, xs: seq<Id>)
    ensures Invalidate(g, s, floor, xs).depth == s.depth
    decreases g.limit - floor, |xs|
  {
    if xs != [] {
      var x := xs[0];
      if IsSlot(s, x) && floor < g.rank(x) <= g.limit {
        CascadeDepth(g, Reset(s, x), g.rank(x), s.nodes[x].dependents);
        CascadeDepth(g, Invalidate(g, Reset(s, x), g.rank(x), s.nodes[x].dependents), floor, xs[1..]);
      } else {
        CascadeDepth(g, s, floor, xs[1..]);
      }
    }
  }
}
