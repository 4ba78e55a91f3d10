/** The asynchronous context: nodes, runs and the batch changed in place, one step at a time. */
module Async {
  import opened Basics
  import Edges
  import opened AsyncModel
  import opened AsyncProofs
  import opened AsyncRuns
  import opened AsyncCalls

  /** The cascade from `s0` over `ds` has got to `s` after `i` dependents. */
  ghost predicate CascadeLeft(g: Plan, s0: State, s: State, floor: nat, ds: seq<Id>, i: nat) {
    && i <= |ds| && Owners(s) && Upward(g, s)
    && (forall y :: y in ds ==> IsSlot(s, y) && floor < g.rank(y) <= g.limit)
    && Invalidate(g, s0, floor, ds) == Invalidate(g, s, floor, ds[i..])
  }

  lemma CascadeStart(g: Plan, s: State, x: Id)
    requires Owners(s) && Upward(g, s) && IsSlot(s, x)
    ensures CascadeLeft(g, Reset(s, x), Reset(s, x), g.rank(x), s.nodes[x].dependents, 0)
  {
    hide Invalidate;
    var t, ds := Reset(s, x), s.nodes[x].dependents;
    ResetTrims(s, x);
    TrimmedKeeps(g, s, t);
    forall y | y in ds ensures IsSlot(t, y) && g.rank(x) < g.rank(y) <= g.limit {
      assert y in Dependents(s, x) && NodeCut(s.nodes[y], t.nodes[y]);
    }
    assert ds[0..] == ds;
  }

  lemma CascadeNext(g: Plan, s0: State, s: State, floor: nat, ds: seq<Id>, i: nat)
    requires CascadeLeft(g, s0, s, floor, ds, i) && i < |ds|
    ensures IsSlot(s, ds[i]) && floor < g.rank(ds[i]) <= g.limit
    ensures CascadeLeft(g, s0, Cascade(g, s, ds[i]), floor, ds, i + 1)
  {
    hide Owners, Upward, Spread;
    var x, rest := ds[i], ds[i + 1..];
    assert x in ds && ds[i..] == [x] + rest && ds[i..][1..] == rest;
    CascadeCuts(g, s, x);
    var t := Cascade(g, s, x);
    TrimmedKeeps(g, s, t);
    forall y | y in ds ensures IsSlot(t, y) && floor < g.rank(y) <= g.limit {
      assert IsSlot(s, y) && NodeCut(s.nodes[y], t.nodes[y]);
    }
  }

  /** Superseding one slot and everything that reads it. */
  ghost function Cascade(g: Plan, s: State, x: Id): State
    requires IsSlot(s, x)
  {
    Invalidate(g, Reset(s, x), g.rank(x), s.nodes[x].dependents)
  }

  lemma CascadeCuts(g: Plan, s: State, x: Id)
    requires Owners(s) && Upward(g, s) && IsSlot(s, x)
    ensures Trimmed(s, Cascade(g, s, x))
  {
    hide Invalidate, Spread;
    CascadeStart(g, s, x);
    ResetTrims(s, x);
    InvalidateCuts(g, Reset(s, x), g.rank(x), s.nodes[x].dependents);
    TrimmedTrans(s, Reset(s, x), Cascade(g, s, x));
  }

  lemma CascadeEnd(g: Plan, s0: State, s: State, floor: nat, ds: seq<Id>)
    requires CascadeLeft(g, s0, s, floor, ds, |ds|)
    ensures s == Invalidate(g, s0, floor, ds) && Owners(s) && Upward(g, s)
  {
    assert ds[|ds|..] == [];
  }

  /** The cascade from a cell starts like the cascade from a slot that was just reset. */
  lemma CellStart(g: Plan, s: State, c: Id)
    requires Owners(s) && Upward(g, s)
    ensures CascadeLeft(g, s, s, g.rank(c), Dependents(s, c), 0)
  {
    hide Invalidate;
    assert Dependents(s, c)[0..] == Dependents(s, c);
  }

  lemma InvGives(g: Plan, s: State)
    requires Inv(g, s)
    ensures Owners(s) && Upward(g, s) && forall c :: c in s.batched ==> IsCell(s, c)
  {
    FrameGives(g, s);
  }

  /** Neither a stored value nor the batch matters to who owns which run. */
  lemma StoredGives(g: Plan, s: State, t: State, x: Id, v: Value)
    requires Owners(s) && Upward(g, s) && IsCell(s, x)
    requires t.nodes == s.nodes[x := s.nodes[x].(value := v)] && t.runs == s.runs
    ensures Owners(t) && Upward(g, t) && Dependents(t, x) == Dependents(s, x)
  {
    forall y, r | IsComputing(t, y, r) ensures r in t.runs && t.runs[r].owner == y && t.runs[r].notice == Pending {
      assert IsComputing(s, y, r);
    }
    forall y, z | z in Dependents(t, y) ensures IsSlot(t, z) && g.rank(y) < g.rank(z) <= g.limit {
      assert z in Dependents(s, y);
    }
  }

  class AsyncContext {
    /** The comparison its writes use, and the ranks of the computes it will take, on which no code depends. */
    const g: Plan

    var nodes: map<Id, Node>
    var runs: map<RunId, Run>
    var batchedCells: seq<Id>
    var batchDepth: nat
    var nextId: Id
    var nextRun: RunId

    ghost function State(): State
      reads this
    {
      AsyncModel.State(nodes, runs, batchedCells, batchDepth, nextId, nextRun)
    }

    constructor (plan: Plan)
      ensures g == plan && State() == START && Inv(g, State())
    {
      g := plan;
      nodes, runs, batchedCells, batchDepth, nextId, nextRun := map[], map[], [], 0, 1, 0;
      new;
      StartOk(g);
    }

    // -- creation --------------------------------------------------------------------------

    method Source(v: Value) returns (x: Id)
      requires Inv(g, State())
      modifies this
      ensures Inv(g, State()) && State() == Next(g, old(State()), MakeSource(v)) && x == old(nextId)
    {
      hide Inv;
      StepOk(g, State(), MakeSource(v));
      x := nextId;
      nextId := nextId + 1;
      nodes := nodes[x := Cell(v, [])];
    }

    method ComputedAsync(compute: Prog) returns (x: Id)
      requires Inv(g, State()) && Legal(g, State(), MakeComputed(compute))
      modifies this
      ensures Inv(g, State()) && State() == Next(g, old(State()), MakeComputed(compute)) && x == old(nextId)
    {
      hide Inv, Reads;
      StepOk(g, State(), MakeComputed(compute));
      x := nextId;
      nextId := nextId + 1;
      nodes := nodes[x := Slot(compute, Empty, 0, [], [])];
    }

    // -- writes and batches ------------------------------------------------------------------

    /** Only a source cell may be written; any other handle is refused and nothing changes. */
    method Set(x: Id, v: Value) returns (ok: bool)
      requires Inv(g, State())
      modifies this
      ensures Inv(g, State()) && State() == Next(g, old(State()), Step.Set(x, v))
      ensures ok == old(IsCell(State(), x))
    {
      hide Inv, Owners, Upward, Invalidate;
      StepOk(g, State(), Step.Set(x, v));
      ok := x in nodes && nodes[x].Cell?;
      if !ok {
        return;
      }
      InvGives(g, State());
      if g.same(nodes[x].value, v) {
        return;
      }
      ghost var s := State();
      nodes := nodes[x := nodes[x].(value := v)];
      if batchDepth > 0 {
        batchedCells := Edges.Insert(batchedCells, x);
        return;
      }
      StoredGives(g, s, State(), x, v);
      InvalidateCellDependents(x);
    }

    method BeginBatch()
      requires Inv(g, State())
      modifies this
      ensures Inv(g, State()) && State() == Next(g, old(State()), Begin)
    {
      hide Inv;
      StepOk(g, State(), Begin);
      batchDepth := batchDepth + 1;
    }

    method FinishBatch()
      requires Inv(g, State()) && batchDepth > 0
      modifies this
      ensures Inv(g, State()) && State() == Next(g, old(State()), End)
    {
      hide Inv, Owners, Upward, Invalidate, InvalidateCells;
      StepOk(g, State(), End);
      InvGives(g, State());
      ghost var start := State();
      batchDepth := batchDepth - 1;
      if batchDepth > 0 {
        return;
      }
      var cells := batchedCells;
      batchedCells := [];
      SameOwners(g, start, State());
      ghost var s := State();
      var i := 0;
      assert cells[0..] == cells;
      while i < |cells|
        invariant i <= |cells| && Owners(State()) && Upward(g, State())
        invariant forall c :: c in cells ==> IsCell(State(), c)
        invariant InvalidateCells(g, s, cells) == InvalidateCells(g, State(), cells[i..])
      {
        CellsStep(g, State(), cells, i);
        InvalidateCellDependents(cells[i]);
        i := i + 1;
      }
      CellsDone(g, State(), cells);
    }

    // -- superseding ---------------------------------------------------------------------------

    method InvalidateCellDependents(c: Id)
      requires IsCell(State(), c) && Owners(State()) && Upward(g, State())
      modifies this
      ensures State() == Invalidate(g, old(State()), g.rank(c), Dependents(old(State()), c))
      ensures Owners(State()) && Upward(g, State())
    {
      hide Owners, Upward, Invalidate;
      ghost var s0 := State();
      var ds := nodes[c].dependents;
      CellStart(g, s0, c);
      var i := 0;
      while i < |ds|
        invariant CascadeLeft(g, s0, State(), g.rank(c), ds, i)
      {
        CascadeNext(g, s0, State(), g.rank(c), ds, i);
        InvalidateSlot(ds[i]);
        i := i + 1;
      }
      CascadeEnd(g, s0, State(), g.rank(c), ds);
    }

    method InvalidateSlot(x: Id)
      requires IsSlot(State(), x) && g.rank(x) <= g.limit && Owners(State()) && Upward(g, State())
      modifies this
      ensures State() == Cascade(g, old(State()), x)
      ensures Owners(State()) && Upward(g, State())
      decreases g.limit - g.rank(x)
    {
      hide Owners, Upward, Invalidate;
      CascadeStart(g, State(), x);
      ghost var s := State();
      var n := nodes[x];
      nodes := nodes[x := n.(phase := Empty, revision := n.revision + 1)];
      if n.phase.Computing? && n.phase.run in runs {
        var run := runs[n.phase.run];
        runs := runs[n.phase.run := run.(aborted := true, notice := Settle(run.notice, Superseded))];
      }
      ghost var s0 := State();
      assert s0 == Reset(s, x);
      var ds := n.dependents;
      var i := 0;
      while i < |ds|
        invariant CascadeLeft(g, s0, State(), g.rank(x), ds, i)
      {
        CascadeNext(g, s0, State(), g.rank(x), ds, i);
        InvalidateSlot(ds[i]);
        i := i + 1;
      }
      CascadeEnd(g, s0, State(), g.rank(x), ds);
    }

    // -- computing -------------------------------------------------------------------------------

    method RegisterDependency(d: Id, x: Id)
      requires d in nodes && x in nodes
      modifies this
      ensures State() == Register(old(State()), d, x)
    {
      nodes := nodes[d := nodes[d].(dependents := Edges.Insert(nodes[d].dependents, x))];
      if nodes[x].Slot? {
        nodes := nodes[x := nodes[x].(deps := Edges.Insert(nodes[x].deps, d))];
      }
    }

    /** Drop the old edges of `x`; its compute rediscovers them. */
    method ClearDependencies(x: Id)
      requires IsSlot(State(), x)
      modifies this
      ensures State() == ClearDeps(old(State()), x) && IsSlot(State(), x)
    {
      ghost var s := State();
      var ds := nodes[x].deps;
      var i := 0;
      assert ds[0..] == ds;
      while i < |ds|
        invariant i <= |ds| && IsSlot(State(), x)
        invariant DropDependents(s, ds, x) == DropDependents(State(), ds[i..], x)
      {
        assert ds[i..] == [ds[i]] + ds[i + 1..];
        if ds[i] in nodes {
          var n := nodes[ds[i]];
          nodes := nodes[ds[i] := n.(dependents := Edges.Remove(n.dependents, x))];
        }
        i := i + 1;
      }
      assert ds[|ds|..] == [];
      nodes := nodes[x := nodes[x].(deps := [])];
    }

    method SpawnCompute(x: Id)
      requires IsSlot(State(), x)
      modifies this
      ensures State() == Spawn(old(State()), x)
    {
      hide ClearDeps;
      var n := nodes[x];
      var token := nextRun;
      ClearDependencies(x);
      nodes := nodes[x := nodes[x].(phase := Computing(token))];
      runs := runs[token := Run(x, n.revision, false, Pending, n.compute, None, false)];
      nextRun := token + 1;
    }

    /** Ask for a slot: a resolved value at once, or the run whose notifier will be settled. */
    method GetAsync(x: Id) returns (v: Option<Value>)
      requires Inv(g, State())
      modifies this
      ensures Inv(g, State()) && State() == Next(g, old(State()), Step.GetAsync(x))
      ensures v == if old(IsSlot(State(), x)) then old(Cached(State(), x)) else None
      ensures v.Some? && batchDepth == 0 ==> v == Eval(g, State(), x)
    {
      hide Inv, Spawn;
      StepOk(g, State(), Step.GetAsync(x));
      if !(x in nodes && nodes[x].Slot?) {
        return None;
      }
      if nodes[x].phase.Resolved? {
        v := Some(nodes[x].phase.value);
        if batchDepth == 0 {
          ReadIsEval(g, State(), x);
        }
        return;
      }
      v := None;
      if nodes[x].phase.Empty? {
        SpawnCompute(x);
      }
    }

    /** The run's own getter delivered `v` to it. */
    method Deliver(r: RunId, v: Value)
      requires r in runs && runs[r].rest.Read?
      modifies this
      ensures State() == Receive(old(State()), r, v)
    {
      var run := runs[r];
      if v in run.rest.next {
        runs := runs[r := run.(rest := run.rest.next[v], wait := None)];
      }
    }

    method AwaitSlot(r: RunId, d: Id)
      requires r in runs && runs[r].rest.Read? && IsSlot(State(), d)
      modifies this
      ensures State() == Await(old(State()), r, d)
    {
      hide Spawn;
      if nodes[d].phase.Resolved? {
        Deliver(r, nodes[d].phase.value);
        return;
      }
      if nodes[d].phase.Empty? {
        SpawnCompute(d);
      }
      if d in nodes && nodes[d].Slot? && nodes[d].phase.Computing? && r in runs {
        runs := runs[r := runs[r].(wait := Some(nodes[d].phase.run))];
      }
    }

    /** A completion: discarded unless its token is still current. */
    method PublishResolved(r: RunId, v: Value)
      requires r in runs
      modifies this
      ensures State() == Complete(old(State()), r, v)
    {
      var run := runs[r];
      var x := run.owner;
      if !(x in nodes && nodes[x].Slot?) || run.aborted || nodes[x].revision != run.revision {
        runs := runs[r := run.(done := true, notice := Settle(run.notice, Superseded))];
        return;
      }
      nodes := nodes[x := nodes[x].(phase := Resolved(v))];
      runs := runs[r := run.(done := true, notice := Settle(run.notice, Settled(v)))];
    }

    /** Resume one run: after an await, at a read, or at its end. */
    method Resume(r: RunId)
      requires Inv(g, State()) && r in runs && batchDepth == 0
      modifies this
      ensures Inv(g, State()) && State() == Next(g, old(State()), Tick(r))
      ensures old(Live(State(), r)) ==> r in runs && Resumes(old(State()), State(), r)
    {
      hide Inv, Await, Receive, Complete, Register, Resumes;
      StepOk(g, State(), Tick(r));
      if Live(State(), r) {
        TickResumes(g, State(), r);
      }
      var run := runs[r];
      if run.done || run.owner !in nodes {
        return;
      }
      if run.wait.Some? {
        if run.wait.value !in runs || run.rest.Ret? {
          return;
        }
        match runs[run.wait.value].notice {
          case Pending =>
          case Settled(v) => Deliver(r, v);
          case Superseded =>
            if run.rest.id in nodes && nodes[run.rest.id].Slot? {
              AwaitSlot(r, run.rest.id);
            }
        }
        return;
      }
      if run.rest.Ret? {
        PublishResolved(r, run.rest.result);
        return;
      }
      var d := run.rest.id;
      if d in nodes {
        RegisterKeeps(State(), d, run.owner);
        RegisterDependency(d, run.owner);
        if nodes[d].Cell? {
          Deliver(r, nodes[d].value);
        } else {
          AwaitSlot(r, d);
        }
      }
    }
  }

  // -- glue --------------------------------------------------------------------------------------

  lemma RegisterKeeps(s: State, d: Id, x: Id)
    requires d in s.nodes && x in s.nodes
    ensures var t := Register(s, d, x); t.runs == s.runs && d in t.nodes && t.nodes[d].Cell? == s.nodes[d].Cell?
  {
  }

  lemma SameOwners(g: Plan, s: State, t: State)
    requires Owners(s) && Upward(g, s) && t.nodes == s.nodes && t.runs == s.runs
    ensures Owners(t) && Upward(g, t)
  {
    forall x, r | IsComputing(t, x, r) ensures r in t.runs && t.runs[r].owner == x && t.runs[r].notice == Pending {
      assert IsComputing(s, x, r);
    }
    forall y, z | z in Dependents(t, y) ensures IsSlot(t, z) && g.rank(y) < g.rank(z) <= g.limit {
      assert z in Dependents(s, y);
    }
  }

  lemma CellsStep(g: Plan, s: State, cells: seq<Id>, i: nat)
    requires i < |cells| && Owners(s) && Upward(g, s) && forall c :: c in cells ==> IsCell(s, c)
    ensures cells[i] in cells
    ensures var t := Invalidate(g, s, g.rank(cells[i]), Dependents(s, cells[i]));
      && InvalidateCells(g, s, cells[i..]) == InvalidateCells(g, t, cells[i + 1..])
      && forall c :: c in cells ==> IsCell(t, c)
  {
    hide Invalidate, Owners, Spread, Upward;
    assert cells[i..] == [cells[i]] + cells[i + 1..];
    CellCut(g, s, cells[i]);
    var t := Invalidate(g, s, g.rank(cells[i]), Dependents(s, cells[i]));
    forall c | c in cells ensures IsCell(t, c) {
      assert NodeCut(s.nodes[c], t.nodes[c]);
    }
  }

  lemma CellCut(g: Plan, s: State, c: Id)
    requires Owners(s) && Upward(g, s)
    ensures Trimmed(s, Invalidate(g, s, g.rank(c), Dependents(s, c)))
  {
    hide Invalidate, Spread;
    InvalidateCuts(g, s, g.rank(c), Dependents(s, c));
  }

  lemma CellsDone(g: Plan, s: State, cells: seq<Id>)
    ensures InvalidateCells(g, s, cells[|cells|..]) == s
  {
    assert cells[|cells|..] == [];
  }

  /** Outside a batch a resolved slot may be read without awaiting. */
  lemma ReadIsEval(g: Plan, s: State, x: Id)
    requires Inv(g, s) && s.depth == 0 && IsSlot(s, x) && s.nodes[x].phase.Resolved?
    ensures Eval(g, s, x) == Some(s.nodes[x].phase.value)
  {
    CachedIsEval(g, s, x);
  }
}
