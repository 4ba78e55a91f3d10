/** The reactive context: nodes, edges, marks and the effect queue changed in place. */
module Reactive {
  import opened Basics
  import Edges
  import opened ReactiveModel
  import opened ReactiveInvariant
  import opened ReactiveRefresh
  import opened ReactiveRuns
  import opened ReactiveOps
  import opened ReactiveHistory

  // -- what the loop over a slot's dependencies keeps ---------------------------------------------

  /** After `i` dependencies of `x` the rest of the loop finishes the refresh begun at `s0`. */
  ghost predicate DepsLeft(g: Plan, s0: State, s: State, x: Id, ds: seq<Id>, i: nat, changed: bool, A: set<Id>, B: set<Id>) {
    && i <= |ds| && x in A && Inv(g, s, A, B) && 0 !in s.nodes && Above(g, A, Rank(g, x))
    && Frame(g, s0, s, A, Rank(g, x), 0, 0) && Readable(g, s, x, ds[i..])
    && var (t, c) := RefreshDeps(g, s, x, ds[i..]); RefreshDeps(g, s0, x, ds) == (t, changed || c)
  }

  lemma SlotStart(g: Plan, s: State, x: Id, A: set<Id>, B: set<Id>)
    requires Inv(g, s, A, B) && IsSlot(s, x) && x !in A && !Clean(s, x) && Above(g, A, Rank(g, x) + 1) && 0 !in s.nodes
    ensures DepsLeft(g, s, s, x, s.nodes[x].deps, 0, false, A + {x}, B) && B <= A
  {
    hide Inv, Frame, RefreshDeps;
    Activate(g, s, A, B, x);
    SlotFacts(g, s, x, A, B);
    BoundedByActive(g, s, x, A, B);
    FrameRefl(g, s, A + {x}, Rank(g, x), 0);
    assert s.nodes[x].deps[0..] == s.nodes[x].deps;
  }

  lemma BoundedByActive(g: Plan, s: State, x: Id, A: set<Id>, B: set<Id>)
    requires Inv(g, s, A, B) && x !in A
    ensures B <= A && x !in B
  {
  }

  lemma DepStep(g: Plan, s0: State, s: State, x: Id, ds: seq<Id>, i: nat, changed: bool, A: set<Id>, B: set<Id>)
    requires DepsLeft(g, s0, s, x, ds, i, changed, A, B) && i < |ds|
    ensures var d := ds[i];
      && d in s.nodes && d !in A && Rank(g, d) < Rank(g, x) && Above(g, A, Rank(g, d) + 1)
      && Inv(g, s, A, B) && 0 !in s.nodes
      && var (t, c) := Refresh(g, s, d); DepsLeft(g, s0, t, x, ds, i + 1, changed || c, A, B)
  {
    hide Inv, Frame, Refresh;
    var d, rest := ds[i], ds[i + 1..];
    assert ds[i..] == [d] + rest && ds[i..][1..] == rest;
    assert d in ds[i..];
    FirstDepOk(g, s, x, d, rest, A, B);
    FrameTrans(g, s0, s, Refresh(g, s, d).0, A, Rank(g, x), 0, 0);
  }

  lemma DepsDone(g: Plan, s0: State, s: State, x: Id, ds: seq<Id>, changed: bool, A: set<Id>, B: set<Id>)
    requires DepsLeft(g, s0, s, x, ds, |ds|, changed, A + {x}, B) && IsSlot(s0, x) && 0 !in s0.nodes
    ensures RefreshDeps(g, s0, x, ds) == (s, changed) && IsSlot(s, x) && Inv(g, s, A + {x}, B) && 0 !in s.nodes
    ensures Cached(s, x) == Cached(s0, x)
  {
    hide Inv, Frame;
    assert ds[|ds|..] == [];
    FrameAt(g, s0, s, A + {x}, Rank(g, x), 0, x);
  }

  lemma ReadGuard(g: Plan, A: set<Id>, x: Id, d: Id)
    requires Above(g, A, Rank(g, x)) && Rank(g, d) < Rank(g, x)
    ensures Above(g, A, Rank(g, d) + 1)
  {
  }

  lemma NoSelfRead(g: Plan, s: State, x: Id, A: set<Id>, B: set<Id>)
    requires Inv(g, s, A, B) && x in s.nodes
    ensures x !in Deps(s, x)
  {
  }

  lemma EffectDepOk(g: Plan, s: State, x: Id, d: Id, rest: seq<Id>)
    requires Inv(g, s, {x}, {}) && 0 !in s.nodes && Readable(g, s, x, [d] + rest)
    ensures d in s.nodes && d !in {x} && Above(g, {x}, Rank(g, d) + 1)
    ensures var t := Refresh(g, s, d).0; Inv(g, t, {x}, {}) && 0 !in t.nodes && Readable(g, t, x, rest)
  {
    hide Inv;
    assert d in [d] + rest;
    FirstDepOk(g, s, x, d, rest, {x}, {});
  }

  /** Once it is decided that `x` runs, `x` may be taken as running. */
  lemma EffectReady(g: Plan, s: State, x: Id)
    requires IsEffect(s, x) && 0 !in s.nodes && Readable(g, s, x, Deps(s, x))
    requires Inv(g, s, {x}, {x}) && (!s.nodes[x].forceRun ==> Inv(g, s, {x}, {}))
    ensures var (t, go) := if OwedRun(s, x) then (s, true) else ShouldRun(g, s, Deps(s, x));
      Inv(g, t, {x}, {x}) && IsEffect(t, x) && 0 !in t.nodes
  {
    hide Inv, Frame, ShouldRun, Readable;
    if !OwedRun(s, x) {
      var ds := Deps(s, x);
      ShouldRunOk(g, s, x, ds);
      var t := ShouldRun(g, s, ds).0;
      FrameEffect(g, s, t, {x}, Rank(g, x), 0, x);
      ActivateEffect(g, t, x);
    }
  }

  lemma NoSelfReadEffect(g: Plan, s: State, x: Id)
    requires Inv(g, s, {x}, {x}) && x in s.nodes
    ensures x !in Deps(s, x)
  {
  }

  lemma HeadOfRun(g: Plan, s: State)
    requires Inv(g, s, {}, {}) && s.pending != []
    ensures var x := s.pending[0];
      var s0 := s.(pending := s.pending[1..]);
      && IsEffect(s, x) && x !in s.pending[1..]
      && var (s1, go) := if OwedRun(s0, x) then (s0, true) else ShouldRun(g, s0, Deps(s0, x));
         RunHead(g, s) == if go then Execute(g, s1, x) else s1
  {
  }

  ghost predicate EffectsAreCurrent(g: Plan, s: State) {
    forall x :: IsEffect(s, x) ==> s.nodes[x].seen.Some? && s.nodes[x].seen == EvalProg(g, s, x, s.nodes[x].run)
  }

  lemma AllCurrent(g: Plan, s: State)
    requires Top(g, s)
    ensures s.depth == 0 ==> EffectsAreCurrent(g, s)
  {
    hide Inv, EvalProg;
    if s.depth == 0 {
      forall x | IsEffect(s, x)
        ensures s.nodes[x].seen.Some? && s.nodes[x].seen == EvalProg(g, s, x, s.nodes[x].run)
      {
        EffectsCurrent(g, s, x);
      }
    }
  }

  lemma BatchedAreCells(g: Plan, s: State)
    requires Top(g, s)
    ensures forall c :: c in s.batched ==> IsCell(s, c)
  {
  }

  /** `roots` only depends on the nodes. */
  lemma RootsAt(s: State, t: State, cells: seq<Id>)
    requires t.nodes == s.nodes
    ensures BatchRoots(t, cells) == BatchRoots(s, cells)
  {
  }

  lemma GetReady(g: Plan, s: State, x: Id)
    requires Top(g, s)
    ensures 0 !in s.nodes && Above(g, {}, Rank(g, x) + 1)
    ensures IsCell(s, x) ==> Refresh(g, s, x) == (s, false)
  {
  }

  class Context {
    /** The layout and ranks of the run this context will take; no code depends on it. */
    ghost const g: Plan

    /** The comparison of the cut-off. */
    const same: (Value, Value) -> bool

    var nodes: map<Id, Node>
    var nextId: Id
    var pendingEffects: seq<Id>
    var pendingHead: nat
    var scheduledEffects: set<Id>
    var flushingEffects: bool
    var batchDepth: nat
    var batchedCells: seq<Id>

    ghost function State(): State
      reads this
      requires pendingHead <= |pendingEffects|
    {
      ReactiveModel.State(nodes, pendingEffects[pendingHead..], batchedCells, batchDepth, nextId)
    }

    /** The queue window and the scheduled set agree. */
    ghost predicate Valid()
      reads this
    {
      pendingHead <= |pendingEffects| && same == g.same && forall x :: x in scheduledEffects <==> x in State().pending
    }

    constructor (ghost plan: Plan, equal: (Value, Value) -> bool)
      requires Exact(plan) && equal == plan.same
      ensures g == plan && Valid() && State() == EMPTY && !flushingEffects && Top(g, State())
    {
      g, same := plan, equal;
      nodes, nextId := map[], 1;
      pendingEffects, pendingHead, scheduledEffects, flushingEffects := [], 0, {}, false;
      batchDepth, batchedCells := 0, [];
      new;
      EmptyOk(g);
    }

    // -- edges -------------------------------------------------------------------------------

    method RegisterDependency(d: Id, x: Id)
      requires Valid() && d in nodes && x in nodes
      modifies this`nodes
      ensures Valid() && State() == Register(old(State()), d, x)
    {
      var dep := nodes[d];
      if !dep.Effect? {
        nodes := nodes[d := dep.(dependents := Edges.Insert(dep.dependents, x))];
      }
      var parent := nodes[x];
      if !parent.Cell? {
        nodes := nodes[x := parent.(deps := Edges.Insert(parent.deps, d))];
      }
      assert nodes == Register(old(State()), d, x).nodes;
    }

    /** Clears what `x` reads, detaching it from each node first. */
    method ClearDependencies(x: Id)
      requires Valid() && x in nodes && !nodes[x].Cell? && x !in nodes[x].deps
      modifies this`nodes
      ensures Valid() && State() == ClearDeps(old(State()), x)
    {
      ghost var s0 := State();
      var ds := nodes[x].deps;
      var i := 0;
      while i < |ds|
        invariant 0 <= i <= |ds| && Valid() && x in nodes && nodes[x] == s0.nodes[x]
        invariant State() == s0.(nodes := nodes)
        invariant DropDependents(s0, ds, x) == DropDependents(State(), ds[i..], x)
      {
        assert ds[i..][0] == ds[i] && ds[i..][1..] == ds[i + 1..];
        if ds[i] in nodes && !nodes[ds[i]].Effect? {
          var dep := nodes[ds[i]];
          nodes := nodes[ds[i] := dep.(dependents := Edges.Remove(dep.dependents, x))];
        } else if ds[i] in nodes {
          assert nodes[ds[i] := nodes[ds[i]]] == nodes;
        }
        i := i + 1;
      }
      nodes := nodes[x := nodes[x].(deps := [])];
    }

    // -- invalidation ----------------------------------------------------------------------------

    /** The worklist walk: flags slots, collects the effects it meets. */
    method MarkFrontier(roots: seq<Id>) returns (effects: seq<(Id, bool)>)
      requires Valid()
      modifies this`nodes
      ensures Valid() && (State(), effects) == Mark(old(State()), Entries(roots, true), [])
    {
      ghost var s0 := State();
      effects := [];
      var stack := Entries(roots, true);
      while stack != []
        invariant Valid() && State() == s0.(nodes := nodes)
        invariant Mark(s0, Entries(roots, true), []) == Mark(State(), stack, effects)
        decreases |Undirty(State())| + |Unforced(State())|, |stack|
      {
        var (x, force) := stack[|stack| - 1];
        stack := stack[..|stack| - 1];
        if x in nodes {
          var n := nodes[x];
          if n.Slot? {
            MarkProgress(State(), x, force);
            var propagate := !n.dirty || (force && !n.force);
            nodes := nodes[x := n.(dirty := true, force := n.force || force)];
            if propagate {
              stack := stack + Entries(n.dependents, false);
            }
          } else if n.Effect? {
            effects := effects + [(x, force)];
          }
        }
      }
    }

    method ScheduleEffect(x: Id, force: bool)
      requires Valid()
      modifies this`nodes, this`pendingEffects, this`scheduledEffects
      ensures Valid() && State() == ScheduleOne(old(State()), x, force)
    {
      if x in nodes && nodes[x].Effect? {
        if force {
          nodes := nodes[x := nodes[x].(forceRun := true)];
        }
        if x !in scheduledEffects {
          scheduledEffects := scheduledEffects + {x};
          pendingEffects := pendingEffects + [x];
          assert State().pending == old(State().pending) + [x];
        }
      }
    }

    method ScheduleAll(effects: seq<(Id, bool)>)
      requires Valid()
      modifies this`nodes, this`pendingEffects, this`scheduledEffects
      ensures Valid() && State() == Schedule(old(State()), effects)
    {
      ghost var s0 := State();
      var i := 0;
      while i < |effects|
        invariant 0 <= i <= |effects| && Valid()
        invariant Schedule(s0, effects) == Schedule(State(), effects[i..])
        invariant pendingHead == old(pendingHead)
      {
        assert effects[i..][0] == effects[i] && effects[i..][1..] == effects[i + 1..];
        ScheduleEffect(effects[i].0, effects[i].1);
        i := i + 1;
      }
    }

    /** Marks the cone of a node; the result says whether an effect was reached. */
    method InvalidateDependentsNow(x: Id) returns (reached: bool)
      requires Valid()
      modifies this`nodes, this`pendingEffects, this`scheduledEffects
      ensures Valid() && State() == MarkAndSchedule(old(State()), Dependents(old(State()), x))
      ensures reached == (Mark(old(State()), Entries(Dependents(old(State()), x), true), []).1 != [])
    {
      var roots := if x in nodes && !nodes[x].Effect? then nodes[x].dependents else [];
      var effects := MarkFrontier(roots);
      ScheduleAll(effects);
      reached := effects != [];
    }

    // -- refresh ----------------------------------------------------------------------------------

    method RefreshSlot(x: Id, ghost A: set<Id>, ghost B: set<Id>) returns (changed: bool)
      requires Valid() && Inv(g, State(), A, B) && 0 !in nodes
      requires x in nodes && (nodes[x].Slot? ==> x !in A && Above(g, A, Rank(g, x) + 1))
      modifies this`nodes, this`pendingEffects, this`scheduledEffects
      ensures Valid() && (State(), changed) == Refresh(g, old(State()), x)
      decreases Rank(g, x), 2, 0
    {
      hide Inv, Frame, DepsLeft, RefreshDeps, Recompute, Above, Readable;
      if !nodes[x].Slot? {
        return false;
      }
      var n := nodes[x];
      if n.cached.Some? && !n.dirty && !n.force {
        return false;
      }
      ghost var s0 := State();
      SlotStart(g, s0, x, A, B);
      var dependencyChanged := false;
      var i := 0;
      while i < |n.deps|
        invariant 0 <= i <= |n.deps| && Valid() && pendingHead == old(pendingHead)
        invariant DepsLeft(g, s0, State(), x, n.deps, i, dependencyChanged, A + {x}, B)
      {
        DepStep(g, s0, State(), x, n.deps, i, dependencyChanged, A + {x}, B);
        var c := RefreshSlot(n.deps[i], A + {x}, B);
        dependencyChanged := dependencyChanged || c;
        i := i + 1;
      }
      DepsDone(g, s0, State(), x, n.deps, dependencyChanged, A, B);
      if n.cached.Some? && !n.force && !dependencyChanged {
        nodes := nodes[x := nodes[x].(dirty := false, force := false)];
        return false;
      }
      changed := RecomputeSlotNow(x, A, B);
    }

    method RecomputeSlotNow(x: Id, ghost A: set<Id>, ghost B: set<Id>) returns (changed: bool)
      requires Valid() && Inv(g, State(), A + {x}, B) && B <= A && 0 !in nodes
      requires x in nodes && nodes[x].Slot? && x !in A && Above(g, A, Rank(g, x) + 1)
      modifies this`nodes, this`pendingEffects, this`scheduledEffects
      ensures Valid() && (State(), changed) == Recompute(g, old(State()), x)
      decreases Rank(g, x), 1, 0
    {
      hide Inv, Frame, RunProg, Above, AllFresh, Reads, ClearDeps, Mark, Progress;
      ghost var s0 := State();
      RecomputeStarts(g, s0, x, A, B);
      NoSelfRead(g, s0, x, A + {x}, B);
      var p := nodes[x].compute;
      ClearDependencies(x);
      ghost var s1 := State();
      RunProgOk(g, s1, x, p, A + {x}, B + {x});
      var result := RunCompute(x, p, A + {x}, B + {x});
      ghost var s2 := State();
      FrameAt(g, s1, s2, A + {x}, Rank(g, x), x, x);
      assert Recompute(g, s0, x) == Publish(g, s2, x, result);
      var n := nodes[x];
      nodes := nodes[x := n.(dirty := false, force := false)];
      if n.cached.Some? && same(n.cached.value, result) {
        return false;
      }
      nodes := nodes[x := nodes[x].(cached := Some(result))];
      assert State() == Put(s2, x, n.(cached := Some(result), dirty := false, force := false));
      if n.cached.Some? {
        var _ := InvalidateDependentsNow(x);
      }
      changed := n.cached.Some?;
    }

    /** Runs a compute: each tracked read registers its edge, then brings the node read up to date. */
    method RunCompute(x: Id, program: Prog, ghost A: set<Id>, ghost B: set<Id>) returns (result: Value)
      requires Valid() && Inv(g, State(), A, B) && x in B && Above(g, A, Rank(g, x)) && 0 !in nodes
      requires Reads(g, x, program) && AllFresh(State(), Deps(State(), x))
      modifies this`nodes, this`pendingEffects, this`scheduledEffects
      ensures Valid() && (State(), Some(result)) == RunProg(g, old(State()), x, program)
      decreases Rank(g, x), 0, program
    {
      hide Inv, Frame, Above, AllFresh, Reads, Register, Refresh, Progress, Healed;
      if program.Ret? {
        return program.result;
      }
      var d := program.id;
      ghost var s0 := State();
      ReadsAt(g, x, program);
      ReadOk(g, s0, x, d, A, B);
      RegisterDependency(d, x);
      ghost var s1 := State();
      RefreshReadOk(g, s1, x, d, Deps(s0, x), A, B);
      ReadGuard(g, A, x, d);
      var _ := RefreshSlot(d, A, B);
      var v := if nodes[d].Cell? then nodes[d].value else nodes[d].cached.value;
      result := RunCompute(x, program.next[v], A, B);
    }

    // -- effects ---------------------------------------------------------------------------------------

    /** Whether a queued effect must run: its force bit, or a read that changed under it. */
    method EffectShouldRun(x: Id) returns (go: bool)
      requires Valid() && x in nodes && nodes[x].Effect? && 0 !in nodes && Readable(g, State(), x, Deps(State(), x))
      requires Inv(g, State(), {x}, {x}) && (!nodes[x].forceRun ==> Inv(g, State(), {x}, {}))
      modifies this`nodes, this`pendingEffects, this`scheduledEffects
      ensures Valid()
      ensures (State(), go) == if OwedRun(old(State()), x) then (old(State()), true)
                               else ShouldRun(g, old(State()), Deps(old(State()), x))
    {
      hide Inv, Frame, Readable, Refresh, Above;
      if nodes[x].forceRun {
        return true;
      }
      ghost var s0 := State();
      var ds := nodes[x].deps;
      assert ds[0..] == ds;
      var i := 0;
      while i < |ds|
        invariant 0 <= i <= |ds| && Valid() && pendingHead == old(pendingHead) && 0 !in nodes
        invariant Inv(g, State(), {x}, {}) && Readable(g, State(), x, ds[i..])
        invariant ShouldRun(g, s0, ds) == ShouldRun(g, State(), ds[i..])
      {
        var d := ds[i];
        assert ds[i..] == [d] + ds[i + 1..];
        EffectDepOk(g, State(), x, d, ds[i + 1..]);
        var c := RefreshSlot(d, {x}, {});
        if c {
          return true;
        }
        i := i + 1;
      }
      return false;
    }

    method RunEffect(x: Id)
      requires Valid() && x in nodes && nodes[x].Effect? && 0 !in nodes && Readable(g, State(), x, Deps(State(), x))
      requires Inv(g, State(), {x}, {x}) && (!nodes[x].forceRun ==> Inv(g, State(), {x}, {}))
      modifies this`nodes, this`pendingEffects, this`scheduledEffects
      ensures Valid()
      ensures var (s1, go) := if OwedRun(old(State()), x) then (old(State()), true)
                              else ShouldRun(g, old(State()), Deps(old(State()), x));
              State() == if go then Execute(g, s1, x) else s1
    {
      hide Inv, Frame, Readable, Refresh, Above, ShouldRun, ClearDeps, RunProg, Reads, AllFresh;
      ghost var s0 := State();
      EffectReady(g, s0, x);
      var go := EffectShouldRun(x);
      if !go {
        return;
      }
      ghost var s1 := State();
      ExecuteStarts(g, s1, x);
      NoSelfReadEffect(g, s1, x);
      nodes := nodes[x := nodes[x].(forceRun := false)];
      ClearDependencies(x);
      RunProgOk(g, State(), x, nodes[x].run, {x}, {x});
      ghost var s2 := State();
      var result := RunCompute(x, nodes[x].run, {x}, {x});
      FrameEffect(g, s2, State(), {x}, Rank(g, x), x, x);
      nodes := nodes[x := nodes[x].(seen := Some(result))];
    }

    /** Takes the effect at the head off the queue and runs it if it must. */
    method RunNextEffect()
      requires Valid() && Inv(g, State(), {}, {}) && flushingEffects && pendingHead < |pendingEffects|
      modifies this`nodes, this`pendingEffects, this`pendingHead, this`scheduledEffects
      ensures Valid() && State() == RunHead(g, old(State()))
    {
      hide Inv, RunHead;
      ghost var s := State();
      PopOk(g, s);
      HeadOfRun(g, s);
      var x := pendingEffects[pendingHead];
      pendingHead := pendingHead + 1;
      scheduledEffects := scheduledEffects - {x};
      assert s.pending == [x] + State().pending;
      assert State() == s.(pending := s.pending[1..]);
      RunEffect(x);
    }

    /** Drains the queue in arrival order. */
    method FlushEffects()
      requires Valid() && Inv(g, State(), {}, {}) && !flushingEffects
      modifies this`nodes, this`pendingEffects, this`pendingHead, this`scheduledEffects, this`flushingEffects
      ensures Valid() && !flushingEffects && State() == Flush(g, old(State()))
    {
      hide Inv, RunHead;
      flushingEffects := true;
      ghost var s0 := State();
      while pendingHead < |pendingEffects|
        invariant Valid() && flushingEffects && Inv(g, State(), {}, {}) && Flush(g, s0) == Flush(g, State())
        decreases |Stale(State())|, |State().pending|
      {
        RunHeadOk(g, State());
        RunNextEffect();
      }
      pendingEffects, pendingHead := [], 0;
      flushingEffects := false;
    }

    // -- public operations ---------------------------------------------------------------------------

    /** Between public operations. */
    ghost predicate Idle()
      reads this
    {
      Valid() && !flushingEffects && Top(g, State())
    }

    method Source(v: Value) returns (id: Id)
      requires Idle() && Legal(g, State(), MakeSource(v))
      modifies this
      ensures Idle() && id == old(nextId) && State() == Step(g, old(State()), MakeSource(v))
    {
      hide Inv;
      StepOk(g, State(), MakeSource(v));
      id := nextId;
      nextId := nextId + 1;
      nodes := nodes[id := Cell(v, [])];
    }

    method Computed(p: Prog) returns (id: Id)
      requires Idle() && Legal(g, State(), MakeComputed(p))
      modifies this
      ensures Idle() && id == old(nextId) && State() == Step(g, old(State()), MakeComputed(p))
    {
      hide Inv, Reads, NearFirst;
      StepOk(g, State(), MakeComputed(p));
      id := nextId;
      nextId := nextId + 1;
      nodes := nodes[id := Slot(p, None, false, false, [], [])];
    }

    /** A new effect runs before the call returns. */
    method Effect(p: Prog) returns (id: Id)
      requires Idle() && Legal(g, State(), MakeEffect(p))
      modifies this
      ensures Idle() && id == old(nextId) && State() == Step(g, old(State()), MakeEffect(p))
      ensures batchDepth == 0 ==> EffectsAreCurrent(g, State())
    {
      hide Inv;
      StepOk(g, State(), MakeEffect(p));
      PrepareOk(g, State(), MakeEffect(p));
      id := nextId;
      nextId := nextId + 1;
      nodes := nodes[id := ReactiveModel.Effect(p, None, true, [])];
      ScheduleEffect(id, false);
      FlushEffects();
      AllCurrent(g, State());
    }

    /** A read: inside a batch and out it returns what is stored once the node is up to date, outside one the from-scratch value. */
    method Get(x: Id) returns (v: Value)
      requires Idle() && Legal(g, State(), Op.Get(x))
      modifies this
      ensures Idle() && State() == Step(g, old(State()), Op.Get(x))
      ensures Some(v) == Observe(g, old(State()), x) && ReadGives(g, old(State()), State(), x, Some(v))
      ensures batchDepth == 0 ==> Some(v) == Eval(g, old(State()), x)
    {
      hide Inv, Refresh, Eval, ReadGives;
      ReadAtAnyDepth(g, State(), x);
      StepOk(g, State(), Op.Get(x));
      GetOk(g, State(), x);
      GetReady(g, State(), x);
      ghost var s0 := State();
      if batchDepth == 0 {
        GlitchFreeRead(g, s0, x);
      }
      if nodes[x].Cell? {
        v := nodes[x].value;
      } else {
        var _ := RefreshSlot(x, {}, {});
        v := nodes[x].cached.value;
      }
    }

    /** A write; outside a batch every effect has caught up when it returns. */
    method Set(x: Id, v: Value)
      requires Idle() && Legal(g, State(), Op.Set(x, v))
      modifies this
      ensures Idle() && State() == Step(g, old(State()), Op.Set(x, v))
      ensures batchDepth == 0 ==> EffectsAreCurrent(g, State())
    {
      hide Inv, Mark;
      ghost var s0 := State();
      StepOk(g, s0, Op.Set(x, v));
      PrepareOk(g, s0, Op.Set(x, v));
      if !same(nodes[x].value, v) {
        nodes := nodes[x := nodes[x].(value := v)];
        if batchDepth > 0 {
          batchedCells := Edges.Insert(batchedCells, x);
        } else {
          var reached := InvalidateDependentsNow(x);
          assert (State(), reached) == Write(g, s0, x, v);
          if reached {
            FlushEffects();
          }
        }
      }
      AllCurrent(g, State());
    }

    method BeginBatch()
      requires Idle()
      modifies this
      ensures Idle() && State() == Step(g, old(State()), Begin)
    {
      StepOk(g, State(), Begin);
      batchDepth := batchDepth + 1;
    }

    /** The dependents of the cells written in a batch, in write order. */
    method RootsOf(cells: seq<Id>) returns (roots: seq<Id>)
      requires Valid() && forall c :: c in cells ==> IsCell(State(), c)
      ensures roots == BatchRoots(State(), cells)
    {
      roots := [];
      var i := 0;
      while i < |cells|
        invariant 0 <= i <= |cells| && roots + BatchRoots(State(), cells[i..]) == BatchRoots(State(), cells)
      {
        assert cells[i..][0] == cells[i] && cells[i..][1..] == cells[i + 1..];
        assert roots + (Dependents(State(), cells[i]) + BatchRoots(State(), cells[i + 1..]))
          == roots + Dependents(State(), cells[i]) + BatchRoots(State(), cells[i + 1..]);
        assert cells[i] in cells;
        roots := roots + nodes[cells[i]].dependents;
        i := i + 1;
      }
    }

    /** Leaving the outermost batch marks the cone of everything written in it, then drains the queue. */
    method FinishBatch()
      requires Idle() && batchDepth > 0
      modifies this
      ensures Idle() && State() == Step(g, old(State()), End)
      ensures batchDepth == 0 ==> EffectsAreCurrent(g, State())
    {
      hide Inv, Mark;
      ghost var s0 := State();
      StepOk(g, s0, End);
      PrepareOk(g, s0, End);
      BatchedAreCells(g, s0);
      batchDepth := batchDepth - 1;
      if batchDepth == 0 {
        var cells := batchedCells;
        batchedCells := [];
        var roots := RootsOf(cells);
        RootsAt(State(), s0.(depth := 0), cells);
        var effects := MarkFrontier(roots);
        ScheduleAll(effects);
        assert State() == Prepare(g, s0, End);
        FlushEffects();
      }
      AllCurrent(g, State());
    }
  }
}
