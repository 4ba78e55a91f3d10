/**
 The synchronous reactive kernel as functions over one state value: edges, the marking walk,
 pull-based refresh, effects, writes and batches. The class in Reactive.dfy is proved to compute
 these functions.
 */
module ReactiveModel {
  import opened Basics
  import Edges

  type Id = nat

  /** Cell values. */
  type Value(==, !new)

  /** A compute: it returns, or reads a node and continues with the value it got. */
  datatype Prog = Ret(result: Value) | Read(id: Id, next: imap<Value, Prog>)

  datatype Node =
    | Cell(value: Value, dependents: seq<Id>)
    | Slot(compute: Prog, cached: Option<Value>, dirty: bool, force: bool, deps: seq<Id>, dependents: seq<Id>)
    | Effect(run: Prog, seen: Option<Value>, forceRun: bool, deps: seq<Id>)

  datatype State = State(nodes: map<Id, Node>, pending: seq<Id>, batched: seq<Id>, depth: nat, nextId: Id)

  /** The static layout of a run: what each id will be, a rank that every read lowers, and what it may come to read. */
  datatype Kind = CellKind | SlotKind | EffectKind
  datatype Role = Role(kind: Kind, rank: nat, under: set<Id>)

  /** The layout, and the comparison by which a value is taken for the one already stored. */
  datatype Plan = Plan(role: Id -> Role, same: (Value, Value) -> bool)

  const EMPTY := State(map[], [], [], 0, 1)

  function Rank(g: Plan, x: Id): nat { g.role(x).rank }

  /** What `x` may read, itself or through what it reads. */
  function Under(g: Plan, x: Id): set<Id> { g.role(x).under }

  /** The plan lets `x` read `d`. */
  predicate Below(g: Plan, d: Id, x: Id) { Rank(g, d) < Rank(g, x) && d in Under(g, x) && Under(g, d) <= Under(g, x) }

  predicate IsSlot(s: State, x: Id) { x in s.nodes && s.nodes[x].Slot? }
  predicate IsEffect(s: State, x: Id) { x in s.nodes && s.nodes[x].Effect? }
  predicate IsCell(s: State, x: Id) { x in s.nodes && s.nodes[x].Cell? }

  function Deps(s: State, x: Id): seq<Id> {
    if x in s.nodes && !s.nodes[x].Cell? then s.nodes[x].deps else []
  }

  function Dependents(s: State, x: Id): seq<Id> {
    if x in s.nodes && !s.nodes[x].Effect? then s.nodes[x].dependents else []
  }

  /** What a read of `x` would find stored right now. */
  function Cached(s: State, x: Id): Option<Value> {
    if IsCell(s, x) then Some(s.nodes[x].value)
    else if IsSlot(s, x) then s.nodes[x].cached
    else None
  }

  /** A slot that answers from its cache. */
  predicate Clean(s: State, x: Id) {
    IsSlot(s, x) && s.nodes[x].cached.Some? && !s.nodes[x].dirty && !s.nodes[x].force
  }

  function Put(s: State, x: Id, n: Node): State { s.(nodes := s.nodes[x := n]) }

  // -- edges ------------------------------------------------------------------

  function AddDependent(n: Node, x: Id): Node {
    if n.Effect? then n else n.(dependents := Edges.Insert(n.dependents, x))
  }

  function DropDependent(n: Node, x: Id): Node {
    if n.Effect? then n else n.(dependents := Edges.Remove(n.dependents, x))
  }

  function AddDep(n: Node, d: Id): Node {
    if n.Cell? then n else n.(deps := Edges.Insert(n.deps, d))
  }

  function Register(s: State, d: Id, x: Id): State
    requires d in s.nodes && x in s.nodes
  {
    var s1 := Put(s, d, AddDependent(s.nodes[d], x));
    Put(s1, x, AddDep(s1.nodes[x], d))
  }

  /** Detach `x` from everything it read. */
  function DropDependents(s: State, ds: seq<Id>, x: Id): State
    decreases |ds|
  {
    if ds == [] then s
    else if ds[0] in s.nodes then
      DropDependents(Put(s, ds[0], DropDependent(s.nodes[ds[0]], x)), ds[1..], x)
    else DropDependents(s, ds[1..], x)
  }

  function ClearDeps(s: State, x: Id): State
    requires x in s.nodes && !s.nodes[x].Cell?
  {
    var s1 := DropDependents(s, s.nodes[x].deps, x);
    if x in s1.nodes && !s1.nodes[x].Cell? then Put(s1, x, s1.nodes[x].(deps := [])) else s1
  }

  // -- invalidation -------------------------------------------------------------

  function Undirty(s: State): set<Id> { set x | x in s.nodes && s.nodes[x].Slot? && !s.nodes[x].dirty }
  function Unforced(s: State): set<Id> { set x | x in s.nodes && s.nodes[x].Slot? && !s.nodes[x].force }

  function Flagged(n: Node, force: bool): Node
    requires n.Slot?
  {
    n.(dirty := true, force := n.force || force)
  }

  function Propagates(n: Node, force: bool): bool
    requires n.Slot?
  {
    !n.dirty || (force && !n.force)
  }

  /** Entries to push for a list of ids, all with one force bit. */
  function Entries(ids: seq<Id>, force: bool): (r: seq<(Id, bool)>)
    ensures |r| == |ids| && forall i :: 0 <= i < |r| ==> r[i] == (ids[i], force)
  {
    seq(|ids|, i requires 0 <= i < |ids| => (ids[i], force))
  }

  lemma MarkProgress(s: State, x: Id, force: bool)
    requires IsSlot(s, x)
    ensures var t := Put(s, x, Flagged(s.nodes[x], force));
            if Propagates(s.nodes[x], force) then |Undirty(t)| + |Unforced(t)| < |Undirty(s)| + |Unforced(s)|
            else Undirty(t) == Undirty(s) && Unforced(t) == Unforced(s)
  {
    var n := s.nodes[x];
    var t := Put(s, x, Flagged(n, force));
    assert Undirty(t) == Undirty(s) - {x};
    assert Unforced(t) == if force then Unforced(s) - {x} else Unforced(s);
  }

  /** The marking walk: pops from the end of the stack, collects the effects it meets. */
  function Mark(s: State, stack: seq<(Id, bool)>, effects: seq<(Id, bool)>): (State, seq<(Id, bool)>)
    decreases |Undirty(s)| + |Unforced(s)|, |stack|
  {
    if stack == [] then (s, effects)
    else
      var (x, force) := stack[|stack| - 1];
      var rest := stack[..|stack| - 1];
      if IsSlot(s, x) then
        var n := s.nodes[x];
        MarkProgress(s, x, force);
        Mark(Put(s, x, Flagged(n, force)),
             if Propagates(n, force) then rest + Entries(n.dependents, false) else rest, effects)
      else if IsEffect(s, x) then Mark(s, rest, effects + [(x, force)])
      else Mark(s, rest, effects)
  }

  function ScheduleOne(s: State, x: Id, force: bool): State {
    if !IsEffect(s, x) then s
    else
      var s1 := if force then Put(s, x, s.nodes[x].(forceRun := true)) else s;
      s1.(pending := Edges.Insert(s1.pending, x))
  }

  function Schedule(s: State, effects: seq<(Id, bool)>): State
    decreases |effects|
  {
    if effects == [] then s
    else Schedule(ScheduleOne(s, effects[0].0, effects[0].1), effects[1..])
  }

  function MarkAndSchedule(s: State, roots: seq<Id>): State {
    var (s1, effects) := Mark(s, Entries(roots, true), []);
    Schedule(s1, effects)
  }

  // -- refresh ------------------------------------------------------------------

  function ClearFlags(s: State, x: Id): State {
    if IsSlot(s, x) then Put(s, x, s.nodes[x].(dirty := false, force := false)) else s
  }

  /**
   Bring one slot up to date; the result says whether a value it already had was replaced. The
   flags are read once, before the dependency loop.
   */
  function Refresh(g: Plan, s: State, x: Id): (State, bool)
    decreases Rank(g, x), 2, 0
  {
    if !IsSlot(s, x) || Clean(s, x) then (s, false)
    else
      var n := s.nodes[x];
      var (s1, changed) := RefreshDeps(g, s, x, n.deps);
      if n.cached.Some? && !n.force && !changed then (ClearFlags(s1, x), false)
      else Recompute(g, s1, x)
  }

  function RefreshDeps(g: Plan, s: State, x: Id, ds: seq<Id>): (State, bool)
    decreases Rank(g, x), 1, |ds|
  {
    if ds == [] then (s, false)
    else
      var (s1, c1) := if Rank(g, ds[0]) < Rank(g, x) then Refresh(g, s, ds[0]) else (s, false);
      var (s2, c2) := RefreshDeps(g, s1, x, ds[1..]);
      (s2, c1 || c2)
  }

  function Recompute(g: Plan, s: State, x: Id): (State, bool)
    decreases Rank(g, x), 1, 0
  {
    if !IsSlot(s, x) then (s, false)
    else
      var (s1, r) := RunProg(g, ClearDeps(s, x), x, s.nodes[x].compute);
      if r.None? || !IsSlot(s1, x) then (s1, false) else Publish(g, s1, x, r.value)
  }

  /** Flags down; a value not taken for the stored one is stored, and replacing one marks the readers. */
  function Publish(g: Plan, s: State, x: Id, v: Value): (State, bool)
    requires IsSlot(s, x)
  {
    var had := s.nodes[x].cached;
    if had.Some? && g.same(had.value, v) then (ClearFlags(s, x), false)
    else
      var s1 := Put(s, x, s.nodes[x].(cached := Some(v), dirty := false, force := false));
      if had.Some? then (MarkAndSchedule(s1, Dependents(s1, x)), true) else (s1, false)
  }

  /** Run a compute on behalf of `x`: each read registers its edge first. */
  function RunProg(g: Plan, s: State, x: Id, p: Prog): (State, Option<Value>)
    decreases Rank(g, x), 0, p
  {
    match p
    case Ret(v) => (s, Some(v))
    case Read(d, next) =>
      if d !in s.nodes || x !in s.nodes then (s, None)
      else
        var s1 := Register(s, d, x);
        var s2 := if Rank(g, d) < Rank(g, x) then Refresh(g, s1, d).0 else s1;
        var v := Cached(s2, d);
        if v.None? || v.value !in next then (s2, None)
        else RunProg(g, s2, x, next[v.value])
  }

  // -- effects --------------------------------------------------------------------

  /** Whether a scheduled, unforced effect must run: refresh its reads until one changed. */
  function ShouldRun(g: Plan, s: State, ds: seq<Id>): (State, bool)
    decreases |ds|
  {
    if ds == [] then (s, false)
    else
      var (s1, c) := Refresh(g, s, ds[0]);
      if c then (s1, true) else ShouldRun(g, s1, ds[1..])
  }

  function ForceOff(s: State, x: Id): State {
    if IsEffect(s, x) then Put(s, x, s.nodes[x].(forceRun := false)) else s
  }

  function Execute(g: Plan, s: State, x: Id): State {
    if !IsEffect(s, x) then s
    else
      var s1 := ForceOff(s, x);
      var (s2, r) := RunProg(g, ClearDeps(s1, x), x, s.nodes[x].run);
      if IsEffect(s2, x) && r.Some? then Put(s2, x, s2.nodes[x].(seen := r)) else s2
  }

  /** Take the oldest queued effect and run it if it must. */
  function RunHead(g: Plan, s: State): State
    requires s.pending != []
  {
    var x := s.pending[0];
    var s0 := s.(pending := s.pending[1..]);
    if !IsEffect(s, x) then s0
    else
      var (s1, go) := if s0.nodes[x].forceRun then (s0, true) else ShouldRun(g, s0, s0.nodes[x].deps);
      if go then Execute(g, s1, x) else s1
  }

  // -- what a value should be ---------------------------------------------------------

  /** From-scratch value of a node for the current sources. */
  function Eval(g: Plan, s: State, x: Id): Option<Value>
    decreases Rank(g, x), 1
  {
    if IsCell(s, x) then Some(s.nodes[x].value)
    else if IsSlot(s, x) then EvalProg(g, s, x, s.nodes[x].compute)
    else None
  }

  function EvalProg(g: Plan, s: State, x: Id, p: Prog): Option<Value>
    decreases Rank(g, x), 0, p
  {
    match p
    case Ret(v) => Some(v)
    case Read(d, next) =>
      if Rank(g, d) >= Rank(g, x) then None
      else
        var v := Eval(g, s, d);
        if v.None? || v.value !in next then None else EvalProg(g, s, x, next[v.value])
  }
}
