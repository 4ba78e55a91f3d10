/** Edges under disposal and id recycling: both directions agree, and a freed id leaves no trace. */
module ArenaModel {
  import opened Basics
  import Edges
  import opened ReactiveModel
  import opened ReactiveMarking

  /** The kernel's nodes, the ids waiting to be used again, and which allocation made each live node. */
  datatype Arena = Arena(s: State, free: seq<Id>, stamps: map<Id, nat>, nextStamp: nat)

  const BLANK := Arena(EMPTY, [], map[], 0)

  // -- operations -----------------------------------------------------------------------------------

  /** The id the next node gets: the last one freed, or a new one. */
  function NextId(a: Arena): Id { if a.free != [] then a.free[|a.free| - 1] else a.s.nextId }

  predicate Bare(n: Node) {
    match n
    case Cell(_, es) => es == []
    case Slot(_, cached, dirty, force, ds, es) => cached.None? && !dirty && !force && ds == [] && es == []
    case Effect(_, seen, forceRun, ds) => seen.None? && forceRun && ds == []
  }

  function Create(a: Arena, n: Node): Arena {
    var x := NextId(a);
    var s1 := a.s.(nodes := a.s.nodes[x := n], nextId := if a.free != [] then a.s.nextId else a.s.nextId + 1);
    Arena(s1, if a.free != [] then a.free[..|a.free| - 1] else a.free, a.stamps[x := a.nextStamp], a.nextStamp + 1)
  }

  function DropDep(n: Node, d: Id): Node { if n.Cell? then n else n.(deps := Edges.Remove(n.deps, d)) }

  /** Detach `x` from everything that read it. */
  function DropDeps(s: State, ys: seq<Id>, x: Id): State
    decreases |ys|
  {
    if ys == [] then s
    else if ys[0] in s.nodes then DropDeps(Put(s, ys[0], DropDep(s.nodes[ys[0]], x)), ys[1..], x)
    else DropDeps(s, ys[1..], x)
  }

  /** Mark the readers stale without scheduling anything. */
  function MarkOnly(s: State, roots: seq<Id>): State { Mark(s, Entries(roots, true), []).0 }

  function Detached(s: State, x: Id): State
    requires x in s.nodes
  {
    var s1 := MarkOnly(s, Dependents(s, x));
    DropDeps(DropDependents(s1, Deps(s1, x), x), Dependents(s1, x), x)
  }

  function Forget(s: State, x: Id): State {
    s.(nodes := s.nodes - {x}, pending := Edges.Remove(s.pending, x))
  }

  /** Tear a node down: mark its readers, detach both directions, free its id. */
  function Dispose(a: Arena, x: Id): Arena
    requires x in a.s.nodes
  {
    a.(s := Forget(Detached(a.s, x), x), free := a.free + [x], stamps := a.stamps - {x})
  }

  // -- what every arena keeps ---------------------------------------------------------------------------

  /** Every edge is recorded at both ends. */
  ghost predicate Linked(s: State) {
    && (forall x, d {:trigger d in Deps(s, x)} :: d in Deps(s, x) ==> d in s.nodes && d != x && x in Dependents(s, d))
    && (forall x, d {:trigger x in Dependents(s, d)} :: x in Dependents(s, d) ==> x in s.nodes && d in Deps(s, x))
  }

  ghost predicate Simple(s: State) { forall x :: Edges.NoDup(Deps(s, x)) && Edges.NoDup(Dependents(s, x)) }

  ghost predicate IdsOk(a: Arena) {
    && Edges.NoDup(a.free) && 1 <= a.s.nextId
    && (forall x :: x in a.free ==> x !in a.s.nodes && 1 <= x < a.s.nextId)
    && (forall x :: 1 <= x < a.s.nextId ==> x in a.s.nodes || x in a.free)
    && (forall x :: x in a.s.nodes ==> 1 <= x < a.s.nextId)
  }

  ghost predicate StampsOk(a: Arena) {
    && (forall x :: x in a.stamps <==> x in a.s.nodes)
    && (forall x :: x in a.stamps ==> a.stamps[x] < a.nextStamp)
    && (forall x, y :: x in a.stamps && y in a.stamps && a.stamps[x] == a.stamps[y] ==> x == y)
  }

  ghost predicate Inv(a: Arena) { Linked(a.s) && Simple(a.s) && IdsOk(a) && StampsOk(a) }

  /** The edges as a plain set of reader and source. */
  ghost function EdgeSet(s: State): iset<(Id, Id)> { iset x, d | d in Deps(s, x) :: (x, d) }

  /** A free id is in no list, at either end. */
  lemma FreedLeavesNoTrace(a: Arena, x: Id)
    requires Inv(a) && x in a.free
    ensures Deps(a.s, x) == [] && Dependents(a.s, x) == []
    ensures forall y :: x !in Deps(a.s, y) && x !in Dependents(a.s, y)
  {
  }

  // -- pointwise effects of the parts --------------------------------------------------------------------------

  /** Nodes change in their edge lists only. */
  ghost predicate SameNodes(s: State, t: State) {
    t == s.(nodes := t.nodes) && t.nodes.Keys == s.nodes.Keys
  }

  lemma {:induction false} DropDependentsAt(s: State, ds: seq<Id>, x: Id)
    requires Edges.NoDup(ds) && Simple(s) && forall d :: d in ds ==> d in s.nodes
    ensures var t := DropDependents(s, ds, x);
      && SameNodes(s, t) && Simple(t) && (forall y :: Deps(t, y) == Deps(s, y))
      && (forall y, z :: z in Dependents(t, y) <==> z in Dependents(s, y) && (y in ds ==> z != x))
    decreases |ds|
  {
    if ds != [] {
      var d, rest := ds[0], ds[1..];
      assert ds == [d] + rest && d in ds;
      var s1 := Put(s, d, DropDependent(s.nodes[d], x));
      Edges.RemoveIsDifference(Dependents(s, d), x);
      assert forall y :: Dependents(s1, y) == if y == d then Edges.Remove(Dependents(s, d), x) else Dependents(s, y);
      assert forall y :: Deps(s1, y) == Deps(s, y);
      DropDependentsAt(s1, rest, x);
    }
  }

  lemma {:induction false} DropDepsAt(s: State, ys: seq<Id>, x: Id)
    requires Edges.NoDup(ys) && Simple(s) && forall y :: y in ys ==> y in s.nodes
    ensures var t := DropDeps(s, ys, x);
      && SameNodes(s, t) && Simple(t) && (forall y :: Dependents(t, y) == Dependents(s, y))
      && (forall y, d :: d in Deps(t, y) <==> d in Deps(s, y) && (y in ys ==> d != x))
    decreases |ys|
  {
    if ys != [] {
      var y, rest := ys[0], ys[1..];
      assert ys == [y] + rest && y in ys;
      var s1 := Put(s, y, DropDep(s.nodes[y], x));
      Edges.RemoveIsDifference(Deps(s, y), x);
      assert forall z :: Deps(s1, z) == if z == y then Edges.Remove(Deps(s, y), x) else Deps(s, z);
      assert forall z :: Dependents(s1, z) == Dependents(s, z);
      DropDepsAt(s1, rest, x);
    }
  }

  lemma MarkOnlyAt(s: State, roots: seq<Id>)
    ensures var t := MarkOnly(s, roots);
      && FlagsOnly(s, t) && t.pending == s.pending && SameEdges(s, t)
      && forall x :: x in roots && IsSlot(t, x) ==> t.nodes[x].dirty && t.nodes[x].force
  {
    var stack := Entries(roots, true);
    var K := s.nodes.Keys + (set e | e in stack :: e.0) + (set x, y | x in s.nodes && y in Dependents(s, x) :: y);
    forall x, y | x in K && IsSlot(s, x) && y in Dependents(s, x) ensures y in K {
      assert x in s.nodes;
    }
    assert UpClosed(s, K);
    MarkStaysInside(s, stack, [], K);
    MarkReaches(s, stack, []);
    var (t, es) := Mark(s, stack, []);
    FlagsKeepEdges(s, t);
    forall x | x in roots && IsSlot(t, x) ensures t.nodes[x].dirty && t.nodes[x].force {
      var i :| 0 <= i < |roots| && roots[i] == x;
      assert stack[i] == (x, true);
      assert Reached(t, es, x, true);
    }
  }

  lemma LinkedSame(s: State, t: State)
    requires Linked(s) && Simple(s) && SameEdges(s, t) && t.nodes.Keys == s.nodes.Keys
    ensures Linked(t) && Simple(t)
  {
    forall x, d | d in Deps(t, x) ensures d in t.nodes && d != x && x in Dependents(t, d) {
      assert d in Deps(s, x);
    }
    forall x, d | x in Dependents(t, d) ensures x in t.nodes && d in Deps(t, x) {
      assert x in Dependents(s, d);
    }
  }

  // -- creating ------------------------------------------------------------------------------------------------------

  /** A new node, recycled id or not, starts with no edge and no flag of an earlier one. */
  lemma CreateOk(a: Arena, n: Node)
    requires Inv(a) && Bare(n)
    ensures var b := Create(a, n);
      var x := NextId(a);
      && Inv(b) && x !in a.s.nodes && b.s.nodes[x] == n && EdgeSet(b.s) == EdgeSet(a.s)
      && (forall y :: x !in Deps(b.s, y) && x !in Dependents(b.s, y))
      && (forall y :: y in a.s.nodes ==> b.s.nodes[y] == a.s.nodes[y])
  {
    var b, x := Create(a, n), NextId(a);
    assert a.free != [] ==> x in a.free;
    assert x !in a.s.nodes;
    assert forall y :: Deps(b.s, y) == Deps(a.s, y) && Dependents(b.s, y) == Dependents(a.s, y);
    CreateLinked(a.s, b.s, x);
    CreateIds(a, n);
  }

  lemma CreateLinked(s: State, t: State, x: Id)
    requires Linked(s) && Simple(s) && SameEdges(s, t) && t.nodes.Keys == s.nodes.Keys + {x} && x !in s.nodes
    ensures Linked(t) && Simple(t) && EdgeSet(t) == EdgeSet(s)
    ensures forall y :: x !in Deps(t, y) && x !in Dependents(t, y)
  {
    forall y, d | d in Deps(t, y) ensures d in t.nodes && d != y && y in Dependents(t, d) && d != x {
      assert d in Deps(s, y);
    }
    forall y, d | y in Dependents(t, d) ensures y in t.nodes && d in Deps(t, y) && y != x {
      assert y in Dependents(s, d);
    }
  }

  lemma CreateIds(a: Arena, n: Node)
    requires IdsOk(a) && StampsOk(a)
    ensures IdsOk(Create(a, n)) && StampsOk(Create(a, n))
  {
    var b, x := Create(a, n), NextId(a);
    if a.free != [] {
      assert x in a.free && 1 <= x < a.s.nextId;
      assert a.free == a.free[..|a.free| - 1] + [x];
      assert forall y :: y in b.free <==> y in a.free && y != x;
    }
  }

  // -- reading and recomputing -------------------------------------------------------------------------------------------

  predicate Reader(s: State, x: Id) { x in s.nodes && !s.nodes[x].Cell? }
  predicate Source(s: State, d: Id) { d in s.nodes && !s.nodes[d].Effect? }

  /** A read records the edge, once, at both ends. */
  lemma RegisterOk(s: State, d: Id, x: Id)
    requires Linked(s) && Simple(s) && Source(s, d) && Reader(s, x) && d != x
    ensures var t := Register(s, d, x);
      && Linked(t) && Simple(t) && SameNodes(s, t) && EdgeSet(t) == EdgeSet(s) + iset{(x, d)}
  {
    var t := Register(s, d, x);
    Edges.InsertIsUnion(Dependents(s, d), x);
    Edges.InsertIsUnion(Deps(s, x), d);
    assert forall y :: Deps(t, y) == if y == x then Edges.Insert(Deps(s, x), d) else Deps(s, y);
    assert forall y :: Dependents(t, y) == if y == d then Edges.Insert(Dependents(s, d), x) else Dependents(s, y);
    RegisterLinked(s, t, d, x);
  }

  lemma RegisterLinked(s: State, t: State, d: Id, x: Id)
    requires Linked(s) && d in s.nodes && x in s.nodes && d != x && t.nodes.Keys == s.nodes.Keys
    requires forall y, e :: e in Deps(t, y) <==> e in Deps(s, y) || (y == x && e == d)
    requires forall y, e :: y in Dependents(t, e) <==> y in Dependents(s, e) || (y == x && e == d)
    ensures Linked(t) && EdgeSet(t) == EdgeSet(s) + iset{(x, d)}
  {
  }

  /** A recompute starts by dropping what the node read. */
  lemma ClearOk(s: State, x: Id)
    requires Linked(s) && Simple(s) && Reader(s, x)
    ensures var t := ClearDeps(s, x);
      && Linked(t) && Simple(t) && SameNodes(s, t) && Deps(t, x) == []
      && EdgeSet(t) == iset e | e in EdgeSet(s) && e.0 != x
  {
    var ds := Deps(s, x);
    assert forall d :: d in ds ==> d in s.nodes;
    DropDependentsAt(s, ds, x);
    var s1 := DropDependents(s, ds, x);
    var t := ClearDeps(s, x);
    assert forall y :: Deps(t, y) == if y == x then [] else Deps(s, y);
    assert forall y :: Dependents(t, y) == Dependents(s1, y);
    ClearLinked(s, t, x, ds);
  }

  lemma ClearLinked(s: State, t: State, x: Id, ds: seq<Id>)
    requires Linked(s) && ds == Deps(s, x) && t.nodes.Keys == s.nodes.Keys
    requires forall y, e :: e in Deps(t, y) <==> e in Deps(s, y) && y != x
    requires forall y, e :: y in Dependents(t, e) <==> y in Dependents(s, e) && (e in ds ==> y != x)
    ensures Linked(t) && EdgeSet(t) == iset e | e in EdgeSet(s) && e.0 != x
  {
    forall y, e | y in Dependents(t, e) ensures y in t.nodes && e in Deps(t, y) {
      assert e in Deps(s, y);
    }
  }

  // -- disposing ------------------------------------------------------------------------------------------------------------

  lemma DetachedAt(s: State, x: Id)
    requires Linked(s) && Simple(s) && x in s.nodes
    ensures var t := Detached(s, x);
      && t.nodes.Keys == s.nodes.Keys && Simple(t) && t.pending == s.pending && t.nextId == s.nextId
      && (forall y, d :: d in Deps(t, y) <==> d in Deps(s, y) && (y in Dependents(s, x) ==> d != x))
      && (forall y, z :: z in Dependents(t, y) <==> z in Dependents(s, y) && (y in Deps(s, x) ==> z != x))
  {
    var s1 := MarkOnly(s, Dependents(s, x));
    MarkOnlyAt(s, Dependents(s, x));
    LinkedSame(s, s1);
    var ds, ys := Deps(s1, x), Dependents(s1, x);
    DropDependentsAt(s1, ds, x);
    DropDepsAt(DropDependents(s1, ds, x), ys, x);
  }

  lemma ForgetLinked(s: State, d: State, t: State, x: Id)
    requires Linked(s) && x in s.nodes && d.nodes.Keys == s.nodes.Keys && t.nodes == d.nodes - {x}
    requires forall y, e :: e in Deps(d, y) <==> e in Deps(s, y) && (y in Dependents(s, x) ==> e != x)
    requires forall y, z :: z in Dependents(d, y) <==> z in Dependents(s, y) && (y in Deps(s, x) ==> z != x)
    ensures Linked(t) && EdgeSet(t) == iset e | e in EdgeSet(s) && e.0 != x && e.1 != x
  {
    assert forall y :: y != x ==> Deps(t, y) == Deps(d, y) && Dependents(t, y) == Dependents(d, y);
    assert Deps(t, x) == [] && Dependents(t, x) == [];
    forall y, e | e in Deps(t, y) ensures e in t.nodes && e != y && y in Dependents(t, e) {
      assert e in Deps(s, y) && y in Dependents(s, e);
      assert e == x ==> y in Dependents(s, x);
    }
    forall y, e | y in Dependents(t, e) ensures y in t.nodes && e in Deps(t, y) {
      assert y in Dependents(s, e) && e in Deps(s, y);
      assert y == x ==> e in Deps(s, x);
    }
    forall p ensures p in EdgeSet(t) <==> p in EdgeSet(s) && p.0 != x && p.1 != x {
      if p in EdgeSet(s) && p.0 != x && p.1 != x {
        assert p.1 in Deps(d, p.0);
      }
    }
  }

  /** Disposal takes out every edge at the node, leaves the rest, and leaves its surviving readers stale. */
  lemma DisposeOk(a: Arena, x: Id)
    requires Inv(a) && x in a.s.nodes
    ensures var b := Dispose(a, x);
      && Inv(b) && x !in b.s.nodes && x in b.free
      && EdgeSet(b.s) == (iset e | e in EdgeSet(a.s) && e.0 != x && e.1 != x)
      && (forall y :: x !in Deps(b.s, y) && x !in Dependents(b.s, y))
  {
    hide Linked, Simple, StampsOk, EdgeSet;
    var b := Dispose(a, x);
    var d := Detached(a.s, x);
    DetachedAt(a.s, x);
    ForgetLinked(a.s, d, b.s, x);
    ForgetSimple(d, b.s, x);
    DisposeIds(a, b, x);
    FreedTrace(b, x);
  }

  lemma FreedTrace(b: Arena, x: Id)
    requires Linked(b.s) && x !in b.s.nodes
    ensures forall y :: x !in Deps(b.s, y) && x !in Dependents(b.s, y)
  {
  }

  lemma ForgetSimple(d: State, t: State, x: Id)
    requires Simple(d) && t.nodes == d.nodes - {x}
    ensures Simple(t)
  {
    forall y ensures Edges.NoDup(Deps(t, y)) && Edges.NoDup(Dependents(t, y)) {
      assert y != x ==> Deps(t, y) == Deps(d, y) && Dependents(t, y) == Dependents(d, y);
    }
  }

  lemma DisposeIds(a: Arena, b: Arena, x: Id)
    requires IdsOk(a) && StampsOk(a) && x in a.s.nodes
    requires b.s.nodes.Keys == a.s.nodes.Keys - {x} && b.s.nextId == a.s.nextId && b.free == a.free + [x]
    requires b.stamps == a.stamps - {x} && b.nextStamp == a.nextStamp
    ensures IdsOk(b) && StampsOk(b)
  {
    assert forall y :: y in b.free <==> y in a.free || y == x;
    assert forall y :: y in b.s.nodes <==> y in b.s.nodes.Keys;
    assert forall y :: y in a.s.nodes <==> y in a.s.nodes.Keys;
  }

  /** The slots that read a disposed node must recompute before they answer again. */
  lemma {:induction false} ReadersGoStale(a: Arena, x: Id, y: Id)
    requires Inv(a) && x in a.s.nodes && y != x && y in Dependents(a.s, x) && IsSlot(a.s, y)
    ensures var b := Dispose(a, x); IsSlot(b.s, y) && b.s.nodes[y].dirty && b.s.nodes[y].force
  {
    hide IdsOk, StampsOk;
    var s1 := MarkOnly(a.s, Dependents(a.s, x));
    MarkOnlyAt(a.s, Dependents(a.s, x));
    LinkedSame(a.s, s1);
    assert SameButFlags(a.s.nodes[y], s1.nodes[y]);
    DropDependentsFlags(s1, Deps(s1, x), x, y);
    DropDependentsAt(s1, Deps(s1, x), x);
    DropDepsFlags(DropDependents(s1, Deps(s1, x), x), Dependents(s1, x), x, y);
  }

  lemma {:induction false} DropDependentsFlags(s: State, ds: seq<Id>, x: Id, y: Id)
    requires IsSlot(s, y)
    ensures var t := DropDependents(s, ds, x);
      IsSlot(t, y) && t.nodes[y].dirty == s.nodes[y].dirty && t.nodes[y].force == s.nodes[y].force
    decreases |ds|
  {
    if ds != [] {
      if ds[0] in s.nodes {
        DropDependentsFlags(Put(s, ds[0], DropDependent(s.nodes[ds[0]], x)), ds[1..], x, y);
      } else {
        DropDependentsFlags(s, ds[1..], x, y);
      }
    }
  }

  lemma {:induction false} DropDepsFlags(s: State, ys: seq<Id>, x: Id, y: Id)
    requires IsSlot(s, y)
    ensures var t := DropDeps(s, ys, x);
      IsSlot(t, y) && t.nodes[y].dirty == s.nodes[y].dirty && t.nodes[y].force == s.nodes[y].force
    decreases |ys|
  {
    if ys != [] {
      if ys[0] in s.nodes {
        DropDepsFlags(Put(s, ys[0], DropDep(s.nodes[ys[0]], x)), ys[1..], x, y);
      } else {
        DropDepsFlags(s, ys[1..], x, y);
      }
    }
  }

  // -- every run ----------------------------------------------------------------------------------------------------------------

  datatype Step = New(n: Node) | Read(d: Id, x: Id) | Recompute(x: Id) | Drop(x: Id)

  /** New nodes start bare; only live nodes are read, recomputed or disposed, and none reads itself. */
  predicate Allowed(a: Arena, step: Step) {
    match step
    case New(n) => Bare(n)
    case Read(d, x) => Source(a.s, d) && Reader(a.s, x) && d != x
    case Recompute(x) => Reader(a.s, x)
    case Drop(x) => x in a.s.nodes
  }

  function Take(a: Arena, step: Step): Arena
    requires Allowed(a, step)
  {
    match step
    case New(n) => Create(a, n)
    case Read(d, x) => a.(s := Register(a.s, d, x))
    case Recompute(x) => a.(s := ClearDeps(a.s, x))
    case Drop(x) => Dispose(a, x)
  }

  /** The same step on plain sets of edges. */
  ghost function OnSets(edges: iset<(Id, Id)>, step: Step): iset<(Id, Id)> {
    match step
    case New(_) => edges
    case Read(d, x) => edges + iset{(x, d)}
    case Recompute(x) => iset e | e in edges && e.0 != x
    case Drop(x) => iset e | e in edges && e.0 != x && e.1 != x
  }

  lemma StepOk(a: Arena, step: Step)
    requires Inv(a) && Allowed(a, step)
    ensures Inv(Take(a, step)) && EdgeSet(Take(a, step).s) == OnSets(EdgeSet(a.s), step)
  {
    hide Linked, Simple, EdgeSet, Dispose, Create, Register, ClearDeps;
    match step
    case New(n) => CreateOk(a, n);
    case Read(d, x) =>
      RegisterOk(a.s, d, x);
      SameIds(a, Register(a.s, d, x));
    case Recompute(x) =>
      ClearOk(a.s, x);
      SameIds(a, ClearDeps(a.s, x));
    case Drop(x) => DisposeOk(a, x);
  }

  lemma SameIds(a: Arena, t: State)
    requires IdsOk(a) && StampsOk(a) && SameNodes(a.s, t)
    ensures IdsOk(a.(s := t)) && StampsOk(a.(s := t))
  {
    assert forall y :: y in t.nodes <==> y in t.nodes.Keys;
    assert forall y :: y in a.s.nodes <==> y in a.s.nodes.Keys;
  }

  ghost function Reach(steps: seq<Step>): Option<Arena>
    decreases |steps|
  {
    if steps == [] then Some(BLANK)
    else
      var r := Reach(steps[..|steps| - 1]);
      var step := steps[|steps| - 1];
      if r.Some? && Allowed(r.value, step) then Some(Take(r.value, step)) else None
  }

  ghost function SetsAfter(steps: seq<Step>): iset<(Id, Id)> {
    if steps == [] then iset{} else OnSets(SetsAfter(steps[..|steps| - 1]), steps[|steps| - 1])
  }

  /** Through any run the lists hold exactly the plain set of edges, each once at each end, and no freed id. */
  lemma {:induction false} RefinesSets(steps: seq<Step>)
    ensures match Reach(steps)
      case None => true
      case Some(a) => EdgeSet(a.s) == SetsAfter(steps) && Inv(a)
    decreases |steps|
  {
    hide Inv, EdgeSet, OnSets, Take;
    if steps == [] {
      BlankEdges();
    } else {
      var before := steps[..|steps| - 1];
      RefinesSets(before);
      if Reach(steps).Some? {
        StepOk(Reach(before).value, steps[|steps| - 1]);
      }
    }
  }

  lemma BlankEdges()
    ensures EdgeSet(EMPTY) == iset{} && Inv(BLANK)
  {
  }

  // -- stale handles ------------------------------------------------------------------------------------------------------------

  /** The arena after more steps, or None once one was not allowed. */
  ghost function Later(a: Arena, steps: seq<Step>): Option<Arena>
    decreases |steps|
  {
    if steps == [] then Some(a)
    else
      var r := Later(a, steps[..|steps| - 1]);
      var step := steps[|steps| - 1];
      if r.Some? && Allowed(r.value, step) then Some(Take(r.value, step)) else None
  }

  lemma {:induction false} LaterOk(a: Arena, steps: seq<Step>)
    requires Inv(a)
    ensures match Later(a, steps) case None => true case Some(b) => Inv(b)
    decreases |steps|
  {
    hide Inv, Take, Allowed;
    if steps != [] {
      LaterOk(a, steps[..|steps| - 1]);
      if Later(a, steps).Some? {
        StepOk(Later(a, steps[..|steps| - 1]).value, steps[|steps| - 1]);
      }
    }
  }

  ghost predicate Retired(a: Arena, stamp: nat) { stamp < a.nextStamp && forall y :: y in a.stamps ==> a.stamps[y] != stamp }

  lemma RetiredStays(a: Arena, step: Step, stamp: nat)
    requires Inv(a) && Allowed(a, step) && Retired(a, stamp)
    ensures Retired(Take(a, step), stamp)
  {
    hide Linked, Simple, IdsOk, Register, ClearDeps, Detached;
  }

  /** Once a node is disposed, no later node, at its id or another, is ever taken for it. */
  lemma {:induction false} HandlesStayStale(a: Arena, x: Id, steps: seq<Step>)
    requires Inv(a) && x in a.s.nodes
    ensures x in a.stamps && Inv(Dispose(a, x))
    ensures match Later(Dispose(a, x), steps) case None => true case Some(c) => Retired(c, a.stamps[x])
    decreases |steps|
  {
    hide Linked, Simple, IdsOk, Detached, Take, Allowed;
    var b := Dispose(a, x);
    DisposeOk(a, x);
    if steps != [] {
      var before := steps[..|steps| - 1];
      HandlesStayStale(a, x, before);
      LaterOk(b, before);
      if Later(b, steps).Some? {
        RetiredStays(Later(b, before).value, steps[|steps| - 1], a.stamps[x]);
      }
    }
  }
}
