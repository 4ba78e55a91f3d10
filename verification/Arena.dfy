/** The node arena with its edge lists, position indices and free list changed in place. */
module Arena {
  import opened Basics
  import Edges
  import opened ReactiveModel
  import opened ReactiveMarking
  import ArenaModel
  import EdgeIndex

  /** Names a node, its kind, and the allocation it was handed out for. */
  datatype Handle = Handle(id: Id, kind: Kind, stamp: nat)

  function KindOf(n: Node): Kind {
    match n
    case Cell(_, _) => CellKind
    case Slot(_, _, _, _, _, _) => SlotKind
    case Effect(_, _, _, _) => EffectKind
  }

  function At(index: map<Id, map<Id, nat>>, x: Id): Option<map<Id, nat>> {
    if x in index then Some(index[x]) else None
  }

  function Kept(index: map<Id, map<Id, nat>>, x: Id, pos: Option<map<Id, nat>>): map<Id, map<Id, nat>> {
    if pos.Some? then index[x := pos.value] else index - {x}
  }

  /** Every list agrees with its index, and only live nodes have one. */
  ghost predicate IndicesOk(s: State, dependents: map<Id, map<Id, nat>>, dependencies: map<Id, map<Id, nat>>) {
    && (forall x :: x in dependents || x in dependencies ==> x in s.nodes)
    && (forall x :: EdgeIndex.IndexOk(Dependents(s, x), At(dependents, x)))
    && (forall x :: EdgeIndex.IndexOk(Deps(s, x), At(dependencies, x)))
  }

  lemma KeptOk(s: State, t: State, dependents: map<Id, map<Id, nat>>, dependencies: map<Id, map<Id, nat>>, d: Id, pos: Option<map<Id, nat>>)
    requires IndicesOk(s, dependents, dependencies) && d in t.nodes && s.nodes.Keys <= t.nodes.Keys
    requires forall x :: Deps(t, x) == Deps(s, x) && (x != d ==> Dependents(t, x) == Dependents(s, x))
    requires EdgeIndex.IndexOk(Dependents(t, d), pos)
    ensures IndicesOk(t, Kept(dependents, d, pos), dependencies)
  {
    hide EdgeIndex.IndexOk;
    forall x ensures EdgeIndex.IndexOk(Dependents(t, x), At(Kept(dependents, d, pos), x)) {
      assert x != d ==> At(Kept(dependents, d, pos), x) == At(dependents, x);
    }
  }

  lemma KeptDepsOk(s: State, t: State, dependents: map<Id, map<Id, nat>>, dependencies: map<Id, map<Id, nat>>, y: Id, pos: Option<map<Id, nat>>)
    requires IndicesOk(s, dependents, dependencies) && y in t.nodes && s.nodes.Keys <= t.nodes.Keys
    requires forall x :: Dependents(t, x) == Dependents(s, x) && (x != y ==> Deps(t, x) == Deps(s, x))
    requires EdgeIndex.IndexOk(Deps(t, y), pos)
    ensures IndicesOk(t, dependents, Kept(dependencies, y, pos))
  {
    hide EdgeIndex.IndexOk;
    forall x ensures EdgeIndex.IndexOk(Deps(t, x), At(Kept(dependencies, y, pos), x)) {
      assert x != y ==> At(Kept(dependencies, y, pos), x) == At(dependencies, x);
    }
  }

  lemma SameEdgesIndexed(s: State, t: State, dependents: map<Id, map<Id, nat>>, dependencies: map<Id, map<Id, nat>>)
    requires IndicesOk(s, dependents, dependencies) && SameEdges(s, t) && s.nodes.Keys <= t.nodes.Keys
    ensures IndicesOk(t, dependents, dependencies)
  {
    hide EdgeIndex.IndexOk;
  }

  lemma EmptyIndexOk()
    ensures EdgeIndex.IndexOk([], None)
  {
  }

  /** A forgotten node takes its indices along. */
  lemma ForgottenIndexed(s: State, t: State, dependents: map<Id, map<Id, nat>>, dependencies: map<Id, map<Id, nat>>, x: Id)
    requires IndicesOk(s, dependents, dependencies) && t.nodes == s.nodes - {x}
    ensures IndicesOk(t, dependents - {x}, dependencies - {x})
  {
    hide EdgeIndex.IndexOk;
    EmptyIndexOk();
    assert forall y :: y != x ==> Deps(t, y) == Deps(s, y) && Dependents(t, y) == Dependents(s, y);
    assert Deps(t, x) == [] && Dependents(t, x) == [];
  }

  /**
   The arena of nodes. `scheduled` lists the effects that are to run, oldest first: a queue entry whose
   effect is not scheduled any more is skipped when the queue is drained and is not kept here.
   */
  class Nodes {
    var nodes: map<Id, Node>
    var nextId: Id
    var scheduled: seq<Id>
    var freeIds: seq<Id>
    var stamps: map<Id, nat>
    var nextStamp: nat
    var dependentsIndex: map<Id, map<Id, nat>>
    var dependenciesIndex: map<Id, map<Id, nat>>

    ghost function State(): State
      reads this
    {
      ReactiveModel.State(nodes, scheduled, [], 0, nextId)
    }

    ghost function Value(): ArenaModel.Arena
      reads this
    {
      ArenaModel.Arena(State(), freeIds, stamps, nextStamp)
    }

    ghost predicate Indexed()
      reads this
    {
      IndicesOk(State(), dependentsIndex, dependenciesIndex)
    }

    /** Lists, indices, free list and allocations all agree. */
    ghost predicate Valid()
      reads this
    {
      ArenaModel.Inv(Value()) && Indexed()
    }

    constructor ()
      ensures Valid() && Value() == ArenaModel.BLANK
    {
      nodes, nextId, scheduled, freeIds, stamps, nextStamp := map[], 1, [], [], map[], 0;
      dependentsIndex, dependenciesIndex := map[], map[];
    }

    /** A node at the last freed id, or at a new one, with nothing left of an earlier node. */
    method New(n: Node) returns (h: Handle)
      requires Valid() && ArenaModel.Bare(n)
      modifies this
      ensures Valid() && Value() == ArenaModel.Create(old(Value()), n)
      ensures h == Handle(ArenaModel.NextId(old(Value())), KindOf(n), old(nextStamp)) && h.id !in old(nodes)
      ensures forall y :: h.id !in Deps(State(), y) && h.id !in Dependents(State(), y)
    {
      hide ArenaModel.Inv, IndicesOk;
      ArenaModel.CreateOk(Value(), n);
      ghost var s := State();
      var x;
      if freeIds != [] {
        x := freeIds[|freeIds| - 1];
        freeIds := freeIds[..|freeIds| - 1];
      } else {
        x := nextId;
        nextId := nextId + 1;
      }
      nodes := nodes[x := n];
      stamps := stamps[x := nextStamp];
      h := Handle(x, KindOf(n), nextStamp);
      nextStamp := nextStamp + 1;
      BareIndexed(s, State(), dependentsIndex, dependenciesIndex, x, n);
    }

    // -- edges ---------------------------------------------------------------------------------

    method InsertDependent(d: Id, x: Id)
      requires Indexed() && d in nodes && !nodes[d].Effect?
      modifies this`nodes, this`dependentsIndex
      ensures Indexed() && State() == Put(old(State()), d, AddDependent(old(nodes)[d], x))
    {
      hide IndicesOk, EdgeIndex.IndexOk;
      ghost var s := State();
      IndexAt(s, dependentsIndex, dependenciesIndex, d);
      var es, pos, _ := EdgeIndex.InsertIndexed(nodes[d].dependents, x, At(dependentsIndex, d));
      nodes := nodes[d := nodes[d].(dependents := es)];
      PutDependents(s, d, es);
      KeptOk(s, State(), dependentsIndex, dependenciesIndex, d, pos);
      dependentsIndex := Kept(dependentsIndex, d, pos);
    }

    method InsertDependency(x: Id, d: Id)
      requires Indexed() && x in nodes && !nodes[x].Cell?
      modifies this`nodes, this`dependenciesIndex
      ensures Indexed() && State() == Put(old(State()), x, AddDep(old(nodes)[x], d))
    {
      hide IndicesOk, EdgeIndex.IndexOk;
      ghost var s := State();
      IndexAt(s, dependentsIndex, dependenciesIndex, x);
      var ds, pos, _ := EdgeIndex.InsertIndexed(nodes[x].deps, d, At(dependenciesIndex, x));
      nodes := nodes[x := nodes[x].(deps := ds)];
      PutDeps(s, x, ds);
      KeptDepsOk(s, State(), dependentsIndex, dependenciesIndex, x, pos);
      dependenciesIndex := Kept(dependenciesIndex, x, pos);
    }

    /** Record that `x` read `d`, at both ends. */
    method RegisterDependency(d: Id, x: Id)
      requires Valid() && ArenaModel.Allowed(Value(), ArenaModel.Read(d, x))
      modifies this`nodes, this`dependentsIndex, this`dependenciesIndex
      ensures Valid() && Value() == ArenaModel.Take(old(Value()), ArenaModel.Read(d, x))
    {
      hide ArenaModel.Inv, IndicesOk;
      ArenaModel.StepOk(Value(), ArenaModel.Read(d, x));
      InsertDependent(d, x);
      InsertDependency(x, d);
    }

    method RemoveDependentEdge(d: Id, x: Id)
      requires Indexed()
      modifies this`nodes, this`dependentsIndex
      ensures Indexed()
      ensures State() == if d in old(nodes) then Put(old(State()), d, DropDependent(old(nodes)[d], x)) else old(State())
    {
      hide IndicesOk, EdgeIndex.IndexOk;
      if d in nodes && !nodes[d].Effect? {
        ghost var s := State();
        IndexAt(s, dependentsIndex, dependenciesIndex, d);
        var es, pos, _ := EdgeIndex.RemoveIndexed(nodes[d].dependents, x, At(dependentsIndex, d));
        nodes := nodes[d := nodes[d].(dependents := es)];
        PutDependents(s, d, es);
        KeptOk(s, State(), dependentsIndex, dependenciesIndex, d, pos);
        dependentsIndex := Kept(dependentsIndex, d, pos);
      } else if d in nodes {
        assert nodes[d := nodes[d]] == nodes;
      }
    }

    method RemoveDependencyEdge(y: Id, d: Id)
      requires Indexed()
      modifies this`nodes, this`dependenciesIndex
      ensures Indexed()
      ensures State() == if y in old(nodes) then Put(old(State()), y, ArenaModel.DropDep(old(nodes)[y], d)) else old(State())
    {
      hide IndicesOk, EdgeIndex.IndexOk;
      if y in nodes && !nodes[y].Cell? {
        ghost var s := State();
        IndexAt(s, dependentsIndex, dependenciesIndex, y);
        var ds, pos, _ := EdgeIndex.RemoveIndexed(nodes[y].deps, d, At(dependenciesIndex, y));
        nodes := nodes[y := nodes[y].(deps := ds)];
        PutDeps(s, y, ds);
        KeptDepsOk(s, State(), dependentsIndex, dependenciesIndex, y, pos);
        dependenciesIndex := Kept(dependenciesIndex, y, pos);
      } else if y in nodes {
        assert nodes[y := nodes[y]] == nodes;
      }
    }

    method DetachUpstream(ds: seq<Id>, x: Id)
      requires Indexed()
      modifies this`nodes, this`dependentsIndex
      ensures Indexed() && State() == DropDependents(old(State()), ds, x)
    {
      hide IndicesOk;
      ghost var s := State();
      var i := 0;
      assert ds[0..] == ds;
      while i < |ds|
        invariant i <= |ds| && Indexed() && DropDependents(s, ds, x) == DropDependents(State(), ds[i..], x)
      {
        assert ds[i..][0] == ds[i] && ds[i..][1..] == ds[i + 1..];
        RemoveDependentEdge(ds[i], x);
        i := i + 1;
      }
      assert ds[|ds|..] == [];
    }

    method DetachDownstream(ys: seq<Id>, x: Id)
      requires Indexed()
      modifies this`nodes, this`dependenciesIndex
      ensures Indexed() && State() == ArenaModel.DropDeps(old(State()), ys, x)
    {
      hide IndicesOk;
      ghost var s := State();
      var i := 0;
      assert ys[0..] == ys;
      while i < |ys|
        invariant i <= |ys| && Indexed() && ArenaModel.DropDeps(s, ys, x) == ArenaModel.DropDeps(State(), ys[i..], x)
      {
        assert ys[i..][0] == ys[i] && ys[i..][1..] == ys[i + 1..];
        RemoveDependencyEdge(ys[i], x);
        i := i + 1;
      }
      assert ys[|ys|..] == [];
    }

    /** A recompute starts with no dependency and no dependency index. */
    method ClearDependencies(x: Id)
      requires Valid() && ArenaModel.Allowed(Value(), ArenaModel.Recompute(x))
      modifies this`nodes, this`dependentsIndex, this`dependenciesIndex
      ensures Valid() && Value() == ArenaModel.Take(old(Value()), ArenaModel.Recompute(x)) && x !in dependenciesIndex
    {
      hide ArenaModel.Inv, IndicesOk, EdgeIndex.IndexOk;
      ArenaModel.StepOk(Value(), ArenaModel.Recompute(x));
      ghost var s := State();
      StillReader(s, Deps(s, x), x);
      DetachUpstream(nodes[x].deps, x);
      ghost var s1 := State();
      nodes := nodes[x := nodes[x].(deps := [])];
      PutDeps(s1, x, []);
      EmptyIndexOk();
      KeptDepsOk(s1, State(), dependentsIndex, dependenciesIndex, x, None);
      dependenciesIndex := dependenciesIndex - {x};
    }

    // -- disposal ----------------------------------------------------------------------------------

    /** Whether the handle still names the node it was made for. */
    predicate Current(h: Handle)
      reads this
    {
      h.id in nodes && KindOf(nodes[h.id]) == h.kind && h.id in stamps && stamps[h.id] == h.stamp
    }

    /** Tears down what the handle was made for; a handle of an earlier occupant does nothing. */
    method Dispose(h: Handle) returns (done: bool)
      requires Valid()
      modifies this
      ensures Valid() && done == old(Current(h))
      ensures !done ==> Value() == old(Value())
      ensures done ==> Value() == ArenaModel.Dispose(old(Value()), h.id) && h.id !in dependentsIndex && h.id !in dependenciesIndex
      ensures done ==> forall y :: h.id !in Deps(State(), y) && h.id !in Dependents(State(), y)
    {
      hide ArenaModel.Inv, IndicesOk, DropDependents, ArenaModel.DropDeps, ArenaModel.MarkOnly;
      done := Current(h);
      if !done {
        return;
      }
      var x := h.id;
      ghost var a := Value();
      DisposeFacts(a, x);
      var dependents := if nodes[x].Effect? then [] else nodes[x].dependents;
      MarkReaders(dependents);
      var dependencies := if nodes[x].Cell? then [] else nodes[x].deps;
      DetachUpstream(dependencies, x);
      DetachDownstream(dependents, x);
      ForgottenIndexed(State(), ArenaModel.Forget(State(), x), dependentsIndex, dependenciesIndex, x);
      scheduled := Edges.Remove(scheduled, x);
      dependentsIndex := dependentsIndex - {x};
      dependenciesIndex := dependenciesIndex - {x};
      nodes := nodes - {x};
      stamps := stamps - {x};
      freeIds := freeIds + [x];
    }

    /** The worklist walk from the readers: marks their cone stale; nothing is scheduled. */
    method MarkReaders(roots: seq<Id>)
      requires Indexed()
      modifies this`nodes
      ensures Indexed() && State() == ArenaModel.MarkOnly(old(State()), roots)
    {
      hide IndicesOk;
      ghost var s0 := State();
      ghost var effects: seq<(Id, bool)> := [];
      ArenaModel.MarkOnlyAt(s0, roots);
      var stack := Entries(roots, true);
      while stack != []
        invariant State() == s0.(nodes := nodes)
        invariant Mark(s0, Entries(roots, true), []) == Mark(State(), stack, effects)
        decreases |Undirty(State())| + |Unforced(State())|, |stack|
      {
        var (x, force) := stack[|stack| - 1];
        stack := stack[..|stack| - 1];
        if x in nodes {
          var n := nodes[x];
          if n.Slot? {
            MarkProgress(State(), x, force);
            var propagate := !n.dirty || (force && !n.force);
            nodes := nodes[x := n.(dirty := true, force := n.force || force)];
            if propagate {
              stack := stack + Entries(n.dependents, false);
            }
          } else if n.Effect? {
            effects := effects + [(x, force)];
          }
        }
      }
      SameEdgesIndexed(s0, State(), dependentsIndex, dependenciesIndex);
    }
  }

  // -- glue ------------------------------------------------------------------------------------------

  lemma IndexAt(s: State, dependents: map<Id, map<Id, nat>>, dependencies: map<Id, map<Id, nat>>, x: Id)
    requires IndicesOk(s, dependents, dependencies)
    ensures EdgeIndex.IndexOk(Dependents(s, x), At(dependents, x)) && EdgeIndex.IndexOk(Deps(s, x), At(dependencies, x))
  {
  }

  lemma PutDependents(s: State, d: Id, es: seq<Id>)
    requires d in s.nodes && !s.nodes[d].Effect?
    ensures var t := Put(s, d, s.nodes[d].(dependents := es));
      && t.nodes.Keys == s.nodes.Keys && Dependents(t, d) == es
      && forall x :: Deps(t, x) == Deps(s, x) && (x != d ==> Dependents(t, x) == Dependents(s, x))
  {
  }

  lemma PutDeps(s: State, y: Id, ds: seq<Id>)
    requires y in s.nodes && !s.nodes[y].Cell?
    ensures var t := Put(s, y, s.nodes[y].(deps := ds));
      && t.nodes.Keys == s.nodes.Keys && Deps(t, y) == ds
      && forall x :: Dependents(t, x) == Dependents(s, x) && (x != y ==> Deps(t, x) == Deps(s, x))
  {
  }

  lemma BareIndexed(s: State, t: State, dependents: map<Id, map<Id, nat>>, dependencies: map<Id, map<Id, nat>>, x: Id, n: Node)
    requires IndicesOk(s, dependents, dependencies) && x !in s.nodes && t.nodes == s.nodes[x := n] && ArenaModel.Bare(n)
    ensures IndicesOk(t, dependents, dependencies)
  {
    hide EdgeIndex.IndexOk;
    assert forall y :: Deps(t, y) == Deps(s, y) && Dependents(t, y) == Dependents(s, y);
  }

  lemma {:induction false} StillReader(s: State, ds: seq<Id>, x: Id)
    requires x in s.nodes && !s.nodes[x].Cell?
    ensures var t := DropDependents(s, ds, x); x in t.nodes && !t.nodes[x].Cell?
    decreases |ds|
  {
    if ds != [] {
      StillReader(if ds[0] in s.nodes then Put(s, ds[0], DropDependent(s.nodes[ds[0]], x)) else s, ds[1..], x);
    }
  }

  /** Marking keeps the lists the disposal walks. */
  lemma DisposeFacts(a: ArenaModel.Arena, x: Id)
    requires ArenaModel.Inv(a) && x in a.s.nodes
    ensures var b := ArenaModel.Dispose(a, x);
      ArenaModel.Inv(b) && (forall y :: x !in Deps(b.s, y) && x !in Dependents(b.s, y))
    ensures var s1 := ArenaModel.MarkOnly(a.s, Dependents(a.s, x));
      && x in s1.nodes && Deps(s1, x) == Deps(a.s, x) && Dependents(s1, x) == Dependents(a.s, x)
      && KindOf(s1.nodes[x]) == KindOf(a.s.nodes[x])
  {
    hide ArenaModel.Inv, ArenaModel.MarkOnly, ArenaModel.Dispose;
    ArenaModel.DisposeOk(a, x);
    ArenaModel.MarkOnlyAt(a.s, Dependents(a.s, x));
    var s1 := ArenaModel.MarkOnly(a.s, Dependents(a.s, x));
    assert SameButFlags(a.s.nodes[x], s1.nodes[x]);
  }
}
