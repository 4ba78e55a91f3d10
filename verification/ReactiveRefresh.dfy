/** One refresh brings a slot up to date and leaves the kernel coherent. */
module ReactiveRefresh {
  import opened Basics
  import Edges
  import opened ReactiveModel
  import opened ReactiveInvariant
  import opened ReactiveMarking
  import opened ReactiveReach

  // -- edge steps ---------------------------------------------------------------------------

  /** Equal but for the edge lists. */
  ghost predicate SameButEdges(m: Node, n: Node) {
    match m
    case Cell(v, _) => n.Cell? && n == Cell(v, n.dependents)
    case Slot(p, c, dirty, force, _, _) => n.Slot? && n == Slot(p, c, dirty, force, n.deps, n.dependents)
    case Effect(p, seen, force, _) => n.Effect? && n == Effect(p, seen, force, n.deps)
  }

  ghost predicate OnlyEdges(s: State, t: State, owner: Id) {
    && t == s.(nodes := t.nodes) && t.nodes.Keys == s.nodes.Keys
    && (forall x :: x in s.nodes ==> SameButEdges(s.nodes[x], t.nodes[x]))
    && (forall x :: x != owner ==> Deps(t, x) == Deps(s, x))
  }

  lemma OnlyEdgesReads(s: State, t: State, owner: Id)
    requires OnlyEdges(s, t, owner)
    ensures forall x :: Cached(t, x) == Cached(s, x) && Clean(t, x) == Clean(s, x) && Fresh(t, x) == Fresh(s, x)
    ensures forall x :: Due(t, x) == Due(s, x) && Settled(t, x) == Settled(s, x)
  {
  }

  lemma OnlyEdgesFrame(g: Plan, s: State, t: State, A: set<Id>, r: nat, owner: Id)
    requires OnlyEdges(s, t, owner)
    requires owner in A
    ensures Frame(g, s, t, A, r, owner, 0)
  {
  }

  lemma OnlyEdgesCoherent(s: State, t: State, A: set<Id>, B: set<Id>, owner: Id)
    requires OnlyEdges(s, t, owner) && owner in B && B <= A && Coherent(s, A, B, [])
    ensures Coherent(t, A, B, [])
  {
    OnlyEdgesReads(s, t, owner);
    assert Calm(t, A) by {
      forall x, d | x !in A && Settled(t, x) && d in Deps(t, x) ensures Fresh(t, d) {
        assert Settled(s, x) && d in Deps(s, x);
      }
    }
    assert Right(t, B, []) by {
      forall x | x !in B && Due(t, x) && Unbatched(t, x) ensures Consistent(t, x) {
        assert Due(s, x) && Unbatched(s, x);
        ConsistentStable(s, t, x);
      }
    }
  }

  /** Changing only edges, and only what a running node reads, disturbs nothing. */
  lemma EdgeStep(g: Plan, s: State, t: State, A: set<Id>, B: set<Id>, r: nat, owner: Id)
    requires Inv(g, s, A, B) && owner in B && OnlyEdges(s, t, owner) && EdgesOk(g, t)
    ensures Inv(g, t, A, B) && Frame(g, s, t, A, r, owner, 0)
    ensures forall x :: Cached(t, x) == Cached(s, x) && Fresh(t, x) == Fresh(s, x)
  {
    OnlyEdgesReads(s, t, owner);
    OnlyEdgesFrame(g, s, t, A, r, owner);
    OnlyEdgesCoherent(s, t, A, B, owner);
    assert Shape(g, t) by {
      forall x | x in t.nodes ensures NodeOk(g, x, t.nodes[x]) {
        assert NodeOk(g, x, s.nodes[x]) && SameButEdges(s.nodes[x], t.nodes[x]);
      }
    }
  }

  lemma RegisterEdges(g: Plan, s: State, d: Id, x: Id)
    requires EdgesOk(g, s) && d in s.nodes && x in s.nodes && x != d
    requires !s.nodes[d].Effect? && !s.nodes[x].Cell? && Below(g, d, x)
    ensures var t := Register(s, d, x);
            OnlyEdges(s, t, x) && EdgesOk(g, t) && Deps(t, x) == Edges.Insert(Deps(s, x), d)
  {
    RegisterLists(s, d, x);
    RegisterEdgesOk(g, s, Register(s, d, x), d, x);
  }

  lemma RegisterLists(s: State, d: Id, x: Id)
    requires d in s.nodes && x in s.nodes && x != d && !s.nodes[d].Effect? && !s.nodes[x].Cell?
    ensures var t := Register(s, d, x);
      && OnlyEdges(s, t, x)
      && (forall y :: Deps(t, y) == if y == x then Edges.Insert(Deps(s, x), d) else Deps(s, y))
      && (forall y :: Dependents(t, y) == if y == d then Edges.Insert(Dependents(s, d), x) else Dependents(s, y))
  {
  }

  /** One edge more on both its lists. */
  ghost predicate OneEdgeMore(s: State, t: State, d: Id, x: Id) {
    && (forall y, e :: e in Deps(t, y) <==> e in Deps(s, y) || (y == x && e == d))
    && (forall y, e :: y in Dependents(t, e) <==> y in Dependents(s, e) || (y == x && e == d))
    && NoDups(t)
  }

  lemma RegisterEdgesOk(g: Plan, s: State, t: State, d: Id, x: Id)
    requires EdgesOk(g, s) && d in s.nodes && x in s.nodes && x != d && OnlyEdges(s, t, x)
    requires !s.nodes[d].Effect? && Below(g, d, x)
    requires forall y :: Deps(t, y) == if y == x then Edges.Insert(Deps(s, x), d) else Deps(s, y)
    requires forall y :: Dependents(t, y) == if y == d then Edges.Insert(Dependents(s, d), x) else Dependents(s, y)
    ensures EdgesOk(g, t)
  {
    hide ReadsOk, ReadersOk, OnlyEdges;
    Edges.InsertIsUnion(Dependents(s, d), x);
    Edges.InsertIsUnion(Deps(s, x), d);
    assert OneEdgeMore(s, t, d, x);
    MoreReadsOk(g, s, t, d, x);
    MoreReadersOk(s, t, d, x);
  }

  lemma MoreReadsOk(g: Plan, s: State, t: State, d: Id, x: Id)
    requires ReadsOk(g, s) && d in s.nodes && !s.nodes[d].Effect? && Below(g, d, x) && OnlyEdges(s, t, x) && OneEdgeMore(s, t, d, x)
    ensures ReadsOk(g, t)
  {
    hide NoDups;
    forall y, e | e in Deps(t, y) ensures e in t.nodes && !t.nodes[e].Effect? && Below(g, e, y) && y in Dependents(t, e) {
      assert e in Deps(s, y) || (y == x && e == d);
      assert SameButEdges(s.nodes[e], t.nodes[e]);
    }
  }

  lemma MoreReadersOk(s: State, t: State, d: Id, x: Id)
    requires ReadersOk(s) && x in s.nodes && OnlyEdges(s, t, x) && OneEdgeMore(s, t, d, x)
    ensures ReadersOk(t)
  {
    hide NoDups, SameButEdges;
    forall y, e | y in Dependents(t, e) ensures y in t.nodes && e in Deps(t, y) {
      assert y in Dependents(s, e) || (y == x && e == d);
      assert y in t.nodes.Keys <==> y in s.nodes.Keys;
    }
  }

  lemma {:induction false} DropDependentsOk(s: State, ds: seq<Id>, x: Id)
    requires Edges.NoDup(ds) && forall d :: d in ds ==> d in s.nodes
    requires forall y :: Edges.NoDup(Dependents(s, y))
    ensures var t := DropDependents(s, ds, x);
      && OnlyEdges(s, t, 0)
      && Deps(t, 0) == Deps(s, 0)
      && (forall y :: Edges.NoDup(Dependents(t, y)))
      && (forall y, z :: z in Dependents(t, y) <==> z in Dependents(s, y) && (y in ds ==> z != x))
    decreases |ds|
  {
    if ds != [] {
      var d := ds[0];
      var s1 := Put(s, d, DropDependent(s.nodes[d], x));
      Edges.RemoveIsDifference(Dependents(s, d), x);
      assert forall y :: Dependents(s1, y) == if y == d then Edges.Remove(Dependents(s, d), x) else Dependents(s, y);
      assert ds == [d] + ds[1..];
      DropDependentsOk(s1, ds[1..], x);
    }
  }

  lemma ClearEdges(g: Plan, s: State, x: Id)
    requires EdgesOk(g, s) && x in s.nodes && !s.nodes[x].Cell?
    ensures var t := ClearDeps(s, x);
            OnlyEdges(s, t, x) && EdgesOk(g, t) && Deps(t, x) == []
  {
    var ds := Deps(s, x);
    assert Edges.NoDup(ds);
    DropDependentsOk(s, ds, x);
    ClearLists(s, DropDependents(s, ds, x), x);
    ClearedEdgesOk(g, s, ClearDeps(s, x), x);
  }

  lemma ClearLists(s: State, s1: State, x: Id)
    requires x in s.nodes && !s.nodes[x].Cell? && s1 == DropDependents(s, Deps(s, x), x) && OnlyEdges(s, s1, 0) && Deps(s1, 0) == Deps(s, 0)
    ensures var t := ClearDeps(s, x);
      && OnlyEdges(s, t, x) && (forall y :: Deps(t, y) == if y == x then [] else Deps(s, y))
      && (forall y :: Dependents(t, y) == Dependents(s1, y))
  {
    hide DropDependents, SameButEdges;
    assert x in s1.nodes.Keys && SameButEdges(s.nodes[x], s1.nodes[x]);
    SameKind(s.nodes[x], s1.nodes[x]);
    EmptiedLists(s, s1, x, ClearDeps(s, x));
  }

  lemma SameKind(m: Node, n: Node)
    requires SameButEdges(m, n)
    ensures n.Cell? == m.Cell? && n.Slot? == m.Slot? && (!n.Cell? ==> SameButEdges(m, n.(deps := [])))
  {
  }

  lemma EmptiedLists(s: State, s1: State, x: Id, t: State)
    requires x in s.nodes && x in s1.nodes && !s1.nodes[x].Cell? && SameButEdges(s.nodes[x], s1.nodes[x].(deps := []))
    requires OnlyEdges(s, s1, 0) && Deps(s1, 0) == Deps(s, 0) && t == Put(s1, x, s1.nodes[x].(deps := []))
    ensures OnlyEdges(s, t, x)
    ensures forall y :: Deps(t, y) == if y == x then [] else Deps(s, y)
    ensures forall y :: Dependents(t, y) == Dependents(s1, y)
  {
    hide SameButEdges;
    forall y ensures Deps(t, y) == if y == x then [] else Deps(s, y) {
      assert Deps(s1, y) == Deps(s, y);
    }
  }

  /** One node's reads less on both their lists. */
  lemma ClearedEdgesOk(g: Plan, s: State, t: State, x: Id)
    requires EdgesOk(g, s) && OnlyEdges(s, t, x)
    requires forall y :: Deps(t, y) == if y == x then [] else Deps(s, y)
    requires forall y :: Edges.NoDup(Dependents(t, y))
    requires forall y, z :: z in Dependents(t, y) <==> z in Dependents(s, y) && (y in Deps(s, x) ==> z != x)
    ensures EdgesOk(g, t)
  {
    forall y, e | e in Deps(t, y) ensures e in t.nodes && !t.nodes[e].Effect? && Below(g, e, y) && y in Dependents(t, e) {
      assert e in Deps(s, y);
      assert SameButEdges(s.nodes[e], t.nodes[e]);
    }
    forall y, e | y in Dependents(t, e) ensures y in t.nodes && e in Deps(t, y) {
      assert y in Dependents(s, e);
    }
  }

  // -- frames and activity ----------------------------------------------------------------------

  ghost predicate Above(g: Plan, A: set<Id>, r: nat) { forall a :: a in A ==> r <= Rank(g, a) }

  lemma FrameWiden(g: Plan, s: State, t: State, A: set<Id>, d: Id, r: nat)
    requires Frame(g, s, t, A, Rank(g, d), 0, d) && Rank(g, d) < r && IsSlot(s, d) && d !in A
    ensures Frame(g, s, t, A, r, 0, 0)
  {
  }

  lemma FrameRetarget(g: Plan, s: State, t: State, A: set<Id>, x: Id, owner: Id)
    requires Frame(g, s, t, A + {x}, Rank(g, x), owner, 0) && owner in {0, x}
    requires IsSlot(s, x) && !Clean(s, x) && x !in t.pending && 0 !in s.nodes
    ensures Frame(g, s, t, A, Rank(g, x), 0, x)
  {
    forall y | y in s.nodes && y != x && (y in A || s.nodes[y].Effect? || Rank(g, y) >= Rank(g, x))
      ensures SameResult(s.nodes[y], t.nodes[y]) && (y != 0 ==> Deps(t, y) == Deps(s, y))
    {
      assert y in A + {x} || s.nodes[y].Effect? || Rank(g, y) >= Rank(g, x);
    }
    forall y | Clean(s, y) && y !in A
      ensures Clean(t, y) && t.nodes[y].cached == s.nodes[y].cached && Deps(t, y) == Deps(s, y)
    {
      assert y !in A + {x};
    }
  }

  lemma Activate(g: Plan, s: State, A: set<Id>, B: set<Id>, x: Id)
    requires Inv(g, s, A, B) && x in s.nodes && !s.nodes[x].Cell? && !Clean(s, x)
    ensures Inv(g, s, A + {x}, B) && Inv(g, s, A + {x}, B + {x})
  {
  }

  /** Every node listed answers from store. */
  ghost predicate AllFresh(s: State, ds: seq<Id>) { forall d :: d in ds ==> Fresh(s, d) }

  // -- clearing flags, storing results -------------------------------------------------------------

  /** `x` finished with value `v` and flags down. */
  function Finished(s: State, x: Id, v: Value): State
    requires IsSlot(s, x)
  {
    Put(s, x, s.nodes[x].(cached := Some(v), dirty := false, force := false))
  }

  lemma FinishedEdges(g: Plan, s: State, x: Id, v: Value)
    requires IsSlot(s, x) && Shape(g, s)
    ensures var t := Finished(s, x, v); Shape(g, t) && SameEdges(s, t)
  {
    var t := Finished(s, x, v);
    assert SameEdges(s, t);
    SameEdgesOk(g, s, t);
    assert NodeOk(g, x, s.nodes[x]);
  }

  lemma FinishedCalm(g: Plan, s: State, x: Id, v: Value, A: set<Id>, B: set<Id>)
    requires Inv(g, s, A + {x}, B + {x}) && IsSlot(s, x)
    requires AllFresh(s, Deps(s, x))
    ensures var t := Finished(s, x, v); Calm(t, A) && Known(t, B)
  {
    var t := Finished(s, x, v);
    FinishedEdges(g, s, x, v);
    assert x !in Deps(s, x);
    assert forall d :: Fresh(s, d) ==> Fresh(t, d) && Cached(t, d).Some?;
    forall y, d | y !in A && Settled(t, y) && d in Deps(t, y) ensures Fresh(t, d) {
      assert d in Deps(s, y);
      if y != x {
        assert Settled(s, y) && y !in A + {x};
      }
    }
    forall y, d | y !in B && d in Deps(t, y) ensures Cached(t, d).Some? {
      assert d in Deps(s, y);
      if y != x {
        assert y !in B + {x} && Cached(s, d).Some?;
      }
    }
  }

  lemma FinishedOk(g: Plan, s: State, x: Id, v: Value, A: set<Id>, B: set<Id>)
    requires Inv(g, s, A + {x}, B + {x}) && IsSlot(s, x) && x !in A && B <= A
    requires AllFresh(s, Deps(s, x))
    requires Unbatched(s, x) ==> Replay(s, s.nodes[x].compute, []) == Some((v, Deps(s, x)))
    ensures var t := Finished(s, x, v);
      && Shape(g, t) && SameEdges(s, t) && ActiveOk(t, A, B) && Clean(t, x)
      && Coherent(t, A, B, Dependents(s, x))
      && (Cached(s, x) in {None, Some(v)} ==> Coherent(t, A, B, []))
  {
    FinishedEdges(g, s, x, v);
    FinishedCalm(g, s, x, v, A, B);
    FinishedRight(g, s, x, v, A, B);
    var t := Finished(s, x, v);
    assert Queued(t, B) by {
      forall y | y !in B && IsEffect(t, y)
        ensures (t.nodes[y].forceRun ==> y in t.pending) && (t.nodes[y].seen.None? ==> t.nodes[y].forceRun)
      {
        assert y !in B + {x};
      }
    }
    assert ActiveOk(t, A, B) by {
      forall a | a in A ensures a in t.nodes && !t.nodes[a].Cell? && !Clean(t, a) {
        assert a in A + {x};
      }
    }
  }

  lemma FinishedRight(g: Plan, s: State, x: Id, v: Value, A: set<Id>, B: set<Id>)
    requires Inv(g, s, A + {x}, B + {x}) && IsSlot(s, x) && x !in A && B <= A
    requires AllFresh(s, Deps(s, x))
    requires Unbatched(s, x) ==> Replay(s, s.nodes[x].compute, []) == Some((v, Deps(s, x)))
    ensures var t := Finished(s, x, v);
      && Right(t, B, Dependents(s, x))
      && (Cached(s, x) in {None, Some(v)} ==> Right(t, B, []))
  {
    hide Inv, Shape, EdgesOk, Known, Consistent, Right;
    var t := Finished(s, x, v);
    InvFacts(g, s, x, A + {x}, B + {x});
    FinishedEdges(g, s, x, v);
    assert x !in Deps(s, x);
    forall y | y !in B && (y !in Dependents(s, x) || Cached(s, x) in {None, Some(v)}) && Due(t, y) && Unbatched(t, y)
      ensures Consistent(t, y)
    {
      if y == x {
        FinishedSelf(s, x, v);
      } else {
        assert Due(s, y) && Unbatched(s, y);
        FinishedOther(g, s, x, v, B, y);
      }
    }
    RightBut(t, B, Dependents(s, x));
    if Cached(s, x) in {None, Some(v)} {
      RightBut(t, B, []);
    }
  }

  lemma RightBut(t: State, B: set<Id>, stale: seq<Id>)
    requires forall y :: y !in B && y !in stale && Due(t, y) && Unbatched(t, y) ==> Consistent(t, y)
    ensures Right(t, B, stale)
  {
  }

  lemma FinishedSelf(s: State, x: Id, v: Value)
    requires IsSlot(s, x) && x !in Deps(s, x) && Replay(s, s.nodes[x].compute, []) == Some((v, Deps(s, x)))
    ensures Consistent(Finished(s, x, v), x)
  {
    ReplayStable(s, Finished(s, x, v), s.nodes[x].compute, []);
  }

  lemma FinishedOther(g: Plan, s: State, x: Id, v: Value, B: set<Id>, y: Id)
    requires ReadsOk(g, s) && Known(s, B + {x}) && Right(s, B + {x}, []) && IsSlot(s, x)
    requires y !in B && y != x && Due(s, y) && Unbatched(s, y) && (y !in Dependents(s, x) || Cached(s, x) in {None, Some(v)})
    ensures Consistent(Finished(s, x, v), y)
  {
    hide Consistent;
    var t := Finished(s, x, v);
    assert y !in B + {x};
    assert Consistent(s, y);
    forall d | d in Deps(s, y) ensures Cached(t, d) == Cached(s, d) {
      if d == x {
        assert y in Dependents(s, x) && Cached(s, x).Some?;
      }
    }
    ConsistentStable(s, t, y);
  }

  lemma InvFacts(g: Plan, s: State, x: Id, A: set<Id>, B: set<Id>)
    requires Inv(g, s, A, B)
    ensures Shape(g, s) && ReadsOk(g, s) && Known(s, B) && Right(s, B, []) && (IsSlot(s, x) ==> x !in Deps(s, x))
  {
  }

  // -- a changed value reaches its readers -------------------------------------------------------------

  /** After `x` finished with a new value, marking its dependents restores full coherence. */
  lemma PublishOk(g: Plan, s: State, x: Id, v: Value, A: set<Id>, B: set<Id>)
    requires Inv(g, s, A + {x}, B + {x}) && IsSlot(s, x) && x !in A && B <= A && 0 !in s.nodes
    requires !Clean(s, x)
    requires AllFresh(s, Deps(s, x))
    requires Unbatched(s, x) ==> Replay(s, s.nodes[x].compute, []) == Some((v, Deps(s, x)))
    ensures var t := MarkAndSchedule(Finished(s, x, v), Dependents(s, x));
      Inv(g, t, A, B) && Clean(t, x) && Cached(t, x) == Some(v) && Frame(g, s, t, A, Rank(g, x), 0, x)
  {
    var s1 := Finished(s, x, v);
    FinishedOk(g, s, x, v, A, B);
    var roots := Dependents(s, x);
    var K := Unsettled(s1, A);
    UnsettledIsUpClosed(g, s1, A);
    forall y | y in roots ensures y in K {
      assert x in Deps(s, y) && y != x && !Fresh(s, x) && !IsCell(s, y);
      assert y in A || !Settled(s, y);
      assert Settled(s1, y) ==> Settled(s, y);
    }
    assert x !in K;
    hide Shape, Coherent, ActiveOk;
    MarkingRestores(g, s1, roots, A, B, K);
    var t := MarkAndSchedule(s1, roots);
    FlagsKeepEdges(s1, t);
    PublishFrame(g, s, s1, t, x, v, A);
  }

  lemma PublishFrame(g: Plan, s: State, s1: State, t: State, x: Id, v: Value, A: set<Id>)
    requires IsSlot(s, x) && !Clean(s, x) && s1 == Finished(s, x, v)
    requires FlagsOnly(s1, t) && SameEdges(s1, t) && Within(s1, t, Unsettled(s1, A))
    requires forall y :: OwedRun(t, y) ==> OwedRun(s1, y) || y in t.pending
    ensures Frame(g, s, t, A, Rank(g, x), 0, x)
  {
    hide Frame;
    FinishedFrame(g, s, x, v, A);
    MarkedFrame(g, s1, t, A, Rank(g, x), x);
    FrameTrans(g, s, s1, t, A, Rank(g, x), 0, x);
  }

  /** Marks outside what is settled disturb no result. */
  lemma MarkedFrame(g: Plan, s: State, t: State, A: set<Id>, r: nat, x: Id)
    requires FlagsOnly(s, t) && SameEdges(s, t) && Within(s, t, Unsettled(s, A))
    requires forall y :: OwedRun(t, y) ==> OwedRun(s, y) || y in t.pending
    ensures Frame(g, s, t, A, r, 0, x)
  {
    FlagsKeepEdges(s, t);
    assert forall y :: Clean(s, y) && y !in A ==> y !in Unsettled(s, A);
  }

  // -- refresh --------------------------------------------------------------------------------------------

  /** A refresh that changed a value says so, and it says so only if the comparison tells the new one from the old. */
  ghost predicate Reported(g: Plan, s: State, t: State, x: Id, c: bool) {
    && (Cached(s, x).Some? && Cached(t, x) != Cached(s, x) ==> c)
    && (c ==> Cached(s, x).Some? && Cached(t, x).Some? && !g.same(Cached(s, x).value, Cached(t, x).value))
  }

  /** A refreshed slot holds what its compute gives on what is stored; or it was not forced, and what it held stands. */
  ghost predicate Settles(s: State, t: State, x: Id) {
    IsSlot(s, x) && IsSlot(t, x) && (Consistent(t, x) || (!s.nodes[x].force && Cached(s, x).Some? && Cached(t, x) == Cached(s, x)))
  }

  /** `y` was out of date and no longer is. */
  ghost predicate Healed(s: State, t: State, y: Id) { IsSlot(s, y) && !Clean(s, y) && Clean(t, y) }

  /** Whatever entered the queue was paid for by a slot brought up to date. */
  ghost predicate Progress(s: State, t: State) {
    t.pending == s.pending || exists y :: Healed(s, t, y)
  }

  lemma {:induction false} ReplayOrdered(g: Plan, s: State, p: Prog, acc: seq<Id>)
    requires NearFirst(g, p, acc) && Untangled(g, acc) && Replay(s, p, acc).Some?
    ensures Untangled(g, Replay(s, p, acc).value.1)
    decreases p
  {
    match p
    case Ret(_) =>
    case Read(d, next) =>
      ReplayOrdered(g, s, next[Cached(s, d).value], Edges.Insert(acc, d));
  }

  // -- what the invariant and a frame say at one node

  lemma SlotFacts(g: Plan, s: State, x: Id, A: set<Id>, B: set<Id>)
    requires Inv(g, s, A, B) && IsSlot(s, x)
    ensures NodeOk(g, x, s.nodes[x]) && EdgesOk(g, s) && B <= A && x !in s.pending
    ensures x !in B && Due(s, x) && Unbatched(s, x) ==> Consistent(s, x)
    ensures x !in B ==> Readable(g, s, x, Deps(s, x))
  {
  }

  lemma FrameAt(g: Plan, s: State, t: State, A: set<Id>, r: nat, owner: Id, x: Id)
    requires Frame(g, s, t, A, r, owner, 0) && x in A && IsSlot(s, x) && 0 !in s.nodes
    ensures IsSlot(t, x) && t.nodes[x].compute == s.nodes[x].compute && Cached(t, x) == Cached(s, x)
    ensures !Clean(s, x) ==> !Clean(t, x)
    ensures x != owner ==> Deps(t, x) == Deps(s, x)
    ensures t.batched == s.batched && t.nodes.Keys == s.nodes.Keys
  {
    assert SameCore(s.nodes[x], t.nodes[x]) && SameResult(s.nodes[x], t.nodes[x]);
  }

  /** The skip branch: no recorded dependency changed, so the old result stands. */
  lemma SkipOk(g: Plan, s: State, s1: State, x: Id, A: set<Id>, B: set<Id>)
    requires Inv(g, s, A, B) && IsSlot(s, x) && x !in A && 0 !in s.nodes
    requires !Clean(s, x) && s.nodes[x].cached.Some? && !s.nodes[x].force
    requires Inv(g, s1, A + {x}, B) && Frame(g, s, s1, A + {x}, Rank(g, x), 0, 0)
    requires AllFresh(s1, Deps(s, x))
    requires Untangled(g, Deps(s, x)) ==> SameCached(s, s1, Deps(s, x))
    ensures var t := ClearFlags(s1, x);
      Inv(g, t, A, B) && Clean(t, x) && Cached(t, x) == Cached(s, x) && Frame(g, s, t, A, Rank(g, x), 0, x)
  {
    hide Inv, Frame;
    var n := s.nodes[x];
    SlotFacts(g, s, x, A, B);
    FrameAt(g, s, s1, A + {x}, Rank(g, x), 0, x);
    Activate(g, s1, A + {x}, B, x);
    SlotFacts(g, s1, x, A + {x}, B);
    assert A + {x} + {x} == A + {x};
    if Unbatched(s1, x) {
      assert Unbatched(s, x) && Due(s, x);
      ReplayOrdered(g, s, n.compute, []);
      ReplayStable(s, s1, n.compute, []);
    }
    var t := ClearFlags(s1, x);
    assert t == Finished(s1, x, n.cached.value);
    FinishedOk(g, s1, x, n.cached.value, A, B);
    FrameRetarget(g, s, s1, A, x, 0);
    FinishedFrame(g, s1, x, n.cached.value, A);
    FrameTrans(g, s, s1, t, A, Rank(g, x), 0, x);
    FinishedInv(g, t, A, B);
  }

  lemma FinishedInv(g: Plan, t: State, A: set<Id>, B: set<Id>)
    requires Exact(g) && Shape(g, t) && ActiveOk(t, A, B) && Coherent(t, A, B, [])
    ensures Inv(g, t, A, B)
  {
  }

  lemma FinishedFrame(g: Plan, s: State, x: Id, v: Value, A: set<Id>)
    requires IsSlot(s, x) && !Clean(s, x)
    ensures Frame(g, s, Finished(s, x, v), A, Rank(g, x), 0, x)
  {
  }

  lemma RefreshIs(g: Plan, s: State, x: Id)
    requires IsSlot(s, x) && !Clean(s, x)
    ensures var n := s.nodes[x];
      var (s1, changed) := RefreshDeps(g, s, x, n.deps);
      Refresh(g, s, x) == if n.cached.Some? && !n.force && !changed then (ClearFlags(s1, x), false) else Recompute(g, s1, x)
  {
  }

  lemma RefreshClean(g: Plan, s: State, x: Id, A: set<Id>)
    requires Clean(s, x)
    ensures Refresh(g, s, x) == (s, false) && Frame(g, s, s, A, Rank(g, x), 0, x)
  {
  }

  lemma {:induction false} RefreshOk(g: Plan, s: State, x: Id, A: set<Id>, B: set<Id>)
    requires Inv(g, s, A, B) && IsSlot(s, x) && x !in A && Above(g, A, Rank(g, x) + 1) && 0 !in s.nodes
    ensures var (t, c) := Refresh(g, s, x);
      && Inv(g, t, A, B) && Clean(t, x) && Frame(g, s, t, A, Rank(g, x), 0, x)
      && Reported(g, s, t, x, c) && Settles(s, t, x)
      && (t == s || Healed(s, t, x))
    decreases Rank(g, x), 2, 0
  {
    hide Inv, Frame, Readable, Refresh, RefreshDeps, Recompute, NodeOk, EdgesOk, Untangled, SameCached, AllFresh, Consistent;
    if Clean(s, x) {
      RefreshClean(g, s, x, A);
    } else {
      var n := s.nodes[x];
      RefreshIs(g, s, x);
      SlotFacts(g, s, x, A, B);
      Activate(g, s, A, B, x);
      AboveActive(g, A, x);
      RefreshDepsOk(g, s, x, n.deps, A + {x}, B);
      var (s1, changed) := RefreshDeps(g, s, x, n.deps);
      if n.cached.Some? && !n.force && !changed {
        SkipOk(g, s, s1, x, A, B);
      } else {
        FrameAt(g, s, s1, A + {x}, Rank(g, x), 0, x);
        SlotFacts(g, s1, x, A + {x}, B);
        RecomputeOk(g, s1, x, A, B);
        FrameRetarget(g, s, s1, A, x, 0);
        FrameTrans(g, s, s1, Recompute(g, s1, x).0, A, Rank(g, x), 0, x);
      }
    }
  }

  lemma AboveActive(g: Plan, A: set<Id>, x: Id)
    requires Above(g, A, Rank(g, x) + 1)
    ensures Above(g, A + {x}, Rank(g, x))
  {
  }

  ghost predicate Readable(g: Plan, s: State, x: Id, ds: seq<Id>) {
    forall d :: d in ds ==> (IsCell(s, d) || IsSlot(s, d)) && Below(g, d, x) && Cached(s, d).Some?
  }

  ghost predicate SameCached(s: State, t: State, ds: seq<Id>) {
    forall d :: d in ds ==> Cached(t, d) == Cached(s, d)
  }

  lemma {:induction false} RefreshDepsOk(g: Plan, s: State, x: Id, ds: seq<Id>, A: set<Id>, B: set<Id>)
    requires Inv(g, s, A, B) && Above(g, A, Rank(g, x)) && 0 !in s.nodes && Readable(g, s, x, ds)
    ensures var (t, c) := RefreshDeps(g, s, x, ds);
      && Inv(g, t, A, B) && Frame(g, s, t, A, Rank(g, x), 0, 0) && AllFresh(t, ds)
      && (!c && Untangled(g, ds) ==> SameCached(s, t, ds))
    decreases Rank(g, x), 1, |ds|
  {
    hide Inv, Frame, Above, Refresh, Readable, Untangled, Fresh, Cached, IsSlot, IsCell;
    if ds == [] {
      FrameRefl(g, s, A, Rank(g, x), 0);
    } else {
      var d, rest := ds[0], ds[1..];
      assert ds == [d] + rest;
      FirstDepOk(g, s, x, d, rest, A, B);
      var (s1, c1) := Refresh(g, s, d);
      RefreshDepsOk(g, s1, x, rest, A, B);
      var (t, c2) := RefreshDeps(g, s1, x, rest);
      FrameTrans(g, s, s1, t, A, Rank(g, x), 0, 0);
      FreshStays(g, s1, t, A, Rank(g, x), 0, d);
    }
  }

  lemma {:induction false} FirstDepOk(g: Plan, s: State, x: Id, d: Id, rest: seq<Id>, A: set<Id>, B: set<Id>)
    requires Inv(g, s, A, B) && Above(g, A, Rank(g, x)) && 0 !in s.nodes && Readable(g, s, x, [d] + rest)
    ensures var (t, c) := Refresh(g, s, d);
      && Below(g, d, x) && d !in A
      && Inv(g, t, A, B) && Frame(g, s, t, A, Rank(g, x), 0, 0) && Fresh(t, d) && 0 !in t.nodes
      && Readable(g, t, x, rest) && (Untangled(g, [d] + rest) ==> Untangled(g, rest))
      && (!c && Untangled(g, [d] + rest) ==> Cached(t, d) == Cached(s, d) && SameCached(s, t, rest))
    decreases Rank(g, x), 1, 0
  {
    assert d in [d] + rest && d !in A;
    assert Untangled(g, [d] + rest) ==> Untangled(g, ([d] + rest)[1..]);
    assert ([d] + rest)[1..] == rest;
    var (t, c) := Refresh(g, s, d);
    if IsSlot(s, d) {
      RefreshOk(g, s, d, A, B);
      FrameWiden(g, s, t, A, d, Rank(g, x));
      ShapeObeys(g, s);
      RefreshTouches(g, s, d);
      if !c && Untangled(g, [d] + rest) {
        forall e | e in rest ensures Cached(t, e) == Cached(s, e) {
          assert e in [d] + rest;
          LaterDepKept(g, s, t, d, e, rest, A);
        }
      }
    } else {
      FrameRefl(g, s, A, Rank(g, x), 0);
    }
    RefreshReads(g, s, t, x, d, rest, A, Rank(g, x));
  }

  lemma RefreshReads(g: Plan, s: State, s1: State, x: Id, d: Id, rest: seq<Id>, A: set<Id>, r: nat)
    requires Frame(g, s, s1, A, r, 0, 0) && Readable(g, s, x, [d] + rest)
    ensures Readable(g, s1, x, rest)
  {
    forall e | e in rest ensures (IsCell(s1, e) || IsSlot(s1, e)) && Cached(s1, e).Some? && Below(g, e, x) {
      assert e in [d] + rest;
      assert SameCore(s.nodes[e], s1.nodes[e]);
    }
  }

  lemma FrameRefl(g: Plan, s: State, A: set<Id>, r: nat, owner: Id)
    ensures Frame(g, s, s, A, r, owner, 0) && Progress(s, s)
  {
  }

  lemma FreshStays(g: Plan, s: State, t: State, A: set<Id>, r: nat, owner: Id, d: Id)
    requires Frame(g, s, t, A, r, owner, 0) && Fresh(s, d) && d !in A
    ensures Fresh(t, d) && Cached(t, d) == Cached(s, d)
  {
    assert SameCore(s.nodes[d], t.nodes[d]);
  }

  lemma KindsOk(g: Plan, s: State, x: Id)
    requires Shape(g, s) && x in s.nodes
    ensures IsSlot(s, x) == (g.role(x).kind == SlotKind) && IsCell(s, x) == (g.role(x).kind == CellKind)
  {
    assert NodeOk(g, x, s.nodes[x]);
  }

  /** A source keeps its value. */
  lemma CellKept(g: Plan, s: State, t: State, A: set<Id>, r: nat, d: Id, e: Id)
    requires Frame(g, s, t, A, r, 0, d) && IsCell(s, e)
    ensures Cached(t, e) == Cached(s, e)
  {
    assert SameCore(s.nodes[e], t.nodes[e]);
  }

  /** What is read after `d` is not what its refresh may reach. */
  lemma LaterDepKept(g: Plan, s: State, t: State, d: Id, e: Id, ds: seq<Id>, A: set<Id>)
    requires Shape(g, s) && IsSlot(s, d) && (IsSlot(s, e) || IsCell(s, e)) && Touches(s, t, Under(g, d) + {d})
    requires Frame(g, s, t, A, Rank(g, d), 0, d) && Cached(t, d) == Cached(s, d)
    requires Untangled(g, [d] + ds) && e in ds
    ensures Cached(t, e) == Cached(s, e)
  {
    hide Frame, Cached;
    var k :| 0 <= k < |ds| && ds[k] == e;
    assert ([d] + ds)[k + 1] == e && ([d] + ds)[0] == d;
    KindsOk(g, s, d);
    KindsOk(g, s, e);
    if IsCell(s, e) {
      CellKept(g, s, t, A, Rank(g, d), d, e);
    }
  }

  lemma {:induction false} RecomputeOk(g: Plan, s: State, x: Id, A: set<Id>, B: set<Id>)
    requires Inv(g, s, A + {x}, B) && IsSlot(s, x) && x !in A && B <= A && Above(g, A, Rank(g, x) + 1) && 0 !in s.nodes
    ensures var (t, c) := Recompute(g, s, x);
      && Inv(g, t, A, B) && Clean(t, x) && Frame(g, s, t, A, Rank(g, x), 0, x)
      && Reported(g, s, t, x, c) && IsSlot(t, x) && Consistent(t, x)
    decreases Rank(g, x), 1, 0
  {
    hide Inv, Frame, Above, RunProg, Publish, ClearDeps, Reads, AllFresh, Clean, Cached, Progress, Consistent;
    var A1, B1 := A + {x}, B + {x};
    var p := s.nodes[x].compute;
    var s0 := ClearDeps(s, x);
    RecomputeStarts(g, s, x, A, B);
    RunProgOk(g, s0, x, p, A1, B1);
    var (s1, r) := RunProg(g, s0, x, p);
    FrameTrans(g, s, s0, s1, A1, Rank(g, x), x, 0);
    FrameAt(g, s, s1, A1, Rank(g, x), x, x);
    RecomputeEnds(g, s, s1, x, r.value, A, B);
  }

  /** A running compute starts with no recorded reads. */
  lemma RecomputeStarts(g: Plan, s: State, x: Id, A: set<Id>, B: set<Id>)
    requires Inv(g, s, A + {x}, B) && IsSlot(s, x) && B <= A && Above(g, A, Rank(g, x) + 1) && 0 !in s.nodes
    ensures var s0 := ClearDeps(s, x);
      && Inv(g, s0, A + {x}, B + {x}) && Frame(g, s, s0, A + {x}, Rank(g, x), x, 0) && 0 !in s0.nodes
      && Deps(s0, x) == [] && AllFresh(s0, []) && IsSlot(s0, x) && s0.nodes[x].compute == s.nodes[x].compute
    ensures Reads(g, x, s.nodes[x].compute) && Above(g, A + {x}, Rank(g, x)) && !Clean(s, x)
  {
    hide Inv, EdgesOk, NodeOk, Frame, OnlyEdges;
    RunFacts(g, s, x, A + {x}, B);
    Activate(g, s, A + {x}, B, x);
    assert A + {x} + {x} == A + {x};
    ClearEdges(g, s, x);
    EdgeStep(g, s, ClearDeps(s, x), A + {x}, B + {x}, Rank(g, x), x);
    EdgesAside(s, ClearDeps(s, x), x);
  }

  /** What holds of an active slot. */
  lemma RunFacts(g: Plan, s: State, x: Id, A: set<Id>, B: set<Id>)
    requires Inv(g, s, A, B) && x in A && IsSlot(s, x)
    ensures EdgesOk(g, s) && Reads(g, x, s.nodes[x].compute) && !Clean(s, x)
  {
    hide EdgesOk, Reads, NearFirst;
    assert NodeOk(g, x, s.nodes[x]);
  }

  lemma EdgesAside(s: State, t: State, x: Id)
    requires OnlyEdges(s, t, x) && IsSlot(s, x)
    ensures t.nodes.Keys == s.nodes.Keys && IsSlot(t, x) && t.nodes[x].compute == s.nodes[x].compute
  {
    assert SameButEdges(s.nodes[x], t.nodes[x]);
  }

  lemma InvExact(g: Plan, s: State, A: set<Id>, B: set<Id>)
    requires Inv(g, s, A, B)
    ensures Exact(g)
  {
  }

  /** What a finished compute gave is stored, and marking its readers changes no stored value. */
  lemma PublishConsistent(g: Plan, s: State, x: Id, v: Value, A: set<Id>, B: set<Id>)
    requires Inv(g, s, A, B) && IsSlot(s, x) && Replay(s, s.nodes[x].compute, []) == Some((v, Deps(s, x)))
    ensures var t := Publish(g, s, x, v).0; IsSlot(t, x) && Consistent(t, x)
  {
    hide Coherent, ActiveOk, NodeOk, Consistent, Mark, Schedule, Replay;
    InvFacts(g, s, x, A, B);
    FinishedSelf(s, x, v);
    var f := Finished(s, x, v);
    FinishedEdges(g, s, x, v);
    var roots := Dependents(f, x);
    EveryoneUpClosed(g, f, x);
    MarksStayWithin(f, roots, f.nodes.Keys);
    var t := MarkAndSchedule(f, roots);
    FlagsKeepEdges(f, t);
    if IsSlot(t, x) {
      ConsistentStable(f, t, x);
    }
  }

  lemma EveryoneUpClosed(g: Plan, s: State, x: Id)
    requires Shape(g, s)
    ensures UpClosed(s, s.nodes.Keys) && Edges.NoDup(s.pending) && forall y :: y in Dependents(s, x) ==> y in s.nodes.Keys
  {
    hide NodeOk;
  }

  lemma RecomputeEnds(g: Plan, s: State, s1: State, x: Id, v: Value, A: set<Id>, B: set<Id>)
    requires Inv(g, s1, A + {x}, B + {x}) && IsSlot(s, x) && x !in A && B <= A && 0 !in s.nodes && 0 !in s1.nodes
    requires !Clean(s, x) && Frame(g, s, s1, A + {x}, Rank(g, x), x, 0) && IsSlot(s1, x) && !Clean(s1, x)
    requires AllFresh(s1, Deps(s1, x)) && Cached(s1, x) == Cached(s, x)
    requires Replay(s1, s1.nodes[x].compute, []) == Some((v, Deps(s1, x)))
    ensures var (t, c) := Publish(g, s1, x, v);
      && Inv(g, t, A, B) && Clean(t, x) && Frame(g, s, t, A, Rank(g, x), 0, x)
      && Reported(g, s, t, x, c) && IsSlot(t, x) && Consistent(t, x)
  {
    hide Inv, Frame;
    PublishConsistent(g, s1, x, v, A + {x}, B + {x});
    SlotFacts(g, s1, x, A + {x}, B + {x});
    FrameRetarget(g, s, s1, A, x, x);
    var f := Finished(s1, x, v);
    var t := Publish(g, s1, x, v).0;
    if Cached(s, x).None? || g.same(Cached(s, x).value, v) {
      InvExact(g, s1, A + {x}, B + {x});
      assert t == f;
      FinishedOk(g, s1, x, v, A, B);
      FinishedFrame(g, s1, x, v, A);
      FinishedInv(g, f, A, B);
    } else {
      PublishOk(g, s1, x, v, A, B);
    }
    FrameTrans(g, s, s1, t, A, Rank(g, x), 0, x);
  }

  /** One tracked read: the edge is registered, then the node read is brought up to date. */
  lemma ReadOk(g: Plan, s: State, x: Id, d: Id, A: set<Id>, B: set<Id>)
    requires Inv(g, s, A, B) && x in B && Above(g, A, Rank(g, x)) && 0 !in s.nodes
    requires 1 <= d < x && g.role(d).kind != EffectKind && Below(g, d, x)
    ensures x in s.nodes && d in s.nodes
    ensures var t := Register(s, d, x);
      && Inv(g, t, A, B) && Frame(g, s, t, A, Rank(g, x), x, 0) && 0 !in t.nodes
      && Deps(t, x) == Edges.Insert(Deps(s, x), d) && (IsCell(t, d) || IsSlot(t, d))
      && x != d && t.pending == s.pending
      && (forall y :: Clean(t, y) == Clean(s, y) && IsSlot(t, y) == IsSlot(s, y))
      && (AllFresh(s, Deps(s, x)) ==> AllFresh(t, Deps(s, x)))
      && x in A && x in t.nodes && !IsCell(t, x) && d !in A && (forall e :: e in Deps(t, x) ==> e !in A)
  {
    assert x in s.nodes && d in s.nodes && NodeOk(g, d, s.nodes[d]);
    var t := Register(s, d, x);
    RegisterEdges(g, s, d, x);
    OnlyEdgesReads(s, t, x);
    ReadsBelow(g, t, x, A);
    hide Inv, Frame, EdgesOk;
    EdgeStep(g, s, t, A, B, Rank(g, x), x);
  }

  /** The read node is up to date afterwards, and so is everything `x` read before. */
  lemma ReadRefreshed(g: Plan, s: State, t: State, x: Id, d: Id, before: seq<Id>, A: set<Id>)
    requires Frame(g, s, t, A, Rank(g, x), 0, 0) && x in A && x in s.nodes && !s.nodes[x].Cell? && 0 !in s.nodes
    requires Deps(s, x) == Edges.Insert(before, d) && Fresh(t, d) && AllFresh(s, before)
    requires forall e :: e in Deps(s, x) ==> e !in A
    ensures Deps(t, x) == Deps(s, x) && AllFresh(t, Deps(t, x))
  {
    assert SameCore(s.nodes[x], t.nodes[x]);
    forall e | e in Deps(t, x) ensures Fresh(t, e) {
      if e != d {
        assert e in before;
        FreshStays(g, s, t, A, Rank(g, x), 0, e);
      }
    }
  }

  lemma ReadsBelow(g: Plan, s: State, x: Id, A: set<Id>)
    requires ReadsOk(g, s) && Above(g, A, Rank(g, x))
    ensures forall e :: e in Deps(s, x) ==> e !in A
  {
    forall e | e in Deps(s, x) ensures e !in A {
      assert Below(g, e, x);
    }
  }

  /** Bringing a node that `x` just registered up to date. */
  lemma {:induction false} RefreshReadOk(g: Plan, s: State, x: Id, d: Id, before: seq<Id>, A: set<Id>, B: set<Id>)
    requires Inv(g, s, A, B) && x in A && x in s.nodes && !IsCell(s, x) && Above(g, A, Rank(g, x)) && 0 !in s.nodes
    requires (IsCell(s, d) || IsSlot(s, d)) && Below(g, d, x)
    requires Deps(s, x) == Edges.Insert(before, d) && AllFresh(s, before) && forall e :: e in Deps(s, x) ==> e !in A
    ensures var t := Refresh(g, s, d).0;
      && Inv(g, t, A, B) && Frame(g, s, t, A, Rank(g, x), 0, 0) && 0 !in t.nodes
      && Deps(t, x) == Deps(s, x) && AllFresh(t, Deps(t, x)) && Fresh(t, d) && Cached(t, d).Some?
      && (t == s || Healed(s, t, d)) && (forall a :: a in A ==> !Clean(t, a))
    decreases Rank(g, d), 3, 0
  {
    var t := Refresh(g, s, d).0;
    assert d !in A;
    if IsSlot(s, d) {
      RefreshOk(g, s, d, A, B);
      FrameWiden(g, s, t, A, d, Rank(g, x));
      ShapeObeys(g, s);
      RefreshTouches(g, s, d);
    } else {
      FrameRefl(g, s, A, Rank(g, x), 0);
    }
    assert 0 !in t.nodes && forall a :: a in A ==> !Clean(t, a);
    hide Inv, Frame;
    ReadRefreshed(g, s, t, x, d, before, A);
  }

  lemma ReadsAt(g: Plan, x: Id, p: Prog)
    requires Reads(g, x, p) && p.Read?
    ensures 1 <= p.id < x && g.role(p.id).kind != EffectKind && Below(g, p.id, x)
    ensures forall v :: v in p.next && Reads(g, x, p.next[v])
  {
  }

  lemma {:induction false} RunProgOk(g: Plan, s: State, x: Id, p: Prog, A: set<Id>, B: set<Id>)
    requires Inv(g, s, A, B) && x in B && Above(g, A, Rank(g, x)) && Reads(g, x, p) && 0 !in s.nodes
    requires AllFresh(s, Deps(s, x))
    ensures var (t, r) := RunProg(g, s, x, p);
      && Inv(g, t, A, B) && Frame(g, s, t, A, Rank(g, x), x, 0)
      && r.Some? && Replay(t, p, Deps(s, x)) == Some((r.value, Deps(t, x)))
      && AllFresh(t, Deps(t, x))
      && Progress(s, t)
    decreases Rank(g, x), 0, p
  {
    hide Inv, Frame, Above, Reads, Refresh, Register, AllFresh, Healed, Clean, Fresh, IsSlot, IsCell, Progress;
    match p
    case Ret(_) =>
      FrameRefl(g, s, A, Rank(g, x), x);
    case Read(d, next) =>
      ReadsAt(g, x, p);
      ReadOk(g, s, x, d, A, B);
      var s1 := Register(s, d, x);
      RefreshReadOk(g, s1, x, d, Deps(s, x), A, B);
      var s2 := Refresh(g, s1, d).0;
      var v := Cached(s2, d).value;
      RunProgOk(g, s2, x, next[v], A, B);
      ReadEnds(g, s, s1, s2, RunProg(g, s2, x, next[v]).0, x, d, A);
  }

  /** Joins the steps of one read and of what the compute did after it. */
  lemma ReadEnds(g: Plan, s: State, s1: State, s2: State, t: State, x: Id, d: Id, A: set<Id>)
    requires Frame(g, s, s1, A, Rank(g, x), x, 0) && Frame(g, s1, s2, A, Rank(g, x), 0, 0) && Frame(g, s2, t, A, Rank(g, x), x, 0)
    requires s1.pending == s.pending && forall y :: Clean(s1, y) == Clean(s, y) && IsSlot(s1, y) == IsSlot(s, y)
    requires s2 == s1 || Healed(s1, s2, d)
    requires d !in A && Fresh(s2, d)
    requires forall a :: a in A ==> !Clean(s2, a)
    requires Progress(s2, t)
    ensures Frame(g, s, t, A, Rank(g, x), x, 0)
    ensures Cached(t, d) == Cached(s2, d)
    ensures Progress(s, t)
  {
    FrameTrans(g, s1, s2, t, A, Rank(g, x), x, 0);
    FrameTrans(g, s, s1, t, A, Rank(g, x), x, 0);
    FreshStays(g, s2, t, A, Rank(g, x), x, d);
    if s2 != s1 {
      assert Healed(s, t, d);
    } else if t.pending != s2.pending {
      var y :| Healed(s2, t, y);
      assert Healed(s, t, y);
    }
  }
}
