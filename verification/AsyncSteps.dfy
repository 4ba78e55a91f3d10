/** Every step of the asynchronous context keeps the invariant; resolved slots are never stale. */
module AsyncSteps {
  import opened Basics
  import Edges
  import opened AsyncModel
  import opened AsyncProofs

  // -- edge changes ---------------------------------------------------------------------------

  ghost predicate SameButEdges(m: Node, n: Node) {
    match m
    case Cell(v, _) => n.Cell? && n == Cell(v, n.dependents)
    case Slot(p, phase, rev, _, _) => n.Slot? && n == Slot(p, phase, rev, n.deps, n.dependents)
  }

  /** Only edges changed, and only what `x` reads: it grew, or `x` was empty. */
  ghost predicate Rewired(s: State, t: State, x: Id) {
    && t == s.(nodes := t.nodes) && t.nodes.Keys == s.nodes.Keys
    && (forall y :: y in s.nodes ==> SameButEdges(s.nodes[y], t.nodes[y]))
    && (forall y :: y != x ==> Deps(t, y) == Deps(s, y))
    && (IsEmpty(s, x) || forall d :: d in Deps(s, x) ==> d in Deps(t, x))
  }

  lemma RewiredReads(s: State, t: State, x: Id)
    requires Rewired(s, t, x)
    ensures forall y :: Cached(t, y) == Cached(s, y) && IsSlot(t, y) == IsSlot(s, y) && IsCell(t, y) == IsCell(s, y)
    ensures forall y :: IsSlot(s, y) ==> t.nodes[y] == s.nodes[y].(deps := Deps(t, y), dependents := Dependents(t, y))
    ensures forall y :: IsEmpty(t, y) == IsEmpty(s, y)
    ensures forall y :: !IsEmpty(s, y) ==> Keeps(s, t, Deps(s, y), Deps(t, y))
    ensures forall y, stale :: !IsEmpty(s, y) && Clear(t, y, stale) ==> Clear(s, y, stale)
  {
  }

  lemma RewiredFrame(g: Plan, s: State, t: State, x: Id)
    requires Frame(g, s) && Rewired(s, t, x) && EdgesOk(g, t)
    ensures Frame(g, t)
  {
    hide EdgesOk;
    RewiredReads(s, t, x);
    assert RunsOk(g, t) by {
      forall r | r in t.runs ensures RunOk(g, t, r) {
        assert RunOk(g, s, r);
      }
    }
    assert TokensOk(t) by {
      forall y, r | IsComputing(t, y, r)
        ensures Live(t, r) && t.runs[r].owner == y && t.runs[r].notice == Pending && t.runs[r].revision == t.nodes[y].revision
      {
        assert IsComputing(s, y, r);
      }
      forall r | Live(t, r) ensures IsComputing(t, t.runs[r].owner, r) {
        assert Live(s, r) && IsComputing(s, s.runs[r].owner, r);
      }
    }
  }

  lemma RewiredOk(g: Plan, s: State, t: State, x: Id, stale: seq<Id>)
    requires Frame(g, s) && Coherent(s, stale) && Rewired(s, t, x) && EdgesOk(g, t)
    ensures Frame(g, t) && Coherent(t, stale)
  {
    hide EdgesOk, Keeps, RunsOk, NodesOk;
    RewiredFrame(g, s, t, x);
    RewiredReads(s, t, x);
    assert Good(t, stale) by {
      forall y | IsSlot(t, y) && t.nodes[y].phase.Resolved? && Clear(t, y, stale)
        ensures Replay(t, t.nodes[y].compute, t.nodes[y].deps) == Some(t.nodes[y].phase.value)
      {
        assert !IsEmpty(s, y) && Clear(s, y, stale);
        ReplayKept(s, t, s.nodes[y].compute, s.nodes[y].deps, t.nodes[y].deps);
      }
    }
    assert Underway(t, stale) by {
      forall r | Live(t, r) && IsSlot(t, t.runs[r].owner) && Clear(t, t.runs[r].owner, stale)
        ensures Reaches(t, t.nodes[t.runs[r].owner].compute, t.runs[r].rest, t.nodes[t.runs[r].owner].deps)
      {
        var y := s.runs[r].owner;
        assert Live(s, r) && IsComputing(s, y, r) && !IsEmpty(s, y) && Clear(s, y, stale);
        ReachesKept(s, t, s.nodes[y].compute, s.runs[r].rest, s.nodes[y].deps, t.nodes[y].deps);
      }
    }
    assert Waiting(t) by {
      forall r | Live(t, r) ensures WaitOk(t, r) {
        var y := s.runs[r].owner;
        assert Live(s, r) && IsComputing(s, y, r) && WaitOk(s, r);
        assert Keeps(s, t, Deps(s, y), Deps(t, y));
        KeepsIn(s, t, y);
      }
    }
  }

  lemma KeepsIn(s: State, t: State, y: Id)
    requires Keeps(s, t, Deps(s, y), Deps(t, y))
    ensures forall d :: d in Deps(s, y) ==> d in Deps(t, y)
  {
  }

  lemma RegisterRewires(g: Plan, s: State, d: Id, x: Id)
    requires EdgesOk(g, s) && d in s.nodes && IsSlot(s, x) && d != x && g.rank(d) < g.rank(x)
    ensures var t := Register(s, d, x); Rewired(s, t, x) && EdgesOk(g, t) && d in Deps(t, x)
  {
    var t := Register(s, d, x);
    Edges.InsertIsUnion(Dependents(s, d), x);
    Edges.InsertIsUnion(Deps(s, x), d);
    assert forall y :: Deps(t, y) == if y == x then Edges.Insert(Deps(s, x), d) else Deps(s, y);
    assert forall y :: Dependents(t, y) == if y == d then Edges.Insert(Dependents(s, d), x) else Dependents(s, y);
    assert forall y :: IsSlot(t, y) == IsSlot(s, y);
    RewiredEdges(g, s, t, x);
  }

  /** Edges agree on both sides after a change that treats both sides alike. */
  lemma RewiredEdges(g: Plan, s: State, t: State, x: Id)
    requires EdgesOk(g, s) && t.nodes.Keys == s.nodes.Keys && (forall y :: IsSlot(t, y) == IsSlot(s, y)) && IsSlot(s, x)
    requires forall y :: y != x ==> Deps(t, y) == Deps(s, y)
    requires forall d, z :: z in Dependents(t, d) <==> if z == x then d in Deps(t, x) else z in Dependents(s, d)
    requires forall d :: d in Deps(t, x) ==> d in s.nodes && g.rank(d) < g.rank(x)
    requires NoDups(t)
    ensures EdgesOk(g, t)
  {
    assert ReadsOk(g, t) by {
      forall z, d | d in Deps(t, z) ensures d in t.nodes && g.rank(d) < g.rank(z) && z in Dependents(t, d) {
        if z != x {
          assert d in Deps(s, z);
        }
      }
    }
    assert ReadersOk(t) by {
      forall z, d | z in Dependents(t, d) ensures IsSlot(t, z) && d in Deps(t, z) {
        if z != x {
          assert z in Dependents(s, d);
        }
      }
    }
  }

  lemma {:induction false} DropDependentsOk(s: State, ds: seq<Id>, x: Id)
    requires Edges.NoDup(ds) && forall d :: d in ds ==> d in s.nodes
    requires forall y :: Edges.NoDup(Dependents(s, y))
    ensures var t := DropDependents(s, ds, x);
      && t == s.(nodes := t.nodes) && t.nodes.Keys == s.nodes.Keys
      && (forall y :: y in s.nodes ==> SameButEdges(s.nodes[y], t.nodes[y]))
      && (forall y :: Deps(t, y) == Deps(s, y))
      && (forall y :: Edges.NoDup(Dependents(t, y)))
      && (forall y, z :: z in Dependents(t, y) <==> z in Dependents(s, y) && (y in ds ==> z != x))
    decreases |ds|
  {
    if ds != [] {
      var d := ds[0];
      var n := s.nodes[d];
      var s1 := Put(s, d, n.(dependents := Edges.Remove(n.dependents, x)));
      Edges.RemoveIsDifference(Dependents(s, d), x);
      assert forall y :: Dependents(s1, y) == if y == d then Edges.Remove(Dependents(s, d), x) else Dependents(s, y);
      assert ds == [d] + ds[1..];
      DropDependentsOk(s1, ds[1..], x);
    }
  }

  lemma ClearRewires(g: Plan, s: State, x: Id)
    requires EdgesOk(g, s) && IsEmpty(s, x)
    ensures var t := ClearDeps(s, x); Rewired(s, t, x) && EdgesOk(g, t) && Deps(t, x) == []
  {
    var ds := Deps(s, x);
    assert Edges.NoDup(ds);
    DropDependentsOk(s, ds, x);
    var s1 := DropDependents(s, ds, x);
    var t := ClearDeps(s, x);
    assert forall y :: Deps(t, y) == if y == x then [] else Deps(s, y);
    assert forall y :: Dependents(t, y) == Dependents(s1, y);
    assert forall y :: IsSlot(t, y) == IsSlot(s, y);
    RewiredEdges(g, s, t, x);
  }

  // -- spawning ---------------------------------------------------------------------------------

  /** `x` starts computing under the fresh run `r`. */
  function Begun(s: State, x: Id): State
    requires IsSlot(s, x)
  {
    PutRun(Put(s, x, s.nodes[x].(phase := Computing(s.nextRun))),
           s.nextRun, Run(x, s.nodes[x].revision, false, Pending, s.nodes[x].compute, None, false)).(nextRun := s.nextRun + 1)
  }

  lemma FreshRun(g: Plan, s: State)
    requires RunsOk(g, s)
    ensures s.nextRun !in s.runs
  {
  }

  lemma BegunFrame(g: Plan, s: State, x: Id)
    requires Frame(g, s) && IsEmpty(s, x)
    ensures Frame(g, Begun(s, x))
  {
    var t := Begun(s, x);
    assert SameEdges(s, t);
    SameEdgesOk(g, s, t);
    hide EdgesOk;
    FreshRun(g, s);
    assert RunsOk(g, t) by {
      forall r | r in t.runs ensures RunOk(g, t, r) {
        if r != s.nextRun {
          assert RunOk(g, s, r);
        }
      }
    }
    assert TokensOk(t) by {
      forall y, r | IsComputing(t, y, r)
        ensures Live(t, r) && t.runs[r].owner == y && t.runs[r].notice == Pending && t.runs[r].revision == t.nodes[y].revision
      {
        if y != x {
          assert IsComputing(s, y, r);
        }
      }
      forall r | Live(t, r) ensures IsComputing(t, t.runs[r].owner, r) {
        if r != s.nextRun {
          assert Live(s, r) && IsComputing(s, s.runs[r].owner, r);
        }
      }
    }
  }

  lemma BegunReads(s: State, x: Id, stale: seq<Id>)
    requires IsEmpty(s, x)
    ensures var t := Begun(s, x);
      && (forall y :: Cached(t, y) == Cached(s, y) && Deps(t, y) == Deps(s, y) && IsSlot(t, y) == IsSlot(s, y))
      && (forall y :: Clear(t, y, stale) == Clear(s, y, stale))
      && (forall y :: Keeps(s, t, Deps(s, y), Deps(s, y)))
  {
  }

  lemma BegunOk(g: Plan, s: State, x: Id, stale: seq<Id>)
    requires Frame(g, s) && Coherent(s, stale) && IsEmpty(s, x)
    ensures var t := Begun(s, x);
      && Frame(g, t) && Coherent(t, stale) && IsComputing(t, x, s.nextRun) && s.nextRun !in s.runs
      && (forall r :: r in s.runs ==> r in t.runs && t.runs[r] == s.runs[r])
  {
    hide EdgesOk, NodesOk, Clear, Keeps, Deps, Reads, Cached;
    var t := Begun(s, x);
    FreshRun(g, s);
    BegunFrame(g, s, x);
    BegunReads(s, x, stale);
    assert Good(t, stale) by {
      forall y | IsSlot(t, y) && t.nodes[y].phase.Resolved? && Clear(t, y, stale)
        ensures Replay(t, t.nodes[y].compute, t.nodes[y].deps) == Some(t.nodes[y].phase.value)
      {
        BegunAt(s, t, y);
        ReplayKept(s, t, s.nodes[y].compute, s.nodes[y].deps, s.nodes[y].deps);
      }
    }
    assert Underway(t, stale) by {
      forall r | Live(t, r) && IsSlot(t, t.runs[r].owner) && Clear(t, t.runs[r].owner, stale)
        ensures Reaches(t, t.nodes[t.runs[r].owner].compute, t.runs[r].rest, t.nodes[t.runs[r].owner].deps)
      {
        if r != s.nextRun {
          var y := s.runs[r].owner;
          assert Live(s, r) && IsComputing(s, y, r);
          BegunAt(s, t, y);
          ReachesKept(s, t, s.nodes[y].compute, s.runs[r].rest, s.nodes[y].deps, s.nodes[y].deps);
        }
      }
    }
    assert Waiting(t) by {
      forall r | Live(t, r) ensures WaitOk(t, r) {
        if r != s.nextRun {
          assert Live(s, r) && WaitOk(s, r) && RunOk(g, s, r);
        }
      }
    }
  }

  lemma BegunAt(s: State, t: State, y: Id)
    requires IsSlot(s, y) && (forall z :: Keeps(s, t, Deps(s, z), Deps(s, z)))
    ensures Keeps(s, t, s.nodes[y].deps, s.nodes[y].deps)
  {
    assert Keeps(s, t, Deps(s, y), Deps(s, y));
  }

  lemma DemandOk(g: Plan, s: State, x: Id, stale: seq<Id>)
    requires Frame(g, s) && Coherent(s, stale) && IsSlot(s, x)
    ensures var t := Demand(s, x);
      && Frame(g, t) && Coherent(t, stale) && t.batched == s.batched && t.depth == s.depth
      && IsSlot(t, x) && !IsEmpty(t, x)
      && (forall r :: r in s.runs ==> r in t.runs && t.runs[r] == s.runs[r])
      && (forall y :: y != x ==> Deps(t, y) == Deps(s, y))
      && (forall y :: IsSlot(s, y) == IsSlot(t, y))
  {
    if IsEmpty(s, x) {
      ClearRewires(g, s, x);
      var s1 := ClearDeps(s, x);
      hide EdgesOk, NodesOk, RunsOk;
      RewiredOk(g, s, s1, x, stale);
      RewiredReads(s, s1, x);
      BegunOk(g, s1, x, stale);
      assert Demand(s, x) == Begun(s1, x);
    }
  }

  // -- one step of a run -----------------------------------------------------------------------------

  /** A read of `d` hands over what is stored, on behalf of run `r`. */
  lemma ReceiveOk(g: Plan, s: State, r: RunId, v: Value, stale: seq<Id>)
    requires Frame(g, s) && Coherent(s, stale) && r in s.runs && s.runs[r].rest.Read?
    requires Live(s, r) ==> s.runs[r].rest.id in Deps(s, s.runs[r].owner) && Cached(s, s.runs[r].rest.id) == Some(v)
    ensures var t := Receive(s, r, v); Frame(g, t) && Coherent(t, stale) && t.batched == s.batched && t.depth == s.depth
  {
    hide NodesOk, EdgesOk, Clear, Cached;
    var run := s.runs[r];
    var t := Receive(s, r, v);
    assert RunOk(g, s, r);
    var next := run.(rest := run.rest.next[v], wait := None);
    assert t == PutRun(s, r, next);
    FramedRun(g, s, r, next);
    assert forall y :: Cached(t, y) == Cached(s, y) && Clear(t, y, stale) == Clear(s, y, stale) by {
      SameNodes(s, t, stale);
    }
    assert Good(t, stale) by {
      forall y | IsSlot(t, y) && t.nodes[y].phase.Resolved? && Clear(t, y, stale)
        ensures Replay(t, t.nodes[y].compute, t.nodes[y].deps) == Some(t.nodes[y].phase.value)
      {
        ReplayKept(s, t, s.nodes[y].compute, s.nodes[y].deps, s.nodes[y].deps);
      }
    }
    assert Underway(t, stale) by {
      forall q | Live(t, q) && IsSlot(t, t.runs[q].owner) && Clear(t, t.runs[q].owner, stale)
        ensures Reaches(t, t.nodes[t.runs[q].owner].compute, t.runs[q].rest, t.nodes[t.runs[q].owner].deps)
      {
        var y := s.runs[q].owner;
        assert Live(s, q);
        if q == r {
          ReachesOn(s, s.nodes[y].compute, run.rest, s.nodes[y].deps);
        }
        ReachesKept(s, t, s.nodes[y].compute, t.runs[q].rest, s.nodes[y].deps, s.nodes[y].deps);
      }
    }
    assert Waiting(t) by {
      forall q | Live(t, q) ensures WaitOk(t, q) {
        assert Live(s, q) && WaitOk(s, q);
      }
    }
  }

  lemma SameNodes(s: State, t: State, stale: seq<Id>)
    requires t.nodes == s.nodes
    ensures forall y :: Cached(t, y) == Cached(s, y) && Deps(t, y) == Deps(s, y) && Clear(t, y, stale) == Clear(s, y, stale)
    ensures SameEdges(s, t)
  {
  }

  /** Changing what a run remembers about its own progress keeps the frame. */
  lemma FramedRun(g: Plan, s: State, r: RunId, next: Run)
    requires Frame(g, s) && r in s.runs
    requires next == s.runs[r].(rest := next.rest, wait := next.wait) && Reads(g, next.owner, next.rest)
    requires next.wait.Some? ==> next.rest.Read? && IsSlot(s, next.rest.id)
    requires next.wait.Some? ==> next.wait.value in s.runs && s.runs[next.wait.value].owner == next.rest.id
    ensures Frame(g, PutRun(s, r, next))
  {
    hide EdgesOk, Reads;
    var t := PutRun(s, r, next);
    SameNodes(s, t, []);
    SameEdgesOk(g, s, t);
    assert RunsOk(g, t) by {
      forall q | q in t.runs ensures RunOk(g, t, q) {
        assert RunOk(g, s, q);
      }
    }
    assert TokensOk(t) by {
      forall y, q | IsComputing(t, y, q)
        ensures Live(t, q) && t.runs[q].owner == y && t.runs[q].notice == Pending && t.runs[q].revision == t.nodes[y].revision
      {
        assert IsComputing(s, y, q);
      }
      forall q | Live(t, q) ensures IsComputing(t, t.runs[q].owner, q) {
        assert Live(s, q);
      }
    }
  }

  /** Run `r` starts waiting for the live run of `d`. */
  lemma WaitForOk(g: Plan, s: State, r: RunId, d: Id, n: RunId, stale: seq<Id>)
    requires Frame(g, s) && Coherent(s, stale) && r in s.runs && s.runs[r].rest.Read? && s.runs[r].rest.id == d
    requires IsComputing(s, d, n)
    requires Live(s, r) ==> d in Deps(s, s.runs[r].owner)
    ensures var t := PutRun(s, r, s.runs[r].(wait := Some(n))); Frame(g, t) && Coherent(t, stale)
  {
    hide NodesOk, EdgesOk, Clear, Cached;
    var next := s.runs[r].(wait := Some(n));
    var t := PutRun(s, r, next);
    assert RunOk(g, s, r) && Live(s, n);
    FramedRun(g, s, r, next);
    SameNodes(s, t, stale);
    assert Good(t, stale) by {
      forall y | IsSlot(t, y) && t.nodes[y].phase.Resolved? && Clear(t, y, stale)
        ensures Replay(t, t.nodes[y].compute, t.nodes[y].deps) == Some(t.nodes[y].phase.value)
      {
        ReplayKept(s, t, s.nodes[y].compute, s.nodes[y].deps, s.nodes[y].deps);
      }
    }
    assert Underway(t, stale) by {
      forall q | Live(t, q) && IsSlot(t, t.runs[q].owner) && Clear(t, t.runs[q].owner, stale)
        ensures Reaches(t, t.nodes[t.runs[q].owner].compute, t.runs[q].rest, t.nodes[t.runs[q].owner].deps)
      {
        var y := s.runs[q].owner;
        assert Live(s, q);
        ReachesKept(s, t, s.nodes[y].compute, s.runs[q].rest, s.nodes[y].deps, s.nodes[y].deps);
      }
    }
    assert Waiting(t) by {
      forall q | Live(t, q) ensures WaitOk(t, q) {
        assert Live(s, q) && WaitOk(s, q);
      }
    }
  }

  lemma AwaitOk(g: Plan, s: State, r: RunId, d: Id, stale: seq<Id>)
    requires Frame(g, s) && Coherent(s, stale) && r in s.runs && s.runs[r].rest.Read? && s.runs[r].rest.id == d && IsSlot(s, d)
    requires Live(s, r) ==> d in Deps(s, s.runs[r].owner) && s.runs[r].owner != d
    ensures var t := Await(s, r, d); Frame(g, t) && Coherent(t, stale) && t.batched == s.batched && t.depth == s.depth
  {
    hide Frame, Coherent, Deps, Receive;
    if s.nodes[d].phase.Resolved? {
      ReceiveOk(g, s, r, s.nodes[d].phase.value, stale);
    } else {
      DemandOk(g, s, d, stale);
      var s1 := Demand(s, d);
      assert s1.runs[r] == s.runs[r];
      assert s1.nodes[d].phase.Computing? by { DemandComputes(s, d); }
      WaitForOk(g, s1, r, d, s1.nodes[d].phase.run, stale);
    }
  }

  lemma {:induction false} DropKeepsPhase(s: State, ds: seq<Id>, x: Id)
    ensures var t := DropDependents(s, ds, x);
      forall y :: y in s.nodes && s.nodes[y].Slot? ==> y in t.nodes && t.nodes[y].Slot? && t.nodes[y].phase == s.nodes[y].phase
    decreases |ds|
  {
    if ds != [] {
      if ds[0] in s.nodes {
        var n := s.nodes[ds[0]];
        DropKeepsPhase(Put(s, ds[0], n.(dependents := Edges.Remove(n.dependents, x))), ds[1..], x);
      } else {
        DropKeepsPhase(s, ds[1..], x);
      }
    }
  }

  lemma DemandComputes(s: State, x: Id)
    requires IsSlot(s, x) && !s.nodes[x].phase.Resolved?
    ensures IsSlot(Demand(s, x), x) && Demand(s, x).nodes[x].phase.Computing?
  {
    DropKeepsPhase(s, s.nodes[x].deps, x);
  }

  // -- completion ----------------------------------------------------------------------------------

  /** A superseded completion publishes nothing: no node changes, and its waiters were already told. */
  lemma SupersededChangesNothing(g: Plan, s: State, r: RunId, v: Value)
    requires Frame(g, s) && r in s.runs && s.runs[r].aborted
    ensures Complete(s, r, v) == PutRun(s, r, s.runs[r].(done := true))
  {
    assert RunOk(g, s, r);
  }

  /** A live completion is the only one of its slot and carries the revision the slot is at. */
  lemma LivePublishes(g: Plan, s: State, r: RunId, v: Value)
    requires Frame(g, s) && Live(s, r)
    ensures var x := s.runs[r].owner;
      && IsSlot(s, x) && s.runs[r].notice == Pending
      && Complete(s, r, v) == PutRun(Put(s, x, s.nodes[x].(phase := Resolved(v))), r, s.runs[r].(done := true, notice := Settled(v)))
      && forall q :: Live(s, q) && s.runs[q].owner == x ==> q == r
  {
    assert IsComputing(s, s.runs[r].owner, r);
    forall q | Live(s, q) && s.runs[q].owner == s.runs[r].owner ensures q == r {
      assert IsComputing(s, s.runs[q].owner, q);
    }
  }

  /** What a completion leaves alone: it ends its own run, and if that was live, resolves its slot. */
  ghost predicate Ends(s: State, t: State, r: RunId)
    requires r in s.runs
  {
    var x := s.runs[r].owner;
    && t == s.(nodes := t.nodes, runs := t.runs) && t.nodes.Keys == s.nodes.Keys && t.runs.Keys == s.runs.Keys
    && (forall q :: q in s.runs && q != r ==> t.runs[q] == s.runs[q])
    && t.runs[r] == s.runs[r].(done := true, notice := t.runs[r].notice)
    && (s.runs[r].aborted ==> t.runs[r].notice == s.runs[r].notice && t.nodes == s.nodes)
    && (forall y :: y in s.nodes && y != x ==> t.nodes[y] == s.nodes[y])
    && (!s.runs[r].aborted ==>
          && IsSlot(s, x) && IsSlot(t, x) && t.nodes[x].phase.Resolved?
          && t.nodes[x] == s.nodes[x].(phase := t.nodes[x].phase))
  }

  lemma CompleteEnds(g: Plan, s: State, r: RunId, v: Value)
    requires Frame(g, s) && r in s.runs && !s.runs[r].done
    ensures Ends(s, Complete(s, r, v), r) && SameEdges(s, Complete(s, r, v))
  {
    hide Frame, SameEdges;
    if s.runs[r].aborted {
      SupersededChangesNothing(g, s, r, v);
    } else {
      LivePublishes(g, s, r, v);
    }
    SameEdgesHold(s, Complete(s, r, v), r);
  }

  lemma SameEdgesHold(s: State, t: State, r: RunId)
    requires r in s.runs && Ends(s, t, r)
    ensures SameEdges(s, t)
  {
  }

  lemma EndsRuns(g: Plan, s: State, t: State, r: RunId)
    requires RunsOk(g, s) && r in s.runs && Ends(s, t, r)
    ensures RunsOk(g, t)
  {
    hide Reads;
    forall q | q in t.runs ensures RunOk(g, t, q) {
      assert RunOk(g, s, q);
      assert t.runs[q].owner in t.nodes && IsSlot(t, t.runs[q].owner);
    }
  }

  lemma EndsTokens(s: State, t: State, r: RunId)
    requires TokensOk(s) && r in s.runs && !s.runs[r].done && Ends(s, t, r)
    ensures TokensOk(t)
  {
    forall y, q | IsComputing(t, y, q)
      ensures Live(t, q) && t.runs[q].owner == y && t.runs[q].notice == Pending && t.runs[q].revision == t.nodes[y].revision
    {
      assert IsComputing(s, y, q);
    }
    forall q | Live(t, q) ensures IsComputing(t, t.runs[q].owner, q) {
      assert Live(s, q) && IsComputing(s, s.runs[q].owner, q);
      assert !s.runs[r].aborted ==> Live(s, r) && IsComputing(s, s.runs[r].owner, r);
    }
  }

  lemma CompleteFrame(g: Plan, s: State, r: RunId, v: Value)
    requires Frame(g, s) && r in s.runs && !s.runs[r].done
    ensures Frame(g, Complete(s, r, v))
  {
    hide Reads, EdgesOk, RunsOk, TokensOk, SameEdges, Complete;
    var t := Complete(s, r, v);
    CompleteEnds(g, s, r, v);
    SameEdgesOk(g, s, t);
    EndsRuns(g, s, t, r);
    EndsTokens(s, t, r);
  }

  lemma CompleteOk(g: Plan, s: State, r: RunId, v: Value, stale: seq<Id>)
    requires Frame(g, s) && Coherent(s, stale) && r in s.runs && s.runs[r].rest == Ret(v) && !s.runs[r].done && s.runs[r].wait.None?
    ensures var t := Complete(s, r, v); Frame(g, t) && Coherent(t, stale) && t.batched == s.batched && t.depth == s.depth
  {
    CompleteFrame(g, s, r, v);
    var t := Complete(s, r, v);
    if s.runs[r].aborted {
      SupersededChangesNothing(g, s, r, v);
      AbortedDoneOk(s, t, r, stale);
    } else {
      LivePublishes(g, s, r, v);
      assert IsComputing(s, s.runs[r].owner, r);
      PublishedOk(g, s, t, r, v, stale);
    }
  }

  lemma AbortedDoneOk(s: State, t: State, r: RunId, stale: seq<Id>)
    requires Coherent(s, stale) && r in s.runs && s.runs[r].aborted && t == PutRun(s, r, s.runs[r].(done := true))
    ensures Coherent(t, stale)
  {
    hide Clear, Cached;
    SameNodes(s, t, stale);
    assert Good(t, stale) by {
      forall y | IsSlot(t, y) && t.nodes[y].phase.Resolved? && Clear(t, y, stale)
        ensures Replay(t, t.nodes[y].compute, t.nodes[y].deps) == Some(t.nodes[y].phase.value)
      {
        ReplayKept(s, t, s.nodes[y].compute, s.nodes[y].deps, s.nodes[y].deps);
      }
    }
    assert Underway(t, stale) by {
      forall q | Live(t, q) && IsSlot(t, t.runs[q].owner) && Clear(t, t.runs[q].owner, stale)
        ensures Reaches(t, t.nodes[t.runs[q].owner].compute, t.runs[q].rest, t.nodes[t.runs[q].owner].deps)
      {
        var y := s.runs[q].owner;
        assert Live(s, q);
        ReachesKept(s, t, s.nodes[y].compute, s.runs[q].rest, s.nodes[y].deps, s.nodes[y].deps);
      }
    }
    assert Waiting(t) by {
      forall q | Live(t, q) ensures WaitOk(t, q) {
        assert Live(s, q) && WaitOk(s, q);
      }
    }
  }

  lemma PublishedOk(g: Plan, s: State, t: State, r: RunId, v: Value, stale: seq<Id>)
    requires Frame(g, s) && Coherent(s, stale) && Live(s, r) && s.runs[r].rest == Ret(v) && IsComputing(s, s.runs[r].owner, r)
    requires var x := s.runs[r].owner;
      t == PutRun(Put(s, x, s.nodes[x].(phase := Resolved(v))), r, s.runs[r].(done := true, notice := Settled(v)))
    requires s.runs[r].wait.None?
    ensures Coherent(t, stale)
  {
    hide NodesOk, EdgesOk, Good, Underway, Waiting;
    PublishedGood(g, s, t, r, v, stale);
    PublishedUnderway(g, s, t, r, v, stale);
    PublishedWaiting(g, s, t, r, v);
  }

  ghost predicate PublishedAs(s: State, t: State, r: RunId, v: Value)
    requires r in s.runs
  {
    var x := s.runs[r].owner;
    && IsComputing(s, x, r) && s.runs[r].rest == Ret(v) && s.runs[r].wait.None?
    && t == PutRun(Put(s, x, s.nodes[x].(phase := Resolved(v))), r, s.runs[r].(done := true, notice := Settled(v)))
  }

  /** Publishing changes no edges and takes no value away. */
  lemma PublishedSame(s: State, t: State, r: RunId, v: Value, stale: seq<Id>)
    requires r in s.runs && PublishedAs(s, t, r, v)
    ensures forall y :: Deps(t, y) == Deps(s, y) && Clear(t, y, stale) == Clear(s, y, stale)
    ensures forall d :: Cached(s, d).Some? ==> Cached(t, d) == Cached(s, d)
  {
  }

  lemma PublishedGood(g: Plan, s: State, t: State, r: RunId, v: Value, stale: seq<Id>)
    requires Coherent(s, stale) && Live(s, r) && PublishedAs(s, t, r, v)
    ensures Good(t, stale)
  {
    hide Waiting;
    var x := s.runs[r].owner;
    PublishedSame(s, t, r, v, stale);
    forall y | IsSlot(t, y) && t.nodes[y].phase.Resolved? && Clear(t, y, stale)
      ensures Replay(t, t.nodes[y].compute, t.nodes[y].deps) == Some(t.nodes[y].phase.value)
    {
      if y == x {
        ReachesEnd(s, s.nodes[x].compute, v, s.nodes[x].deps);
      }
      ReplayKept(s, t, s.nodes[y].compute, s.nodes[y].deps, s.nodes[y].deps);
    }
  }

  lemma PublishedUnderway(g: Plan, s: State, t: State, r: RunId, v: Value, stale: seq<Id>)
    requires Underway(s, stale) && Live(s, r) && PublishedAs(s, t, r, v)
    ensures Underway(t, stale)
  {
    PublishedSame(s, t, r, v, stale);
    forall q | Live(t, q) && IsSlot(t, t.runs[q].owner) && Clear(t, t.runs[q].owner, stale)
      ensures Reaches(t, t.nodes[t.runs[q].owner].compute, t.runs[q].rest, t.nodes[t.runs[q].owner].deps)
    {
      var y := s.runs[q].owner;
      assert Live(s, q);
      ReachesKept(s, t, s.nodes[y].compute, s.runs[q].rest, s.nodes[y].deps, s.nodes[y].deps);
    }
  }

  lemma PublishedWaiting(g: Plan, s: State, t: State, r: RunId, v: Value)
    requires Frame(g, s) && Waiting(s) && Live(s, r) && PublishedAs(s, t, r, v)
    ensures Waiting(t)
  {
    hide NodesOk, EdgesOk;
    forall q | Live(t, q) ensures WaitOk(t, q) {
      assert Live(s, q) && WaitOk(s, q) && RunOk(g, s, q);
    }
  }

  lemma AdvanceOk(g: Plan, s: State, r: RunId, stale: seq<Id>)
    requires Frame(g, s) && Coherent(s, stale) && r in s.runs
    ensures var t := Advance(s, r); Frame(g, t) && Coherent(t, stale) && t.batched == s.batched && t.depth == s.depth
  {
    var run := s.runs[r];
    assert RunOk(g, s, r) && (Live(s, r) ==> WaitOk(s, r));
    if run.done {
    } else if run.wait.Some? {
      if Live(s, r) {
        AwaitsOther(g, s, r);
      }
      match s.runs[run.wait.value].notice
      case Pending =>
      case Settled(v) => ReceiveOk(g, s, r, v, stale);
      case Superseded => AwaitOk(g, s, r, run.rest.id, stale);
    } else if run.rest.Ret? {
      CompleteOk(g, s, r, run.rest.result, stale);
    } else {
      ReadStepOk(g, s, r, stale);
    }
  }

  lemma AwaitsOther(g: Plan, s: State, r: RunId)
    requires Frame(g, s) && Waiting(s)
    requires Live(s, r) && s.runs[r].wait.Some?
    ensures s.runs[r].rest.Read? && s.runs[r].rest.id in Deps(s, s.runs[r].owner) && s.runs[r].rest.id != s.runs[r].owner
  {
    assert RunOk(g, s, r) && WaitOk(s, r);
  }

  lemma ReadStepOk(g: Plan, s: State, r: RunId, stale: seq<Id>)
    requires Frame(g, s) && Coherent(s, stale) && r in s.runs && !s.runs[r].done && s.runs[r].wait.None? && s.runs[r].rest.Read?
    ensures var t := Advance(s, r); Frame(g, t) && Coherent(t, stale) && t.batched == s.batched && t.depth == s.depth
  {
    var run := s.runs[r];
    var d := run.rest.id;
    assert RunOk(g, s, r);
    assert d in s.nodes && d != run.owner && g.rank(d) < g.rank(run.owner);
    RegisterRewires(g, s, d, run.owner);
    var s1 := Register(s, d, run.owner);
    RewiredOk(g, s, s1, run.owner, stale);
    if s1.nodes[d].Cell? {
      ReceiveOk(g, s1, r, s1.nodes[d].value, stale);
    } else {
      AwaitOk(g, s1, r, d, stale);
    }
  }

  // -- creation, writes, batches -----------------------------------------------------------------------

  lemma NewNodeOk(g: Plan, s: State, n: Node)
    requires Inv(g, s) && n.dependents == []
    requires n.Slot? ==> n.phase == Empty && n.deps == [] && g.rank(s.nextId) <= g.limit && Reads(g, s.nextId, n.compute)
    ensures Inv(g, s.(nodes := s.nodes[s.nextId := n], nextId := s.nextId + 1))
  {
    var id := s.nextId;
    var t := s.(nodes := s.nodes[id := n], nextId := id + 1);
    assert id !in s.nodes;
    assert SameEdges(s, t);
    NewNodeFrame(g, s, t, n);
    NewNodeCoherent(g, s, t, n);
  }

  /** A new node owns no run and nobody reads it yet. */
  lemma NewNodeCoherent(g: Plan, s: State, t: State, n: Node)
    requires Inv(g, s) && s.nextId !in s.nodes && t == s.(nodes := s.nodes[s.nextId := n], nextId := s.nextId + 1)
    requires SameEdges(s, t) && (n.Slot? ==> n.phase == Empty && n.deps == [])
    ensures Coherent(t, s.batched)
  {
    hide NodesOk, EdgesOk;
    assert forall y :: Clear(t, y, s.batched) == Clear(s, y, s.batched);
    NewNodeGood(s, t, n);
    forall q | Live(t, q) ensures t.runs[q].owner in s.nodes && t.runs[q].owner != s.nextId {
      assert Live(s, q) && RunOk(g, s, q);
    }
    NewNodeUnderway(s, t, n);
    forall q | Live(t, q) ensures WaitOk(t, q) {
      assert Live(s, q) && WaitOk(s, q);
    }
  }

  lemma NewNodeGood(s: State, t: State, n: Node)
    requires Good(s, s.batched) && s.nextId !in s.nodes && t == s.(nodes := s.nodes[s.nextId := n], nextId := s.nextId + 1)
    requires n.Slot? ==> n.phase == Empty
    requires forall y :: Clear(t, y, s.batched) == Clear(s, y, s.batched)
    ensures Good(t, s.batched)
  {
    forall y | IsSlot(t, y) && t.nodes[y].phase.Resolved? && Clear(t, y, s.batched)
      ensures Replay(t, t.nodes[y].compute, t.nodes[y].deps) == Some(t.nodes[y].phase.value)
    {
      ReplayKept(s, t, s.nodes[y].compute, s.nodes[y].deps, s.nodes[y].deps);
    }
  }

  lemma NewNodeUnderway(s: State, t: State, n: Node)
    requires Underway(s, s.batched) && s.nextId !in s.nodes && t == s.(nodes := s.nodes[s.nextId := n], nextId := s.nextId + 1)
    requires forall y :: Clear(t, y, s.batched) == Clear(s, y, s.batched)
    requires forall q :: Live(t, q) ==> t.runs[q].owner in s.nodes
    ensures Underway(t, s.batched)
  {
    forall q | Live(t, q) && IsSlot(t, t.runs[q].owner) && Clear(t, t.runs[q].owner, s.batched)
      ensures Reaches(t, t.nodes[t.runs[q].owner].compute, t.runs[q].rest, t.nodes[t.runs[q].owner].deps)
    {
      var y := s.runs[q].owner;
      assert Live(s, q);
      ReachesKept(s, t, s.nodes[y].compute, s.runs[q].rest, s.nodes[y].deps, s.nodes[y].deps);
    }
  }

  lemma NewNodeEdges(g: Plan, s: State, t: State, n: Node)
    requires EdgesOk(g, s) && SameEdges(s, t) && n.dependents == [] && s.nextId !in s.nodes
    requires t == s.(nodes := s.nodes[s.nextId := n], nextId := s.nextId + 1)
    ensures EdgesOk(g, t)
  {
    forall x, d | d in Deps(t, x) ensures d in t.nodes && g.rank(d) < g.rank(x) && x in Dependents(t, d) {
      assert d in Deps(s, x);
    }
    forall x, d | x in Dependents(t, d) ensures IsSlot(t, x) && d in Deps(t, x) {
      assert x in Dependents(s, d) && IsSlot(s, x);
    }
  }

  lemma NewNodeRuns(g: Plan, s: State, t: State, n: Node)
    requires RunsOk(g, s) && s.nextId !in s.nodes && t == s.(nodes := s.nodes[s.nextId := n], nextId := s.nextId + 1)
    ensures RunsOk(g, t)
  {
    hide Reads;
    forall q | q in t.runs ensures RunOk(g, t, q) {
      assert RunOk(g, s, q);
    }
  }

  lemma NewNodeTokens(s: State, t: State, n: Node)
    requires TokensOk(s) && s.nextId !in s.nodes && (n.Slot? ==> n.phase == Empty)
    requires t == s.(nodes := s.nodes[s.nextId := n], nextId := s.nextId + 1)
    ensures TokensOk(t)
  {
    forall y, q | IsComputing(t, y, q)
      ensures Live(t, q) && t.runs[q].owner == y && t.runs[q].notice == Pending && t.runs[q].revision == t.nodes[y].revision
    {
      assert IsComputing(s, y, q);
    }
    forall q | Live(t, q) ensures IsComputing(t, t.runs[q].owner, q) {
      assert Live(s, q) && IsComputing(s, s.runs[q].owner, q);
    }
  }

  lemma NewNodeFrame(g: Plan, s: State, t: State, n: Node)
    requires Frame(g, s) && SameEdges(s, t) && n.dependents == [] && s.nextId !in s.nodes
    requires t == s.(nodes := s.nodes[s.nextId := n], nextId := s.nextId + 1)
    requires n.Slot? ==> n.phase == Empty && g.rank(s.nextId) <= g.limit && Reads(g, s.nextId, n.compute)
    ensures Frame(g, t)
  {
    hide Reads, EdgesOk, RunsOk, TokensOk, SameEdges;
    NewNodeEdges(g, s, t, n);
    NewNodeRuns(g, s, t, n);
    NewNodeTokens(s, t, n);
  }

  /** A stored source value: only its readers' claims are in doubt. */
  lemma StoreOk(g: Plan, s: State, x: Id, v: Value, stale: seq<Id>)
    requires Frame(g, s) && Coherent(s, stale) && IsCell(s, x)
    ensures var t := Put(s, x, s.nodes[x].(value := v)); Frame(g, t) && Coherent(t, stale + [x]) && SameEdges(s, t)
  {
    var t := Put(s, x, s.nodes[x].(value := v));
    assert SameEdges(s, t);
    SameEdgesOk(g, s, t);
    StoreFrame(g, s, x, v);
    hide NodesOk, EdgesOk, RunsOk;
    assert forall y :: Clear(t, y, stale + [x]) ==> Clear(s, y, stale) && x !in Deps(s, y) by {
      forall y | Clear(t, y, stale + [x]) ensures Clear(s, y, stale) && x !in Deps(s, y) {
        assert x in stale + [x];
      }
    }
    assert forall d :: d != x ==> Cached(t, d) == Cached(s, d);
    assert Good(t, stale + [x]) by {
      forall y | IsSlot(t, y) && t.nodes[y].phase.Resolved? && Clear(t, y, stale + [x])
        ensures Replay(t, t.nodes[y].compute, t.nodes[y].deps) == Some(t.nodes[y].phase.value)
      {
        ReplayKept(s, t, s.nodes[y].compute, s.nodes[y].deps, s.nodes[y].deps);
      }
    }
    assert Underway(t, stale + [x]) by {
      forall q | Live(t, q) && IsSlot(t, t.runs[q].owner) && Clear(t, t.runs[q].owner, stale + [x])
        ensures Reaches(t, t.nodes[t.runs[q].owner].compute, t.runs[q].rest, t.nodes[t.runs[q].owner].deps)
      {
        var y := s.runs[q].owner;
        assert Live(s, q);
        ReachesKept(s, t, s.nodes[y].compute, s.runs[q].rest, s.nodes[y].deps, s.nodes[y].deps);
      }
    }
    assert Waiting(t) by {
      forall q | Live(t, q) ensures WaitOk(t, q) {
        assert Live(s, q) && WaitOk(s, q);
      }
    }
  }

  lemma StoreFrame(g: Plan, s: State, x: Id, v: Value)
    requires Frame(g, s) && IsCell(s, x) && EdgesOk(g, Put(s, x, s.nodes[x].(value := v)))
    ensures Frame(g, Put(s, x, s.nodes[x].(value := v)))
  {
    hide EdgesOk, Reads;
    var t := Put(s, x, s.nodes[x].(value := v));
    assert RunsOk(g, t) by {
      forall q | q in t.runs ensures RunOk(g, t, q) {
        assert RunOk(g, s, q);
      }
    }
    assert TokensOk(t) by {
      forall y, q | IsComputing(t, y, q)
        ensures Live(t, q) && t.runs[q].owner == y && t.runs[q].notice == Pending && t.runs[q].revision == t.nodes[y].revision
      {
        assert IsComputing(s, y, q);
      }
      forall q | Live(t, q) ensures IsComputing(t, t.runs[q].owner, q) {
        assert Live(s, q) && IsComputing(s, s.runs[q].owner, q);
      }
    }
  }
}
