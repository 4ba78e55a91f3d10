/** Effects, writes, batches and whole runs: every read is glitch-free and every effect is current. */
module ReactiveRuns {
  import opened Basics
  import Edges
  import opened ReactiveModel
  import opened ReactiveInvariant
  import opened ReactiveMarking
  import opened ReactiveRefresh

  // -- one effect ---------------------------------------------------------------------------

  lemma {:induction false} ShouldRunOk(g: Plan, s: State, x: Id, ds: seq<Id>)
    requires Inv(g, s, {x}, {}) && 0 !in s.nodes && Readable(g, s, x, ds) && IsEffect(s, x)
    ensures var (t, go) := ShouldRun(g, s, ds);
      && Inv(g, t, {x}, {}) && Frame(g, s, t, {x}, Rank(g, x), 0, 0) && 0 !in t.nodes
      && (!go ==> AllFresh(t, ds)) && (go && Reflexive(g) ==> Altered(s, t, ds)) && Progress(s, t)
    decreases |ds|
  {
    hide Inv, Frame, Refresh, Readable, Untangled, Fresh, Cached, IsSlot, IsCell, IsEffect, Progress, Clean, Healed, Altered, Reported;
    if ds == [] {
      FrameRefl(g, s, {x}, Rank(g, x), 0);
    } else {
      var d, rest := ds[0], ds[1..];
      assert ds == [d] + rest;
      assert Above(g, {x}, Rank(g, x));
      FirstDepOk(g, s, x, d, rest, {x}, {});
      var (s1, c) := Refresh(g, s, d);
      FirstDepProgress(g, s, x, d, rest);
      FirstDepAltered(g, s, x, d, rest);
      if !c {
        ShouldRunOk(g, s1, x, rest);
        var t := ShouldRun(g, s1, rest).0;
        LaterAltered(g, s, s1, t, x, d, rest);
        FrameTrans(g, s, s1, t, {x}, Rank(g, x), 0, 0);
        FreshStays(g, s1, t, {x}, Rank(g, x), 0, d);
        ProgressTrans(g, s, s1, t, x, 0);
      }
    }
  }

  /** Some node listed holds another value. */
  ghost predicate Altered(s: State, t: State, ds: seq<Id>) { exists d :: d in ds && Cached(t, d) != Cached(s, d) }

  lemma FirstDepAltered(g: Plan, s: State, x: Id, d: Id, rest: seq<Id>)
    requires Inv(g, s, {x}, {}) && 0 !in s.nodes && Readable(g, s, x, [d] + rest) && IsEffect(s, x)
    ensures var (t, c) := Refresh(g, s, d); c && Reflexive(g) ==> Altered(s, t, [d] + rest)
  {
    assert d in [d] + rest;
    if IsSlot(s, d) {
      RefreshOk(g, s, d, {x}, {});
    }
  }

  /** What changed after the first was refreshed had not changed by then: what had is clean, and stays. */
  lemma LaterAltered(g: Plan, s: State, s1: State, t: State, x: Id, d: Id, rest: seq<Id>)
    requires Frame(g, s, s1, {x}, Rank(g, x), 0, 0) && Frame(g, s1, t, {x}, Rank(g, x), 0, 0) && IsEffect(s, x)
    ensures Altered(s1, t, rest) ==> Altered(s, t, [d] + rest)
  {
    if Altered(s1, t, rest) {
      var e :| e in rest && Cached(t, e) != Cached(s1, e);
      assert e in [d] + rest;
      assert SameCore(s.nodes[x], s1.nodes[x]) && SameCore(s1.nodes[x], t.nodes[x]);
      assert e != x;
    }
  }

  lemma FirstDepProgress(g: Plan, s: State, x: Id, d: Id, rest: seq<Id>)
    requires Inv(g, s, {x}, {}) && 0 !in s.nodes && Readable(g, s, x, [d] + rest) && IsEffect(s, x)
    ensures Progress(s, Refresh(g, s, d).0) && IsEffect(Refresh(g, s, d).0, x)
  {
    assert d in [d] + rest;
    if IsSlot(s, d) {
      RefreshOk(g, s, d, {x}, {});
      assert SameCore(s.nodes[x], Refresh(g, s, d).0.nodes[x]);
    }
  }

  lemma ProgressTrans(g: Plan, s: State, t: State, u: State, x: Id, owner: Id)
    requires Progress(s, t) && Progress(t, u) && Frame(g, s, t, {x}, Rank(g, x), owner, 0) && Frame(g, t, u, {x}, Rank(g, x), owner, 0)
    requires IsEffect(s, x)
    ensures Progress(s, u)
  {
    if t.pending != s.pending {
      var y :| Healed(s, t, y);
      assert Healed(s, u, y);
    } else if u.pending != t.pending {
      var y :| Healed(t, u, y);
      assert SameCore(s.nodes[y], t.nodes[y]);
      assert Healed(s, u, y);
    }
  }

  /** Same nodes with the same computes and the same source values. */
  ghost predicate SameSources(s: State, t: State) {
    && t.nodes.Keys == s.nodes.Keys && t.batched == s.batched && t.depth == s.depth && t.nextId == s.nextId
    && forall x :: x in s.nodes ==> SameCore(s.nodes[x], t.nodes[x])
  }

  /** Clean slots stay so, with the values they have. */
  ghost predicate KeptClean(s: State, t: State) { forall y :: Clean(s, y) ==> Clean(t, y) && Cached(t, y) == Cached(s, y) }

  /** What one run of `x` does to the measure of outstanding work. */
  ghost predicate Steps(s: State, t: State, x: Id) {
    && KeptClean(s, t)
    && (forall y :: y in t.pending ==> y in s.pending || y == x)
    && Progress(s, t)
  }

  /** Slots look the same in both states. */
  ghost predicate SameSlots(s: State, t: State) {
    forall y :: Clean(t, y) == Clean(s, y) && IsSlot(t, y) == IsSlot(s, y) && Cached(t, y) == Cached(s, y)
      && Fresh(t, y) == Fresh(s, y)
  }

  /** The effect `x` with another record of its last run. */
  function Noted(s: State, x: Id, seen: Option<Value>, force: bool): State
    requires IsEffect(s, x)
  {
    Put(s, x, s.nodes[x].(seen := seen, forceRun := force))
  }

  lemma NotedShape(g: Plan, s: State, x: Id, seen: Option<Value>, force: bool)
    requires Shape(g, s) && IsEffect(s, x)
    ensures var t := Noted(s, x, seen, force);
            Shape(g, t) && SameEdges(s, t) && SameSlots(s, t) && SameSources(s, t)
  {
    var t := Noted(s, x, seen, force);
    assert SameEdges(s, t);
    SameEdgesOk(g, s, t);
    assert NodeOk(g, x, s.nodes[x]);
  }

  lemma NotedOk(g: Plan, s: State, x: Id, seen: Option<Value>, force: bool)
    requires Inv(g, s, {x}, {x}) && IsEffect(s, x)
    ensures var t := Noted(s, x, seen, force);
            Inv(g, t, {x}, {x}) && SameEdges(s, t) && SameSlots(s, t) && SameSources(s, t)
  {
    hide NodeOk, Fresh, Clean, Consistent, EdgesOk;
    var t := Noted(s, x, seen, force);
    NotedShape(g, s, x, seen, force);
    assert Calm(t, {x}) by {
      forall y, d | y !in {x} && Settled(t, y) && d in Deps(t, y) ensures Fresh(t, d) {
        assert Settled(s, y) && d in Deps(s, y);
      }
    }
    assert Right(t, {x}, []) by {
      forall y | y !in {x} && Due(t, y) && Unbatched(t, y) ensures Consistent(t, y) {
        assert Due(s, y) && Unbatched(s, y);
        ConsistentStable(s, t, y);
      }
    }
  }

  /** `x` stops being active: what it read is fresh and what it recorded is right. */
  lemma Deactivate(g: Plan, s: State, x: Id, B: set<Id>)
    requires Inv(g, s, {x}, B) && B <= {x} && IsEffect(s, x)
    requires x !in s.pending ==> AllFresh(s, Deps(s, x))
    requires x in B ==> AllFresh(s, Deps(s, x)) && s.nodes[x].seen.Some? && Consistent(s, x)
    requires OwedRun(s, x) ==> x in s.pending
    ensures Inv(g, s, {}, {})
  {
    hide NodeOk, EdgesOk, Consistent;
    assert Calm(s, {}) by {
      forall y, d | Settled(s, y) && d in Deps(s, y) ensures Fresh(s, d) {
        assert y == x || y !in {x};
      }
    }
    assert Known(s, {}) by {
      forall y, d | d in Deps(s, y) ensures Cached(s, d).Some? {
        assert y !in B || Fresh(s, d);
      }
    }
    assert Right(s, {}, []) by {
      forall y | Due(s, y) && Unbatched(s, y) ensures Consistent(s, y) {
        assert y !in B || y == x;
      }
    }
    assert Queued(s, {}) by {
      forall y | IsEffect(s, y)
        ensures (s.nodes[y].forceRun ==> y in s.pending) && (s.nodes[y].seen.None? ==> s.nodes[y].forceRun)
      {
        assert y !in B || y == x;
      }
    }
  }

  lemma ExecuteStarts(g: Plan, s: State, x: Id)
    requires Inv(g, s, {x}, {x}) && IsEffect(s, x) && 0 !in s.nodes
    ensures var t := ClearDeps(ForceOff(s, x), x);
      && Inv(g, t, {x}, {x}) && IsEffect(t, x) && 0 !in t.nodes && Deps(t, x) == [] && AllFresh(t, [])
      && t.nodes[x].run == s.nodes[x].run && SameSources(s, t) && t.pending == s.pending && !OwedRun(t, x)
      && (forall y :: Clean(t, y) == Clean(s, y) && IsSlot(t, y) == IsSlot(s, y) && Cached(t, y) == Cached(s, y))
    ensures Reads(g, x, s.nodes[x].run) && Above(g, {x}, Rank(g, x))
  {
    hide Reads, Inv, EdgesOk, Frame, OnlyEdges;
    var s1 := ForceOff(s, x);
    assert s1 == Noted(s, x, s.nodes[x].seen, false);
    NotedOk(g, s, x, s.nodes[x].seen, false);
    EffectFacts(g, s, x);
    EffectFacts(g, s1, x);
    ClearEdges(g, s1, x);
    OnlyEdgesReads(s1, ClearDeps(s1, x), x);
    EdgeStep(g, s1, ClearDeps(s1, x), {x}, {x}, Rank(g, x), x);
    EffectAside(s1, ClearDeps(s1, x), x);
  }

  /** What holds of a running effect. */
  lemma EffectFacts(g: Plan, s: State, x: Id)
    requires Inv(g, s, {x}, {x}) && IsEffect(s, x)
    ensures EdgesOk(g, s) && Reads(g, x, s.nodes[x].run)
  {
    hide EdgesOk, Reads, NearFirst;
    assert NodeOk(g, x, s.nodes[x]);
  }

  lemma EffectAside(s: State, t: State, x: Id)
    requires OnlyEdges(s, t, x) && IsEffect(s, x)
    ensures t.nodes.Keys == s.nodes.Keys && IsEffect(t, x) && t.nodes[x].run == s.nodes[x].run && t.nodes[x].forceRun == s.nodes[x].forceRun
    ensures t == s.(nodes := t.nodes) && SameSources(s, t) && forall y :: IsSlot(t, y) == IsSlot(s, y)
  {
    assert SameButEdges(s.nodes[x], t.nodes[x]);
    assert forall y :: y in t.nodes <==> y in s.nodes.Keys;
  }

  lemma ExecuteEnds(g: Plan, s: State, t: State, x: Id, v: Value)
    requires IsEffect(s, x) && IsEffect(t, x) && !OwedRun(s, x)
    requires Inv(g, t, {x}, {x}) && Frame(g, s, t, {x}, Rank(g, x), x, 0) && Progress(s, t)
    requires Replay(t, t.nodes[x].run, []) == Some((v, Deps(t, x))) && AllFresh(t, Deps(t, x))
    ensures var u := Put(t, x, t.nodes[x].(seen := Some(v)));
      Inv(g, u, {}, {}) && SameSources(s, u) && Steps(s, u, x)
  {
    hide Inv, EdgesOk, NodeOk;
    var force := t.nodes[x].forceRun;
    var u := Noted(t, x, Some(v), force);
    NotedOk(g, t, x, Some(v), force);
    ReplayStable(t, u, t.nodes[x].run, []);
    assert OwedRun(t, x) ==> x in t.pending;
    Deactivate(g, u, x, {x});
    assert Steps(s, u, x) by {
      assert forall y :: Clean(s, y) ==> y !in {x} && Clean(t, y);
      if t.pending != s.pending {
        var y :| Healed(s, t, y);
        assert Healed(s, u, y);
      }
    }
  }

  lemma ExecuteOk(g: Plan, s: State, x: Id)
    requires Inv(g, s, {x}, {x}) && IsEffect(s, x) && 0 !in s.nodes
    ensures var t := Execute(g, s, x);
      Inv(g, t, {}, {}) && SameSources(s, t) && Steps(s, t, x)
  {
    hide Inv, RunProg, ClearDeps, Reads, Above, Progress, AllFresh, Clean, Fresh, Frame, Replay;
    ExecuteStarts(g, s, x);
    var s2 := ClearDeps(ForceOff(s, x), x);
    RunProgOk(g, s2, x, s.nodes[x].run, {x}, {x});
    var (s3, r) := RunProg(g, s2, x, s.nodes[x].run);
    FrameEffect(g, s2, s3, {x}, Rank(g, x), x, x);
    ExecuteEnds(g, s2, s3, x, r.value);
    StepsFrom(s, s2, Execute(g, s, x), x);
  }

  lemma FrameEffect(g: Plan, s: State, t: State, A: set<Id>, r: nat, owner: Id, x: Id)
    requires Frame(g, s, t, A, r, owner, 0) && x in A && IsEffect(s, x) && 0 !in s.nodes
    ensures IsEffect(t, x) && t.nodes[x].run == s.nodes[x].run && t.nodes[x].seen == s.nodes[x].seen
    ensures x != owner ==> Deps(t, x) == Deps(s, x)
    ensures OwedRun(t, x) ==> OwedRun(s, x) || x in t.pending
    ensures SameSources(s, t)
  {
    assert SameCore(s.nodes[x], t.nodes[x]) && SameResult(s.nodes[x], t.nodes[x]);
  }

  lemma StepsFrom(s: State, s1: State, t: State, x: Id)
    requires s1.pending == s.pending
    requires forall y :: Clean(s1, y) == Clean(s, y) && IsSlot(s1, y) == IsSlot(s, y) && Cached(s1, y) == Cached(s, y)
    requires Steps(s1, t, x)
    ensures Steps(s, t, x)
  {
    if t.pending != s.pending {
      var y :| Healed(s1, t, y);
      assert Healed(s, t, y);
    }
  }

  // -- the effect queue ---------------------------------------------------------------------------

  function Stale(s: State): set<Id> { set x | x in s.nodes && s.nodes[x].Slot? && !Clean(s, x) }

  lemma StepsShrink(g: Plan, s0: State, t: State, x: Id)
    requires Steps(s0, t, x) && SameSources(s0, t) && Edges.NoDup(t.pending) && Edges.NoDup(s0.pending)
    ensures |Stale(t)| < |Stale(s0)| || (Stale(t) == Stale(s0) && |t.pending| <= |s0.pending|)
  {
    assert Stale(t) <= Stale(s0) by {
      forall y | y in Stale(t) ensures y in Stale(s0) {
        assert SameCore(s0.nodes[y], t.nodes[y]);
      }
    }
    if t.pending != s0.pending {
      var y :| Healed(s0, t, y);
      assert y in Stale(s0) && y !in Stale(t);
      StrictSubset(Stale(t), Stale(s0), y);
    } else if Stale(t) != Stale(s0) {
      var y :| y in Stale(s0) && y !in Stale(t);
      StrictSubset(Stale(t), Stale(s0), y);
    }
  }

  lemma StrictSubset(a: set<Id>, b: set<Id>, y: Id)
    requires a <= b && y in b && y !in a
    ensures |a| < |b|
  {
    assert a <= b - {y};
    SubsetSize(a, b - {y});
  }

  lemma SubsetSize(a: set<Id>, b: set<Id>)
    requires a <= b
    ensures |a| <= |b|
  {
    if a != {} {
      var x :| x in a;
      SubsetSize(a - {x}, b - {x});
    }
  }

  /** Popping the head makes it active. */
  lemma PopOk(g: Plan, s: State)
    requires Inv(g, s, {}, {}) && s.pending != []
    ensures var x := s.pending[0];
      var s0 := s.(pending := s.pending[1..]);
      && IsEffect(s, x) && x !in s0.pending && 0 !in s.nodes
      && Inv(g, s0, {x}, {x}) && (!OwedRun(s, x) ==> Inv(g, s0, {x}, {}))
      && Readable(g, s0, x, Deps(s0, x)) && Stale(s0) == Stale(s)
  {
    hide NodeOk, Consistent, Calm, Right, Known, EdgesOk, Readable;
    var x := s.pending[0];
    var s0 := s.(pending := s.pending[1..]);
    assert s.pending == [x] + s0.pending;
    assert forall y :: y in s.pending <==> y == x || y in s0.pending;
    assert SameEdges(s, s0) && SameSlots(s, s0);
    SameEdgesOk(g, s, s0);
    PopCalm(s, s0, x);
    PopRight(s, s0);
    PopKnown(g, s, s0, x);
  }

  lemma PopKnown(g: Plan, s: State, s0: State, x: Id)
    requires EdgesOk(g, s) && Known(s, {}) && s0 == s.(pending := s0.pending)
    ensures Readable(g, s0, x, Deps(s0, x)) && Known(s0, {}) && Known(s0, {x})
  {
    forall y, d | d in Deps(s0, y) ensures (IsCell(s0, d) || IsSlot(s0, d)) && Below(g, d, y) && Cached(s0, d).Some? {
      assert d in Deps(s, y) && y !in {} && Cached(s, d).Some?;
    }
  }

  lemma PopCalm(s: State, s0: State, x: Id)
    requires Calm(s, {}) && s0 == s.(pending := s0.pending) && forall y :: y in s.pending <==> y == x || y in s0.pending
    ensures Calm(s0, {x})
  {
    forall y, d | y !in {x} && Settled(s0, y) && d in Deps(s0, y) ensures Fresh(s0, d) {
      assert Settled(s, y) && d in Deps(s, y) && Fresh(s, d);
    }
  }

  lemma PopRight(s: State, s0: State)
    requires Right(s, {}, []) && s0 == s.(pending := s0.pending)
    ensures Right(s0, {}, []) && forall x :: Right(s0, {x}, [])
  {
    forall y | Due(s0, y) && Unbatched(s0, y) ensures Consistent(s0, y) {
      assert Due(s, y) && Unbatched(s, y);
      ConsistentStable(s, s0, y);
    }
  }

  lemma RunHeadOk(g: Plan, s: State)
    requires Inv(g, s, {}, {}) && s.pending != []
    ensures var t := RunHead(g, s);
      && Inv(g, t, {}, {}) && SameSources(s, t) && KeptClean(s, t)
      && (|Stale(t)| < |Stale(s)| || (Stale(t) == Stale(s) && |t.pending| < |s.pending|))
  {
    hide ShouldRun, Execute, Cached, Readable, NodeOk, EdgesOk, Coherent, ActiveOk;
    var x := s.pending[0];
    var s0 := s.(pending := s.pending[1..]);
    PopOk(g, s);
    PopKeeps(s, s0);
    var t := RunHead(g, s);
    RunHeadSteps(g, s0, x, t);
    StepsShrink(g, s0, t, x);
  }

  lemma PopKeeps(s: State, s0: State)
    requires s0 == s.(pending := s0.pending)
    ensures Stale(s0) == Stale(s) && forall y :: Clean(s0, y) == Clean(s, y) && Cached(s0, y) == Cached(s, y)
  {
  }

  lemma RunHeadSteps(g: Plan, s0: State, x: Id, t: State)
    requires Inv(g, s0, {x}, {x}) && (!OwedRun(s0, x) ==> Inv(g, s0, {x}, {})) && IsEffect(s0, x)
    requires 0 !in s0.nodes && x !in s0.pending && Readable(g, s0, x, Deps(s0, x))
    requires var (s1, go) := if OwedRun(s0, x) then (s0, true) else ShouldRun(g, s0, Deps(s0, x));
             t == if go then Execute(g, s1, x) else s1
    ensures Inv(g, t, {}, {}) && SameSources(s0, t) && Steps(s0, t, x)
  {
    hide ShouldRun, Execute, Readable, Frame, Inv, NodeOk, EdgesOk, Progress, AllFresh, Steps;
    if OwedRun(s0, x) {
      ExecuteOk(g, s0, x);
    } else {
      var ds := Deps(s0, x);
      ShouldRunOk(g, s0, x, ds);
      var (s1, go) := ShouldRun(g, s0, ds);
      FrameEffect(g, s0, s1, {x}, Rank(g, x), 0, x);
      FrameSteps(g, s0, s1, x);
      if go {
        ActivateEffect(g, s1, x);
        ExecuteOk(g, s1, x);
        StepsTrans(s0, s1, t, x);
      } else {
        Deactivate(g, s1, x, {});
      }
    }
  }

  lemma ActivateEffect(g: Plan, s: State, x: Id)
    requires Inv(g, s, {x}, {})
    ensures Inv(g, s, {x}, {x})
  {
  }

  lemma FrameSteps(g: Plan, s: State, t: State, x: Id)
    requires Frame(g, s, t, {x}, Rank(g, x), 0, 0) && Progress(s, t) && IsEffect(s, x)
    ensures Steps(s, t, x)
  {
    assert forall y :: Clean(s, y) ==> y !in {x};
  }

  lemma StepsTrans(s: State, t: State, u: State, x: Id)
    requires Steps(s, t, x) && Steps(t, u, x) && SameSources(s, t)
    ensures Steps(s, u, x)
  {
    if t.pending != s.pending {
      var y :| Healed(s, t, y);
      assert Healed(s, u, y);
    } else if u.pending != t.pending {
      var y :| Healed(t, u, y);
      assert SameCore(s.nodes[y], t.nodes[y]);
      assert Healed(s, u, y);
    }
  }
}
