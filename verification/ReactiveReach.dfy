/** A refresh changes stored values only where the plan lets its slot reach. */
module ReactiveReach {
  import opened Basics
  import Edges
  import opened ReactiveModel
  import opened ReactiveInvariant

  /** Stored values are the same outside `K`. */
  ghost predicate Touches(s: State, t: State, K: set<Id>) { forall e :: e !in K ==> Cached(t, e) == Cached(s, e) }

  /** Recorded reads and the computes of slots keep to the plan. */
  ghost predicate Obeys(g: Plan, s: State) {
    (forall x :: IsSlot(s, x) ==> Reads(g, x, s.nodes[x].compute)) && forall x, d :: d in Deps(s, x) ==> Below(g, d, x)
  }

  /** The same node with the same compute and stored value. */
  predicate SameStore(m: Node, n: Node) {
    match m
    case Cell(v, _) => n.Cell? && n.value == v
    case Slot(p, v, _, _, _, _) => n.Slot? && n.compute == p && n.cached == v
    case Effect(p, _, _, _) => n.Effect? && n.run == p
  }

  /** Nothing but flags, edges and bookkeeping changed, and no read was recorded. */
  ghost predicate Mild(s: State, t: State) {
    && t.nodes.Keys == s.nodes.Keys
    && (forall x :: x in s.nodes ==> SameStore(s.nodes[x], t.nodes[x]))
    && (forall x, d :: d in Deps(t, x) ==> d in Deps(s, x))
  }

  lemma MildOk(g: Plan, s: State, t: State, K: set<Id>)
    requires Mild(s, t) && Obeys(g, s)
    ensures Obeys(g, t) && Touches(s, t, K)
  {
    hide Reads, Below;
    forall x | IsSlot(t, x) ensures Reads(g, x, t.nodes[x].compute) {
      assert x in s.nodes.Keys && SameStore(s.nodes[x], t.nodes[x]);
    }
    forall e ensures Cached(t, e) == Cached(s, e) {
      assert e in s.nodes.Keys <==> e in t.nodes.Keys;
      assert e in s.nodes ==> SameStore(s.nodes[e], t.nodes[e]);
    }
  }

  lemma MildTrans(s: State, t: State, u: State)
    requires Mild(s, t) && Mild(t, u)
    ensures Mild(s, u)
  {
    forall x | x in s.nodes ensures SameStore(s.nodes[x], u.nodes[x]) {
      assert x in t.nodes.Keys && SameStore(s.nodes[x], t.nodes[x]) && SameStore(t.nodes[x], u.nodes[x]);
    }
  }

  /** One node changed mildly. */
  lemma MildPut(s: State, x: Id, n: Node)
    requires x in s.nodes && SameStore(s.nodes[x], n)
    requires !n.Cell? && !s.nodes[x].Cell? ==> forall d :: d in n.deps ==> d in s.nodes[x].deps
    ensures Mild(s, Put(s, x, n))
  {
    var t := Put(s, x, n);
    forall y, d | d in Deps(t, y) ensures d in Deps(s, y) {
      assert y != x ==> Deps(t, y) == Deps(s, y);
    }
  }

  lemma {:induction false} MarkMild(s: State, stack: seq<(Id, bool)>, effects: seq<(Id, bool)>)
    ensures Mild(s, Mark(s, stack, effects).0)
    decreases |Undirty(s)| + |Unforced(s)|, |stack|
  {
    hide Mild;
    if stack == [] {
      MildRefl(s);
    } else {
      var (x, force) := stack[|stack| - 1];
      var rest := stack[..|stack| - 1];
      if IsSlot(s, x) {
        var n := s.nodes[x];
        MarkProgress(s, x, force);
        MildPut(s, x, Flagged(n, force));
        var t := Put(s, x, Flagged(n, force));
        var more := if Propagates(n, force) then rest + Entries(n.dependents, false) else rest;
        MarkMild(t, more, effects);
        MildTrans(s, t, Mark(t, more, effects).0);
      } else if IsEffect(s, x) {
        MarkMild(s, rest, effects + [(x, force)]);
      } else {
        MarkMild(s, rest, effects);
      }
    }
  }

  lemma MildRefl(s: State)
    ensures Mild(s, s)
  {
  }

  lemma {:induction false} ScheduleMild(s: State, effects: seq<(Id, bool)>)
    ensures Mild(s, Schedule(s, effects))
    decreases |effects|
  {
    hide Mild;
    if effects == [] {
      MildRefl(s);
    } else {
      var t := ScheduleOne(s, effects[0].0, effects[0].1);
      ScheduleOneMild(s, effects[0].0, effects[0].1);
      ScheduleMild(t, effects[1..]);
      MildTrans(s, t, Schedule(t, effects[1..]));
    }
  }

  lemma ScheduleOneMild(s: State, x: Id, force: bool)
    ensures Mild(s, ScheduleOne(s, x, force))
  {
  }

  lemma {:induction false} DropMild(s: State, ds: seq<Id>, x: Id)
    ensures Mild(s, DropDependents(s, ds, x))
    decreases |ds|
  {
    hide Mild;
    if ds == [] {
      MildRefl(s);
    } else if ds[0] in s.nodes {
      var t := Put(s, ds[0], DropDependent(s.nodes[ds[0]], x));
      MildPut(s, ds[0], DropDependent(s.nodes[ds[0]], x));
      DropMild(t, ds[1..], x);
      MildTrans(s, t, DropDependents(t, ds[1..], x));
    } else {
      DropMild(s, ds[1..], x);
    }
  }

  lemma ClearMild(s: State, x: Id)
    requires x in s.nodes && !s.nodes[x].Cell?
    ensures Mild(s, ClearDeps(s, x))
  {
    hide Mild, DropDependents;
    var s1 := DropDependents(s, s.nodes[x].deps, x);
    DropMild(s, s.nodes[x].deps, x);
    if x in s1.nodes && !s1.nodes[x].Cell? {
      MildPut(s1, x, s1.nodes[x].(deps := []));
      MildTrans(s, s1, ClearDeps(s, x));
    }
  }

  lemma AddDepObeys(g: Plan, s: State, d: Id, x: Id)
    requires Obeys(g, s) && x in s.nodes && Below(g, d, x)
    ensures var t := Put(s, x, AddDep(s.nodes[x], d)); Obeys(g, t) && Touches(s, t, {}) && t.nodes.Keys == s.nodes.Keys
  {
    hide Reads, Below;
    var t := Put(s, x, AddDep(s.nodes[x], d));
    forall y, e | e in Deps(t, y) ensures Below(g, e, y) {
      if y == x {
        assert e in Edges.Insert(Deps(s, x), d) && (e in Deps(s, x) || e == d);
      } else {
        assert Deps(t, y) == Deps(s, y);
      }
    }
    forall y | IsSlot(t, y) ensures Reads(g, y, t.nodes[y].compute) {
      assert IsSlot(s, y) && t.nodes[y].compute == s.nodes[y].compute;
    }
  }

  /** A read the plan allows is recorded. */
  lemma RegisterObeys(g: Plan, s: State, d: Id, x: Id)
    requires Obeys(g, s) && d in s.nodes && x in s.nodes && Below(g, d, x)
    ensures var t := Register(s, d, x); Obeys(g, t) && Touches(s, t, {}) && t.nodes.Keys == s.nodes.Keys
  {
    hide Obeys, Below;
    var s1 := Put(s, d, AddDependent(s.nodes[d], x));
    MildPut(s, d, AddDependent(s.nodes[d], x));
    MildOk(g, s, s1, {});
    AddDepObeys(g, s1, d, x);
  }

  lemma TouchesTrans(s: State, t: State, u: State, J: set<Id>, K: set<Id>)
    requires Touches(s, t, J) && Touches(t, u, K)
    ensures Touches(s, u, J + K)
  {
    hide Cached;
  }

  lemma TouchesWiden(s: State, t: State, J: set<Id>, K: set<Id>)
    requires Touches(s, t, J) && J <= K
    ensures Touches(s, t, K)
  {
    hide Cached;
  }

  // -- the recursion -------------------------------------------------------------------------------------------

  /** A refresh stores values only at its slot and at what the plan puts under it. */
  lemma {:induction false} RefreshTouches(g: Plan, s: State, x: Id)
    requires Obeys(g, s)
    ensures var t := Refresh(g, s, x).0; Obeys(g, t) && Touches(s, t, Under(g, x) + {x})
    decreases Rank(g, x), 2, 0
  {
    hide Obeys, Touches, Mild, RefreshDeps, Recompute;
    MildRefl(s);
    MildOk(g, s, s, Under(g, x) + {x});
    if IsSlot(s, x) && !Clean(s, x) {
      var n := s.nodes[x];
      DepsObey(g, s, x);
      RefreshDepsTouches(g, s, x, n.deps);
      var (s1, changed) := RefreshDeps(g, s, x, n.deps);
      if n.cached.Some? && !n.force && !changed {
        ClearFlagsMild(s1, x);
        MildOk(g, s1, ClearFlags(s1, x), {x});
        TouchesTrans(s, s1, ClearFlags(s1, x), Under(g, x), {x});
      } else {
        RecomputeTouches(g, s1, x);
        var t := Recompute(g, s1, x).0;
        TouchesTrans(s, s1, t, Under(g, x), Under(g, x) + {x});
        TouchesWiden(s, t, Under(g, x) + (Under(g, x) + {x}), Under(g, x) + {x});
      }
    }
  }

  lemma DepsObey(g: Plan, s: State, x: Id)
    requires Obeys(g, s) && IsSlot(s, x)
    ensures Reads(g, x, s.nodes[x].compute) && forall d :: d in s.nodes[x].deps ==> Below(g, d, x)
  {
    hide Reads, Below;
    assert s.nodes[x].deps == Deps(s, x);
  }

  lemma ClearFlagsMild(s: State, x: Id)
    ensures Mild(s, ClearFlags(s, x))
  {
    hide Mild;
    MildRefl(s);
    if IsSlot(s, x) {
      MildPut(s, x, s.nodes[x].(dirty := false, force := false));
    }
  }

  lemma {:induction false} RefreshDepsTouches(g: Plan, s: State, x: Id, ds: seq<Id>)
    requires Obeys(g, s) && forall d :: d in ds ==> Below(g, d, x)
    ensures var t := RefreshDeps(g, s, x, ds).0; Obeys(g, t) && Touches(s, t, Under(g, x))
    decreases Rank(g, x), 1, |ds|
  {
    hide Obeys, Touches, Mild, Refresh;
    if ds == [] {
      MildRefl(s);
      MildOk(g, s, s, Under(g, x));
    } else {
      var d, rest := ds[0], ds[1..];
      assert ds == [d] + rest && d in ds;
      RefreshTouches(g, s, d);
      var s1 := Refresh(g, s, d).0;
      RefreshDepsTouches(g, s1, x, rest);
      var t := RefreshDeps(g, s1, x, rest).0;
      TouchesTrans(s, s1, t, Under(g, d) + {d}, Under(g, x));
      TouchesWiden(s, t, Under(g, d) + {d} + Under(g, x), Under(g, x));
    }
  }

  lemma {:induction false} RecomputeTouches(g: Plan, s: State, x: Id)
    requires Obeys(g, s)
    ensures var t := Recompute(g, s, x).0; Obeys(g, t) && Touches(s, t, Under(g, x) + {x})
    decreases Rank(g, x), 1, 0
  {
    hide Obeys, Touches, Mild, RunProg, Publish, ClearDeps;
    MildRefl(s);
    MildOk(g, s, s, Under(g, x) + {x});
    if IsSlot(s, x) {
      var s0 := ClearDeps(s, x);
      ClearMild(s, x);
      MildOk(g, s, s0, {});
      DepsObey(g, s, x);
      RunProgTouches(g, s0, x, s.nodes[x].compute);
      var (s1, r) := RunProg(g, s0, x, s.nodes[x].compute);
      TouchesTrans(s, s0, s1, {}, Under(g, x));
      TouchesWiden(s, s1, {} + Under(g, x), Under(g, x) + {x});
      if r.Some? && IsSlot(s1, x) {
        PublishTouches(g, s1, x, r.value);
        TouchesTrans(s, s1, Publish(g, s1, x, r.value).0, Under(g, x) + {x}, {x});
        TouchesWiden(s, Publish(g, s1, x, r.value).0, Under(g, x) + {x} + {x}, Under(g, x) + {x});
      }
    }
  }

  lemma PublishTouches(g: Plan, s: State, x: Id, v: Value)
    requires Obeys(g, s) && IsSlot(s, x)
    ensures var t := Publish(g, s, x, v).0; Obeys(g, t) && Touches(s, t, {x})
  {
    hide Mild, Mark, Schedule;
    if s.nodes[x].cached.Some? && g.same(s.nodes[x].cached.value, v) {
      ClearFlagsMild(s, x);
      MildOk(g, s, ClearFlags(s, x), {x});
    } else {
      var s1 := Put(s, x, s.nodes[x].(cached := Some(v), dirty := false, force := false));
      StoredObeys(g, s, x, v);
      var roots := Dependents(s1, x);
      var (s2, effects) := Mark(s1, Entries(roots, true), []);
      MarkMild(s1, Entries(roots, true), []);
      MildOk(g, s1, s2, {});
      ScheduleMild(s2, effects);
      MildOk(g, s2, Schedule(s2, effects), {});
    }
  }

  lemma StoredObeys(g: Plan, s: State, x: Id, v: Value)
    requires Obeys(g, s) && IsSlot(s, x)
    ensures var t := Put(s, x, s.nodes[x].(cached := Some(v), dirty := false, force := false)); Obeys(g, t) && Touches(s, t, {x})
  {
    hide Reads, Below;
    var t := Put(s, x, s.nodes[x].(cached := Some(v), dirty := false, force := false));
    assert forall y :: Deps(t, y) == Deps(s, y);
    forall y | IsSlot(t, y) ensures Reads(g, y, t.nodes[y].compute) {
      assert IsSlot(s, y) && t.nodes[y].compute == s.nodes[y].compute;
    }
  }

  lemma {:induction false} RunProgTouches(g: Plan, s: State, x: Id, p: Prog)
    requires Obeys(g, s) && Reads(g, x, p)
    ensures var t := RunProg(g, s, x, p).0; Obeys(g, t) && Touches(s, t, Under(g, x))
    decreases Rank(g, x), 0, p
  {
    hide Obeys, Touches, Mild, Refresh, Register;
    MildRefl(s);
    MildOk(g, s, s, Under(g, x));
    if p.Read? && p.id in s.nodes && x in s.nodes {
      var d := p.id;
      var s1 := Register(s, d, x);
      RegisterObeys(g, s, d, x);
      RefreshTouches(g, s1, d);
      var s2 := Refresh(g, s1, d).0;
      TouchesTrans(s, s1, s2, {}, Under(g, d) + {d});
      TouchesWiden(s, s2, {} + (Under(g, d) + {d}), Under(g, x));
      var v := Cached(s2, d);
      if v.Some? && v.value in p.next {
        RunProgTouches(g, s2, x, p.next[v.value]);
        var t := RunProg(g, s2, x, p.next[v.value]).0;
        TouchesTrans(s, s2, t, Under(g, x), Under(g, x));
        TouchesWiden(s, t, Under(g, x) + Under(g, x), Under(g, x));
      }
    }
  }

  /** The kernel's invariant keeps to the plan. */
  lemma ShapeObeys(g: Plan, s: State)
    requires Shape(g, s)
    ensures Obeys(g, s)
  {
    hide Reads, Below, NearFirst;
    forall x | IsSlot(s, x) ensures Reads(g, x, s.nodes[x].compute) {
      assert NodeOk(g, x, s.nodes[x]);
    }
  }
}
