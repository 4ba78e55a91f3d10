/** The marking walk and the effect queue: what they reach, and that they restore coherence. */
module ReactiveMarking {
  import Edges
  import opened ReactiveModel
  import opened ReactiveInvariant

  /** Equal but for raised flags. */
  ghost predicate SameButFlags(m: Node, n: Node) {
    match m
    case Cell(_, _) => n == m
    case Slot(p, c, dirty, force, ds, es) =>
      n.Slot? && n == Slot(p, c, n.dirty, n.force, ds, es) && (dirty ==> n.dirty) && (force ==> n.force)
      && ((force ==> dirty) ==> (n.force ==> n.dirty))
    case Effect(p, seen, force, ds) => n.Effect? && n == Effect(p, seen, n.forceRun, ds) && (force ==> n.forceRun)
  }

  ghost predicate FlagsOnly(s: State, t: State) {
    && t == s.(nodes := t.nodes, pending := t.pending)
    && t.nodes.Keys == s.nodes.Keys
    && s.pending <= t.pending
    && forall x :: x in s.nodes ==> SameButFlags(s.nodes[x], t.nodes[x])
  }

  predicate Listed(effects: seq<(Id, bool)>, x: Id) { (x, true) in effects || (x, false) in effects }

  predicate IsDirty(s: State, x: Id) { IsSlot(s, x) && s.nodes[x].dirty }

  /** `K` contains every dependent of its slots. */
  ghost predicate UpClosed(s: State, K: set<Id>) {
    forall x, y :: x in K && IsSlot(s, x) && y in Dependents(s, x) ==> y in K
  }

  /** What the walk did with one stack entry. */
  ghost predicate Reached(t: State, effects: seq<(Id, bool)>, x: Id, force: bool) {
    && (IsSlot(t, x) ==> t.nodes[x].dirty && (force ==> t.nodes[x].force))
    && (IsEffect(t, x) ==> (x, force) in effects)
  }

  /** A walk that raised flags and collected effects inside `K` alone. */
  ghost predicate Inside(s: State, t: State, effects: seq<(Id, bool)>, es: seq<(Id, bool)>, K: set<Id>) {
    && FlagsOnly(s, t) && t.pending == s.pending
    && (forall x :: x in s.nodes && x !in K ==> t.nodes[x] == s.nodes[x])
    && (forall x :: IsEffect(s, x) ==> t.nodes[x] == s.nodes[x])
    && (forall e :: e in es && e !in effects ==> e.0 in K && IsEffect(s, e.0))
  }

  lemma FlaggedInside(s: State, x: Id, force: bool, t: State, effects: seq<(Id, bool)>, es: seq<(Id, bool)>, K: set<Id>)
    requires IsSlot(s, x) && x in K && Inside(Put(s, x, Flagged(s.nodes[x], force)), t, effects, es, K)
    ensures Inside(s, t, effects, es, K)
  {
  }

  lemma FlaggedUpClosed(s: State, x: Id, force: bool, K: set<Id>)
    requires IsSlot(s, x) && x in K && UpClosed(s, K)
    ensures UpClosed(Put(s, x, Flagged(s.nodes[x], force)), K)
    ensures forall e :: e in Entries(s.nodes[x].dependents, false) ==> e.0 in K
  {
    forall e | e in Entries(s.nodes[x].dependents, false) ensures e.0 in K {
      assert e.0 in Dependents(s, x);
    }
  }

  lemma {:induction false} MarkStaysInside(s: State, stack: seq<(Id, bool)>, effects: seq<(Id, bool)>, K: set<Id>)
    requires UpClosed(s, K) && forall e :: e in stack ==> e.0 in K
    ensures var (t, es) := Mark(s, stack, effects); Inside(s, t, effects, es, K)
    decreases |Undirty(s)| + |Unforced(s)|, |stack|
  {
    if stack != [] {
      var (x, force) := stack[|stack| - 1];
      var rest := stack[..|stack| - 1];
      assert (x, force) in stack;
      if IsSlot(s, x) {
        var n := s.nodes[x];
        MarkProgress(s, x, force);
        FlaggedUpClosed(s, x, force, K);
        var stack1: seq<(Id, bool)> := if Propagates(n, force) then rest + Entries(n.dependents, false) else rest;
        var s1 := Put(s, x, Flagged(n, force));
        MarkStaysInside(s1, stack1, effects, K);
        var (t, es) := Mark(s1, stack1, effects);
        FlaggedInside(s, x, force, t, effects, es, K);
      } else if IsEffect(s, x) {
        MarkStaysInside(s, rest, effects + [(x, force)], K);
      } else {
        MarkStaysInside(s, rest, effects, K);
      }
    }
  }

  /** Flags are only raised, nodes keep their kind, and collected effects stay collected. */
  ghost predicate OnlyRaised(s: State, t: State, effects: seq<(Id, bool)>, es: seq<(Id, bool)>) {
    && (forall x :: IsDirty(s, x) ==> IsDirty(t, x))
    && (forall x :: IsSlot(s, x) && s.nodes[x].force ==> IsSlot(t, x) && t.nodes[x].force)
    && (forall x :: (IsSlot(t, x) ==> IsSlot(s, x)) && (IsEffect(t, x) ==> IsEffect(s, x)))
    && (forall e :: e in effects ==> e in es)
  }

  /** The readers of all that a walk newly dirtied were reached. */
  ghost predicate ReadersReached(s: State, t: State, es: seq<(Id, bool)>) {
    forall x, y :: IsDirty(t, x) && !IsDirty(s, x) && y in Dependents(s, x) ==> Reached(t, es, y, false)
  }

  ghost predicate AllReached(t: State, es: seq<(Id, bool)>, stack: seq<(Id, bool)>) { forall e :: e in stack ==> Reached(t, es, e.0, e.1) }

  lemma {:induction false} MarkReaches(s: State, stack: seq<(Id, bool)>, effects: seq<(Id, bool)>)
    ensures var (t, es) := Mark(s, stack, effects);
      OnlyRaised(s, t, effects, es) && AllReached(t, es, stack) && ReadersReached(s, t, es)
    decreases |Undirty(s)| + |Unforced(s)|, |stack|
  {
    hide OnlyRaised, ReadersReached, AllReached, Flagged, Propagates;
    if stack == [] {
      NothingReached(s, effects);
    } else {
      var (x, force) := stack[|stack| - 1];
      var rest := stack[..|stack| - 1];
      assert stack == rest + [(x, force)];
      if IsSlot(s, x) {
        var n := s.nodes[x];
        MarkProgress(s, x, force);
        var stack1: seq<(Id, bool)> := if Propagates(n, force) then rest + Entries(n.dependents, false) else rest;
        var s1 := Put(s, x, Flagged(n, force));
        MarkReaches(s1, stack1, effects);
        var (t, es) := Mark(s1, stack1, effects);
        SlotReached(s, x, force, rest, t, effects, es);
      } else if IsEffect(s, x) {
        MarkReaches(s, rest, effects + [(x, force)]);
        var (t, es) := Mark(s, rest, effects + [(x, force)]);
        EffectReached(s, x, force, rest, t, effects, es);
      } else {
        MarkReaches(s, rest, effects);
        var (t, es) := Mark(s, rest, effects);
        OtherReached(s, x, force, rest, t, effects, es);
      }
    }
  }

  lemma NothingReached(s: State, effects: seq<(Id, bool)>)
    ensures OnlyRaised(s, s, effects, effects) && AllReached(s, effects, []) && ReadersReached(s, s, effects)
  {
  }

  lemma SlotReached(s: State, x: Id, force: bool, rest: seq<(Id, bool)>, t: State, effects: seq<(Id, bool)>, es: seq<(Id, bool)>)
    requires IsSlot(s, x)
    requires var s1, more := Put(s, x, Flagged(s.nodes[x], force)), Entries(s.nodes[x].dependents, false);
      && OnlyRaised(s1, t, effects, es) && ReadersReached(s1, t, es)
      && AllReached(t, es, if Propagates(s.nodes[x], force) then rest + more else rest)
    ensures OnlyRaised(s, t, effects, es) && AllReached(t, es, rest + [(x, force)]) && ReadersReached(s, t, es)
  {
    hide Reached;
    var s1, more := Put(s, x, Flagged(s.nodes[x], force)), Entries(s.nodes[x].dependents, false);
    var stack1 := if Propagates(s.nodes[x], force) then rest + more else rest;
    FlagsReached(s1, t, effects, es, x, force);
    forall e | e in rest + [(x, force)] ensures Reached(t, es, e.0, e.1) {
      assert e in rest ==> e in stack1;
    }
    forall y, z | IsDirty(t, y) && !IsDirty(s, y) && z in Dependents(s, y) ensures Reached(t, es, z, false) {
      if y == x {
        var i :| 0 <= i < |s.nodes[x].dependents| && s.nodes[x].dependents[i] == z;
        assert more[i] == (z, false) && (z, false) in stack1;
      } else {
        assert z in Dependents(s1, y) && !IsDirty(s1, y);
      }
    }
  }

  /** A slot flagged before the walk went on still is. */
  lemma FlagsReached(s1: State, t: State, effects: seq<(Id, bool)>, es: seq<(Id, bool)>, x: Id, force: bool)
    requires OnlyRaised(s1, t, effects, es) && IsDirty(s1, x) && (force ==> s1.nodes[x].force)
    ensures Reached(t, es, x, force)
  {
  }

  lemma EffectReached(s: State, x: Id, force: bool, rest: seq<(Id, bool)>, t: State, effects: seq<(Id, bool)>, es: seq<(Id, bool)>)
    requires IsEffect(s, x)
    requires OnlyRaised(s, t, effects + [(x, force)], es) && ReadersReached(s, t, es) && AllReached(t, es, rest)
    ensures OnlyRaised(s, t, effects, es) && AllReached(t, es, rest + [(x, force)]) && ReadersReached(s, t, es)
  {
    hide ReadersReached;
    assert (x, force) in effects + [(x, force)];
    assert IsSlot(t, x) ==> IsSlot(s, x);
  }

  lemma OtherReached(s: State, x: Id, force: bool, rest: seq<(Id, bool)>, t: State, effects: seq<(Id, bool)>, es: seq<(Id, bool)>)
    requires !IsEffect(s, x) && !IsSlot(s, x)
    requires OnlyRaised(s, t, effects, es) && ReadersReached(s, t, es) && AllReached(t, es, rest)
    ensures AllReached(t, es, rest + [(x, force)])
  {
    hide ReadersReached;
    assert (IsSlot(t, x) ==> IsSlot(s, x)) && (IsEffect(t, x) ==> IsEffect(s, x));
  }

  lemma {:induction false} ScheduleOk(s: State, effects: seq<(Id, bool)>)
    requires forall e :: e in effects ==> IsEffect(s, e.0)
    requires Edges.NoDup(s.pending)
    ensures var t := Schedule(s, effects);
      && FlagsOnly(s, t)
      && Edges.NoDup(t.pending)
      && (forall x :: x in t.pending <==> x in s.pending || Listed(effects, x))
      && (forall x :: x in s.nodes && !s.nodes[x].Effect? ==> t.nodes[x] == s.nodes[x])
      && (forall x :: IsEffect(s, x) ==>
            (t.nodes[x].forceRun <==> s.nodes[x].forceRun || (x, true) in effects))
    decreases |effects|
  {
    if effects != [] {
      var s1 := ScheduleOne(s, effects[0].0, effects[0].1);
      Edges.InsertIsUnion(s.pending, effects[0].0);
      ScheduleOk(s1, effects[1..]);
      var t := Schedule(s, effects);
      assert effects == [effects[0]] + effects[1..];
      assert effects[0] == (effects[0].0, effects[0].1);
    }
  }

  /** A node that a mark has reached. */
  ghost predicate Hit(t: State, x: Id) {
    (IsSlot(t, x) ==> t.nodes[x].dirty) && (IsEffect(t, x) ==> x in t.pending)
  }

  /** Where marks and queue entries may land. */
  ghost predicate Within(s: State, t: State, K: set<Id>) {
    && (forall x :: x in s.nodes && x !in K ==> x in t.nodes && t.nodes[x] == s.nodes[x])
    && (forall x :: x in t.pending && x !in s.pending ==> x in K && IsEffect(s, x))
  }

  /** Where marks and queue entries must land. */
  ghost predicate Spread(s: State, t: State, roots: seq<Id>) {
    && (forall x :: x in roots ==> Hit(t, x) && !Due(t, x))
    && (forall x, y :: IsDirty(t, x) && !IsDirty(s, x) && y in Dependents(s, x) ==> Hit(t, y))
    && (forall x :: OwedRun(t, x) ==> OwedRun(s, x) || x in t.pending)
  }

  lemma MarksStayWithin(s: State, roots: seq<Id>, K: set<Id>)
    requires Edges.NoDup(s.pending) && UpClosed(s, K) && forall x :: x in roots ==> x in K
    ensures var t := MarkAndSchedule(s, roots);
            FlagsOnly(s, t) && Edges.NoDup(t.pending) && Within(s, t, K)
  {
    var stack := Entries(roots, true);
    forall e | e in stack ensures e.0 in K { }
    MarkStaysInside(s, stack, [], K);
    var (s1, es) := Mark(s, stack, []);
    ScheduleOk(s1, es);
    var t := Schedule(s1, es);
    forall x | x in t.pending && x !in s.pending ensures x in K && IsEffect(s, x) {
      assert Listed(es, x);
    }
  }

  /** What a marking walk over the roots reached, before its effects are scheduled. */
  ghost predicate WalkReached(s: State, s1: State, es: seq<(Id, bool)>, roots: seq<Id>) {
    && (forall x :: x in roots ==> Reached(s1, es, x, true))
    && (forall x, y :: IsDirty(s1, x) && !IsDirty(s, x) && y in Dependents(s, x) ==> Reached(s1, es, y, false))
    && (forall x :: IsSlot(s, x) && s.nodes[x].force ==> IsSlot(s1, x) && s1.nodes[x].force)
  }

  lemma RootsReached(s: State, roots: seq<Id>)
    ensures var (s1, es) := Mark(s, Entries(roots, true), []); WalkReached(s, s1, es, roots)
  {
    hide Mark, Reached;
    var stack := Entries(roots, true);
    MarkReaches(s, stack, []);
    var (s1, es) := Mark(s, stack, []);
    forall x | x in roots ensures Reached(s1, es, x, true) {
      var i :| 0 <= i < |roots| && roots[i] == x;
      assert stack[i] == (x, true);
    }
  }

  lemma ScheduledSpread(s: State, s1: State, es: seq<(Id, bool)>, roots: seq<Id>)
    requires WalkReached(s, s1, es, roots) && FlagsOnly(s, s1) && s1.pending == s.pending && Edges.NoDup(s1.pending)
    requires (forall e :: e in es ==> IsEffect(s1, e.0)) && forall x :: IsEffect(s, x) ==> s1.nodes[x] == s.nodes[x]
    ensures Spread(s, Schedule(s1, es), roots)
  {
    ScheduleOk(s1, es);
    var t := Schedule(s1, es);
    forall x | x in roots ensures Hit(t, x) && !Due(t, x) {
      assert Reached(s1, es, x, true);
    }
    forall x, y | IsDirty(t, x) && !IsDirty(s, x) && y in Dependents(s, x) ensures Hit(t, y) {
      assert IsDirty(s1, x);
      assert Reached(s1, es, y, false);
    }
  }

  lemma MarksSpread(s: State, roots: seq<Id>, K: set<Id>)
    requires Edges.NoDup(s.pending) && UpClosed(s, K) && forall x :: x in roots ==> x in K
    ensures Spread(s, MarkAndSchedule(s, roots), roots)
  {
    hide Mark, Schedule, WalkReached, Spread;
    var stack := Entries(roots, true);
    forall e | e in stack ensures e.0 in K { }
    MarkStaysInside(s, stack, [], K);
    RootsReached(s, roots);
    var (s1, es) := Mark(s, stack, []);
    ScheduledSpread(s, s1, es, roots);
  }

  ghost predicate SameEdges(s: State, t: State) {
    forall x :: Deps(t, x) == Deps(s, x) && Dependents(t, x) == Dependents(s, x)
  }

  lemma FlagsKeepEdges(s: State, t: State)
    requires FlagsOnly(s, t)
    ensures SameEdges(s, t)
    ensures forall x :: Cached(t, x) == Cached(s, x)
  {
  }

  lemma SameEdgesOk(g: Plan, s: State, t: State)
    requires EdgesOk(g, s) && SameEdges(s, t) && t.nodes.Keys == s.nodes.Keys
    requires forall x :: IsEffect(t, x) <==> IsEffect(s, x)
    ensures EdgesOk(g, t)
  {
    assert ReadsOk(g, t) by {
      forall x, d | d in Deps(t, x)
        ensures d in t.nodes && !t.nodes[d].Effect? && Below(g, d, x) && x in Dependents(t, d)
      {
        assert d in Deps(s, x);
        assert IsEffect(t, d) <==> IsEffect(s, d);
      }
    }
  }

  lemma FlagsKeepShape(g: Plan, s: State, t: State)
    requires Shape(g, s) && FlagsOnly(s, t) && Edges.NoDup(t.pending)
    requires forall x :: x in t.pending && x !in s.pending ==> IsEffect(s, x)
    ensures Shape(g, t)
    ensures SameEdges(s, t) && forall x :: Cached(t, x) == Cached(s, x)
  {
    FlagsKeepEdges(s, t);
    SameEdgesOk(g, s, t);
  }

  // -- replay ------------------------------------------------------------------------------

  lemma {:induction false} ReplayKeeps(s: State, p: Prog, acc: seq<Id>)
    requires Replay(s, p, acc).Some?
    ensures forall d :: d in acc ==> d in Replay(s, p, acc).value.1
    decreases p
  {
    match p
    case Ret(_) =>
    case Read(d, next) =>
      ReplayKeeps(s, next[Cached(s, d).value], Edges.Insert(acc, d));
  }

  /** A replay depends only on the stored values of what it reads. */
  lemma {:induction false} ReplayStable(s: State, t: State, p: Prog, acc: seq<Id>)
    requires Replay(s, p, acc).Some?
    requires forall d :: d in Replay(s, p, acc).value.1 ==> Cached(t, d) == Cached(s, d)
    ensures Replay(t, p, acc) == Replay(s, p, acc)
    decreases p
  {
    match p
    case Ret(_) =>
    case Read(d, next) =>
      ReplayKeeps(s, next[Cached(s, d).value], Edges.Insert(acc, d));
      ReplayStable(s, t, next[Cached(s, d).value], Edges.Insert(acc, d));
  }

  lemma ConsistentStable(s: State, t: State, x: Id)
    requires x in s.nodes && x in t.nodes && !s.nodes[x].Cell? && Consistent(s, x)
    requires SameCore(s.nodes[x], t.nodes[x]) && SameResult(s.nodes[x], t.nodes[x]) && Deps(t, x) == Deps(s, x)
    requires forall d :: d in Deps(s, x) ==> Cached(t, d) == Cached(s, d)
    ensures Consistent(t, x)
  {
    var n := s.nodes[x];
    ReplayStable(s, t, if n.Slot? then n.compute else n.run, []);
  }

  // -- marking restores coherence --------------------------------------------------------------

  lemma MarkingRestores(g: Plan, s: State, roots: seq<Id>, A: set<Id>, B: set<Id>, K: set<Id>)
    requires Exact(g) && Shape(g, s) && ActiveOk(s, A, B) && Coherent(s, A, B, roots)
    requires UpClosed(s, K) && forall x :: x in roots ==> x in K
    ensures var t := MarkAndSchedule(s, roots);
            FlagsOnly(s, t) && Within(s, t, K) && Spread(s, t, roots) && Inv(g, t, A, B)
  {
    hide NodeOk, EdgesOk, MarkAndSchedule, Calm, Known, Right, Queued, FlagsOnly, SameEdges, ActiveOk, Spread, UpClosed;
    var t := MarkAndSchedule(s, roots);
    MarksStayWithin(s, roots, K);
    MarksSpread(s, roots, K);
    FlagsKeepShape(g, s, t);
    MarkedCalm(g, s, t, A, roots);
    MarkedRight(s, t, B, roots);
    MarkedRest(s, t, A, B, roots);
  }

  lemma MarkedRight(s: State, t: State, B: set<Id>, roots: seq<Id>)
    requires Right(s, B, roots) && FlagsOnly(s, t) && Spread(s, t, roots) && SameEdges(s, t)
    requires forall x :: Cached(t, x) == Cached(s, x)
    ensures Right(t, B, [])
  {
    hide Consistent;
    forall x | x !in B && x !in [] && Due(t, x) && Unbatched(t, x) ensures Consistent(t, x) {
      assert x !in roots;
      assert Due(s, x) && Unbatched(s, x);
      ConsistentStable(s, t, x);
    }
  }

  lemma MarkedRest(s: State, t: State, A: set<Id>, B: set<Id>, roots: seq<Id>)
    requires FlagsOnly(s, t) && Spread(s, t, roots) && SameEdges(s, t) && ActiveOk(s, A, B) && Known(s, B) && Queued(s, B)
    requires forall x :: Cached(t, x) == Cached(s, x)
    ensures ActiveOk(t, A, B) && Known(t, B) && Queued(t, B)
  {
    forall x | x !in B && IsEffect(t, x) ensures t.nodes[x].forceRun ==> x in t.pending {
      assert IsEffect(s, x);
      assert t.nodes[x].forceRun ==> OwedRun(t, x);
    }
  }

  lemma MarkedCalm(g: Plan, s: State, t: State, A: set<Id>, roots: seq<Id>)
    requires EdgesOk(g, s) && Calm(s, A) && FlagsOnly(s, t) && Spread(s, t, roots) && SameEdges(s, t)
    ensures Calm(t, A)
  {
    hide NoDups, Below;
    forall x, d | x !in A && Settled(t, x) && d in Deps(t, x) ensures Fresh(t, d) {
      assert Settled(s, x) && d in Deps(s, x);
      assert Fresh(s, d) && x in Dependents(s, d);
      assert !Hit(t, x);
      assert !(IsDirty(t, d) && !IsDirty(s, d));
    }
  }

  /** The cone of what is not settled: marks that start inside it never leave it. */
  function Unsettled(s: State, A: set<Id>): set<Id> {
    set x | x in s.nodes && (x in A || (!s.nodes[x].Cell? && !Settled(s, x)))
  }

  lemma UnsettledIsUpClosed(g: Plan, s: State, A: set<Id>)
    requires Shape(g, s)
    requires forall a :: a in A ==> !Clean(s, a)
    requires Calm(s, A)
    ensures UpClosed(s, Unsettled(s, A))
  {
    forall x, y | x in Unsettled(s, A) && IsSlot(s, x) && y in Dependents(s, x)
      ensures y in Unsettled(s, A)
    {
      assert x in Deps(s, y);
      assert !Fresh(s, x);
    }
  }
}
