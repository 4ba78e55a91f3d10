/**
 Why the cut-off must not take one value for another: a recompute whose new value is taken for the
 stored one is not stored, and a reader that would tell the two apart keeps a stale value.
 */
module ReactiveCutoff {
  import opened Basics
  import Diamond = ReactiveDiamond
  import Edges
  import opened ReactiveModel
  import opened ReactiveInvariant
  import opened ReactiveOps

  /** Source 1; slot 2 reads it; slot 3 reads 2. */
  function Layout(same: (Value, Value) -> bool): Plan {
    Plan((x: Id) => if x == 1 then Role(CellKind, 0, {}) else Role(SlotKind, x, if x == 2 then {1} else {1, 2}), same)
  }

  /** Reads `d`: one result if it is `a`, another if it is anything else. */
  ghost function Pick(d: Id, a: Value, yes: Value, no: Value): Prog {
    Read(d, imap v: Value {:trigger Ret(v)} :: Ret(if v == a then yes else no))
  }

  ghost function Chain(source: Value, readers: seq<Id>, two: Node, three: Node): State {
    State(map[1 := Cell(source, readers), 2 := two, 3 := three], [], [], 0, 4)
  }

  /** While the source is `w`, slot 2 gives `p` and slot 3 gives `w`; with anything else there, `q` and `v`. */
  ghost function Two(w: Value, p: Value, q: Value, cached: Option<Value>, up: bool, ds: seq<Id>, es: seq<Id>): Node {
    Slot(Pick(1, w, p, q), cached, up, up, ds, es)
  }
  ghost function Three(w: Value, v: Value, p: Value, cached: Option<Value>, dirty: bool, ds: seq<Id>): Node {
    Slot(Pick(2, p, w, v), cached, dirty, false, ds, [])
  }

  ghost function Created(w: Value, v: Value, p: Value, q: Value): State {
    NewComputed(NewComputed(NewSource(EMPTY, w), Pick(1, w, p, q)), Pick(2, p, w, v))
  }

  ghost function Built(w: Value, v: Value, p: Value, q: Value): State {
    Chain(w, [2], Two(w, p, q, Some(p), false, [1], [3]), Three(w, v, p, Some(w), false, [2]))
  }

  ghost function Moved(w: Value, v: Value, p: Value, q: Value): State {
    Chain(v, [2], Two(w, p, q, Some(p), true, [1], [3]), Three(w, v, p, Some(w), true, [2]))
  }

  /** A slot that has not run runs its compute and stores the value. */
  lemma FirstRefresh(g: Plan, s: State, x: Id, s1: State, v: Value)
    requires IsSlot(s, x) && s.nodes[x].cached.None? && s.nodes[x].deps == [] && IsSlot(s1, x) && s1.nodes[x].cached.None?
    requires RunProg(g, s, x, s.nodes[x].compute) == (s1, Some(v))
    ensures Refresh(g, s, x).0 == Put(s1, x, s1.nodes[x].(cached := Some(v), dirty := false, force := false))
  {
    hide RunProg;
    assert ClearDeps(s, x) == s;
    assert RefreshDeps(g, s, x, []) == (s, false);
  }

  lemma TwoRuns(g: Plan, w: Value, v: Value, p: Value, q: Value, s: State)
    requires g == Layout(g.same)
    requires s == Chain(w, [], Two(w, p, q, None, false, [], [3]), Three(w, v, p, None, false, [2]))
    ensures Refresh(g, s, 2).0 == Chain(w, [2], Two(w, p, q, Some(p), false, [1], [3]), Three(w, v, p, None, false, [2]))
  {
    hide Refresh;
    var s1 := Chain(w, [2], Two(w, p, q, None, false, [1], [3]), Three(w, v, p, None, false, [2]));
    assert Edges.Insert([], 2) == [2] && Edges.Insert([], 1) == [1];
    assert Register(s, 1, 2) == s1;
    CellRead(g, s1, 1);
    assert RunProg(g, s1, 2, Ret(p)) == (s1, Some(p));
    assert RunProg(g, s, 2, Pick(1, w, p, q)) == (s1, Some(p));
    FirstRefresh(g, s, 2, s1, p);
  }

  lemma CellRead(g: Plan, s: State, x: Id)
    requires IsCell(s, x)
    ensures Refresh(g, s, x) == (s, false)
  {
  }

  lemma BuiltByReading(g: Plan, w: Value, v: Value, p: Value, q: Value)
    requires g == Layout(g.same)
    ensures Refresh(g, Created(w, v, p, q), 3).0 == Built(w, v, p, q)
  {
    hide Refresh;
    var s0 := Created(w, v, p, q);
    assert s0 == Chain(w, [], Two(w, p, q, None, false, [], []), Three(w, v, p, None, false, []));
    assert Edges.Insert([], 3) == [3] && Edges.Insert([], 2) == [2];
    var r := Register(s0, 2, 3);
    assert r == Chain(w, [], Two(w, p, q, None, false, [], [3]), Three(w, v, p, None, false, [2]));
    TwoRuns(g, w, v, p, q, r);
    var s1 := Refresh(g, r, 2).0;
    assert RunProg(g, s1, 3, Ret(w)) == (s1, Some(w));
    assert RunProg(g, s0, 3, Pick(2, p, w, v)) == (s1, Some(w));
    FirstRefresh(g, s0, 3, s1, w);
  }

  /** Slot 2 is forced, slot 3 only dirty. */
  lemma MovedByWriting(g: Plan, w: Value, v: Value, p: Value, q: Value)
    requires !g.same(w, v)
    ensures Write(g, Built(w, v, p, q), 1, v) == (Moved(w, v, p, q), false)
  {
    hide Mark;
    var s := Put(Built(w, v, p, q), 1, Cell(v, [2]));
    var s1 := Put(s, 2, Two(w, p, q, Some(p), true, [1], [3]));
    var s2 := Put(s1, 3, Three(w, v, p, Some(w), true, [2]));
    Diamond.MarkStep(s, [], 2, true);
    Diamond.MarkStep(s1, [], 3, false);
    Diamond.MarkDone(s2);
    assert [] + [(2, true)] == Entries([2], true) && [] + Entries([3], false) == [] + [(3, false)];
    assert [] + Entries([], false) == [];
    assert s2 == Moved(w, v, p, q);
  }

  /** Slot 2 recomputes to `q`, which is taken for `p`: nothing is stored, and no change is reported. */
  lemma TwoSuppressed(g: Plan, w: Value, v: Value, p: Value, q: Value)
    requires g == Layout(g.same) && w != v && g.same(p, q)
    ensures Refresh(g, Moved(w, v, p, q), 2)
      == (Chain(v, [2], Two(w, p, q, Some(p), false, [1], [3]), Three(w, v, p, Some(w), true, [2])), false)
  {
    var s := Moved(w, v, p, q);
    CellRead(g, s, 1);
    assert [1][1..] == [];
    assert RefreshDeps(g, s, 2, [1]) == (s, false);
    TwoRecomputes(g, w, v, p, q);
  }

  lemma TwoCleared(w: Value, v: Value, p: Value, q: Value)
    ensures ClearDeps(Moved(w, v, p, q), 2) == Chain(v, [], Two(w, p, q, Some(p), true, [], [3]), Three(w, v, p, Some(w), true, [2]))
  {
    var s := Moved(w, v, p, q);
    assert Edges.Remove([2], 2) == [];
    assert [1][1..] == [] && DropDependents(s, [1], 2) == Put(s, 1, Cell(v, []));
  }

  lemma TwoRunsAgain(g: Plan, w: Value, v: Value, p: Value, q: Value, s1: State)
    requires g == Layout(g.same) && w != v
    requires s1 == Chain(v, [], Two(w, p, q, Some(p), true, [], [3]), Three(w, v, p, Some(w), true, [2]))
    ensures RunProg(g, s1, 2, Pick(1, w, p, q)) == (Moved(w, v, p, q), Some(q))
  {
    hide Refresh;
    var s := Moved(w, v, p, q);
    assert Edges.Insert([], 2) == [2] && Edges.Insert([], 1) == [1];
    assert Register(s1, 1, 2) == s;
    CellRead(g, s, 1);
    assert RunProg(g, s, 2, Ret(q)) == (s, Some(q));
  }

  lemma TwoRecomputes(g: Plan, w: Value, v: Value, p: Value, q: Value)
    requires g == Layout(g.same) && w != v && g.same(p, q)
    ensures Recompute(g, Moved(w, v, p, q), 2)
      == (Chain(v, [2], Two(w, p, q, Some(p), false, [1], [3]), Three(w, v, p, Some(w), true, [2])), false)
  {
    hide RunProg, ClearDeps;
    TwoCleared(w, v, p, q);
    TwoRunsAgain(g, w, v, p, q, ClearDeps(Moved(w, v, p, q), 2));
    var s := Moved(w, v, p, q);
    assert Recompute(g, s, 2) == Publish(g, s, 2, q) == (ClearFlags(s, 2), false);
    assert ClearFlags(s, 2) == Chain(v, [2], Two(w, p, q, Some(p), false, [1], [3]), Three(w, v, p, Some(w), true, [2]));
  }

  /**
   Whatever comparison takes `q` for another value `p`, but tells `v` from `w`: created, read once, written,
   read again, slot 3 still gives the first value, although from scratch it is the second.
   */
  lemma CutoffStale(g: Plan, w: Value, v: Value, p: Value, q: Value)
    requires g == Layout(g.same) && w != v && !g.same(w, v) && p != q && g.same(p, q)
    ensures var s := Prepare(g, Prepare(g, Created(w, v, p, q), Get(3)), Set(1, v));
      && Reads(g, 2, Pick(1, w, p, q)) && NearFirst(g, Pick(1, w, p, q), []) && Reads(g, 3, Pick(2, p, w, v))
      && NearFirst(g, Pick(2, p, w, v), []) && !Owed(g, Prepare(g, Created(w, v, p, q), Get(3)), Set(1, v))
      && Observe(g, s, 3) == Some(w) && Eval(g, s, 3) == Some(v) && !Exact(g)
  {
    hide Refresh, Write, Eval, Reads, NearFirst;
    BuiltByReading(g, w, v, p, q);
    MovedByWriting(g, w, v, p, q);
    ThreeKept(g, w, v, p, q);
    MovedEval(g, w, v, p, q);
    PickReads(g, 1, 2, w, p, q);
    PickReads(g, 2, 3, p, w, v);
  }

  lemma PickReads(g: Plan, d: Id, x: Id, a: Value, yes: Value, no: Value)
    requires g == Layout(g.same) && 1 <= d < x <= 3
    ensures Reads(g, x, Pick(d, a, yes, no)) && NearFirst(g, Pick(d, a, yes, no), [])
  {
  }

  lemma ThreeKept(g: Plan, w: Value, v: Value, p: Value, q: Value)
    requires g == Layout(g.same) && w != v && g.same(p, q)
    ensures Cached(Refresh(g, Moved(w, v, p, q), 3).0, 3) == Some(w)
  {
    var s := Moved(w, v, p, q);
    TwoSuppressed(g, w, v, p, q);
    assert [2][1..] == [];
    var s1 := Refresh(g, s, 2).0;
    assert RefreshDeps(g, s, 3, [2]) == (s1, false);
  }

  lemma MovedEval(g: Plan, w: Value, v: Value, p: Value, q: Value)
    requires g == Layout(g.same) && w != v && p != q
    ensures Eval(g, Moved(w, v, p, q), 3) == Some(v)
  {
    var s := Moved(w, v, p, q);
    assert Eval(g, s, 1) == Some(v) && EvalProg(g, s, 2, Ret(q)) == Some(q);
    assert EvalProg(g, s, 2, Pick(1, w, p, q)) == EvalProg(g, s, 2, Ret(q));
    assert Eval(g, s, 2) == Some(q);
    assert EvalProg(g, s, 3, Ret(v)) == Some(v);
  }
}
