/**
 Why computes must not read a slot after one that reads it: a diamond whose reader reads the far side
 first keeps a stale value, because the refresh tests flags it took before its dependency loop.
 */
module ReactiveDiamond {
  import opened Basics
  import Edges
  import opened ReactiveModel
  import opened ReactiveInvariant
  import opened ReactiveOps
  import opened ReactiveRuns

  /** Four places of a plan, in the order in which they are created, and the nodes at all others. */
  datatype Spot = Spot(c: Id, d: Id, e: Id, x: Id, rest: map<Id, Node>)

  /** The plan lets slot `d` read source `c`, slot `e` read `d`, and slot `x` read both `d` and `e`. */
  predicate Fits(g: Plan, k: Spot) {
    && 1 <= k.c < k.d < k.e < k.x
    && g.role(k.c).kind == CellKind && g.role(k.d).kind == g.role(k.e).kind == g.role(k.x).kind == SlotKind
    && Below(g, k.c, k.d) && Below(g, k.d, k.e) && Below(g, k.d, k.x) && Below(g, k.e, k.x)
  }

  /** The comparison keeps a value as it is, and tells `v` from `w`. */
  predicate Tells(g: Plan, w: Value, v: Value) { g.same(w, w) && !g.same(w, v) }

  ghost function CopyOf(d: Id): Prog { Read(d, imap v: Value {:trigger Ret(v)} :: Ret(v)) }
  ghost function ConstantAfter(d: Id, w: Value): Prog { Read(d, imap v: Value {:trigger Ret(v)} :: Ret(w)) }
  ghost function FarFirst(k: Spot): Prog { Read(k.e, imap v: Value {:trigger Ret(v)} :: CopyOf(k.d)) }

  ghost function Quad(k: Spot, source: Value, readers: seq<Id>, two: Node, three: Node, four: Node): State {
    State(k.rest[k.c := Cell(source, readers)][k.d := two][k.e := three][k.x := four], [], [], 0, k.x + 1)
  }

  /** What is found at the four places, and what putting a node there gives. */
  lemma Quads(k: Spot)
    requires 1 <= k.c < k.d < k.e < k.x
    ensures forall u, us, two, three, four {:trigger Quad(k, u, us, two, three, four)} ::
      var s := Quad(k, u, us, two, three, four);
      && {k.c, k.d, k.e, k.x} <= s.nodes.Keys && s.nodes[k.c] == Cell(u, us)
      && s.nodes[k.d] == two && s.nodes[k.e] == three && s.nodes[k.x] == four
      && s.pending == [] && s.batched == [] && s.depth == 0 && s.nextId == k.x + 1
    ensures forall u, us, two, three, four, v, vs {:trigger Put(Quad(k, u, us, two, three, four), k.c, Cell(v, vs))} ::
      Put(Quad(k, u, us, two, three, four), k.c, Cell(v, vs)) == Quad(k, v, vs, two, three, four)
    ensures forall u, us, two, three, four, n {:trigger Put(Quad(k, u, us, two, three, four), k.d, n)} ::
      Put(Quad(k, u, us, two, three, four), k.d, n) == Quad(k, u, us, n, three, four)
    ensures forall u, us, two, three, four, n {:trigger Put(Quad(k, u, us, two, three, four), k.e, n)} ::
      Put(Quad(k, u, us, two, three, four), k.e, n) == Quad(k, u, us, two, n, four)
    ensures forall u, us, two, three, four, n {:trigger Put(Quad(k, u, us, two, three, four), k.x, n)} ::
      Put(Quad(k, u, us, two, three, four), k.x, n) == Quad(k, u, us, two, three, n)
  {
  }

  ghost function Two(k: Spot, cached: Option<Value>, up: bool, ds: seq<Id>, es: seq<Id>): Node {
    Slot(CopyOf(k.c), cached, up, up, ds, es)
  }
  ghost function Three(k: Spot, w: Value, cached: Option<Value>, dirty: bool, force: bool, ds: seq<Id>, es: seq<Id>): Node {
    Slot(ConstantAfter(k.d, w), cached, dirty, force, ds, es)
  }
  ghost function Four(k: Spot, cached: Option<Value>, dirty: bool, force: bool, ds: seq<Id>): Node {
    Slot(FarFirst(k), cached, dirty, force, ds, [])
  }

  /** The four nodes as created, with the source at `w`. */
  ghost function Created(k: Spot, w: Value): State {
    Quad(k, w, [], Two(k, None, false, [], []),
         Three(k, w, None, false, false, [], []), Four(k, None, false, false, []))
  }

  /** The same after slot `x` was read once. */
  ghost function Built(k: Spot, w: Value): State {
    Quad(k, w, [k.d], Two(k, Some(w), false, [k.c], [k.e, k.x]), Three(k, w, Some(w), false, false, [k.d], [k.x]),
         Four(k, Some(w), false, false, [k.e, k.d]))
  }

  /** Slot `x` breaks the hypothesis, and only in the order of its two reads. */
  lemma OutOfOrder(g: Plan, k: Spot, v: Value)
    requires Fits(g, k)
    ensures Reads(g, k.x, FarFirst(k)) && !NearFirst(g, FarFirst(k), [])
  {
    var p := FarFirst(k).next[v];
    assert Edges.Insert([], k.e) == [k.e] && p == CopyOf(k.d);
    var acc := Edges.Insert([k.e], k.d);
    assert acc[0] == k.e && acc[1] == k.d && !Untangled(g, acc);
    assert !NearFirst(g, p, [k.e]);
    assert Reads(g, k.x, CopyOf(k.d));
  }

  lemma BuiltByReading(g: Plan, k: Spot, w: Value)
    requires Fits(g, k)
    ensures Refresh(g, Created(k, w), k.x).0 == Built(k, w)
  {
    hide Quad, Put, Refresh;
    Quads(k);
    var s0 := Created(k, w);
    assert s0 == Quad(k, w, [], Two(k, None, false, [], []),
                      Three(k, w, None, false, false, [], []), Four(k, None, false, false, []));
    var s1 := Put(Built(k, w), k.x, Four(k, None, false, false, [k.e, k.d]));
    FirstFourRuns(g, k, w, s0, s1);
    FirstRefresh(g, k, s0, k.x, s1, w);
    assert Publish(g, s1, k.x, w).0 == Built(k, w);
  }

  lemma FirstFourRuns(g: Plan, k: Spot, w: Value, s0: State, s1: State)
    requires Fits(g, k)
    requires s0 == Quad(k, w, [], Two(k, None, false, [], []),
                        Three(k, w, None, false, false, [], []), Four(k, None, false, false, []))
    requires s1 == Put(Built(k, w), k.x, Four(k, None, false, false, [k.e, k.d]))
    ensures RunProg(g, s0, k.x, FarFirst(k)) == (s1, Some(w))
  {
    hide Quad, Put, Refresh;
    Quads(k);
    assert Edges.Insert([], k.e) == [k.e] && Edges.Insert([], k.x) == [k.x];
    var r := Register(s0, k.e, k.x);
    assert r == Quad(k, w, [], Two(k, None, false, [], []),
                     Three(k, w, None, false, false, [], [k.x]), Four(k, None, false, false, [k.e]));
    FirstThree(g, k, w, r);
    var s2 := Refresh(g, r, k.e).0;
    FourAfterThree(g, k, w, s2);
    assert RunProg(g, s0, k.x, FarFirst(k)) == RunProg(g, s2, k.x, CopyOf(k.d));
  }

  lemma FourAfterThree(g: Plan, k: Spot, w: Value, s: State)
    requires Fits(g, k)
    requires s == Quad(k, w, [k.d], Two(k, Some(w), false, [k.c], [k.e]),
                       Three(k, w, Some(w), false, false, [k.d], [k.x]), Four(k, None, false, false, [k.e]))
    ensures RunProg(g, s, k.x, CopyOf(k.d)) == (Put(Built(k, w), k.x, Four(k, None, false, false, [k.e, k.d])), Some(w))
  {
    hide Quad, Put;
    Quads(k);
    assert Edges.Insert([k.e], k.x) == [k.e, k.x] && Edges.Insert([k.e], k.d) == [k.e, k.d];
    var s1 := Register(s, k.d, k.x);
    assert s1 == Quad(k, w, [k.d], Two(k, Some(w), false, [k.c], [k.e, k.x]),
                      Three(k, w, Some(w), false, false, [k.d], [k.x]), Four(k, None, false, false, [k.e, k.d]));
    assert Refresh(g, s1, k.d).0 == s1;
    CopyRun(g, k, w, s, s1, k.x);
    assert s1 == Put(Built(k, w), k.x, Four(k, None, false, false, [k.e, k.d]));
  }

  /** Running the copying compute: register, then return what is stored. */
  lemma CopyRun(g: Plan, k: Spot, w: Value, s: State, s1: State, x: Id)
    requires Fits(g, k)
    requires x in s.nodes && k.d in s.nodes && s1 == Register(s, k.d, x) && Refresh(g, s1, k.d).0 == s1 && k.d < x
    requires Cached(s1, k.d) == Some(w)
    ensures RunProg(g, s, x, CopyOf(k.d)) == (s1, Some(w))
  {
    assert RunProg(g, s1, x, Ret(w)) == (s1, Some(w));
  }

  /** The first refresh of a slot runs its compute and stores the value. */
  lemma FirstRefresh(g: Plan, k: Spot, s: State, x: Id, s1: State, v: Value)
    requires Fits(g, k) && IsSlot(s, x) && s.nodes[x].cached.None? && s.nodes[x].deps == [] && IsSlot(s1, x)
    requires RunProg(g, s, x, s.nodes[x].compute) == (s1, Some(v))
    ensures Refresh(g, s, x).0 == Publish(g, s1, x, v).0
  {
    hide RunProg, Publish;
    NothingToClear(s, x);
    assert RefreshDeps(g, s, x, []) == (s, false);
    assert Recompute(g, s, x) == Publish(g, s1, x, v);
  }

  lemma NothingToClear(s: State, x: Id)
    requires x in s.nodes && !s.nodes[x].Cell? && s.nodes[x].deps == []
    ensures ClearDeps(s, x) == s
  {
  }

  lemma FirstTwo(g: Plan, k: Spot, w: Value, s: State)
    requires Fits(g, k)
    requires s == Quad(k, w, [], Two(k, None, false, [], [k.e]),
                       Three(k, w, None, false, false, [k.d], [k.x]), Four(k, None, false, false, [k.e]))
    ensures Refresh(g, s, k.d).0
      == Quad(k, w, [k.d], Two(k, Some(w), false, [k.c], [k.e]),
              Three(k, w, None, false, false, [k.d], [k.x]), Four(k, None, false, false, [k.e]))
  {
    hide Quad, Put, Refresh;
    Quads(k);
    var s1 := Quad(k, w, [k.d], Two(k, None, false, [k.c], [k.e]),
                   Three(k, w, None, false, false, [k.d], [k.x]), Four(k, None, false, false, [k.e]));
    FirstTwoRuns(g, k, w, s, s1);
    FirstRefresh(g, k, s, k.d, s1, w);
  }

  lemma FirstTwoRuns(g: Plan, k: Spot, w: Value, s: State, s1: State)
    requires Fits(g, k)
    requires s == Quad(k, w, [], Two(k, None, false, [], [k.e]),
                       Three(k, w, None, false, false, [k.d], [k.x]), Four(k, None, false, false, [k.e]))
    requires s1 == Quad(k, w, [k.d], Two(k, None, false, [k.c], [k.e]),
                        Three(k, w, None, false, false, [k.d], [k.x]), Four(k, None, false, false, [k.e]))
    ensures RunProg(g, s, k.d, CopyOf(k.c)) == (s1, Some(w))
  {
    hide Quad, Put;
    Quads(k);
    assert Edges.Insert([], k.c) == [k.c] && Edges.Insert([], k.d) == [k.d];
    assert Register(s, k.c, k.d) == s1;
    assert RunProg(g, s1, k.d, Ret(w)) == (s1, Some(w));
  }

  lemma FirstThree(g: Plan, k: Spot, w: Value, s: State)
    requires Fits(g, k)
    requires s == Quad(k, w, [], Two(k, None, false, [], []),
                       Three(k, w, None, false, false, [], [k.x]), Four(k, None, false, false, [k.e]))
    ensures Refresh(g, s, k.e).0
      == Quad(k, w, [k.d], Two(k, Some(w), false, [k.c], [k.e]),
              Three(k, w, Some(w), false, false, [k.d], [k.x]), Four(k, None, false, false, [k.e]))
  {
    hide Quad, Put, Refresh;
    Quads(k);
    var s2 := Quad(k, w, [k.d], Two(k, Some(w), false, [k.c], [k.e]),
                   Three(k, w, None, false, false, [k.d], [k.x]), Four(k, None, false, false, [k.e]));
    FirstThreeRuns(g, k, w, s, s2);
    FirstRefresh(g, k, s, k.e, s2, w);
  }

  lemma FirstThreeRuns(g: Plan, k: Spot, w: Value, s: State, s2: State)
    requires Fits(g, k)
    requires s == Quad(k, w, [], Two(k, None, false, [], []),
                       Three(k, w, None, false, false, [], [k.x]), Four(k, None, false, false, [k.e]))
    requires s2 == Quad(k, w, [k.d], Two(k, Some(w), false, [k.c], [k.e]),
                        Three(k, w, None, false, false, [k.d], [k.x]), Four(k, None, false, false, [k.e]))
    ensures RunProg(g, s, k.e, ConstantAfter(k.d, w)) == (s2, Some(w))
  {
    hide Quad, Put, Refresh;
    Quads(k);
    assert Edges.Insert([], k.d) == [k.d] && Edges.Insert([], k.e) == [k.e];
    var s1 := Register(s, k.d, k.e);
    assert s1 == Quad(k, w, [], Two(k, None, false, [], [k.e]),
                      Three(k, w, None, false, false, [k.d], [k.x]), Four(k, None, false, false, [k.e]));
    FirstTwo(g, k, w, s1);
    assert RunProg(g, s2, k.e, Ret(w)) == (s2, Some(w));
  }

  /** After the source moved to `v`: slot `d` is forced, `e` and `x` are only dirty. */
  ghost function Moved(k: Spot, w: Value, v: Value): State {
    Quad(k, v, [k.d], Two(k, Some(w), true, [k.c], [k.e, k.x]), Three(k, w, Some(w), true, false, [k.d], [k.x]),
         Four(k, Some(w), true, false, [k.e, k.d]))
  }

  /** One step of the marking walk. */
  lemma MarkStep(s: State, stack: seq<(Id, bool)>, x: Id, force: bool)
    requires IsSlot(s, x)
    ensures Mark(s, stack + [(x, force)], []) ==
            Mark(Put(s, x, Flagged(s.nodes[x], force)),
                 if Propagates(s.nodes[x], force) then stack + Entries(s.nodes[x].dependents, false) else stack, [])
  {
    assert (stack + [(x, force)])[..|stack|] == stack;
  }

  lemma MovedByWriting(g: Plan, k: Spot, w: Value, v: Value)
    requires Fits(g, k) && Tells(g, w, v)
    ensures Write(g, Built(k, w), k.c, v) == (Moved(k, w, v), false)
  {
    hide Quad, Put, Mark;
    Quads(k);
    var s := Put(Built(k, w), k.c, Cell(v, [k.d]));
    MarkStep(s, [], k.d, true);
    var s1 := Put(s, k.d, Two(k, Some(w), true, [k.c], [k.e, k.x]));
    MarkStep(s1, [(k.e, false)], k.x, false);
    var s2 := Put(s1, k.x, Four(k, Some(w), true, false, [k.e, k.d]));
    MarkStep(s2, [], k.e, false);
    var s3 := Put(s2, k.e, Three(k, w, Some(w), true, false, [k.d], [k.x]));
    MarkStep(s3, [], k.x, false);
    MarkDone(s3);
    assert Put(s3, k.x, s3.nodes[k.x]) == s3 && s3 == Moved(k, w, v);
    assert Entries([k.d], true) == [] + [(k.d, true)];
    assert [] + Entries([k.e, k.x], false) == [(k.e, false)] + [(k.x, false)];
    assert [(k.e, false)] + Entries([], false) == [] + [(k.e, false)];
    assert [] + Entries([k.x], false) == [] + [(k.x, false)];
    assert [] + Entries([], false) == [];
  }

  lemma MarkDone(s: State)
    ensures Mark(s, [], []) == (s, []) && Schedule(s, []) == s
  {
  }

  /** Slot `d` recomputes to `v` and forces its readers, slot `x` among them. */
  lemma TwoRefreshed(g: Plan, k: Spot, w: Value, v: Value)
    requires Fits(g, k) && Tells(g, w, v)
    ensures Refresh(g, Moved(k, w, v), k.d)
      == (Quad(k, v, [k.d], Two(k, Some(v), false, [k.c], [k.e, k.x]),
               Three(k, w, Some(w), true, true, [k.d], [k.x]), Four(k, Some(w), true, true, [k.e, k.d])), true)
  {
    hide Quad, Put;
    Quads(k);
    var s := Moved(k, w, v);
    var s1 := ClearDeps(s, k.d);
    assert Edges.Remove([k.d], k.d) == [] && Edges.Insert([], k.d) == [k.d] && Edges.Insert([], k.c) == [k.c];
    assert DropDependents(s, [k.c], k.d) == DropDependents(Put(s, k.c, Cell(v, [])), [], k.d);
    assert s1 == Quad(k, v, [], Two(k, Some(w), true, [], [k.e, k.x]), s.nodes[k.e], s.nodes[k.x]);
    var s2 := Register(s1, k.c, k.d);
    assert s2 == s;
    assert RunProg(g, s2, k.d, Ret(v)) == (s2, Some(v));
    assert RunProg(g, s1, k.d, CopyOf(k.c)) == (s, Some(v));
    assert Recompute(g, s, k.d) == Publish(g, s, k.d, v);
    assert RefreshDeps(g, s, k.d, [k.c]) == (s, false) by {
      assert Refresh(g, s, k.c) == (s, false);
      assert [k.c][1..] == [];
    }
    TwoPublished(g, k, w, v);
  }

  lemma TwoPublished(g: Plan, k: Spot, w: Value, v: Value)
    requires Fits(g, k) && Tells(g, w, v)
    ensures Publish(g, Moved(k, w, v), k.d, v)
      == (Quad(k, v, [k.d], Two(k, Some(v), false, [k.c], [k.e, k.x]),
               Three(k, w, Some(w), true, true, [k.d], [k.x]), Four(k, Some(w), true, true, [k.e, k.d])), true)
  {
    hide Quad, Put, Mark;
    Quads(k);
    var s := Put(Moved(k, w, v), k.d, Two(k, Some(v), false, [k.c], [k.e, k.x]));
    MarkStep(s, [(k.e, true)], k.x, true);
    var s1 := Put(s, k.x, Four(k, Some(w), true, true, [k.e, k.d]));
    MarkStep(s1, [], k.e, true);
    var s2 := Put(s1, k.e, Three(k, w, Some(w), true, true, [k.d], [k.x]));
    MarkStep(s2, [], k.x, false);
    MarkDone(s2);
    assert Put(s2, k.x, s2.nodes[k.x]) == s2;
    assert Entries([k.e, k.x], true) == [(k.e, true)] + [(k.x, true)];
    assert [(k.e, true)] + Entries([], false) == [] + [(k.e, true)];
    assert [] + Entries([k.x], false) == [] + [(k.x, false)] && [] + Entries([], false) == [];
    assert Mark(s, Entries([k.e, k.x], true), []) == (s2, []);
    assert Put(Moved(k, w, v), k.d, Moved(k, w, v).nodes[k.d].(cached := Some(v), dirty := false, force := false)) == s;
    assert s2 == Quad(k, v, [k.d], Two(k, Some(v), false, [k.c], [k.e, k.x]),
                      Three(k, w, Some(w), true, true, [k.d], [k.x]), Four(k, Some(w), true, true, [k.e, k.d]));
  }

  /** Slot `e` recomputes to the same constant, so it reports no change. */
  lemma ThreeRefreshed(g: Plan, k: Spot, w: Value, v: Value)
    requires Fits(g, k) && Tells(g, w, v)
    ensures Refresh(g, Moved(k, w, v), k.e)
      == (Quad(k, v, [k.d], Two(k, Some(v), false, [k.c], [k.x, k.e]),
               Three(k, w, Some(w), false, false, [k.d], [k.x]), Four(k, Some(w), true, true, [k.e, k.d])), false)
  {
    hide Quad, Put;
    Quads(k);
    TwoRefreshed(g, k, w, v);
    var s := Moved(k, w, v);
    var s1 := Refresh(g, s, k.d).0;
    assert [k.d][1..] == [];
    assert RefreshDeps(g, s, k.e, [k.d]) == (s1, true);
    ThreeRecomputed(g, k, w, v, s1);
  }

  lemma ThreeRecomputed(g: Plan, k: Spot, w: Value, v: Value, s: State)
    requires Fits(g, k) && Tells(g, w, v)
    requires s == Quad(k, v, [k.d], Two(k, Some(v), false, [k.c], [k.e, k.x]),
                       Three(k, w, Some(w), true, true, [k.d], [k.x]), Four(k, Some(w), true, true, [k.e, k.d]))
    ensures Recompute(g, s, k.e)
      == (Quad(k, v, [k.d], Two(k, Some(v), false, [k.c], [k.x, k.e]),
               Three(k, w, Some(w), false, false, [k.d], [k.x]), Four(k, Some(w), true, true, [k.e, k.d])), false)
  {
    hide Quad, Put, RunProg;
    Quads(k);
    ThreeCleared(g, k, w, v, s);
    var s1 := ClearDeps(s, k.e);
    ThreeRuns(g, k, w, v, s1);
    var s2 := Register(s1, k.d, k.e);
    assert Recompute(g, s, k.e) == (ClearFlags(s2, k.e), false);
    assert ClearFlags(s2, k.e) == Quad(k, v, [k.d], Two(k, Some(v), false, [k.c], [k.x, k.e]),
                                       Three(k, w, Some(w), false, false, [k.d], [k.x]), s.nodes[k.x]);
  }

  lemma ThreeCleared(g: Plan, k: Spot, w: Value, v: Value, s: State)
    requires Fits(g, k)
    requires s == Quad(k, v, [k.d], Two(k, Some(v), false, [k.c], [k.e, k.x]),
                       Three(k, w, Some(w), true, true, [k.d], [k.x]), Four(k, Some(w), true, true, [k.e, k.d]))
    ensures ClearDeps(s, k.e) == Quad(k, v, [k.d], Two(k, Some(v), false, [k.c], [k.x]),
                                      Three(k, w, Some(w), true, true, [], [k.x]), Four(k, Some(w), true, true, [k.e, k.d]))
  {
    hide Quad, Put;
    Quads(k);
    assert Edges.Remove([k.e, k.x], k.e) == [k.x];
    assert [k.d][1..] == [];
    assert DropDependents(s, [k.d], k.e) == Put(s, k.d, Two(k, Some(v), false, [k.c], [k.x]));
  }

  lemma ThreeRuns(g: Plan, k: Spot, w: Value, v: Value, s: State)
    requires Fits(g, k)
    requires s == Quad(k, v, [k.d], Two(k, Some(v), false, [k.c], [k.x]),
                       Three(k, w, Some(w), true, true, [], [k.x]), Four(k, Some(w), true, true, [k.e, k.d]))
    ensures var s2 := Register(s, k.d, k.e);
      && s2 == Quad(k, v, [k.d], Two(k, Some(v), false, [k.c], [k.x, k.e]),
                    Three(k, w, Some(w), true, true, [k.d], [k.x]), Four(k, Some(w), true, true, [k.e, k.d]))
      && RunProg(g, s, k.e, ConstantAfter(k.d, w)) == (s2, Some(w))
  {
    hide Quad, Put;
    Quads(k);
    assert Edges.Insert([k.x], k.e) == [k.x, k.e] && Edges.Insert([], k.d) == [k.d];
    var s2 := Register(s, k.d, k.e);
    assert Refresh(g, s2, k.d).0 == s2;
    assert RunProg(g, s2, k.e, Ret(w)) == (s2, Some(w));
  }

  /**
   The stale read. Created, read once, written, read again: the second read of slot `x` still returns
   the first source value although its from-scratch value is the new one, and the force bit that
   the nested refresh had raised on it is cleared.
   */
  lemma StaleRead(g: Plan, k: Spot, w: Value, v: Value)
    requires Fits(g, k) && Tells(g, w, v)
    ensures var s := Prepare(g, Prepare(g, Created(k, w), Get(k.x)), Set(k.c, v));
      && !Owed(g, Prepare(g, Created(k, w), Get(k.x)), Set(k.c, v))
      && Observe(g, s, k.x) == Some(w) && Eval(g, s, k.x) == Some(v)
      && Clean(Refresh(g, s, k.x).0, k.x)
  {
    hide Refresh, Write, Eval;
    BuiltByReading(g, k, w);
    MovedByWriting(g, k, w, v);
    SkippedFour(g, k, w, v);
    MovedEval(g, k, w, v);
  }

  lemma SkippedFour(g: Plan, k: Spot, w: Value, v: Value)
    requires Fits(g, k) && Tells(g, w, v)
    ensures var t := Refresh(g, Moved(k, w, v), k.x).0; Cached(t, k.x) == Some(w) && Clean(t, k.x)
  {
    hide Quad, Put, Refresh, RefreshDeps;
    Quads(k);
    ThreeRefreshed(g, k, w, v);
    var s := Moved(k, w, v);
    var s1 := Refresh(g, s, k.e).0;
    CleanRefresh(g, k, s1, k.d);
    BothUnchanged(g, k, s, s1);
    KeptAfter(g, k, s, s1, k.x);
  }

  lemma CleanRefresh(g: Plan, k: Spot, s: State, x: Id)
    requires Fits(g, k) && Clean(s, x)
    ensures Refresh(g, s, x) == (s, false)
  {
  }

  lemma BothUnchanged(g: Plan, k: Spot, s: State, s1: State)
    requires Fits(g, k) && Refresh(g, s, k.e) == (s1, false) && Refresh(g, s1, k.d) == (s1, false)
    ensures RefreshDeps(g, s, k.x, [k.e, k.d]) == (s1, false)
  {
    hide Refresh;
    assert [k.e, k.d][1..] == [k.d] && [k.d][1..] == [];
    assert RefreshDeps(g, s1, k.x, [k.d]) == (s1, false);
  }

  /** No dependency reported a change, and the force bit is the one seen before the loop. */
  lemma KeptAfter(g: Plan, k: Spot, s: State, s1: State, x: Id)
    requires Fits(g, k) && IsSlot(s, x) && !Clean(s, x) && s.nodes[x].cached.Some? && !s.nodes[x].force
    requires RefreshDeps(g, s, x, s.nodes[x].deps) == (s1, false)
    ensures Refresh(g, s, x) == (ClearFlags(s1, x), false)
  {
    hide RefreshDeps;
  }

  lemma MovedEval(g: Plan, k: Spot, w: Value, v: Value)
    requires Fits(g, k)
    ensures Eval(g, Moved(k, w, v), k.x) == Some(v)
  {
    hide Quad, Put;
    Quads(k);
    var s := Moved(k, w, v);
    assert Eval(g, s, k.c) == Some(v);
    assert Eval(g, s, k.d) == Some(v) by {
      assert EvalProg(g, s, k.d, Ret(v)) == Some(v);
    }
    assert Eval(g, s, k.e) == Some(w) by {
      assert EvalProg(g, s, k.e, Ret(w)) == Some(w);
    }
    assert EvalProg(g, s, k.x, CopyOf(k.d)) == EvalProg(g, s, k.x, Ret(v));
  }

  // -- such a run for every plan that lets a slot read so --------------------------------------------------

  /** What is created at each place before `x`: the source, the two slots, and something harmless elsewhere. */
  ghost function Making(g: Plan, k: Spot, w: Value, i: Id): Op {
    if i == k.c then MakeSource(w)
    else if i == k.d then MakeComputed(CopyOf(k.c))
    else if i == k.e then MakeComputed(ConstantAfter(k.d, w))
    else match g.role(i).kind
      case CellKind => MakeSource(w)
      case SlotKind => MakeComputed(Ret(w))
      case EffectKind => MakeEffect(Ret(w))
  }

  ghost function Makings(g: Plan, k: Spot, w: Value, n: nat): seq<Op> {
    if n == 0 then [] else Makings(g, k, w, n - 1) + [Making(g, k, w, n)]
  }

  /** Places up to `n` are filled, and the three that matter as they were created. */
  ghost predicate Filled(k: Spot, w: Value, n: nat, s: State) {
    && s == State(s.nodes, [], [], 0, n + 1) && (forall y :: y in s.nodes <==> 1 <= y <= n)
    && (1 <= k.c <= n ==> s.nodes[k.c] == Cell(w, [])) && (1 <= k.d <= n ==> s.nodes[k.d] == Two(k, None, false, [], []))
    && (1 <= k.e <= n ==> s.nodes[k.e] == Three(k, w, None, false, false, [], []))
  }

  lemma MakingLegal(g: Plan, k: Spot, w: Value, n: nat, s: State)
    requires Fits(g, k) && 1 <= n < k.x && s.nextId == n
    ensures Legal(g, s, Making(g, k, w, n))
  {
    assert Reads(g, n, Ret(w)) && NearFirst(g, Ret(w), []);
    assert n == k.d ==> Reads(g, n, CopyOf(k.c)) && NearFirst(g, CopyOf(k.c), []);
    assert n == k.e ==> Reads(g, n, ConstantAfter(k.d, w)) && NearFirst(g, ConstantAfter(k.d, w), []);
  }

  /** An effect that reads nothing runs when it is created, and touches nothing else. */
  lemma EffectAlone(g: Plan, s: State, w: Value)
    requires Top(g, s) && Legal(g, s, MakeEffect(Ret(w))) && s == State(s.nodes, [], [], 0, s.nextId)
    ensures Step(g, s, MakeEffect(Ret(w)))
      == State(s.nodes[s.nextId := Effect(Ret(w), Some(w), false, [])], [], [], 0, s.nextId + 1)
  {
    hide Inv, RunHead, Reads, NearFirst;
    PrepareOk(g, s, MakeEffect(Ret(w)));
    var t := NewEffect(s, Ret(w));
    assert Edges.Insert([], s.nextId) == [s.nextId];
    assert t == State(s.nodes[s.nextId := Effect(Ret(w), None, true, [])], [s.nextId], [], 0, s.nextId + 1);
    OneRun(g, t, s.nextId, w);
    OneRun(g, t, s.nextId, w);
    RunHeadOk(g, t);
    var u := RunHead(g, t);
    assert u == State(s.nodes[s.nextId := Effect(Ret(w), Some(w), false, [])], [], [], 0, s.nextId + 1);
    assert Flush(g, u) == u && Flush(g, t) == Flush(g, u);
  }

  lemma OneRun(g: Plan, t: State, x: Id, w: Value)
    requires x in t.nodes && t.nodes[x] == Effect(Ret(w), None, true, []) && t.pending == [x]
    ensures RunHead(g, t) == t.(nodes := t.nodes[x := Effect(Ret(w), Some(w), false, [])], pending := [])
  {
    assert t.pending[1..] == [];
    var s1 := ForceOff(t.(pending := []), x);
    NothingToClear(s1, x);
    assert RunProg(g, s1, x, Ret(w)) == (s1, Some(w));
  }

  lemma MakingFills(g: Plan, k: Spot, w: Value, n: nat, s: State)
    requires Fits(g, k) && 1 <= n < k.x && Top(g, s) && Filled(k, w, n - 1, s) && Legal(g, s, Making(g, k, w, n))
    ensures Filled(k, w, n, Step(g, s, Making(g, k, w, n)))
  {
    hide Top, Legal, Flush, Reads, NearFirst;
    if Making(g, k, w, n).MakeEffect? {
      EffectAlone(g, s, w);
    }
  }

  lemma {:induction false} MakingsReach(g: Plan, k: Spot, w: Value, n: nat)
    requires Exact(g) && Fits(g, k) && n < k.x
    ensures match Reach(g, Makings(g, k, w, n)) case None => false case Some(s) => Top(g, s) && Filled(k, w, n, s)
  {
    hide Top, Legal, Step, Filled, Fits, Making;
    if n == 0 {
      NoneFilled(k, w);
    } else {
      MakingsReach(g, k, w, n - 1);
      var ops, op := Makings(g, k, w, n - 1), Making(g, k, w, n);
      assert (ops + [op])[..|ops + [op]| - 1] == ops;
      var s := Reach(g, ops).value;
      FilledNext(k, w, n - 1, s);
      MakingLegal(g, k, w, n, s);
      MakingFills(g, k, w, n, s);
    }
  }

  lemma NoneFilled(k: Spot, w: Value)
    ensures Filled(k, w, 0, EMPTY)
  {
  }

  lemma FilledNext(k: Spot, w: Value, n: nat, s: State)
    requires Filled(k, w, n, s)
    ensures s.nextId == n + 1
  {
  }

  /** The last slot is created among whatever else is there. */
  lemma CreatedThere(k: Spot, w: Value, s: State)
    requires 1 <= k.c < k.d < k.e < k.x && Filled(k, w, k.x - 1, s)
    ensures NewComputed(s, FarFirst(k)) == Created(k.(rest := s.nodes), w)
  {
    var t := Created(k.(rest := s.nodes), w);
    assert t.nodes == s.nodes[k.x := Slot(FarFirst(k), None, false, false, [], [])];
  }

  /**
   Every plan that lets a slot read `d` and a slot `e` over it has a legal run after which one more computed,
   lawful but for the order of its two reads, goes stale: read once, the source under `d` written, and read again.
   */
  lemma StaleAnywhere(g: Plan, c: Id, d: Id, e: Id, x: Id, w: Value, v: Value)
    requires var k := Spot(c, d, e, x, map[]); Exact(g) && Fits(g, k) && w != v && g.same(w, w)
    ensures var k := Spot(c, d, e, x, map[]);
      Reads(g, x, FarFirst(k)) && !NearFirst(g, FarFirst(k), []) &&
      match Reach(g, Makings(g, k, w, x - 1))
      case None => false
      case Some(s) =>
        var t := Prepare(g, Prepare(g, Prepare(g, s, MakeComputed(FarFirst(k))), Get(x)), Set(c, v));
        s.nextId == x && Observe(g, t, x) == Some(w) && Eval(g, t, x) == Some(v)
  {
    hide Top, Filled, Reach, Refresh, Write, Eval, Reads, NearFirst, Created, NewComputed;
    var k := Spot(c, d, e, x, map[]);
    OutOfOrder(g, k, v);
    MakingsReach(g, k, w, x - 1);
    var s := Reach(g, Makings(g, k, w, x - 1)).value;
    FilledNext(k, w, x - 1, s);
    CreatedThere(k, w, s);
    StaleRead(g, k.(rest := s.nodes), w, v);
  }
}
