/** What every reachable kernel state keeps, and what one refresh may change. */
module ReactiveInvariant {
  import opened Basics
  import Edges
  import opened ReactiveModel

  // -- hypotheses on computes ------------------------------------------------------

  /** Only a value itself is taken for it. */
  ghost predicate Exact(g: Plan) { forall a, b :: g.same(a, b) ==> a == b }

  /** Every value is taken for itself. */
  ghost predicate Reflexive(g: Plan) { forall v :: g.same(v, v) }

  /** `p` run for `x` reads only nodes that existed before `x`, never an effect, always what the plan puts below it. */
  ghost predicate Reads(g: Plan, x: Id, p: Prog)
    decreases p
  {
    match p
    case Ret(_) => true
    case Read(d, next) =>
      && 1 <= d < x && g.role(d).kind != EffectKind && Below(g, d, x)
      && forall v :: v in next && Reads(g, x, next[v])
  }

  /** No slot of the list may be read by the refresh of an earlier one. */
  ghost predicate Untangled(g: Plan, ds: seq<Id>) {
    forall i, j :: 0 <= i < j < |ds| && g.role(ds[i]).kind == SlotKind && g.role(ds[j]).kind == SlotKind ==> ds[j] !in Under(g, ds[i])
  }

  /** On every path, `p` reads no slot after one that may come to read it; `acc` is what it has read so far. */
  ghost predicate NearFirst(g: Plan, p: Prog, acc: seq<Id>)
    decreases p
  {
    match p
    case Ret(_) => true
    case Read(d, next) =>
      && Untangled(g, Edges.Insert(acc, d))
      && forall v :: v in next ==> NearFirst(g, next[v], Edges.Insert(acc, d))
  }

  // -- shape ------------------------------------------------------------------------

  ghost predicate NodeOk(g: Plan, x: Id, n: Node) {
    match n
    case Cell(_, _) => g.role(x).kind == CellKind
    case Slot(p, _, dirty, force, _, _) =>
      g.role(x).kind == SlotKind && (force ==> dirty) && Reads(g, x, p) && NearFirst(g, p, [])
    case Effect(p, _, _, _) => g.role(x).kind == EffectKind && Reads(g, x, p)
  }

  ghost predicate ReadsOk(g: Plan, s: State) {
    forall x, d :: d in Deps(s, x) ==>
      d in s.nodes && !s.nodes[d].Effect? && Below(g, d, x) && x in Dependents(s, d)
  }

  ghost predicate ReadersOk(s: State) {
    forall x, d :: x in Dependents(s, d) ==> x in s.nodes && d in Deps(s, x)
  }

  ghost predicate NoDups(s: State) {
    forall x :: Edges.NoDup(Deps(s, x)) && Edges.NoDup(Dependents(s, x))
  }

  /** Both directions of every edge are recorded, once, and reads go down in rank. */
  ghost predicate EdgesOk(g: Plan, s: State) {
    ReadsOk(g, s) && ReadersOk(s) && NoDups(s)
  }

  ghost predicate Shape(g: Plan, s: State) {
    && (forall x :: x in s.nodes <==> 1 <= x < s.nextId)
    && (forall x :: x in s.nodes ==> NodeOk(g, x, s.nodes[x]))
    && EdgesOk(g, s)
    && Edges.NoDup(s.pending)
    && (forall x :: x in s.pending ==> IsEffect(s, x))
    && (forall x :: x in s.batched ==> IsCell(s, x))
  }

  // -- coherence ----------------------------------------------------------------------

  /** Runs `p` on the stored values, collecting the nodes read in first-read order. */
  function Replay(s: State, p: Prog, acc: seq<Id>): Option<(Value, seq<Id>)>
    decreases p
  {
    match p
    case Ret(v) => Some((v, acc))
    case Read(d, next) =>
      var v := Cached(s, d);
      if v.None? || v.value !in next then None else Replay(s, next[v.value], Edges.Insert(acc, d))
  }

  predicate Fresh(s: State, d: Id) { IsCell(s, d) || Clean(s, d) }

  predicate OwedRun(s: State, x: Id) { IsEffect(s, x) && s.nodes[x].forceRun }

  predicate Settled(s: State, x: Id) { Clean(s, x) || (IsEffect(s, x) && x !in s.pending) }

  /** A node whose recorded result is claimed for the stored values of its dependencies. */
  predicate Due(s: State, x: Id) {
    x in s.nodes && match s.nodes[x]
      case Cell(_, _) => false
      case Slot(_, cached, _, force, _, _) => cached.Some? && !force
      case Effect(_, seen, forceRun, _) => seen.Some? && !forceRun
  }

  ghost predicate Unbatched(s: State, x: Id) {
    forall d :: d in Deps(s, x) ==> d !in s.batched
  }

  predicate Consistent(s: State, x: Id)
    requires x in s.nodes && !s.nodes[x].Cell?
  {
    var n := s.nodes[x];
    if n.Slot? then n.cached.Some? && Replay(s, n.compute, []) == Some((n.cached.value, n.deps))
    else n.seen.Some? && Replay(s, n.run, []) == Some((n.seen.value, n.deps))
  }

  /** Settled nodes read only settled ones. */
  ghost predicate Calm(s: State, A: set<Id>) {
    forall x, d :: x !in A && Settled(s, x) && d in Deps(s, x) ==> Fresh(s, d)
  }

  /** Everything that was read had a value. */
  ghost predicate Known(s: State, B: set<Id>) {
    forall x, d :: x !in B && d in Deps(s, x) ==> Cached(s, d).Some?
  }

  /** Recorded results are what the stored values give, `stale` nodes aside. */
  ghost predicate Right(s: State, B: set<Id>, stale: seq<Id>) {
    forall x :: x !in B && x !in stale && Due(s, x) && Unbatched(s, x) ==> Consistent(s, x)
  }

  /** An effect owed a run is queued. */
  ghost predicate Queued(s: State, B: set<Id>) {
    forall x :: x !in B && IsEffect(s, x) ==>
      && (s.nodes[x].forceRun ==> x in s.pending)
      && (s.nodes[x].seen.None? ==> s.nodes[x].forceRun)
  }

  /**
   `A` holds the nodes being refreshed or run, `B` those of them whose compute is running: their
   edges are still being collected.
   */
  ghost predicate Coherent(s: State, A: set<Id>, B: set<Id>, stale: seq<Id>) {
    Calm(s, A) && Known(s, B) && Right(s, B, stale) && Queued(s, B)
  }

  ghost predicate ActiveOk(s: State, A: set<Id>, B: set<Id>) {
    && B <= A
    && (forall a :: a in A ==> a in s.nodes && !s.nodes[a].Cell? && !Clean(s, a))
  }

  ghost predicate Inv(g: Plan, s: State, A: set<Id>, B: set<Id>) {
    Exact(g) && Shape(g, s) && ActiveOk(s, A, B) && Coherent(s, A, B, [])
  }

  // -- frames ----------------------------------------------------------------------------

  /** Same kind of node, same compute, same source value; a value once had is not lost. */
  predicate SameCore(m: Node, n: Node) {
    match m
    case Cell(v, _) => n.Cell? && n.value == v
    case Slot(p, c, _, _, _, _) => n.Slot? && n.compute == p && (c.Some? ==> n.cached.Some?)
    case Effect(p, _, _, _) => n.Effect? && n.run == p
  }

  /** Same result; flags may only have been raised. */
  predicate SameResult(m: Node, n: Node) {
    match m
    case Cell(v, _) => n.Cell? && n.value == v
    case Slot(_, c, dirty, force, _, _) => n.Slot? && n.cached == c && (dirty ==> n.dirty) && (force ==> n.force)
    case Effect(_, seen, force, _) => n.Effect? && n.seen == seen && (force ==> n.forceRun)
  }

  /** Nothing but marks, queue entries and incoming edges changed: the graph part of any step. */
  ghost predicate Extends(s: State, t: State) {
    && t.nodes.Keys == s.nodes.Keys
    && t.batched == s.batched && t.depth == s.depth && t.nextId == s.nextId
    && (forall x :: x in s.nodes ==> SameCore(s.nodes[x], t.nodes[x]))
    && s.pending <= t.pending
  }

  /**
   What refreshing nodes of rank below `r`, and `target`, may change while `A` is active: nodes of
   rank `r` and above, active nodes and effects keep their results, clean slots stay exactly as they are,
   and a slot that got another value is clean. Only `owner` and `target` may change what they read.
   */
  ghost predicate Frame(g: Plan, s: State, t: State, A: set<Id>, r: nat, owner: Id, target: Id) {
    && Extends(s, t)
    && (forall x :: x in s.nodes && x != target && (x in A || s.nodes[x].Effect? || Rank(g, x) >= r) ==>
          SameResult(s.nodes[x], t.nodes[x]) && (x != owner ==> Deps(t, x) == Deps(s, x)))
    && (forall x :: Clean(s, x) && x !in A ==>
          Clean(t, x) && t.nodes[x].cached == s.nodes[x].cached && Deps(t, x) == Deps(s, x))
    && (forall x :: x !in A && Cached(t, x) != Cached(s, x) ==> Clean(t, x))
    && (forall x :: x in t.pending && x !in s.pending ==> x in A)
    && (forall x :: OwedRun(t, x) ==> OwedRun(s, x) || x in t.pending)
  }

  lemma FrameTrans(g: Plan, s: State, t: State, u: State, A: set<Id>, r: nat, owner: Id, target: Id)
    requires Frame(g, s, t, A, r, owner, target) && Frame(g, t, u, A, r, owner, target)
    ensures Frame(g, s, u, A, r, owner, target)
  {
  }
}
