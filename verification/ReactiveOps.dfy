/** The public operations, whole runs, and the glitch-freedom theorems. */
module ReactiveOps {
  import opened Basics
  import Edges
  import opened ReactiveModel
  import opened ReactiveInvariant
  import opened ReactiveMarking
  import opened ReactiveRefresh
  import opened ReactiveRuns

  // -- operations -----------------------------------------------------------------------

  /** Run queued effects until none is left. */
  function Flush(g: Plan, s: State): State
    requires Inv(g, s, {}, {})
    decreases |Stale(s)|, |s.pending|
  {
    if s.pending == [] then s
    else
      RunHeadOk(g, s);
      Flush(g, RunHead(g, s))
  }

  function NewSource(s: State, v: Value): State {
    s.(nodes := s.nodes[s.nextId := Cell(v, [])], nextId := s.nextId + 1)
  }

  function NewComputed(s: State, p: Prog): State {
    s.(nodes := s.nodes[s.nextId := Slot(p, None, false, false, [], [])], nextId := s.nextId + 1)
  }

  /** A new effect is queued with its force bit up, before the queue is drained. */
  function NewEffect(s: State, p: Prog): State {
    ScheduleOne(s.(nodes := s.nodes[s.nextId := Effect(p, None, true, [])], nextId := s.nextId + 1), s.nextId, false)
  }

  /** Store a source value; outside a batch mark its cone. The flag says whether a flush is owed. */
  function Write(g: Plan, s: State, x: Id, v: Value): (State, bool)
    requires IsCell(s, x)
  {
    if g.same(s.nodes[x].value, v) then (s, false)
    else
      var s1 := Put(s, x, s.nodes[x].(value := v));
      if s.depth > 0 then (s1.(batched := Edges.Insert(s1.batched, x)), false)
      else
        var (s2, effects) := Mark(s1, Entries(Dependents(s1, x), true), []);
        (Schedule(s2, effects), effects != [])
  }

  function BatchRoots(s: State, cells: seq<Id>): seq<Id> {
    if cells == [] then [] else Dependents(s, cells[0]) + BatchRoots(s, cells[1..])
  }

  /** Leave a batch; leaving the outermost one marks the cone of everything written in it. */
  function EndBatch(s: State): State
    requires s.depth > 0
  {
    var s1 := s.(depth := s.depth - 1);
    if s1.depth > 0 then s1 else MarkAndSchedule(s1.(batched := []), BatchRoots(s1, s1.batched))
  }

  datatype Op =
    | MakeSource(v: Value) | MakeComputed(p: Prog) | MakeEffect(p: Prog)
    | Set(x: Id, v: Value) | Begin | End | Get(x: Id)

  /** What the plan and the computes must satisfy for an operation to be part of a run. */
  ghost predicate Legal(g: Plan, s: State, op: Op) {
    match op
    case MakeSource(_) => g.role(s.nextId).kind == CellKind
    case MakeComputed(p) => g.role(s.nextId).kind == SlotKind && Reads(g, s.nextId, p) && NearFirst(g, p, [])
    case MakeEffect(p) => g.role(s.nextId).kind == EffectKind && Reads(g, s.nextId, p)
    case Set(x, _) => IsCell(s, x)
    case Begin => true
    case End => s.depth > 0
    case Get(x) => IsCell(s, x) || IsSlot(s, x)
  }

  /** Between operations nothing is active, nothing is queued, and outside batches nothing is batched. */
  ghost predicate Top(g: Plan, s: State) {
    Inv(g, s, {}, {}) && s.pending == [] && (s.depth == 0 ==> s.batched == []) && 1 <= s.nextId
  }

  /** State before the queue is drained. */
  function Prepare(g: Plan, s: State, op: Op): State {
    match op
    case MakeSource(v) => NewSource(s, v)
    case MakeComputed(p) => NewComputed(s, p)
    case MakeEffect(p) => NewEffect(s, p)
    case Set(x, v) => if IsCell(s, x) then Write(g, s, x, v).0 else s
    case Begin => s.(depth := s.depth + 1)
    case End => if s.depth > 0 then EndBatch(s) else s
    case Get(x) => Refresh(g, s, x).0
  }

  /** Whether the operation drains the effect queue. */
  predicate Owed(g: Plan, s: State, op: Op) {
    match op
    case MakeEffect(_) => true
    case Set(x, v) => IsCell(s, x) && Write(g, s, x, v).1
    case End => s.depth == 1
    case _ => false
  }

  function Step(g: Plan, s: State, op: Op): State
    requires Top(g, s) && Legal(g, s, op)
  {
    PrepareOk(g, s, op);
    if Owed(g, s, op) then Flush(g, Prepare(g, s, op)) else Prepare(g, s, op)
  }

  // -- each operation keeps the invariant ----------------------------------------------------

  lemma PrepareOk(g: Plan, s: State, op: Op)
    requires Top(g, s) && Legal(g, s, op)
    ensures var t := Prepare(g, s, op);
      Inv(g, t, {}, {}) && (t.depth == 0 ==> t.batched == []) && 1 <= t.nextId && (!Owed(g, s, op) ==> t.pending == [])
  {
    hide Inv, Write, EndBatch, Refresh, Reads, NearFirst;
    match op
    case MakeSource(v) => NewNodeOk(g, s, Cell(v, []), []);
    case MakeComputed(p) => NewNodeOk(g, s, Slot(p, None, false, false, [], []), []);
    case MakeEffect(p) => NewEffectOk(g, s, p);
    case Set(x, v) => WriteOk(g, s, x, v);
    case Begin => DepthOk(g, s, s.depth + 1);
    case End => EndBatchOk(g, s);
    case Get(x) => GetOk(g, s, x);
  }

  lemma NewEffectOk(g: Plan, s: State, p: Prog)
    requires Top(g, s) && Legal(g, s, MakeEffect(p))
    ensures var t := NewEffect(s, p);
      Inv(g, t, {}, {}) && t.batched == s.batched && t.depth == s.depth && t.nextId == s.nextId + 1
  {
    hide Inv, Reads, NearFirst;
    assert s.pending + [s.nextId] == [s.nextId];
    NewNodeOk(g, s, Effect(p, None, true, []), [s.nextId]);
  }

  /** A read leaves the queue empty: it only marks what was already unsettled. */
  lemma GetOk(g: Plan, s: State, x: Id)
    requires Top(g, s)
    ensures var t := Refresh(g, s, x).0;
      && Inv(g, t, {}, {}) && t.pending == [] && SameSources(s, t) && KeptClean(s, t)
      && (IsSlot(s, x) ==> Clean(t, x) && Settles(s, t, x))
  {
    if IsSlot(s, x) {
      RefreshOk(g, s, x, {}, {});
      var t := Refresh(g, s, x).0;
      HasMember(t.pending);
    }
  }

  lemma HasMember(q: seq<Id>)
    ensures q == [] || exists e :: e in q
  {
    if q != [] {
      assert q[0] in q;
    }
  }

  lemma StoreOk(g: Plan, s: State, x: Id, v: Value)
    requires Inv(g, s, {}, {}) && IsCell(s, x)
    ensures var t := Put(s, x, s.nodes[x].(value := v));
      Shape(g, t) && ActiveOk(t, {}, {}) && Coherent(t, {}, {}, Dependents(t, x)) && SameEdges(s, t)
  {
    hide NodeOk, EdgesOk, Consistent, Calm, Right;
    var t := Put(s, x, s.nodes[x].(value := v));
    assert SameEdges(s, t);
    SameEdgesOk(g, s, t);
    assert Shape(g, t) by {
      forall y | y in t.nodes ensures NodeOk(g, y, t.nodes[y]) {
        CellOk(g, s, x, v);
      }
    }
    assert forall y :: y != x ==> Cached(t, y) == Cached(s, y);
    StoreCalm(s, t, x);
    StoreRight(g, s, t, x);
  }

  /** Another value in a source. */
  ghost predicate Stored(s: State, t: State, x: Id) {
    IsCell(s, x) && exists v :: t == Put(s, x, s.nodes[x].(value := v))
  }

  lemma StoreCalm(s: State, t: State, x: Id)
    requires Calm(s, {}) && Stored(s, t, x) && SameEdges(s, t)
    ensures Calm(t, {})
  {
    forall y, d | Settled(t, y) && d in Deps(t, y) ensures Fresh(t, d) {
      assert Settled(s, y) && d in Deps(s, y) && Fresh(s, d);
    }
  }

  lemma StoreRight(g: Plan, s: State, t: State, x: Id)
    requires EdgesOk(g, s) && Right(s, {}, []) && Stored(s, t, x) && SameEdges(s, t)
    requires forall y :: y != x ==> Cached(t, y) == Cached(s, y)
    ensures Right(t, {}, Dependents(t, x))
  {
    hide EdgesOk, Consistent;
    forall y | y !in {} && y !in Dependents(t, x) && Due(t, y) && Unbatched(t, y) ensures Consistent(t, y) {
      assert Due(s, y) && Unbatched(s, y);
      NotARead(g, s, x, y);
      ConsistentStable(s, t, y);
    }
  }

  lemma CellOk(g: Plan, s: State, x: Id, v: Value)
    requires Shape(g, s) && IsCell(s, x)
    ensures NodeOk(g, x, s.nodes[x].(value := v))
  {
    assert NodeOk(g, x, s.nodes[x]);
  }

  lemma NotARead(g: Plan, s: State, x: Id, y: Id)
    requires EdgesOk(g, s) && y !in Dependents(s, x)
    ensures x !in Deps(s, y)
  {
  }

  lemma WriteOk(g: Plan, s: State, x: Id, v: Value)
    requires Top(g, s) && IsCell(s, x)
    ensures var (t, owed) := Write(g, s, x, v);
      && Inv(g, t, {}, {}) && t.depth == s.depth && t.nextId == s.nextId
      && (t.depth == 0 ==> t.batched == []) && (!owed ==> t.pending == [])
  {
    hide Mark, NodeOk, EdgesOk, Consistent, Coherent;
    if !g.same(s.nodes[x].value, v) {
      var s1 := Put(s, x, s.nodes[x].(value := v));
      StoreOk(g, s, x, v);
      var roots := Dependents(s1, x);
      if s.depth > 0 {
        BatchedOk(g, s1, x);
      } else {
        AllUpClosed(g, s1);
        RootsLive(g, s1, x);
        MarkingRestores(g, s1, roots, {}, {}, s1.nodes.Keys);
        forall e | e in Entries(roots, true) ensures e.0 in s1.nodes.Keys { }
        MarkStaysInside(s1, Entries(roots, true), [], s1.nodes.Keys);
        assert Write(g, s, x, v).0 == MarkAndSchedule(s1, roots);
      }
    }
  }

  lemma RootsLive(g: Plan, s: State, x: Id)
    requires EdgesOk(g, s)
    ensures forall y :: y in Dependents(s, x) ==> y in s.nodes.Keys
  {
  }

  lemma AllUpClosed(g: Plan, s: State)
    requires Shape(g, s)
    ensures UpClosed(s, s.nodes.Keys)
  {
  }

  /** Inside a batch the readers of a written cell are exempt until the batch ends. */
  lemma BatchedOk(g: Plan, s: State, x: Id)
    requires Exact(g) && Shape(g, s) && ActiveOk(s, {}, {}) && Coherent(s, {}, {}, Dependents(s, x)) && IsCell(s, x)
    ensures Inv(g, s.(batched := Edges.Insert(s.batched, x)), {}, {})
  {
    hide NodeOk, EdgesOk, Consistent;
    var t := s.(batched := Edges.Insert(s.batched, x));
    assert SameEdges(s, t) && SameSlots(s, t);
    SameEdgesOk(g, s, t);
    assert Right(t, {}, []) by {
      forall y | Due(t, y) && Unbatched(t, y) ensures Consistent(t, y) {
        assert x in t.batched;
        assert x !in Deps(s, y);
        assert y !in Dependents(s, x) by { NotAReader(g, s, x, y); }
        assert Due(s, y) && Unbatched(s, y);
        ConsistentStable(s, t, y);
      }
    }
  }

  lemma NotAReader(g: Plan, s: State, x: Id, y: Id)
    requires EdgesOk(g, s) && x !in Deps(s, y)
    ensures y !in Dependents(s, x)
  {
  }

  lemma {:induction false} BatchRootsOk(s: State, cells: seq<Id>, y: Id)
    ensures y in BatchRoots(s, cells) <==> exists c :: c in cells && y in Dependents(s, c)
  {
    if cells != [] {
      assert cells == [cells[0]] + cells[1..];
      BatchRootsOk(s, cells[1..], y);
    }
  }

  lemma EndBatchOk(g: Plan, s: State)
    requires Top(g, s) && s.depth > 0
    ensures var t := EndBatch(s);
      && Inv(g, t, {}, {}) && (t.depth == 0 ==> t.batched == []) && t.nextId == s.nextId
      && (s.depth != 1 ==> t.pending == [])
  {
    hide Inv, Coherent, MarkAndSchedule, EdgesOk, NodeOk;
    var s1 := s.(depth := s.depth - 1);
    DepthOk(g, s, s.depth - 1);
    if s1.depth == 0 {
      var roots := BatchRoots(s1, s1.batched);
      UnbatchedOk(g, s1, roots);
      var s2 := s1.(batched := []);
      AllUpClosed(g, s2);
      forall y | y in roots ensures y in s2.nodes.Keys {
        BatchRootsOk(s1, s1.batched, y);
        BatchRootLive(g, s1, y);
      }
      MarkingRestores(g, s2, roots, {}, {}, s2.nodes.Keys);
    }
  }

  lemma BatchRootLive(g: Plan, s: State, y: Id)
    requires Inv(g, s, {}, {}) && exists c :: y in Dependents(s, c)
    ensures y in s.nodes
  {
  }

  lemma UnbatchedOk(g: Plan, s: State, roots: seq<Id>)
    requires Inv(g, s, {}, {}) && roots == BatchRoots(s, s.batched)
    ensures var t := s.(batched := []); Exact(g) && Shape(g, t) && ActiveOk(t, {}, {}) && Coherent(t, {}, {}, roots)
  {
    hide NodeOk, EdgesOk, Consistent;
    var t := s.(batched := []);
    assert SameEdges(s, t) && SameSlots(s, t);
    SameEdgesOk(g, s, t);
    assert Right(t, {}, roots) by {
      forall y | y !in roots && Due(t, y) && Unbatched(t, y) ensures Consistent(t, y) {
        forall d | d in Deps(s, y) ensures d !in s.batched {
          BatchRootsOk(s, s.batched, y);
          if d in s.batched {
            ReaderOf(g, s, d, y);
          }
        }
        assert Due(s, y) && Unbatched(s, y);
        ConsistentStable(s, t, y);
      }
    }
  }

  lemma ReaderOf(g: Plan, s: State, d: Id, y: Id)
    requires EdgesOk(g, s) && d in Deps(s, y)
    ensures y in Dependents(s, d)
  {
  }

  lemma NewNodeOk(g: Plan, s: State, n: Node, queue: seq<Id>)
    requires Top(g, s) && NodeOk(g, s.nextId, n)
    requires n.Cell? ==> n.dependents == []
    requires n.Slot? ==> n.cached == None && !n.dirty && n.deps == [] && n.dependents == []
    requires n.Effect? ==> n.deps == [] && n.seen == None && n.forceRun
    requires queue == if n.Effect? then [s.nextId] else []
    ensures var t := s.(nodes := s.nodes[s.nextId := n], pending := queue, nextId := s.nextId + 1); Inv(g, t, {}, {})
  {
    hide Reads, NearFirst, Calm, Known, Right, EdgesOk;
    var id := s.nextId;
    var t := s.(nodes := s.nodes[id := n], pending := queue, nextId := id + 1);
    assert id !in s.nodes;
    assert SameEdges(s, t);
    NewNodeShape(g, s, t, n);
    DepsExist(g, s);
    NewNodeReads(s, t, n);
    NewNodeCalm(s, t, n);
    NewNodeRight(s, t, n);
  }

  lemma DepsExist(g: Plan, s: State)
    requires EdgesOk(g, s)
    ensures forall x, d :: d in Deps(s, x) ==> d in s.nodes
  {
  }

  /** A node just created: nothing is stored for it and no effect runs before it. */
  ghost predicate Added(s: State, t: State, n: Node) {
    && s.nextId !in s.nodes && t == s.(nodes := s.nodes[s.nextId := n], pending := t.pending, nextId := s.nextId + 1) && SameEdges(s, t)
    && (n.Slot? ==> n.cached == None && !n.dirty) && (n.Effect? ==> n.seen == None && n.forceRun)
    && s.pending == [] && t.pending == if n.Effect? then [s.nextId] else []
  }

  lemma NewNodeReads(s: State, t: State, n: Node)
    requires Added(s, t, n)
    ensures forall y :: y != s.nextId ==> Cached(t, y) == Cached(s, y) && Clean(t, y) == Clean(s, y) && Fresh(t, y) == Fresh(s, y)
    ensures forall y :: Settled(t, y) ==> Settled(s, y) || Deps(t, y) == []
    ensures forall y :: Due(t, y) ==> y != s.nextId && Due(s, y)
  {
  }

  lemma NewNodeCalm(s: State, t: State, n: Node)
    requires Added(s, t, n) && Calm(s, {}) && Known(s, {}) && forall x, d :: d in Deps(s, x) ==> d in s.nodes
    ensures Calm(t, {}) && Known(t, {})
  {
    hide Fresh, Settled;
    NewNodeReads(s, t, n);
    forall y, d | Settled(t, y) && d in Deps(t, y) ensures Fresh(t, d) {
      assert d in Deps(s, y) && Settled(s, y);
    }
    forall y, d | d in Deps(t, y) ensures Cached(t, d).Some? {
      assert d in Deps(s, y);
    }
  }

  lemma NewNodeRight(s: State, t: State, n: Node)
    requires Added(s, t, n) && Right(s, {}, []) && t.batched == s.batched && forall x, d :: d in Deps(s, x) ==> d in s.nodes
    ensures Right(t, {}, [])
  {
    hide Fresh;
    NewNodeReads(s, t, n);
    forall y | Due(t, y) && Unbatched(t, y) ensures Consistent(t, y) {
      assert Due(s, y) && Unbatched(s, y);
      ConsistentStable(s, t, y);
    }
  }

  lemma NewNodeShape(g: Plan, s: State, t: State, n: Node)
    requires Shape(g, s) && s.nextId >= 1 && NodeOk(g, s.nextId, n) && SameEdges(s, t)
    requires t == s.(nodes := s.nodes[s.nextId := n], pending := t.pending, nextId := s.nextId + 1)
    requires Edges.NoDup(t.pending) && forall x :: x in t.pending ==> IsEffect(t, x)
    ensures Shape(g, t)
  {
    hide NodeOk;
    assert s.nextId !in s.nodes;
    assert ReadsOk(g, t) by {
      forall x, d | d in Deps(t, x)
        ensures d in t.nodes && !t.nodes[d].Effect? && Below(g, d, x) && x in Dependents(t, d)
      {
        assert d in Deps(s, x);
      }
    }
    assert ReadersOk(t) by {
      forall x, d | x in Dependents(t, d) ensures x in t.nodes && d in Deps(t, x) {
        assert x in Dependents(s, d);
      }
    }
  }

  lemma DepthOk(g: Plan, s: State, depth: nat)
    requires Inv(g, s, {}, {})
    ensures Inv(g, s.(depth := depth), {}, {})
  {
    hide NodeOk, EdgesOk;
    var t := s.(depth := depth);
    assert SameEdges(s, t) && SameSlots(s, t);
    SameEdgesOk(g, s, t);
    RightAtDepth(s, t, {});
  }

  /** Replays do not look at the batch depth. */
  lemma RightAtDepth(s: State, t: State, B: set<Id>)
    requires Right(s, B, []) && t == s.(depth := t.depth)
    ensures Right(t, B, [])
  {
    hide Consistent;
    forall y | y !in B && Due(t, y) && Unbatched(t, y) ensures Consistent(t, y) {
      assert Due(s, y) && Unbatched(s, y);
      ConsistentStable(s, t, y);
    }
  }

  // -- from-scratch values ---------------------------------------------------------------------

  lemma {:induction false} FreshIsEval(g: Plan, s: State, x: Id)
    requires Inv(g, s, {}, {}) && s.batched == [] && Fresh(s, x)
    ensures Eval(g, s, x) == Cached(s, x)
    decreases Rank(g, x), 1
  {
    if IsSlot(s, x) {
      var n := s.nodes[x];
      assert Due(s, x) && Unbatched(s, x) && Consistent(s, x) && Settled(s, x);
      assert NodeOk(g, x, n);
      ReplayIsEval(g, s, x, n.compute, []);
    }
  }

  lemma {:induction false} ReplayIsEval(g: Plan, s: State, x: Id, p: Prog, acc: seq<Id>)
    requires Inv(g, s, {}, {}) && s.batched == [] && Reads(g, x, p)
    requires Replay(s, p, acc).Some? && AllFresh(s, Replay(s, p, acc).value.1)
    ensures EvalProg(g, s, x, p) == Some(Replay(s, p, acc).value.0)
    decreases Rank(g, x), 0, p
  {
    hide Inv, Fresh;
    match p
    case Ret(_) =>
    case Read(d, next) =>
      var v := Cached(s, d);
      ReplayKeeps(s, next[v.value], Edges.Insert(acc, d));
      FreshIsEval(g, s, d);
      ReplayIsEval(g, s, x, next[v.value], Edges.Insert(acc, d));
  }

  /** From-scratch values depend on sources and computes only. */
  lemma {:induction false} EvalSame(g: Plan, s: State, t: State, x: Id)
    requires SameSources(s, t)
    ensures Eval(g, t, x) == Eval(g, s, x)
    decreases Rank(g, x), 1
  {
    if x in s.nodes {
      assert SameCore(s.nodes[x], t.nodes[x]);
      if IsSlot(s, x) {
        EvalProgSame(g, s, t, x, s.nodes[x].compute);
      }
    }
  }

  lemma {:induction false} EvalProgSame(g: Plan, s: State, t: State, x: Id, p: Prog)
    requires SameSources(s, t)
    ensures EvalProg(g, t, x, p) == EvalProg(g, s, x, p)
    decreases Rank(g, x), 0, p
  {
    match p
    case Ret(_) =>
    case Read(d, next) =>
      if Rank(g, d) < Rank(g, x) {
        EvalSame(g, s, t, d);
        var v := Eval(g, s, d);
        if v.Some? && v.value in next {
          EvalProgSame(g, s, t, x, next[v.value]);
        }
      }
  }

  // -- main theorems ---------------------------------------------------------------------------

  /** The value a read returns. */
  function Observe(g: Plan, s: State, x: Id): Option<Value> { Cached(Refresh(g, s, x).0, x) }

  /** Outside a batch every read returns the from-scratch value for the current sources. */
  lemma GlitchFreeRead(g: Plan, s: State, x: Id)
    requires Top(g, s) && s.depth == 0 && (IsCell(s, x) || IsSlot(s, x))
    ensures Observe(g, s, x).Some? && Observe(g, s, x) == Eval(g, s, x)
  {
    hide Inv;
    GetOk(g, s, x);
    var t := Refresh(g, s, x).0;
    EvalSame(g, s, t, x);
    FreshIsEval(g, t, x);
  }

  /** Outside a batch every effect last ran on current values. */
  lemma EffectsCurrent(g: Plan, s: State, x: Id)
    requires Top(g, s) && s.depth == 0 && IsEffect(s, x)
    ensures s.nodes[x].seen.Some? && s.nodes[x].seen == EvalProg(g, s, x, s.nodes[x].run)
  {
    var n := s.nodes[x];
    assert Due(s, x) && Unbatched(s, x) && Consistent(s, x) && Settled(s, x);
    assert NodeOk(g, x, n);
    ReplayIsEval(g, s, x, n.run, []);
  }

  lemma {:induction false} FlushOk(g: Plan, s: State)
    requires Inv(g, s, {}, {})
    ensures var t := Flush(g, s); Inv(g, t, {}, {}) && t.pending == [] && SameSources(s, t) && KeptClean(s, t)
    decreases |Stale(s)|, |s.pending|
  {
    hide Inv, RunHead;
    if s.pending != [] {
      RunHeadOk(g, s);
      FlushOk(g, RunHead(g, s));
      SameSourcesTrans(s, RunHead(g, s), Flush(g, s));
    } else {
      SameSourcesRefl(s);
    }
  }

  lemma SameSourcesRefl(s: State)
    ensures SameSources(s, s)
  {
  }

  lemma SameSourcesTrans(s: State, t: State, u: State)
    requires SameSources(s, t) && SameSources(t, u)
    ensures SameSources(s, u)
  {
    forall x | x in s.nodes ensures SameCore(s.nodes[x], u.nodes[x]) {
      assert SameCore(s.nodes[x], t.nodes[x]) && SameCore(t.nodes[x], u.nodes[x]);
    }
  }

  lemma StepOk(g: Plan, s: State, op: Op)
    requires Top(g, s) && Legal(g, s, op)
    ensures Top(g, Step(g, s, op))
  {
    hide Inv, Prepare, Owed, Legal;
    PrepareOk(g, s, op);
    if Owed(g, s, op) {
      FlushOk(g, Prepare(g, s, op));
    }
  }

  lemma EmptyOk(g: Plan)
    requires Exact(g)
    ensures Top(g, EMPTY)
  {
  }

  /** The state after a run from nothing, or None once an operation was not legal. */
  ghost function Reach(g: Plan, ops: seq<Op>): (r: Option<State>)
    requires Exact(g)
    ensures r.Some? ==> Top(g, r.value)
    decreases |ops|
  {
    if ops == [] then
      EmptyOk(g);
      Some(EMPTY)
    else
      var r := Reach(g, ops[..|ops| - 1]);
      var op := ops[|ops| - 1];
      if r.Some? && Legal(g, r.value, op) then
        StepOk(g, r.value, op);
        Some(Step(g, r.value, op))
      else None
  }

  /**
   After any legal run, outside a batch: every read returns the from-scratch value of its node and
   every effect last ran on current values.
   */
  lemma GlitchFree(g: Plan, ops: seq<Op>)
    requires Exact(g)
    ensures match Reach(g, ops)
      case None => true
      case Some(s) =>
        s.depth == 0 ==>
          && (forall x :: IsCell(s, x) || IsSlot(s, x) ==> Observe(g, s, x).Some? && Observe(g, s, x) == Eval(g, s, x))
          && (forall x :: IsEffect(s, x) ==> s.nodes[x].seen.Some? && s.nodes[x].seen == EvalProg(g, s, x, s.nodes[x].run))
  {
    hide Inv, Observe, Eval, EvalProg;
    var r := Reach(g, ops);
    if r.Some? && r.value.depth == 0 {
      var s := r.value;
      forall x | IsCell(s, x) || IsSlot(s, x) ensures Observe(g, s, x).Some? && Observe(g, s, x) == Eval(g, s, x) {
        GlitchFreeRead(g, s, x);
      }
      forall x | IsEffect(s, x)
        ensures s.nodes[x].seen.Some? && s.nodes[x].seen == EvalProg(g, s, x, s.nodes[x].run)
      {
        EffectsCurrent(g, s, x);
      }
    }
  }
}
