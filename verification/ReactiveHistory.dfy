/** The kernel against the list of its calls alone: what each read returns, outside a batch and inside one. */
module ReactiveHistory {
  import opened Basics
  import Edges
  import opened ReactiveModel
  import opened ReactiveInvariant
  import opened ReactiveMarking
  import opened ReactiveRefresh
  import opened ReactiveRuns
  import opened ReactiveOps

  // -- what the calls say -------------------------------------------------------------------------------

  /** The sources with the values last set, the computes and effects as they were given, and the open batches. */
  datatype Book = Book(sources: map<Id, Value>, computes: map<Id, Prog>, effects: map<Id, Prog>, next: Id, depth: nat)

  const BLANK := Book(map[], map[], map[], 1, 0)

  function Entered(b: Book, op: Op): Book {
    match op
    case MakeSource(v) => b.(sources := b.sources[b.next := v], next := b.next + 1)
    case MakeComputed(p) => b.(computes := b.computes[b.next := p], next := b.next + 1)
    case MakeEffect(p) => b.(effects := b.effects[b.next := p], next := b.next + 1)
    case Set(x, v) => b.(sources := b.sources[x := v])
    case Begin => b.(depth := b.depth + 1)
    case End => b.(depth := if b.depth > 0 then b.depth - 1 else 0)
    case Get(_) => b
  }

  function Booked(ops: seq<Op>): Book
    decreases |ops|
  {
    if ops == [] then BLANK else Entered(Booked(ops[..|ops| - 1]), ops[|ops| - 1])
  }

  /** The value of a node by its compute and the sources, everything computed anew. */
  function Meaning(g: Plan, b: Book, x: Id): Option<Value>
    decreases Rank(g, x), 1
  {
    if x in b.sources then Some(b.sources[x])
    else if x in b.computes then MeaningOf(g, b, x, b.computes[x])
    else None
  }

  function MeaningOf(g: Plan, b: Book, x: Id, p: Prog): Option<Value>
    decreases Rank(g, x), 0, p
  {
    match p
    case Ret(v) => Some(v)
    case Read(d, next) =>
      if Rank(g, d) >= Rank(g, x) then None
      else
        var v := Meaning(g, b, d);
        if v.None? || v.value !in next then None else MeaningOf(g, b, x, next[v.value])
  }

  // -- the state holds what the calls said ------------------------------------------------------------------

  ghost predicate Holds(b: Book, s: State) {
    && b.next == s.nextId && b.depth == s.depth
    && (forall x :: x in b.sources <==> IsCell(s, x)) && (forall x :: x in b.sources ==> b.sources[x] == s.nodes[x].value)
    && (forall x :: x in b.computes <==> IsSlot(s, x)) && (forall x :: x in b.computes ==> b.computes[x] == s.nodes[x].compute)
    && (forall x :: x in b.effects <==> IsEffect(s, x)) && (forall x :: x in b.effects ==> b.effects[x] == s.nodes[x].run)
  }

  lemma HoldsSame(b: Book, s: State, t: State)
    requires Holds(b, s) && SameSources(s, t)
    ensures Holds(b, t)
  {
    forall x | x in s.nodes || x in t.nodes ensures x in s.nodes && x in t.nodes && SameCore(s.nodes[x], t.nodes[x]) {
      assert x in s.nodes.Keys <==> x in t.nodes.Keys;
    }
  }

  lemma PrepareHolds(g: Plan, b: Book, s: State, op: Op)
    requires Top(g, s) && Holds(b, s) && Legal(g, s, op)
    ensures Holds(Entered(b, op), Prepare(g, s, op))
  {
    hide Inv, Refresh, Reads, NearFirst, Write, EndBatch, Holds, IsCell;
    match op
    case Get(x) =>
      GetOk(g, s, x);
      HoldsSame(b, s, Refresh(g, s, x).0);
    case Set(x, v) =>
      HoldsCell(b, s, x);
      WriteHolds(g, b, s, x, v);
    case End => EndHolds(g, b, s);
    case Begin =>
      DepthIn(b, s);
      HoldsDepth(b, s, s.depth + 1);
    case _ => NewHolds(g, b, s, op);
  }

  lemma HoldsCell(b: Book, s: State, x: Id)
    requires Holds(b, s)
    ensures x in b.sources <==> IsCell(s, x)
  {
  }

  lemma HoldsDepth(b: Book, s: State, depth: nat)
    requires Holds(b, s)
    ensures Holds(b.(depth := depth), s.(depth := depth))
  {
  }

  lemma NewHolds(g: Plan, b: Book, s: State, op: Op)
    requires Top(g, s) && Holds(b, s) && (op.MakeSource? || op.MakeComputed? || op.MakeEffect?)
    ensures Holds(Entered(b, op), Prepare(g, s, op))
  {
    hide Inv, Holds;
    NewIsNew(g, s);
    match op
    case MakeSource(v) => NewSourceHolds(b, s, v);
    case MakeComputed(p) => NewComputedHolds(b, s, p);
    case MakeEffect(p) => NewEffectHolds(b, s, p);
  }

  lemma NewSourceHolds(b: Book, s: State, v: Value)
    requires Holds(b, s) && s.nextId !in s.nodes
    ensures Holds(b.(sources := b.sources[b.next := v], next := b.next + 1), NewSource(s, v))
  {
  }

  lemma NewComputedHolds(b: Book, s: State, p: Prog)
    requires Holds(b, s) && s.nextId !in s.nodes
    ensures Holds(b.(computes := b.computes[b.next := p], next := b.next + 1), NewComputed(s, p))
  {
  }

  lemma NewEffectHolds(b: Book, s: State, p: Prog)
    requires Holds(b, s) && s.nextId !in s.nodes
    ensures Holds(b.(effects := b.effects[b.next := p], next := b.next + 1), NewEffect(s, p))
  {
    hide Holds;
    var t := s.(nodes := s.nodes[s.nextId := Effect(p, None, true, [])], nextId := s.nextId + 1);
    AddedEffectHolds(b, s, p, t);
    HoldsQueued(b.(effects := b.effects[s.nextId := p], next := s.nextId + 1), t, NewEffect(s, p).pending);
    NextIn(b, s);
  }

  lemma AddedEffectHolds(b: Book, s: State, p: Prog, t: State)
    requires Holds(b, s) && s.nextId !in s.nodes
    requires t == s.(nodes := s.nodes[s.nextId := Effect(p, None, true, [])], nextId := s.nextId + 1)
    ensures Holds(b.(effects := b.effects[s.nextId := p], next := s.nextId + 1), t)
  {
  }

  lemma HoldsQueued(b: Book, s: State, pending: seq<Id>)
    requires Holds(b, s)
    ensures Holds(b, s.(pending := pending))
  {
  }

  lemma NextIn(b: Book, s: State)
    requires Holds(b, s)
    ensures b.next == s.nextId
  {
  }

  lemma NewIsNew(g: Plan, s: State)
    requires Top(g, s)
    ensures s.nextId !in s.nodes
  {
  }

  /** Marking changes no source and no compute. */
  lemma MarkedSame(g: Plan, s: State, roots: seq<Id>)
    requires Edges.NoDup(s.pending) && UpClosed(s, s.nodes.Keys) && forall x :: x in roots ==> x in s.nodes.Keys
    ensures SameSources(s, MarkAndSchedule(s, roots))
  {
    hide Mark, Schedule, MarkAndSchedule;
    MarksStayWithin(s, roots, s.nodes.Keys);
  }

  lemma StoreHolds(b: Book, s: State, x: Id, v: Value)
    requires Holds(b, s) && IsCell(s, x)
    ensures Holds(b.(sources := b.sources[x := v]), Put(s, x, s.nodes[x].(value := v)))
  {
  }

  lemma HoldsBatched(b: Book, s: State, batched: seq<Id>)
    requires Holds(b, s)
    ensures Holds(b, s.(batched := batched))
  {
  }

  lemma WriteHolds(g: Plan, b: Book, s: State, x: Id, v: Value)
    requires Top(g, s) && Holds(b, s) && IsCell(s, x)
    ensures Holds(b.(sources := b.sources[x := v]), Write(g, s, x, v).0)
  {
    hide Mark, Schedule, NodeOk, Coherent, ActiveOk, Holds, EdgesOk, UpClosed, SameSources;
    var c := b.(sources := b.sources[x := v]);
    var s1 := Put(s, x, s.nodes[x].(value := v));
    StoreHolds(b, s, x, v);
    if g.same(s.nodes[x].value, v) {
      InvExact(g, s, {}, {});
      assert s1 == s;
    } else {
      StoreOk(g, s, x, v);
      HoldsBatched(c, s1, Edges.Insert(s1.batched, x));
      if s.depth == 0 {
        EveryoneUpClosed(g, s1, x);
        MarkedSame(g, s1, Dependents(s1, x));
        HoldsSame(c, s1, MarkAndSchedule(s1, Dependents(s1, x)));
      }
    }
  }

  lemma EndHolds(g: Plan, b: Book, s: State)
    requires Top(g, s) && Holds(b, s) && s.depth > 0
    ensures Holds(Entered(b, End), EndBatch(s))
  {
    hide Inv, Mark, Schedule, Holds, UpClosed, SameSources, Shape;
    var s1 := s.(depth := s.depth - 1);
    HoldsDepth(b, s, s.depth - 1);
    DepthIn(b, s);
    if s1.depth == 0 {
      DepthOk(g, s, 0);
      var roots := BatchRoots(s1, s1.batched);
      var s2 := s1.(batched := []);
      HoldsBatched(Entered(b, End), s1, []);
      forall y | y in roots ensures y in s2.nodes.Keys {
        BatchRootsOk(s1, s1.batched, y);
        BatchRootLive(g, s1, y);
      }
      EveryoneMarks(g, s1, s2);
      MarkedSame(g, s2, roots);
      HoldsSame(Entered(b, End), s2, MarkAndSchedule(s2, roots));
    }
  }

  lemma DepthIn(b: Book, s: State)
    requires Holds(b, s)
    ensures b.depth == s.depth
  {
  }

  lemma EveryoneMarks(g: Plan, s: State, t: State)
    requires Inv(g, s, {}, {}) && t == s.(batched := [])
    ensures Edges.NoDup(t.pending) && UpClosed(t, t.nodes.Keys)
  {
    EveryoneUpClosed(g, s, 0);
  }

  lemma StepHolds(g: Plan, b: Book, s: State, op: Op)
    requires Top(g, s) && Holds(b, s) && Legal(g, s, op)
    ensures Holds(Entered(b, op), Step(g, s, op))
  {
    hide Inv, Prepare, Holds, Legal, Entered, Owed, Flush;
    PrepareHolds(g, b, s, op);
    PrepareOk(g, s, op);
    if Owed(g, s, op) {
      FlushOk(g, Prepare(g, s, op));
      HoldsSame(Entered(b, op), Prepare(g, s, op), Flush(g, Prepare(g, s, op)));
    }
  }

  lemma {:induction false} BookHolds(g: Plan, ops: seq<Op>)
    requires Exact(g)
    ensures match Reach(g, ops) case None => true case Some(s) => Holds(Booked(ops), s)
    decreases |ops|
  {
    hide Top, Legal, Step, Holds, Entered;
    if ops == [] {
      BlankHolds();
    } else {
      var before := ops[..|ops| - 1];
      BookHolds(g, before);
      var r := Reach(g, before);
      if r.Some? && Legal(g, r.value, ops[|ops| - 1]) {
        StepHolds(g, Booked(before), r.value, ops[|ops| - 1]);
      }
    }
  }

  lemma BlankHolds()
    ensures Holds(BLANK, EMPTY)
  {
  }

  lemma {:induction false} MeaningIs(g: Plan, b: Book, s: State, x: Id)
    requires Holds(b, s)
    ensures Eval(g, s, x) == Meaning(g, b, x)
    decreases Rank(g, x), 1
  {
    if IsSlot(s, x) {
      MeaningOfIs(g, b, s, x, s.nodes[x].compute);
    }
  }

  lemma {:induction false} MeaningOfIs(g: Plan, b: Book, s: State, x: Id, p: Prog)
    requires Holds(b, s)
    ensures EvalProg(g, s, x, p) == MeaningOf(g, b, x, p)
    decreases Rank(g, x), 0, p
  {
    hide Holds;
    match p
    case Ret(_) =>
    case Read(d, next) =>
      if Rank(g, d) < Rank(g, x) {
        MeaningIs(g, b, s, d);
        var v := Eval(g, s, d);
        if v.Some? && v.value in next {
          MeaningOfIs(g, b, s, x, next[v.value]);
        }
      }
  }

  // -- what reads return --------------------------------------------------------------------------------------

  /**
   After any legal run: a source reads as the value last set, inside a batch or out; outside a batch every
   read returns what its compute, as it was given, means for the sources as they were last set, and every
   effect last ran on that.
   */
  lemma ReadsMeanTheCalls(g: Plan, ops: seq<Op>, x: Id)
    requires Exact(g)
    ensures match Reach(g, ops)
      case None => true
      case Some(s) =>
        var b := Booked(ops);
        && (x in b.sources ==> Observe(g, s, x) == Some(b.sources[x]))
        && (b.depth == 0 && x in b.computes ==> Observe(g, s, x).Some? && Observe(g, s, x) == Meaning(g, b, x))
        && (b.depth == 0 && x in b.effects ==> IsEffect(s, x) && s.nodes[x].seen.Some? && s.nodes[x].seen == MeaningOf(g, b, x, b.effects[x]))
  {
    hide Inv, Eval, EvalProg, Meaning, MeaningOf, Booked;
    BookHolds(g, ops);
    var r := Reach(g, ops);
    if r.Some? {
      var (s, b) := (r.value, Booked(ops));
      MeaningIs(g, b, s, x);
      if b.depth == 0 && x in b.computes {
        GlitchFreeRead(g, s, x);
      }
      if b.depth == 0 && x in b.effects {
        EffectsCurrent(g, s, x);
        MeaningOfIs(g, b, s, x, s.nodes[x].run);
      }
    }
  }

  // -- reads inside a batch ---------------------------------------------------------------------------------------

  /**
   What one read gives at any depth: of a source what is stored; of a slot, up to date and reading only what
   is, the replay of its compute over what is stored; or, if it was not forced and reads a source written in
   the batch, the value it had.
   */
  ghost predicate ReadGives(g: Plan, s: State, t: State, x: Id, v: Option<Value>) {
    && (IsCell(s, x) ==> v == Some(s.nodes[x].value))
    && (IsSlot(s, x) ==>
          && IsSlot(t, x) && t.nodes[x].compute == s.nodes[x].compute && v == Cached(t, x) && v.Some?
          && Clean(t, x) && AllFresh(t, Deps(t, x))
          && (Unbatched(t, x) ==> Consistent(t, x))
          && (Consistent(t, x) || (!s.nodes[x].force && v == Cached(s, x))))
  }

  lemma ReadAtAnyDepth(g: Plan, s: State, x: Id)
    requires Top(g, s) && (IsCell(s, x) || IsSlot(s, x))
    ensures ReadGives(g, s, Refresh(g, s, x).0, x, Observe(g, s, x))
  {
    hide Refresh, Consistent;
    if IsSlot(s, x) {
      GetOk(g, s, x);
      var t := Refresh(g, s, x).0;
      CleanGives(g, t, x);
      assert SameCore(s.nodes[x], t.nodes[x]);
    } else {
      CellGives(g, s, x);
    }
  }

  lemma CellGives(g: Plan, s: State, x: Id)
    requires IsCell(s, x)
    ensures Observe(g, s, x) == Some(s.nodes[x].value)
  {
  }

  lemma CleanGives(g: Plan, t: State, x: Id)
    requires Inv(g, t, {}, {}) && Clean(t, x)
    ensures AllFresh(t, Deps(t, x)) && (Unbatched(t, x) ==> Consistent(t, x))
  {
    hide Consistent;
    assert Settled(t, x) && Due(t, x);
  }

  /** Inside a batch clean slots keep their values, whatever is written, created or read. */
  lemma BatchedStepKeeps(g: Plan, s: State, op: Op)
    requires Top(g, s) && Legal(g, s, op) && Step(g, s, op).depth > 0
    ensures KeptClean(s, Step(g, s, op))
  {
    hide Inv, Refresh, Reads, NearFirst, Flush, Mark, Schedule, BatchRoots;
    PrepareOk(g, s, op);
    NewIsNew(g, s);
    match op
    case MakeEffect(p) =>
      FlushOk(g, Prepare(g, s, op));
      FlushDepth(s, Prepare(g, s, op), Flush(g, Prepare(g, s, op)));
    case Get(x) => GetOk(g, s, x);
    case Set(x, v) => SetDepth(g, s, x, v);
    case End => EndDepth(g, s);
    case _ =>
  }

  lemma EndDepth(g: Plan, s: State)
    requires Top(g, s) && Legal(g, s, End) && Step(g, s, End).depth > 0
    ensures KeptClean(s, Step(g, s, End))
  {
    hide Inv, Flush, Mark, Schedule;
    PrepareOk(g, s, End);
    if s.depth == 1 {
      EndBatchOk(g, s);
      FlushOk(g, Prepare(g, s, End));
      MarkKeepsDepth(s.(depth := 0, batched := []), BatchRoots(s.(depth := 0), s.batched));
    }
  }

  lemma MarkKeepsDepth(s: State, roots: seq<Id>)
    ensures MarkAndSchedule(s, roots).depth == s.depth
  {
    var (s1, effects) := Mark(s, Entries(roots, true), []);
    WalkDepth(s, Entries(roots, true), []);
    QueueDepth(s1, effects);
  }

  lemma {:induction false} WalkDepth(s: State, stack: seq<(Id, bool)>, effects: seq<(Id, bool)>)
    ensures Mark(s, stack, effects).0.depth == s.depth
    decreases |Undirty(s)| + |Unforced(s)|, |stack|
  {
    if stack != [] {
      var (x, force) := stack[|stack| - 1];
      var rest := stack[..|stack| - 1];
      if IsSlot(s, x) {
        var n := s.nodes[x];
        MarkProgress(s, x, force);
        WalkDepth(Put(s, x, Flagged(n, force)), if Propagates(n, force) then rest + Entries(n.dependents, false) else rest, effects);
      } else if IsEffect(s, x) {
        WalkDepth(s, rest, effects + [(x, force)]);
      } else {
        WalkDepth(s, rest, effects);
      }
    }
  }

  lemma {:induction false} QueueDepth(s: State, effects: seq<(Id, bool)>)
    ensures Schedule(s, effects).depth == s.depth
    decreases |effects|
  {
    if effects != [] {
      QueueDepth(ScheduleOne(s, effects[0].0, effects[0].1), effects[1..]);
    }
  }

  lemma FlushDepth(s: State, s1: State, t: State)
    requires SameSources(s1, t) && KeptClean(s1, t)
    requires forall y :: Clean(s, y) ==> Clean(s1, y) && Cached(s1, y) == Cached(s, y)
    ensures KeptClean(s, t)
  {
  }

  /** A write inside a batch stores and notes, and no more. */
  lemma SetDepth(g: Plan, s: State, x: Id, v: Value)
    requires Top(g, s) && Legal(g, s, Set(x, v)) && Step(g, s, Set(x, v)).depth > 0
    ensures s.depth > 0 && KeptClean(s, Step(g, s, Set(x, v)))
  {
    hide Inv, Flush, Mark, Schedule;
    PrepareOk(g, s, Set(x, v));
    if s.depth == 0 {
      WriteOk(g, s, x, v);
      if Owed(g, s, Set(x, v)) {
        FlushOk(g, Prepare(g, s, Set(x, v)));
      }
    }
  }

  /** Every state of the run past `before` is inside a batch. */
  ghost predicate Inside(g: Plan, before: seq<Op>, more: seq<Op>)
    requires Exact(g)
    decreases |more|
  {
    more == [] ||
      (Inside(g, before, more[..|more| - 1]) && match Reach(g, before + more) case None => false case Some(s) => s.depth > 0)
  }

  /**
   A slot that was clean when a batch began reads, all through the batch, as what its compute meant for the
   sources as they were then, whatever has been written since.
   */
  lemma {:induction false} CleanThroughBatch(g: Plan, before: seq<Op>, more: seq<Op>, x: Id)
    requires Exact(g) && Inside(g, before, more)
    ensures match Reach(g, before)
      case None => true
      case Some(s0) =>
        s0.depth == 0 && Clean(s0, x) ==>
          match Reach(g, before + more)
          case None => false
          case Some(s) => Clean(s, x) && Cached(s, x) == Cached(s0, x) && Observe(g, s, x) == Meaning(g, Booked(before), x)
    decreases |more|
  {
    hide Top, Legal, Step, Booked, Meaning;
    var r0 := Reach(g, before);
    if r0.Some? && r0.value.depth == 0 && Clean(r0.value, x) {
      if more == [] {
        assert before + more == before;
        CleanMeans(g, before, x);
      } else {
        var less, op := more[..|more| - 1], more[|more| - 1];
        CleanThroughBatch(g, before, less, x);
        assert (before + more)[..|before + more| - 1] == before + less;
        var s := Reach(g, before + less).value;
        BatchedStepKeeps(g, s, op);
        CleanObserved(g, Step(g, s, op), x);
        CleanObserved(g, s, x);
      }
    }
  }

  /** A read of a clean slot gives what is stored and runs and changes nothing. */
  lemma CleanObserved(g: Plan, s: State, x: Id)
    ensures Clean(s, x) ==> Observe(g, s, x) == Cached(s, x) && Refresh(g, s, x) == (s, false)
  {
  }

  lemma CleanMeans(g: Plan, ops: seq<Op>, x: Id)
    requires Exact(g)
    ensures match Reach(g, ops)
      case None => true
      case Some(s) => s.depth == 0 && Clean(s, x) ==> Observe(g, s, x) == Meaning(g, Booked(ops), x)
  {
    hide Inv, Eval, Meaning, Booked;
    BookHolds(g, ops);
    var r := Reach(g, ops);
    if r.Some? && r.value.depth == 0 && Clean(r.value, x) {
      GlitchFreeRead(g, r.value, x);
      MeaningIs(g, Booked(ops), r.value, x);
    }
  }
}
