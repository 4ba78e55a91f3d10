/** Gap recovery: a replica that folds exactly the frames it is told to apply shows the producer's graph. */
module Resync {
  import opened Basics

  type Id = nat
  type Payload(==, !new)

  datatype Node = Node(typeTag: string, payload: Option<Payload>)
  datatype Graph = Graph(nodes: map<Id, Node>, edges: set<(Id, Id)>)

  /** Queue stands for the queue operations, which no graph projection can apply. */
  datatype DeltaOp =
    | NodeAdd(node: Id, typeTag: string, state: Option<Payload>)
    | CellSet(node: Id, payload: Option<Payload>)
    | SlotValue(node: Id, payload: Option<Payload>)
    | Invalidate(node: Id)
    | NodeRemove(node: Id)
    | EdgeAdd(dependent: Id, dependency: Id)
    | EdgeRemove(dependent: Id, dependency: Id)
    | Queue(node: Id)

  datatype SnapshotNode = SnapshotNode(node: Id, typeTag: string, state: Option<Payload>)
  datatype Frame =
    | Snapshot(at: nat, nodes: seq<SnapshotNode>, edges: seq<(Id, Id)>)
    | Delta(baseEpoch: nat, epoch: nat, ops: seq<DeltaOp>)

  const NO_GRAPH := Graph(map[], {})

  // -- folding ---------------------------------------------------------------------------------------

  function SetPayload(g: Graph, x: Id, p: Option<Payload>): Graph {
    if x in g.nodes then g.(nodes := g.nodes[x := g.nodes[x].(payload := p)]) else g
  }

  function ApplyOp(g: Graph, op: DeltaOp): Graph {
    match op
    case NodeAdd(x, tag, state) => g.(nodes := g.nodes[x := Node(tag, state)])
    case CellSet(x, p) => SetPayload(g, x, p)
    case SlotValue(x, p) => SetPayload(g, x, p)
    case Invalidate(_) => g
    case NodeRemove(x) => g.(nodes := g.nodes - {x})
    case EdgeAdd(a, b) => g.(edges := g.edges + {(a, b)})
    case EdgeRemove(a, b) => g.(edges := g.edges - {(a, b)})
    case Queue(_) => g
  }

  function Fold(g: Graph, ops: seq<DeltaOp>): Graph {
    if ops == [] then g else ApplyOp(Fold(g, ops[..|ops| - 1]), ops[|ops| - 1])
  }

  lemma {:induction false} FoldConcat(g: Graph, a: seq<DeltaOp>, b: seq<DeltaOp>)
    ensures Fold(g, a + b) == Fold(Fold(g, a), b)
    decreases |b|
  {
    if b == [] {
      assert a + b == a;
    } else {
      FoldConcat(g, a, b[..|b| - 1]);
      assert (a + b)[..|a + b| - 1] == a + b[..|b| - 1];
    }
  }

  function NodesOf(ns: seq<SnapshotNode>): map<Id, Node> {
    if ns == [] then map[]
    else NodesOf(ns[..|ns| - 1])[ns[|ns| - 1].node := Node(ns[|ns| - 1].typeTag, ns[|ns| - 1].state)]
  }

  function EdgesOf(es: seq<(Id, Id)>): set<(Id, Id)> { set e | e in es }

  predicate Projectable(ops: seq<DeltaOp>) { forall i :: 0 <= i < |ops| ==> !ops[i].Queue? }

  // -- a producer ---------------------------------------------------------------------------------------

  /** What the producer emitted at each epoch. */
  type Log = seq<seq<DeltaOp>>

  function Emitted(log: Log): seq<DeltaOp> { if log == [] then [] else Emitted(log[..|log| - 1]) + log[|log| - 1] }

  /** The producer's graph after `epoch` epochs. */
  function At(log: Log, epoch: nat): Graph
    requires epoch <= |log|
  {
    Fold(NO_GRAPH, Emitted(log[..epoch]))
  }

  /** A frame that tells the truth about the producer; an empty or backward delta may say anything. */
  ghost predicate Truthful(log: Log, f: Frame) {
    match f
    case Snapshot(at, nodes, edges) => at <= |log| && Graph(NodesOf(nodes), EdgesOf(edges)) == At(log, at)
    case Delta(base, epoch, ops) => base < epoch ==> epoch <= |log| && ops == Emitted(log[base..epoch]) && Projectable(ops)
  }

  lemma {:induction false} EmittedConcat(a: Log, b: Log)
    ensures Emitted(a + b) == Emitted(a) + Emitted(b)
    decreases |b|
  {
    if b == [] {
      assert a + b == a && Emitted(a) + [] == Emitted(a);
    } else {
      EmittedConcat(a, b[..|b| - 1]);
      EmittedSnoc(a, b);
      Joined(Emitted(a), Emitted(b[..|b| - 1]), b[|b| - 1]);
    }
  }

  lemma EmittedSnoc(a: Log, b: Log)
    requires b != []
    ensures Emitted(a + b) == Emitted(a + b[..|b| - 1]) + b[|b| - 1]
  {
    assert (a + b)[..|a + b| - 1] == a + b[..|b| - 1] && (a + b)[|a + b| - 1] == b[|b| - 1];
  }

  lemma Joined(a: seq<DeltaOp>, b: seq<DeltaOp>, c: seq<DeltaOp>)
    ensures (a + b) + c == a + (b + c)
  {
  }

  /** A multi-epoch delta moves the graph across its whole span. */
  lemma DeltaSpans(log: Log, base: nat, epoch: nat)
    requires base <= epoch <= |log|
    ensures Fold(At(log, base), Emitted(log[base..epoch])) == At(log, epoch)
  {
    EmittedConcat(log[..base], log[base..epoch]);
    assert log[..base] + log[base..epoch] == log[..epoch];
    FoldConcat(NO_GRAPH, Emitted(log[..base]), Emitted(log[base..epoch]));
  }

  // -- the receiver ------------------------------------------------------------------------------------------

  datatype Action = Apply | RequestSnapshot(fromEpoch: nat) | Ignore

  datatype Receiver = Receiver(lastEpoch: nat, resyncing: bool)

  function Ingest(r: Receiver, f: Frame): (Receiver, Action) {
    match f
    case Snapshot(at, _, _) => (Receiver(at, false), Apply)
    case Delta(base, epoch, _) =>
      if base == r.lastEpoch then
        if epoch >= base + 1 then (Receiver(epoch, false), Apply) else (r, Ignore)
      else if base < r.lastEpoch then (r, Ignore)
      else if r.resyncing then (r, Ignore)
      else (r.(resyncing := true), RequestSnapshot(r.lastEpoch))
  }

  datatype View = View(graph: Graph, epoch: nat, initialized: bool)

  const NEW_VIEW := View(NO_GRAPH, 0, false)

  /** Folding a frame; a delta with an operation the view cannot project is refused whole. */
  function Show(v: View, f: Frame): (View, bool) {
    match f
    case Snapshot(at, nodes, edges) => (View(Graph(NodesOf(nodes), EdgesOf(edges)), at, true), true)
    case Delta(_, epoch, ops) =>
      if Projectable(ops) then (View(Fold(v.graph, ops), Max(v.epoch, epoch), true), true) else (v, false)
  }

  datatype Replica = Replica(receiver: Receiver, view: View, outstanding: nat)

  const NEW_REPLICA := Replica(Receiver(0, false), NEW_VIEW, 0)

  /** Classify a frame and, when told to, fold it; `outstanding` counts requests since the last applied frame. */
  function Take(r: Replica, f: Frame): Replica {
    var (c, action) := Ingest(r.receiver, f);
    match action
    case Apply => Replica(c, Show(r.view, f).0, 0)
    case RequestSnapshot(_) => Replica(c, r.view, r.outstanding + 1)
    case Ignore => Replica(c, r.view, r.outstanding)
  }

  function TakeAll(frames: seq<Frame>): Replica {
    if frames == [] then NEW_REPLICA else Take(TakeAll(frames[..|frames| - 1]), frames[|frames| - 1])
  }

  /** The view is the producer's graph at the receiver's epoch, and a request is out exactly while resyncing. */
  ghost predicate InStep(log: Log, r: Replica) {
    && r.receiver.lastEpoch <= |log|
    && r.view.graph == At(log, r.receiver.lastEpoch) && r.view.epoch == r.receiver.lastEpoch
    && r.outstanding == if r.receiver.resyncing then 1 else 0
  }

  lemma TakeOk(log: Log, r: Replica, f: Frame)
    requires InStep(log, r) && Truthful(log, f)
    ensures InStep(log, Take(r, f))
  {
    if f.Delta? && f.baseEpoch == r.receiver.lastEpoch && f.epoch >= f.baseEpoch + 1 {
      DeltaSpans(log, f.baseEpoch, f.epoch);
    }
  }

  /**
   Resync safety: for any subset, order and repetition of truthful frames, the view folded on each
   Apply is the producer's graph at the receiver's epoch, and at most one request is outstanding.
   */
  lemma {:induction false} ResyncSafety(log: Log, frames: seq<Frame>)
    requires forall i :: 0 <= i < |frames| ==> Truthful(log, frames[i])
    ensures var r := TakeAll(frames);
      && r.receiver.lastEpoch <= |log| && r.view.graph == At(log, r.receiver.lastEpoch) && r.view.epoch == r.receiver.lastEpoch
      && r.outstanding <= 1 && (r.outstanding == 1 <==> r.receiver.resyncing)
    decreases |frames|
  {
    AlwaysInStep(log, frames);
  }

  lemma {:induction false} AlwaysInStep(log: Log, frames: seq<Frame>)
    requires forall i :: 0 <= i < |frames| ==> Truthful(log, frames[i])
    ensures InStep(log, TakeAll(frames))
    decreases |frames|
  {
    hide InStep, Truthful, Take;
    if frames == [] {
      NewInStep(log);
    } else {
      AlwaysInStep(log, frames[..|frames| - 1]);
      TakeOk(log, TakeAll(frames[..|frames| - 1]), frames[|frames| - 1]);
    }
  }

  lemma NewInStep(log: Log)
    ensures InStep(log, NEW_REPLICA)
  {
    assert log[..0] == [];
  }

  /** A gap is never applied over: the request names the last epoch, and a covering snapshot ends it. */
  lemma GapIsRecovered(log: Log, r: Replica, gap: Frame, cover: Frame)
    requires InStep(log, r) && gap.Delta? && gap.baseEpoch > r.receiver.lastEpoch && !r.receiver.resyncing
    requires cover.Snapshot? && Truthful(log, cover)
    ensures Ingest(r.receiver, gap).1 == RequestSnapshot(r.receiver.lastEpoch)
    ensures Take(r, gap).view == r.view && Take(Take(r, gap), gap) == Take(r, gap)
    ensures var t := Take(Take(r, gap), cover); InStep(log, t) && t.receiver.lastEpoch == cover.at && t.outstanding == 0
  {
  }

  /** After a delta that continues the receiver's epoch, receiver and view agree exactly when the view could project all of it. */
  lemma InStepIffProjectable(log: Log, r: Replica, epoch: nat, ops: seq<DeltaOp>)
    requires InStep(log, r) && r.receiver.lastEpoch < epoch <= |log| && ops == Emitted(log[r.receiver.lastEpoch..epoch])
    ensures InStep(log, Take(r, Delta(r.receiver.lastEpoch, epoch, ops))) <==> Projectable(ops)
  {
    if Projectable(ops) {
      TakeOk(log, r, Delta(r.receiver.lastEpoch, epoch, ops));
    }
  }

  /** A queue operation is refused by the view after the receiver has already moved on: the two drift apart. */
  lemma RefusedDeltaDrifts(x: Id, p: Payload)
    ensures var log := [[NodeAdd(x, "t", Some(p)), Queue(x)]];
      var r := Take(NEW_REPLICA, Delta(0, 1, log[0]));
      r.receiver.lastEpoch == 1 && r.view == NEW_VIEW && At(log, 1) != r.view.graph
  {
    var log := [[NodeAdd(x, "t", Some(p)), Queue(x)]];
    assert log[..1] == log && log[..0] == [] && log[0][..1] == [NodeAdd(x, "t", Some(p))];
    assert Emitted(log) == log[0];
    assert Fold(NO_GRAPH, []) == NO_GRAPH && log[0][..1][..0] == [];
    assert Fold(NO_GRAPH, log[0][..1]) == ApplyOp(NO_GRAPH, NodeAdd(x, "t", Some(p)));
    assert x in At(log, 1).nodes;
    assert log[0][1].Queue?;
  }

  // -- every frame's answer ------------------------------------------------------------------------------------

  /** The frame goes on from the epoch last applied, or starts over. */
  predicate Follows(epoch: nat, f: Frame) { f.Snapshot? || f.baseEpoch == epoch < f.epoch }

  /** The frame starts past the epoch last applied. */
  predicate Ahead(epoch: nat, f: Frame) { f.Delta? && f.baseEpoch > epoch }

  function Reached(f: Frame): nat { if f.Snapshot? then f.at else f.epoch }

  /**
   After any frames, the next one is applied exactly when it follows, and then the receiver is at its epoch; a
   snapshot is asked for, from the epoch last applied, exactly when it is ahead and no request is out; anything
   else is ignored, and but for that request changes nothing.
   */
  lemma AnswersInEveryRun(log: Log, frames: seq<Frame>, f: Frame)
    requires forall i :: 0 <= i < |frames| ==> Truthful(log, frames[i])
    ensures var r := TakeAll(frames);
      var (c, action) := Ingest(r.receiver, f);
      && (action == Apply <==> Follows(r.receiver.lastEpoch, f))
      && (action == RequestSnapshot(r.receiver.lastEpoch) <==> Ahead(r.receiver.lastEpoch, f) && r.outstanding == 0)
      && (action == Apply || action == Ignore || action == RequestSnapshot(r.receiver.lastEpoch))
      && c.lastEpoch == (if action == Apply then Reached(f) else r.receiver.lastEpoch)
      && (c.resyncing <==> action.RequestSnapshot? || (action.Ignore? && r.outstanding == 1))
  {
    AlwaysInStep(log, frames);
  }

  /** The frame after the first `i` was applied. */
  ghost predicate AppliedAt(frames: seq<Frame>, i: nat)
    requires i < |frames|
  {
    Follows(TakeAll(frames[..i]).receiver.lastEpoch, frames[i])
  }

  lemma TakeShows(log: Log, r: Replica, f: Frame)
    requires Truthful(log, f)
    ensures Take(r, f).view.initialized <==> r.view.initialized || Follows(r.receiver.lastEpoch, f)
  {
    hide Fold, NodesOf, EdgesOf, At;
  }

  /** The view says it was initialised exactly when a frame was applied. */
  lemma {:induction false} InitializedIffApplied(log: Log, frames: seq<Frame>)
    requires forall i :: 0 <= i < |frames| ==> Truthful(log, frames[i])
    ensures TakeAll(frames).view.initialized <==> exists i :: 0 <= i < |frames| && AppliedAt(frames, i)
  {
    hide Truthful, Take, Follows;
    if frames != [] {
      var n := |frames| - 1;
      var less := frames[..n];
      InitializedIffApplied(log, less);
      TakeShows(log, TakeAll(less), frames[n]);
      forall i | 0 <= i < n ensures AppliedAt(less, i) == AppliedAt(frames, i) {
        assert less[..i] == frames[..i];
      }
      if TakeAll(less).view.initialized {
        var i :| 0 <= i < |less| && AppliedAt(less, i);
        assert AppliedAt(frames, i);
      } else {
        assert forall i :: 0 <= i < n ==> !AppliedAt(frames, i);
      }
      assert AppliedAt(frames, n) == Follows(TakeAll(less).receiver.lastEpoch, frames[n]);
    }
  }

  predicate IsStep(f: Frame, n: nat) { f.Delta? && f.baseEpoch == n - 1 && f.epoch == n }

  /** Each epoch's own delta occurs, in order, whatever other deltas come in between. */
  ghost predicate Chained(frames: seq<Frame>, n: nat) {
    n == 0 || exists i {:trigger frames[i]} :: 0 <= i < |frames| && IsStep(frames[i], n) && Chained(frames[..i], n - 1)
  }

  /** A receiver that is given every epoch's delta in order gets there, whatever else it is given. */
  lemma {:induction false} CatchesUp(frames: seq<Frame>, n: nat)
    requires (forall i :: 0 <= i < |frames| ==> frames[i].Delta?) && Chained(frames, n)
    ensures TakeAll(frames).receiver.lastEpoch >= n
    decreases n
  {
    hide TakeAll, Ingest, IsStep;
    if n > 0 {
      var i :| 0 <= i < |frames| && IsStep(frames[i], n) && Chained(frames[..i], n - 1);
      CatchesUp(frames[..i], n - 1);
      OneMore(frames, i);
      StepReaches(TakeAll(frames[..i]), frames[i], n);
      NeverBack(frames, i + 1);
    }
  }

  lemma OneMore(frames: seq<Frame>, i: nat)
    requires i < |frames|
    ensures TakeAll(frames[..i + 1]) == Take(TakeAll(frames[..i]), frames[i])
  {
    assert frames[..i + 1][..i] == frames[..i];
  }

  lemma StepReaches(r: Replica, f: Frame, n: nat)
    requires n > 0 && IsStep(f, n) && r.receiver.lastEpoch >= n - 1
    ensures Take(r, f).receiver.lastEpoch >= n
  {
  }

  lemma DeltaKeeps(r: Replica, f: Frame)
    requires f.Delta?
    ensures Take(r, f).receiver.lastEpoch >= r.receiver.lastEpoch
  {
  }

  lemma {:induction false} NeverBack(frames: seq<Frame>, k: nat)
    requires k <= |frames| && forall i :: 0 <= i < |frames| ==> frames[i].Delta?
    ensures TakeAll(frames[..k]).receiver.lastEpoch <= TakeAll(frames).receiver.lastEpoch
    decreases |frames|
  {
    hide TakeAll, Take;
    if k == |frames| {
      assert frames[..k] == frames;
    } else {
      var n := |frames| - 1;
      NeverBack(frames[..n], k);
      assert frames[..n][..k] == frames[..k] && frames[..n + 1] == frames;
      OneMore(frames, n);
      DeltaKeeps(TakeAll(frames[..n]), frames[n]);
    }
  }

  // -- the objects -----------------------------------------------------------------------------------------------

  class ResyncCoordinator {
    var lastEpoch: nat
    var resyncing: bool

    ghost function Value(): Receiver
      reads this
    {
      Receiver(lastEpoch, resyncing)
    }

    constructor (start: nat)
      ensures Value() == Receiver(start, false)
    {
      lastEpoch, resyncing := start, false;
    }

    method IngestDelta(baseEpoch: nat, epoch: nat) returns (action: Action)
      modifies this
      ensures forall ops :: (Value(), action) == Ingest(old(Value()), Delta(baseEpoch, epoch, ops))
    {
      if baseEpoch == lastEpoch {
        if epoch >= baseEpoch + 1 {
          lastEpoch := epoch;
          resyncing := false;
          return Apply;
        }
        return Ignore;
      }
      if baseEpoch < lastEpoch {
        return Ignore;
      }
      if resyncing {
        return Ignore;
      }
      resyncing := true;
      action := RequestSnapshot(lastEpoch);
    }

    method IngestSnapshot(at: nat) returns (action: Action)
      modifies this
      ensures forall nodes, edges :: (Value(), action) == Ingest(old(Value()), Snapshot(at, nodes, edges))
    {
      lastEpoch := at;
      resyncing := false;
      action := Apply;
    }
  }

  class GraphView {
    var nodes: map<Id, Node>
    var edges: set<(Id, Id)>
    var epoch: nat
    var initialized: bool

    ghost function Value(): View
      reads this
    {
      View(Graph(nodes, edges), epoch, initialized)
    }

    constructor ()
      ensures Value() == NEW_VIEW
    {
      nodes, edges, epoch, initialized := map[], {}, 0, false;
    }

    method ApplySnapshot(f: Frame)
      requires f.Snapshot?
      modifies this
      ensures Value() == Show(old(Value()), f).0
    {
      nodes, edges := map[], {};
      var i := 0;
      while i < |f.nodes|
        invariant i <= |f.nodes| && nodes == NodesOf(f.nodes[..i]) && edges == {}
      {
        assert f.nodes[..i + 1][..i] == f.nodes[..i];
        nodes := nodes[f.nodes[i].node := Node(f.nodes[i].typeTag, f.nodes[i].state)];
        i := i + 1;
      }
      assert f.nodes[..|f.nodes|] == f.nodes;
      i := 0;
      while i < |f.edges|
        invariant i <= |f.edges| && edges == EdgesOf(f.edges[..i]) && nodes == NodesOf(f.nodes)
      {
        assert f.edges[..i + 1] == f.edges[..i] + [f.edges[i]];
        edges := edges + {f.edges[i]};
        i := i + 1;
      }
      assert f.edges[..|f.edges|] == f.edges;
      epoch := f.at;
      initialized := true;
    }

    /** Refuses before it changes anything, otherwise applies the operations in order. */
    method ApplyDelta(f: Frame) returns (ok: bool)
      requires f.Delta?
      modifies this
      ensures (Value(), ok) == Show(old(Value()), f)
    {
      var i := 0;
      while i < |f.ops|
        invariant i <= |f.ops| && Projectable(f.ops[..i]) && Value() == old(Value())
      {
        if f.ops[i].Queue? {
          return false;
        }
        i := i + 1;
      }
      assert f.ops[..|f.ops|] == f.ops;
      i := 0;
      ghost var start := Value();
      while i < |f.ops|
        invariant i <= |f.ops| && Value() == start.(graph := Fold(start.graph, f.ops[..i]))
      {
        assert f.ops[..i + 1][..i] == f.ops[..i];
        match f.ops[i] {
          case NodeAdd(x, tag, state) => nodes := nodes[x := Node(tag, state)];
          case CellSet(x, p) => SetNode(x, p);
          case SlotValue(x, p) => SetNode(x, p);
          case Invalidate(_) =>
          case NodeRemove(x) => nodes := nodes - {x};
          case EdgeAdd(a, b) => edges := edges + {(a, b)};
          case EdgeRemove(a, b) => edges := edges - {(a, b)};
          case Queue(_) =>
        }
        i := i + 1;
      }
      epoch := Max(epoch, f.epoch);
      initialized := true;
      ok := true;
    }

    method SetNode(x: Id, p: Option<Payload>)
      modifies this`nodes
      ensures Graph(nodes, edges) == SetPayload(Graph(old(nodes), edges), x, p)
    {
      if x in nodes {
        nodes := nodes[x := nodes[x].(payload := p)];
      }
    }
  }
}
