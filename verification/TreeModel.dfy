/** The lossless tree: node records, the dotted frontier, and what applying an operation does. */
module TreeModel {
  import opened Basics
  import ByteOrder
  import FracKeys

  type Peer = nat
  datatype Id = Id(counter: nat, peer: Peer)
  datatype SortKey = SortKey(frac: FracKeys.Key, peer: Peer)

  datatype Body = Leaf(leafKind: string, text: string) | Element(elementKind: string)

  datatype Record = Record(parent: Option<Id>, sort: SortKey, sortStamp: Id, body: Body, tomb: Option<Id>, textHead: Id)

  datatype Kind =
    | CreateNode(id: Id, parent: Id, createSort: SortKey, seed: Body)
    | Tombstone(target: Id)
    | Reorder(moved: Id, moveSort: SortKey)
    | SplitLeaf(node: Id, tail: Id, tailSort: SortKey, atChar: nat, prev: Id)
    | MergeLeaves(left: Id, right: Id, prevLeft: Id, prevRight: Id)

  datatype Op = Op(id: Id, kind: Kind)

  const ROOT := Id(0, 0)
  const ROOT_RECORD := Record(None, SortKey([], 0), Id(0, 0), Element("root"), None, Id(0, 0))

  // -- order on ids ------------------------------------------------------------------------------

  predicate Before(a: Id, b: Id) { a.counter < b.counter || (a.counter == b.counter && a.peer < b.peer) }
  function MinId(a: Id, b: Id): Id { if Before(b, a) then b else a }

  // -- the dotted frontier ---------------------------------------------------------------------------

  /** Dots held for one peer: all up to `contiguous`, and some beyond. */
  datatype DotRange = DotRange(contiguous: nat, sparse: set<nat>)

  type Frontier = map<Peer, DotRange>

  predicate InRange(d: DotRange, c: nat) { c <= d.contiguous || c in d.sparse }

  function Absorb(d: DotRange): (r: DotRange)
    ensures forall c :: InRange(r, c) <==> InRange(d, c)
    ensures r.contiguous + 1 !in r.sparse && r.sparse <= d.sparse && d.contiguous <= r.contiguous
    decreases |d.sparse|
  {
    if d.contiguous + 1 in d.sparse then Absorb(DotRange(d.contiguous + 1, d.sparse - {d.contiguous + 1})) else d
  }

  function ObserveDot(d: DotRange, c: nat): DotRange {
    if c <= d.contiguous then d else Absorb(d.(sparse := d.sparse + {c}))
  }

  predicate Contains(f: Frontier, x: Id) { x.peer in f && InRange(f[x.peer], x.counter) }

  function Observe(f: Frontier, x: Id): Frontier {
    f[x.peer := ObserveDot(if x.peer in f then f[x.peer] else DotRange(0, {}), x.counter)]
  }

  /** Only the dots past the gap are kept apart, so a frontier has one form. */
  ghost predicate Canonical(f: Frontier) {
    forall p :: p in f ==> RangeOk(f[p])
  }

  predicate RangeOk(d: DotRange) {
    (d.contiguous > 0 || d.sparse != {}) && forall c :: c in d.sparse ==> d.contiguous + 1 < c
  }

  // -- a replica ---------------------------------------------------------------------------------------

  /** `order` lists the nodes as the table's iteration does: in the order they were added. */
  datatype Replica = Replica(peer: Peer, counter: nat, nodes: map<Id, Record>, order: seq<Id>,
    frontier: Frontier, log: seq<Op>, buffered: seq<Op>)

  function NewReplica(peer: Peer): Replica {
    Replica(peer, 0, map[ROOT := ROOT_RECORD], [ROOT], map[], [], [])
  }

  function AddNode(r: Replica, x: Id, rec: Record): Replica {
    if x in r.nodes then r else r.(nodes := r.nodes[x := rec], order := r.order + [x])
  }

  function SetNode(r: Replica, x: Id, rec: Record): Replica { r.(nodes := r.nodes[x := rec]) }

  function ApplySplit(r: Replica, node: Id, tail: Id, sort: SortKey, atChar: nat, opId: Id): Replica {
    if node !in r.nodes || !r.nodes[node].body.Leaf? then r
    else
      var rec := r.nodes[node];
      var at := Min(atChar, |rec.body.text|);
      var r1 := SetNode(r, node, rec.(body := Leaf(rec.body.leafKind, rec.body.text[..at]), textHead := opId));
      AddNode(r1, tail, Record(rec.parent, sort, opId, Leaf(rec.body.leafKind, rec.body.text[at..]), None, opId))
  }

  function Entomb(rec: Record, opId: Id): Record {
    rec.(tomb := Some(if rec.tomb.Some? then MinId(rec.tomb.value, opId) else opId))
  }

  function ApplyMerge(r: Replica, left: Id, right: Id, opId: Id): Replica {
    if left !in r.nodes || right !in r.nodes || !r.nodes[left].body.Leaf? || !r.nodes[right].body.Leaf? then r
    else
      var l := r.nodes[left];
      var combined := l.body.text + r.nodes[right].body.text;
      var r1 := SetNode(r, left, l.(body := Leaf(l.body.leafKind, combined), textHead := opId));
      SetNode(r1, right, Entomb(r1.nodes[right], opId))
  }

  function ApplyOp(r: Replica, op: Op): Replica {
    match op.kind
    case CreateNode(x, parent, sort, seed) => AddNode(r, x, Record(Some(parent), sort, op.id, seed, None, op.id))
    case Tombstone(x) => if x in r.nodes then SetNode(r, x, Entomb(r.nodes[x], op.id)) else r
    case Reorder(x, sort) =>
      if x in r.nodes && Before(r.nodes[x].sortStamp, op.id) then
        SetNode(r, x, r.nodes[x].(sort := sort, sortStamp := op.id))
      else r
    case SplitLeaf(node, tail, sort, atChar, _) => ApplySplit(r, node, tail, sort, atChar, op.id)
    case MergeLeaves(left, right, _, _) => ApplyMerge(r, left, right, op.id)
  }

  function Log(r: Replica, op: Op): Replica {
    r.(frontier := Observe(r.frontier, op.id), log := r.log + [op])
  }

  function Commit(r: Replica, op: Op): Replica { Log(ApplyOp(r, op), op) }

  predicate Ready(r: Replica, op: Op) {
    match op.kind
    case CreateNode(_, parent, _, _) => parent in r.nodes
    case Tombstone(x) => x in r.nodes
    case Reorder(x, _) => x in r.nodes
    case SplitLeaf(node, _, _, _, prev) => node in r.nodes && Contains(r.frontier, prev)
    case MergeLeaves(left, right, prevLeft, prevRight) =>
      left in r.nodes && right in r.nodes && Contains(r.frontier, prevLeft) && Contains(r.frontier, prevRight)
  }

  // -- delivery -------------------------------------------------------------------------------------------

  /** One pass over the parked operations: apply what is ready, park the rest again. */
  function Pass(r: Replica, pending: seq<Op>): (Replica, bool)
    decreases |pending|
  {
    if pending == [] then (r, false)
    else
      var op := pending[0];
      if Contains(r.frontier, op.id) then Pass(r, pending[1..])
      else if Ready(r, op) then (Pass(Commit(r, op), pending[1..]).0, true)
      else Pass(r.(buffered := r.buffered + [op]), pending[1..])
  }

  lemma {:induction false} PassShrinks(r: Replica, pending: seq<Op>)
    ensures var (t, progressed) := Pass(r, pending);
      |t.buffered| <= |r.buffered| + |pending| && (progressed ==> |t.buffered| < |r.buffered| + |pending|)
    decreases |pending|
  {
    if pending != [] {
      var op, rest := pending[0], pending[1..];
      if Contains(r.frontier, op.id) {
        PassShrinks(r, rest);
      } else if Ready(r, op) {
        CommitKeepsBuffer(r, op);
        PassShrinks(Commit(r, op), rest);
      } else {
        PassShrinks(r.(buffered := r.buffered + [op]), rest);
      }
    }
  }

  lemma CommitKeepsBuffer(r: Replica, op: Op)
    ensures var t := Commit(r, op);
      t.buffered == r.buffered && t.peer == r.peer && t.counter == r.counter
  {
  }

  /** Pass after pass until one applies nothing. */
  function Drain(r: Replica): Replica
    decreases |r.buffered|
  {
    var (t, progressed) := Pass(r.(buffered := []), r.buffered);
    PassShrinks(r.(buffered := []), r.buffered);
    if progressed then Drain(t) else t
  }

  function Park(r: Replica, ops: seq<Op>): Replica
    decreases |ops|
  {
    if ops == [] then r
    else
      var op := ops[0];
      var r1 := if r.counter < op.id.counter then r.(counter := op.id.counter) else r;
      Park(if Contains(r1.frontier, op.id) then r1 else r1.(buffered := r1.buffered + [op]), ops[1..])
  }

  function ApplyUpdate(r: Replica, ops: seq<Op>): Replica { Drain(Park(r, ops)) }

  // -- reading -----------------------------------------------------------------------------------------------

  /** Byte keys compared, then the peer. */
  predicate KeyBefore(a: SortKey, b: SortKey) {
    ByteOrder.Less(a.frac, b.frac) || (a.frac == b.frac && a.peer < b.peer)
  }

  /** Put `x` behind every id whose key is not greater: the stable order. */
  function InsertSorted(nodes: map<Id, Record>, sorted: seq<Id>, x: Id): seq<Id>
    requires x in nodes && forall y :: y in sorted ==> y in nodes
  {
    if sorted == [] then [x]
    else
      var n := |sorted| - 1;
      if KeyBefore(nodes[x].sort, nodes[sorted[n]].sort) then InsertSorted(nodes, sorted[..n], x) + [sorted[n]]
      else sorted + [x]
  }

  predicate IsLiveChild(nodes: map<Id, Record>, parent: Id, x: Id) {
    x in nodes && nodes[x].parent == Some(parent) && nodes[x].tomb.None?
  }

  /** The live children of `parent` by sort key, ties in the table's order. */
  function LiveChildren(nodes: map<Id, Record>, order: seq<Id>, parent: Id): (r: seq<Id>)
    ensures forall x :: x in r <==> x in order && IsLiveChild(nodes, parent, x)
    decreases |order|
  {
    if order == [] then []
    else
      var n := |order| - 1;
      var r := LiveChildren(nodes, order[..n], parent);
      if IsLiveChild(nodes, parent, order[n]) then
        InsertedMembers(nodes, r, order[n]);
        InsertSorted(nodes, r, order[n])
      else r
  }

  lemma {:induction false} InsertedMembers(nodes: map<Id, Record>, sorted: seq<Id>, x: Id)
    requires x in nodes && forall y :: y in sorted ==> y in nodes
    ensures |InsertSorted(nodes, sorted, x)| == |sorted| + 1
    ensures forall y :: y in InsertSorted(nodes, sorted, x) <==> y in sorted || y == x
  {
    if sorted != [] {
      var n := |sorted| - 1;
      assert sorted == sorted[..n] + [sorted[n]];
      if KeyBefore(nodes[x].sort, nodes[sorted[n]].sort) {
        InsertedMembers(nodes, sorted[..n], x);
      }
    }
  }

  /** Where `x` first stands in `xs`, or past the end. */
  function IndexOf(xs: seq<Id>, x: Id): (i: nat)
    ensures i <= |xs| && (i < |xs| ==> xs[i] == x) && (i == |xs| <==> x !in xs)
  {
    if xs == [] then 0 else if xs[0] == x then 0 else 1 + IndexOf(xs[1..], x)
  }

  /** The text below `x`: children are newer than their parents, up to `limit`. */
  function RenderFrom(nodes: map<Id, Record>, order: seq<Id>, x: Id, limit: nat): string
    decreases limit - x.counter, 1, 0
  {
    if x !in nodes then ""
    else if nodes[x].body.Leaf? then nodes[x].body.text
    else RenderAll(nodes, order, LiveChildren(nodes, order, x), x.counter, limit)
  }

  function RenderAll(nodes: map<Id, Record>, order: seq<Id>, xs: seq<Id>, above: nat, limit: nat): string
    decreases limit - above, 0, |xs|
  {
    if xs == [] then ""
    else
      var head := if above < xs[0].counter <= limit then RenderFrom(nodes, order, xs[0], limit) else "";
      head + RenderAll(nodes, order, xs[1..], above, limit)
  }

  function Render(r: Replica): string { RenderFrom(r.nodes, r.order, ROOT, TopCounter(r.order)) }

  /** The largest counter in the table. */
  function TopCounter(order: seq<Id>): (c: nat)
    ensures forall x :: x in order ==> x.counter <= c
  {
    if order == [] then 0
    else
      var n := |order| - 1;
      var c := TopCounter(order[..n]);
      if c < order[n].counter then order[n].counter else c
  }
}
