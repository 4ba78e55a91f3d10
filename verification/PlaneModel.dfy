/** The anti-entropy plane: last-writer cells, an operation log, and a frontier of the newest stamp per peer. */
module PlaneModel {
  import opened Basics
  import opened Clock

  type State(==, !new)

  datatype Op = Op(node: nat, stamp: Stamp, state: State)
  datatype Entry = Entry(peer: Peer, stamp: Stamp)

  /** What is shipped: frontier entries and operations. */
  datatype Frame = Frame(frontier: seq<Entry>, ops: seq<Op>)

  /** A cell is None until its first operation. */
  datatype Replica = Replica(peer: Peer, clock: Position, cells: map<nat, Option<Op>>, log: set<(nat, Stamp)>,
    ops: seq<Op>, frontier: map<Peer, Stamp>)

  function NewReplica(peer: Peer): Replica { Replica(peer, Position(0, 0), map[], {}, [], map[]) }

  function Register(r: Replica, node: nat): Replica { r.(cells := r.cells[node := None]) }

  function CellOf(r: Replica, node: nat): Option<Op> { if node in r.cells then r.cells[node] else None }

  /** The cell after an operation, and whether its value changed. */
  function Merge(cell: Option<Op>, op: Op): (Option<Op>, bool) {
    match cell
    case None => (Some(op), true)
    case Some(o) => if Less(o.stamp, op.stamp) then (Some(op), op.state != o.state) else (cell, false)
  }

  function ObserveStamp(f: map<Peer, Stamp>, s: Stamp): map<Peer, Stamp> {
    if s.peer !in f || Less(f[s.peer], s) then f[s.peer := s] else f
  }

  function DedupKey(op: Op): (nat, Stamp) { (op.node, op.stamp) }

  function Record(r: Replica, op: Op): Replica {
    r.(log := r.log + {DedupKey(op)}, ops := r.ops + [op], frontier := ObserveStamp(r.frontier, op.stamp))
  }

  /** A local edit: None when the node is unknown or the value did not change, and then nothing is logged. */
  function LocalUpdate(r: Replica, node: nat, now: nat, state: State): (Replica, Option<Op>) {
    if node !in r.cells then (r, None)
    else
      var clock := SentFrom(r.clock, now);
      var op := Op(node, StampAt(clock, r.peer), state);
      var (cell, changed) := Merge(r.cells[node], op);
      var r1 := r.(clock := clock, cells := r.cells[node := cell]);
      if changed then (Record(r1, op), Some(op)) else (r1, None)
  }

  function Hear(r: Replica, s: Stamp, now: nat): Replica {
    if s.peer != r.peer then r.(clock := ReceivedAt(r.clock, s, now)) else r
  }

  function TakeEntries(r: Replica, entries: seq<Entry>, now: nat): Replica
    decreases |entries|
  {
    if entries == [] then r
    else
      var s := entries[0].stamp;
      var r1 := Hear(r, s, now);
      TakeEntries(r1.(frontier := ObserveStamp(r1.frontier, s)), entries[1..], now)
  }

  /** One received operation, already known or not. */
  function TakeOp(r: Replica, op: Op, now: nat): Replica {
    if DedupKey(op) in r.log then r
    else
      var r1 := Hear(Record(r, op), op.stamp, now);
      r1.(cells := r1.cells[op.node := Merge(CellOf(r1, op.node), op).0])
  }

  function TakeOps(r: Replica, ops: seq<Op>, now: nat): (Replica, nat)
    decreases |ops|
  {
    if ops == [] then (r, 0)
    else
      var (t, n) := TakeOps(TakeOp(r, ops[0], now), ops[1..], now);
      (t, if DedupKey(ops[0]) in r.log then n else n + 1)
  }

  /** Fold a frame in; the count is that of the operations not seen before. */
  function Ingest(r: Replica, f: Frame, now: nat): (Replica, nat) {
    TakeOps(TakeEntries(r, f.frontier, now), f.ops, now)
  }

  // -- frames -----------------------------------------------------------------------------------------

  /** The entries list the frontier, each peer once. */
  ghost predicate Lists(entries: seq<Entry>, f: map<Peer, Stamp>) {
    && (forall e :: e in entries ==> e.peer in f && f[e.peer] == e.stamp)
    && (forall p :: p in f ==> Entry(p, f[p]) in entries)
    && (forall i, j :: 0 <= i < j < |entries| ==> entries[i].peer != entries[j].peer)
  }

  /** The last entry for each peer. */
  function Watermark(entries: seq<Entry>): map<Peer, Stamp> {
    if entries == [] then map[]
    else Watermark(entries[..|entries| - 1])[entries[|entries| - 1].peer := entries[|entries| - 1].stamp]
  }

  predicate Unseen(mark: map<Peer, Stamp>, op: Op) { op.stamp.peer !in mark || Less(mark[op.stamp.peer], op.stamp) }

  function OpsSince(ops: seq<Op>, mark: map<Peer, Stamp>): (r: seq<Op>)
    ensures forall op :: op in r <==> op in ops && Unseen(mark, op)
  {
    if ops == [] then []
    else
      var n := |ops| - 1;
      assert ops == ops[..n] + [ops[n]];
      OpsSince(ops[..n], mark) + if Unseen(mark, ops[n]) then [ops[n]] else []
  }

  /** The whole log. */
  ghost predicate IsSyncFrame(r: Replica, f: Frame) { Lists(f.frontier, r.frontier) && f.ops == r.ops }

  /** What a request's sender has not observed. */
  ghost predicate IsSyncReply(r: Replica, request: Frame, f: Frame) {
    Lists(f.frontier, r.frontier) && f.ops == OpsSince(r.ops, Watermark(request.frontier))
  }
}
