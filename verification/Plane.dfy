/** The anti-entropy runtime with its clock, cells, log and frontier changed in place. */
module Plane {
  import opened Basics
  import opened Clock
  import opened PlaneModel
  import opened PlaneProofs

  /** The entries listed so far: every peer not in `rest`, all below those in it. */
  ghost predicate Listed(entries: seq<Entry>, f: map<Peer, Stamp>, rest: set<Peer>) {
    && rest <= f.Keys
    && (forall e :: e in entries ==> e.peer in f && e.peer !in rest && f[e.peer] == e.stamp)
    && (forall p :: p in f && p !in rest ==> Entry(p, f[p]) in entries)
    && Ascending(entries) && (forall e, p :: e in entries && p in rest ==> e.peer < p)
  }

  ghost predicate Ascending(entries: seq<Entry>) { forall i, j :: 0 <= i < j < |entries| ==> entries[i].peer < entries[j].peer }

  lemma ListNext(entries: seq<Entry>, f: map<Peer, Stamp>, rest: set<Peer>, p: Peer)
    requires Listed(entries, f, rest) && p in rest && forall q :: q in rest ==> p <= q
    ensures p in f && Listed(entries + [Entry(p, f[p])], f, rest - {p})
  {
    var more := entries + [Entry(p, f[p])];
    assert forall e :: e in more <==> e in entries || e == Entry(p, f[p]);
    assert Ascending(more) by {
      forall i | 0 <= i < |entries| ensures entries[i].peer < p {
        assert entries[i] in entries;
      }
    }
  }

  lemma ListStart(f: map<Peer, Stamp>)
    ensures Listed([], f, f.Keys)
  {
  }

  lemma ListEnd(entries: seq<Entry>, f: map<Peer, Stamp>)
    requires Listed(entries, f, {})
    ensures Lists(entries, f) && Ascending(entries)
  {
  }

  class CrdtPlane {
    const peer: Peer
    const hlc: Hlc
    var cells: map<nat, Option<Op>>
    var log: set<(nat, Stamp)>
    var ops: seq<Op>
    var frontier: map<Peer, Stamp>
    var membership: set<Peer>

    ghost function Value(): Replica
      reads this, hlc
    {
      Replica(peer, hlc.Here(), cells, log, ops, frontier)
    }

    ghost predicate Valid()
      reads this, hlc
    {
      hlc.peer == peer && membership == frontier.Keys
    }

    constructor (owner: Peer)
      ensures Valid() && Value() == NewReplica(owner) && fresh(hlc)
    {
      peer := owner;
      hlc := new Hlc(owner);
      cells, log, ops, frontier, membership := map[], {}, [], map[], {};
    }

    method Register(node: nat)
      requires Valid()
      modifies this
      ensures Valid() && Value() == PlaneModel.Register(old(Value()), node)
    {
      cells := cells[node := None];
    }

    /** Merge into the cell of `node`, made on first sight; whether its value changed. */
    method MergeInto(node: nat, op: Op) returns (changed: bool)
      modifies this`cells
      ensures var (cell, c) := Merge(CellOf(old(Value()), node), op); cells == old(cells)[node := cell] && changed == c
    {
      var cell := if node in cells then cells[node] else None;
      if cell.None? {
        cells := cells[node := Some(op)];
        return true;
      }
      if Less(cell.value.stamp, op.stamp) {
        changed := op.state != cell.value.state;
        cells := cells[node := Some(op)];
      } else {
        changed := false;
        cells := cells[node := cell];
      }
    }

    method Observe(s: Stamp)
      requires Valid()
      modifies this`frontier, this`membership
      ensures Valid() && frontier == ObserveStamp(old(frontier), s)
    {
      membership := membership + {s.peer};
      if s.peer !in frontier || Less(frontier[s.peer], s) {
        frontier := frontier[s.peer := s];
      }
    }

    /** The operation to broadcast, or None when nothing was logged. */
    method LocalUpdate(node: nat, nowMicros: nat, state: State) returns (op: Option<Op>)
      requires Valid()
      modifies this, hlc
      ensures Valid() && (Value(), op) == PlaneModel.LocalUpdate(old(Value()), node, nowMicros, state)
    {
      if node !in cells {
        return None;
      }
      var s := hlc.Send(nowMicros);
      var made := Op(node, s, state);
      var changed := MergeInto(node, made);
      if !changed {
        return None;
      }
      log := log + {DedupKey(made)};
      ops := ops + [made];
      Observe(s);
      op := Some(made);
    }

    /** Fold a frame in and count the operations not seen before; again, and it counts none. */
    method Ingest(frame: Frame, nowMicros: nat) returns (applied: nat)
      requires Valid()
      modifies this, hlc
      ensures Valid() && (Value(), applied) == PlaneModel.Ingest(old(Value()), frame, nowMicros)
      ensures forall later :: PlaneModel.Ingest(Value(), frame, later).1 == 0
    {
      hide TakeOp, Hear, ObserveStamp, Merge;
      ghost var start := Value();
      var i := 0;
      assert frame.frontier[0..] == frame.frontier;
      while i < |frame.frontier|
        invariant i <= |frame.frontier| && Valid()
        invariant TakeEntries(start, frame.frontier, nowMicros) == TakeEntries(Value(), frame.frontier[i..], nowMicros)
      {
        var s := frame.frontier[i].stamp;
        ghost var rest := frame.frontier[i..];
        assert rest[0].stamp == s && rest[1..] == frame.frontier[i + 1..];
        ListenTo(s, nowMicros);
        Observe(s);
        i := i + 1;
      }
      assert frame.frontier[|frame.frontier|..] == [];
      ghost var open := Value();
      applied := 0;
      i := 0;
      assert frame.ops[0..] == frame.ops;
      while i < |frame.ops|
        invariant i <= |frame.ops| && Valid()
        invariant var (t, n) := TakeOps(Value(), frame.ops[i..], nowMicros); TakeOps(open, frame.ops, nowMicros) == (t, applied + n)
      {
        var op := frame.ops[i];
        ghost var rest := frame.ops[i..];
        assert rest[0] == op && rest[1..] == frame.ops[i + 1..];
        var unseen := AcceptOp(op, nowMicros);
        if unseen {
          applied := applied + 1;
        }
        i := i + 1;
      }
      assert frame.ops[|frame.ops|..] == [];
      forall later ensures PlaneModel.Ingest(Value(), frame, later).1 == 0 {
        IngestTwice(start, frame, nowMicros, later);
      }
    }

    method ListenTo(s: Stamp, nowMicros: nat)
      requires Valid()
      modifies hlc
      ensures Valid() && Value() == Hear(old(Value()), s, nowMicros)
    {
      if s.peer != peer {
        hlc.Recv(s, nowMicros);
      }
    }

    method AcceptOp(op: Op, nowMicros: nat) returns (isNew: bool)
      requires Valid()
      modifies this, hlc
      ensures Valid() && Value() == TakeOp(old(Value()), op, nowMicros) && isNew == (DedupKey(op) !in old(log))
    {
      hide Merge, ReceivedAt, ObserveStamp;
      if DedupKey(op) in log {
        return false;
      }
      log := log + {DedupKey(op)};
      ops := ops + [op];
      ListenTo(op.stamp, nowMicros);
      Observe(op.stamp);
      var _ := MergeInto(op.node, op);
      isNew := true;
    }

    // -- frames ----------------------------------------------------------------------------------

    /** The frontier as entries, ascending by peer. */
    method FrontierEntries() returns (entries: seq<Entry>)
      ensures Lists(entries, frontier) && Ascending(entries)
    {
      hide Listed, Lists, Ascending;
      entries := [];
      var rest := frontier.Keys;
      ListStart(frontier);
      while rest != {}
        invariant Listed(entries, frontier, rest)
        decreases |rest|
      {
        ghost var least := LeastOf(rest);
        var p :| p in rest && forall q :: q in rest ==> p <= q;
        ListNext(entries, frontier, rest, p);
        entries := entries + [Entry(p, frontier[p])];
        rest := rest - {p};
      }
      ListEnd(entries, frontier);
    }

    method SyncFrame() returns (frame: Frame)
      ensures IsSyncFrame(Value(), frame)
    {
      var entries := FrontierEntries();
      frame := Frame(entries, ops);
    }

    method SyncReply(request: Frame) returns (frame: Frame)
      ensures IsSyncReply(Value(), request, frame)
    {
      var mark: map<Peer, Stamp> := map[];
      var i := 0;
      while i < |request.frontier|
        invariant i <= |request.frontier| && mark == Watermark(request.frontier[..i])
      {
        assert request.frontier[..i + 1][..i] == request.frontier[..i];
        mark := mark[request.frontier[i].peer := request.frontier[i].stamp];
        i := i + 1;
      }
      assert request.frontier[..|request.frontier|] == request.frontier;
      var entries := FrontierEntries();
      frame := Frame(entries, OpsSince(ops, mark));
    }
  }
}
