/** One replica taking a frame: what the log, the clock and the frontier promise about each other. */
module PlaneProofs {
  import opened Clock
  import opened PlaneModel

  // -- one replica ---------------------------------------------------------------------------------

  function Keys(ops: seq<Op>): (r: set<(nat, Stamp)>)
    ensures forall op :: op in ops ==> DedupKey(op) in r
    ensures forall k :: k in r ==> exists op :: op in ops && DedupKey(op) == k
  {
    set op | op in ops :: DedupKey(op)
  }

  ghost predicate Once(ops: seq<Op>) { forall i, j :: 0 <= i < j < |ops| ==> DedupKey(ops[i]) != DedupKey(ops[j]) }

  /** The log is the keys of the operations, each held once. */
  ghost predicate LogOk(r: Replica) { r.log == Keys(r.ops) && Once(r.ops) }

  ghost predicate ClockOk(r: Replica) {
    && (forall op :: op in r.ops ==> Passed(op.stamp, r.clock))
    && (forall p :: p in r.frontier ==> Passed(r.frontier[p], r.clock) && r.frontier[p].peer == p)
  }

  /** The frontier reaches every operation. */
  ghost predicate Reaches(f: map<Peer, Stamp>, op: Op) { op.stamp.peer in f && Leq(op.stamp, f[op.stamp.peer]) }

  ghost predicate HoldsOk(r: Replica) { forall op :: op in r.ops ==> Reaches(r.frontier, op) }

  /** Whatever exists and the frontier reaches is held, or is still to be taken. */
  ghost predicate Covers(U: set<Op>, r: Replica, coming: set<Op>) {
    forall op :: op in U && Reaches(r.frontier, op) ==> op in r.ops || op in coming
  }

  ghost predicate ReplicaOk(U: set<Op>, r: Replica, coming: set<Op>) {
    LogOk(r) && ClockOk(r) && HoldsOk(r) && Covers(U, r, coming) && forall op :: op in r.ops ==> op in U
  }

  /** Stamps are never minted twice. */
  ghost predicate Distinct(U: set<Op>) { forall a, b :: a in U && b in U && a.stamp == b.stamp ==> a == b }

  lemma ObserveReaches(f: map<Peer, Stamp>, s: Stamp)
    requires forall p :: p in f ==> f[p].peer == p
    ensures var g := ObserveStamp(f, s);
      && (forall p :: p in g ==> g[p].peer == p) && s.peer in g && Leq(s, g[s.peer])
      && (forall op :: Reaches(f, op) ==> Reaches(g, op))
      && (forall op :: Reaches(g, op) && !Reaches(f, op) ==> op.stamp.peer == s.peer && Leq(op.stamp, s))
      && (forall p :: p in g ==> (p in f && g[p] == f[p]) || (p == s.peer && g[p] == s))
  {
    hide Less;
    forall op | Reaches(f, op) ensures Reaches(ObserveStamp(f, s), op) {
      if op.stamp.peer == s.peer {
        LeqTrans(op.stamp, f[s.peer], ObserveStamp(f, s)[s.peer]);
      }
    }
    if s.peer in f {
      LessTotal(f[s.peer], s);
    }
  }

  lemma LeqTrans(a: Stamp, b: Stamp, c: Stamp)
    requires Leq(a, b)
    ensures Leq(b, c) ==> Leq(a, c)
  {
  }

  lemma HearOk(r: Replica, s: Stamp, now: nat)
    requires ClockOk(r)
    ensures var t := Hear(r, s, now);
      && t == r.(clock := t.clock) && ClockOk(t) && PositionLeq(r.clock, t.clock)
      && (s.peer != r.peer || Passed(s, r.clock) ==> Passed(s, t.clock))
  {
    hide ReceivedAt, Passed;
    var t := Hear(r, s, now);
    ReceiveAdvances(r.clock, s, now, s);
    forall op | op in r.ops ensures Passed(op.stamp, t.clock) {
      ReceiveAdvances(r.clock, s, now, op.stamp);
    }
    forall p | p in r.frontier ensures Passed(r.frontier[p], t.clock) {
      ReceiveAdvances(r.clock, s, now, r.frontier[p]);
    }
    PositionSame(r.clock);
  }

  lemma PositionSame(c: Position)
    ensures PositionLeq(c, c)
  {
  }

  /** A stamp the replica may observe: from its own past, or from another peer. */
  predicate Hearable(r: Replica, s: Stamp) { s.peer != r.peer || Passed(s, r.clock) }

  /** What frontier entries must bring along. */
  ghost predicate EntriesOk(U: set<Op>, r: Replica, entries: seq<Entry>, coming: set<Op>) {
    forall e :: e in entries ==> EntryOk(U, r, e, coming)
  }

  ghost predicate EntryOk(U: set<Op>, r: Replica, e: Entry, coming: set<Op>) {
    && e.stamp.peer == e.peer && Hearable(r, e.stamp)
    && forall op :: op in U && op.stamp.peer == e.peer && Leq(op.stamp, e.stamp) ==> op in r.ops || op in coming
  }

  lemma HearableKept(r: Replica, t: Replica, s: Stamp)
    requires Hearable(r, s) && t.peer == r.peer && PositionLeq(r.clock, t.clock)
    ensures Hearable(t, s)
  {
  }

  lemma EntryStep(U: set<Op>, r: Replica, e: Entry, now: nat, coming: set<Op>)
    requires ReplicaOk(U, r, coming) && EntryOk(U, r, e, coming)
    ensures var r1 := Hear(r, e.stamp, now);
      var t := r1.(frontier := ObserveStamp(r1.frontier, e.stamp));
      && ReplicaOk(U, t, coming) && t.ops == r.ops && t.cells == r.cells && t.log == r.log && t.peer == r.peer
      && PositionLeq(r.clock, t.clock)
      && (forall op :: Reaches(r.frontier, op) ==> Reaches(t.frontier, op))
      && e.peer in t.frontier && Leq(e.stamp, t.frontier[e.peer])
  {
    hide Reaches, Passed, Less, PositionLeq, Hear, ObserveStamp, Leq, Keys;
    var r1 := Hear(r, e.stamp, now);
    HearOk(r, e.stamp, now);
    ObserveReaches(r1.frontier, e.stamp);
  }

  lemma PositionTrans(a: Position, b: Position, c: Position)
    requires PositionLeq(a, b) && PositionLeq(b, c)
    ensures PositionLeq(a, c)
  {
  }

  lemma {:induction false} EntriesTaken(U: set<Op>, r: Replica, entries: seq<Entry>, now: nat, coming: set<Op>)
    requires ReplicaOk(U, r, coming) && EntriesOk(U, r, entries, coming)
    ensures var t := TakeEntries(r, entries, now);
      && ReplicaOk(U, t, coming) && t.ops == r.ops && t.cells == r.cells && t.log == r.log && t.peer == r.peer
      && PositionLeq(r.clock, t.clock)
      && (forall op :: Reaches(r.frontier, op) ==> Reaches(t.frontier, op))
      && (forall e, op: Op :: e in entries && op.stamp.peer == e.peer && Leq(op.stamp, e.stamp) ==> Reaches(t.frontier, op))
    decreases |entries|
  {
    hide ReplicaOk, Hear, ObserveStamp, Less, Leq, Reaches, PositionLeq, Hearable;
    PositionSame(r.clock);
    if entries != [] {
      var e, rest := entries[0], entries[1..];
      assert entries == [e] + rest && e in entries;
      EntryStep(U, r, e, now, coming);
      var r1 := Hear(r, e.stamp, now);
      var t1 := r1.(frontier := ObserveStamp(r1.frontier, e.stamp));
      forall d | d in rest ensures EntryOk(U, t1, d, coming) {
        assert EntryOk(U, r, d, coming);
        HearableKept(r, t1, d.stamp);
      }
      EntriesTaken(U, t1, rest, now, coming);
      var t := TakeEntries(t1, rest, now);
      PositionTrans(r.clock, t1.clock, t.clock);
      forall op: Op | op.stamp.peer == e.peer && Leq(op.stamp, e.stamp) ensures Reaches(t.frontier, op) {
        ReachedBy(t1.frontier, e, op);
      }
    }
  }

  lemma ReachedBy(f: map<Peer, Stamp>, e: Entry, op: Op)
    requires e.peer in f && Leq(e.stamp, f[e.peer]) && op.stamp.peer == e.peer && Leq(op.stamp, e.stamp)
    ensures Reaches(f, op)
  {
    LeqTrans(op.stamp, e.stamp, f[e.peer]);
  }

  // -- taking operations ------------------------------------------------------------------------------

  lemma RecordOk(U: set<Op>, r: Replica, op: Op, coming: set<Op>)
    requires ReplicaOk(U, r, coming) && op in U && Reaches(r.frontier, op) && DedupKey(op) !in r.log
    ensures var t := Record(r, op);
      && t == r.(log := t.log, ops := r.ops + [op], frontier := r.frontier) && LogOk(t) && HoldsOk(t) && Covers(U, t, coming)
      && (forall o :: o in t.ops ==> o in U) && (Passed(op.stamp, r.clock) ==> ClockOk(t))
  {
    hide Passed;
    var t := Record(r, op);
    LessTotal(r.frontier[op.stamp.peer], op.stamp);
    assert t.frontier == r.frontier;
    assert forall o :: o in t.ops <==> o in r.ops || o == op;
    forall i | 0 <= i < |r.ops| ensures DedupKey(r.ops[i]) != DedupKey(op) {
      assert r.ops[i] in r.ops;
    }
  }

  /** Taking an operation whose entry was already observed. */
  lemma TakeOpOk(U: set<Op>, r: Replica, op: Op, now: nat, coming: set<Op>)
    requires Distinct(U) && ReplicaOk(U, r, coming) && op in U && Reaches(r.frontier, op) && Hearable(r, op.stamp)
    ensures var t := TakeOp(r, op, now);
      && ReplicaOk(U, t, coming) && t.peer == r.peer && t.frontier == r.frontier && PositionLeq(r.clock, t.clock)
      && op in t.ops && (forall o :: o in t.ops <==> o in r.ops || o == op)
      && |t.ops| == |r.ops| + if DedupKey(op) in r.log then 0 else 1
  {
    hide Reaches, Covers, Passed, Less, PositionLeq, Merge, Hear, Record, Keys;
    PositionSame(r.clock);
    if DedupKey(op) in r.log {
      KeyHeld(U, r, op, coming);
    } else {
      FrontierPassed(r, op);
      RecordOk(U, r, op, coming);
      var r0 := Record(r, op);
      HearOk(r0, op.stamp, now);
      SameButCells(U, r0, Hear(r0, op.stamp, now), coming);
    }
  }

  lemma FrontierPassed(r: Replica, op: Op)
    requires ClockOk(r) && Reaches(r.frontier, op)
    ensures Passed(op.stamp, r.clock)
  {
  }

  lemma KeyHeld(U: set<Op>, r: Replica, op: Op, coming: set<Op>)
    requires Distinct(U) && ReplicaOk(U, r, coming) && op in U && DedupKey(op) in r.log
    ensures op in r.ops
  {
    var o :| o in r.ops && DedupKey(o) == DedupKey(op);
    assert o in U;
  }

  lemma SameButCells(U: set<Op>, r: Replica, t: Replica, coming: set<Op>)
    requires LogOk(r) && HoldsOk(r) && Covers(U, r, coming) && (forall o :: o in r.ops ==> o in U)
    requires t.log == r.log && t.ops == r.ops && t.frontier == r.frontier && ClockOk(t)
    ensures forall cells :: ReplicaOk(U, t.(cells := cells), coming)
  {
  }

  lemma {:induction false} OpsTaken(U: set<Op>, r: Replica, ops: seq<Op>, now: nat, coming: set<Op>)
    requires Distinct(U) && ReplicaOk(U, r, coming)
    requires forall op :: op in ops ==> op in U && Reaches(r.frontier, op) && Hearable(r, op.stamp)
    ensures var (t, n) := TakeOps(r, ops, now);
      && ReplicaOk(U, t, coming) && t.peer == r.peer && t.frontier == r.frontier && PositionLeq(r.clock, t.clock)
      && (forall o :: o in t.ops <==> o in r.ops || o in ops) && |t.ops| == |r.ops| + n
    decreases |ops|
  {
    hide ReplicaOk, Reaches, Hearable, PositionLeq, TakeOp;
    PositionSame(r.clock);
    if ops != [] {
      var op, rest := ops[0], ops[1..];
      assert ops == [op] + rest && op in ops;
      TakeOpOk(U, r, op, now, coming);
      var r1 := TakeOp(r, op, now);
      forall o | o in rest ensures Hearable(r1, o.stamp) {
        HearableKept(r, r1, o.stamp);
      }
      OpsTaken(U, r1, rest, now, coming);
      PositionTrans(r.clock, r1.clock, TakeOps(r1, rest, now).0.clock);
    }
  }

  /** A frame that brings what its frontier promises is taken whole. */
  lemma IngestOk(U: set<Op>, r: Replica, f: Frame, now: nat)
    requires Distinct(U) && ReplicaOk(U, r, {})
    requires EntriesOk(U, r, f.frontier, set op | op in f.ops)
    requires forall op :: op in f.ops ==> op in U && Hearable(r, op.stamp) && exists e :: e in f.frontier && e.peer == op.stamp.peer && Leq(op.stamp, e.stamp)
    ensures var (t, n) := Ingest(r, f, now);
      && ReplicaOk(U, t, {}) && t.peer == r.peer && PositionLeq(r.clock, t.clock)
      && (forall o :: o in t.ops <==> o in r.ops || o in f.ops) && |t.ops| == |r.ops| + n
  {
    hide ReplicaOk, Reaches, Hearable, PositionLeq, TakeOps, TakeEntries, Leq, EntryOk, Distinct;
    var coming := set op | op in f.ops;
    Widen(U, r, {}, coming);
    EntriesTaken(U, r, f.frontier, now, coming);
    var t1 := TakeEntries(r, f.frontier, now);
    forall op | op in f.ops ensures Reaches(t1.frontier, op) && Hearable(t1, op.stamp) {
      HearableKept(r, t1, op.stamp);
    }
    OpsTaken(U, t1, f.ops, now, coming);
    var t := TakeOps(t1, f.ops, now).0;
    Narrow(U, t, coming);
    PositionTrans(r.clock, t1.clock, t.clock);
  }

  lemma Widen(U: set<Op>, r: Replica, a: set<Op>, b: set<Op>)
    requires ReplicaOk(U, r, a) && a <= b
    ensures ReplicaOk(U, r, b)
  {
  }

  lemma Narrow(U: set<Op>, r: Replica, coming: set<Op>)
    requires ReplicaOk(U, r, coming) && forall op :: op in coming ==> op in r.ops
    ensures ReplicaOk(U, r, {})
  {
  }

  // -- a second ingest changes nothing ----------------------------------------------------------------------

  lemma {:induction false} EntriesKeepLog(r: Replica, entries: seq<Entry>, now: nat)
    ensures var t := TakeEntries(r, entries, now); t.log == r.log && t.ops == r.ops && t.cells == r.cells
    decreases |entries|
  {
    if entries != [] {
      var r1 := Hear(r, entries[0].stamp, now);
      EntriesKeepLog(r1.(frontier := ObserveStamp(r1.frontier, entries[0].stamp)), entries[1..], now);
    }
  }

  lemma {:induction false} OpsLogged(r: Replica, ops: seq<Op>, now: nat)
    ensures var t := TakeOps(r, ops, now).0;
      (forall k :: k in r.log ==> k in t.log) && forall op :: op in ops ==> DedupKey(op) in t.log
    decreases |ops|
  {
    hide Merge, Hear;
    if ops != [] {
      OpsLogged(TakeOp(r, ops[0], now), ops[1..], now);
      TakeOpLogs(r, ops[0], now);
      assert ops == [ops[0]] + ops[1..];
    }
  }

  lemma TakeOpLogs(r: Replica, op: Op, now: nat)
    ensures TakeOp(r, op, now).log == r.log + {DedupKey(op)}
  {
  }

  lemma {:induction false} KnownOps(r: Replica, ops: seq<Op>, now: nat)
    requires forall op :: op in ops ==> DedupKey(op) in r.log
    ensures TakeOps(r, ops, now) == (r, 0)
    decreases |ops|
  {
    if ops != [] {
      assert ops == [ops[0]] + ops[1..] && ops[0] in ops;
      KnownOps(r, ops[1..], now);
    }
  }

  /** Ingesting a frame again applies nothing and moves no cell, for any replica and frame. */
  lemma IngestTwice(r: Replica, f: Frame, now: nat, later: nat)
    ensures var t := Ingest(r, f, now).0;
      var (u, n) := Ingest(t, f, later);
      n == 0 && u.ops == t.ops && u.cells == t.cells && u.log == t.log
  {
    hide TakeEntries, TakeOps;
    var t := Ingest(r, f, now).0;
    OpsLogged(TakeEntries(r, f.frontier, now), f.ops, now);
    EntriesKeepLog(t, f.frontier, later);
    KnownOps(TakeEntries(t, f.frontier, later), f.ops, later);
  }
}
