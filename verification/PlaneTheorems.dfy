/** Anti-entropy is complete and exact, and last-writer cells agree when every local update was logged. */
module PlaneTheorems {
  import opened Basics
  import opened Clock
  import opened PlaneModel
  import opened PlaneProofs
  import opened PlaneSystem

  // -- frames promise what they bring ------------------------------------------------------------------

  /** An entry of a listed frontier. */
  lemma ListedEntry(s: System, p: Peer, entries: seq<Entry>, e: Entry)
    requires Inv(s) && p in s.replicas && Lists(entries, s.replicas[p].frontier) && e in entries
    ensures e.stamp.peer == e.peer && Bounded(s, e.stamp)
    ensures forall op :: op in Universe(s) && op.stamp.peer == e.peer && Leq(op.stamp, e.stamp) ==> op in s.replicas[p].ops
  {
    hide Leq, Passed;
    MemberGives(s, p);
    var r := s.replicas[p];
    assert e.stamp == r.frontier[e.peer] && Bounded(s, r.frontier[e.peer]);
    assert forall op: Op :: op.stamp.peer == e.peer && Leq(op.stamp, e.stamp) ==> Reaches(r.frontier, op);
  }

  lemma ListedOp(s: System, p: Peer, entries: seq<Entry>, op: Op)
    requires Inv(s) && p in s.replicas && Lists(entries, s.replicas[p].frontier) && op in s.replicas[p].ops
    ensures op in Universe(s) && exists e :: e in entries && e.peer == op.stamp.peer && Leq(op.stamp, e.stamp)
  {
    hide Leq, Passed;
    MemberGives(s, p);
    var r := s.replicas[p];
    assert Reaches(r.frontier, op);
    assert Entry(op.stamp.peer, r.frontier[op.stamp.peer]) in entries;
  }

  lemma SendOk(s: System, k: Packet)
    requires Inv(s) && PacketOk(s, Universe(s), k)
    ensures Inv(s.(packets := s.packets + [k]))
  {
    hide Distinct, ReplicaOk, Leq, FrontierBounded;
    var t := s.(packets := s.packets + [k]);
    GrowsSame(s);
    assert Grows(s, t) by { SameReplicasGrow(s, t); }
    assert Universe(t) == Universe(s);
    forall op | op in Universe(t) ensures Home(t, op) {
      assert Home(s, op);
    }
    forall p | p in t.replicas ensures MemberOk(t, Universe(t), p) {
      MemberGrows(s, t, Universe(s), p);
    }
    forall j | j in t.packets ensures PacketOk(t, Universe(t), j) {
      PacketGrows(s, t, Universe(s), j);
    }
  }

  lemma SameReplicasGrow(s: System, t: System)
    requires Grows(s, s) && t.replicas == s.replicas
    ensures Grows(s, t)
  {
  }

  lemma AnnounceOk(s: System, p: Peer, f: Frame)
    requires Inv(s) && p in s.replicas && IsSyncFrame(s.replicas[p], f)
    ensures PacketOk(s, Universe(s), Packet(p, None, f))
  {
    hide Inv, Leq, Lists, Bounded;
    forall e | e in f.frontier ensures EntryKept(s, Universe(s), Packet(p, None, f), e) {
      ListedEntry(s, p, f.frontier, e);
    }
    forall op | op in f.ops
      ensures op in Universe(s) && exists e :: e in f.frontier && e.peer == op.stamp.peer && Leq(op.stamp, e.stamp)
    {
      ListedOp(s, p, f.frontier, op);
    }
  }

  lemma {:induction false} MarkFrom(entries: seq<Entry>, p: Peer)
    ensures p in Watermark(entries) ==> Entry(p, Watermark(entries)[p]) in entries
    ensures forall e :: e in entries ==> e.peer in Watermark(entries)
  {
    if entries != [] {
      var n := |entries| - 1;
      assert entries == entries[..n] + [entries[n]];
      MarkFrom(entries[..n], p);
    }
  }

  lemma NotUnseen(mark: map<Peer, Stamp>, op: Op)
    ensures !Unseen(mark, op) <==> op.stamp.peer in mark && Leq(op.stamp, mark[op.stamp.peer])
  {
    if op.stamp.peer in mark {
      LessTotal(mark[op.stamp.peer], op.stamp);
    }
  }

  lemma ReplyOk(s: System, p: Peer, request: Packet, f: Frame)
    requires Inv(s) && p in s.replicas && request in s.packets && IsSyncReply(s.replicas[p], request.frame, f)
    ensures PacketOk(s, Universe(s), Packet(p, Some(request.from), f))
  {
    hide Inv, Leq, Lists, Bounded, Unseen;
    RequestOk(s, request);
    var k := Packet(p, Some(request.from), f);
    var mark := Watermark(request.frame.frontier);
    forall e | e in f.frontier ensures EntryKept(s, Universe(s), k, e) {
      ListedEntry(s, p, f.frontier, e);
      forall op | op in Universe(s) && op.stamp.peer == e.peer && Leq(op.stamp, e.stamp) && op !in f.ops
        ensures op in s.replicas[request.from].ops
      {
        NotUnseen(mark, op);
        MarkFrom(request.frame.frontier, op.stamp.peer);
        assert EntryKept(s, Universe(s), request, Entry(op.stamp.peer, mark[op.stamp.peer]));
      }
    }
    forall op | op in f.ops
      ensures op in Universe(s) && exists e :: e in f.frontier && e.peer == op.stamp.peer && Leq(op.stamp, e.stamp)
    {
      ListedOp(s, p, f.frontier, op);
    }
  }

  lemma RequestOk(s: System, request: Packet)
    requires Inv(s) && request in s.packets
    ensures PacketOk(s, Universe(s), request)
  {
  }

  // -- minting ---------------------------------------------------------------------------------------------------

  lemma LocalParts(r: Replica, node: nat, now: nat, state: State)
    ensures var (t, made) := LocalUpdate(r, node, now, state);
      && t.peer == r.peer && PositionLeq(r.clock, t.clock)
      && (made.None? ==> t == r.(clock := t.clock, cells := t.cells))
      && (made.Some? ==> t == Record(r.(clock := t.clock, cells := t.cells), made.value))
      && (made.Some? ==> t.clock == SentFrom(r.clock, now) && made.value == Op(node, StampAt(t.clock, r.peer), state))
  {
    PositionSame(r.clock);
    SendAdvances(r.clock, now, r.peer, StampAt(r.clock, r.peer));
  }

  lemma ClockOnly(U: set<Op>, r: Replica, c: Position, cells: map<nat, Option<Op>>)
    requires ReplicaOk(U, r, {}) && PositionLeq(r.clock, c)
    ensures ReplicaOk(U, r.(clock := c, cells := cells), {})
  {
  }

  /** A minted stamp is beyond everything the system has seen from its peer. */
  lemma MintedBeyond(s: System, p: Peer, now: nat, x: Stamp)
    requires p in s.replicas && Bounded(s, x) && x.peer == p
    ensures var m := StampAt(SentFrom(s.replicas[p].clock, now), p); Less(x, m) && !Leq(m, x)
  {
    SendAdvances(s.replicas[p].clock, now, p, x);
    LessTotal(x, StampAt(SentFrom(s.replicas[p].clock, now), p));
  }

  lemma MintedNew(s: System, p: Peer, now: nat, o: Op)
    requires Inv(s) && p in s.replicas && o in Universe(s)
    ensures var m := StampAt(SentFrom(s.replicas[p].clock, now), p);
      o.stamp != m && (o.stamp.peer == p ==> o in s.replicas[p].ops && Less(o.stamp, m))
  {
    hide ReplicaOk, Passed, Less, SentFrom;
    assert Home(s, o);
    if o.stamp.peer == p {
      MemberGives(s, p);
      OwnPassed(Universe(s), s.replicas[p], o);
      MintedBeyond(s, p, now, o.stamp);
      LessTotal(o.stamp, StampAt(SentFrom(s.replicas[p].clock, now), p));
    }
  }

  /** The minting replica's own bookkeeping. */
  lemma MinterOk(s: System, p: Peer, now: nat, op: Op, cells: map<nat, Option<Op>>)
    requires Inv(s) && p in s.replicas && op.stamp == StampAt(SentFrom(s.replicas[p].clock, now), p)
    ensures var r := s.replicas[p];
      var t := Record(r.(clock := SentFrom(r.clock, now), cells := cells), op);
      && ReplicaOk(Universe(s) + {op}, t, {}) && t.ops == r.ops + [op] && t.frontier == r.frontier[p := op.stamp]
  {
    hide Inv, Passed, Less, SentFrom, PositionLeq, FrontierBounded, Bounded;
    var U, r, c := Universe(s), s.replicas[p], SentFrom(s.replicas[p].clock, now);
    MemberGives(s, p);
    SendAdvances(r.clock, now, p, op.stamp);
    ClockOnly(U, r, c, cells);
    var r1 := r.(clock := c, cells := cells);
    forall o | o in U ensures o.stamp != op.stamp && (o.stamp.peer == p ==> o in r.ops && Less(o.stamp, op.stamp)) {
      MintedNew(s, p, now, o);
    }
    if p in r.frontier {
      FrontierAt(s, r.frontier, p);
      MintedBeyond(s, p, now, r.frontier[p]);
    }
    RecordNew(U, r1, op);
  }

  lemma FrontierAt(s: System, f: map<Peer, Stamp>, p: Peer)
    requires FrontierBounded(s, f) && p in f
    ensures Bounded(s, f[p])
  {
  }

  lemma RecordNew(U: set<Op>, r: Replica, op: Op)
    requires ReplicaOk(U, r, {}) && Passed(op.stamp, r.clock)
    requires r.peer == op.stamp.peer && (r.peer in r.frontier ==> Less(r.frontier[r.peer], op.stamp))
    requires forall o :: o in U ==> o.stamp != op.stamp && (o.stamp.peer == op.stamp.peer ==> o in r.ops && Less(o.stamp, op.stamp))
    ensures var t := Record(r, op); ReplicaOk(U + {op}, t, {}) && t.ops == r.ops + [op] && t.frontier == r.frontier[r.peer := op.stamp]
  {
    hide Passed, Less;
    var t := Record(r, op);
    assert forall o :: o in t.ops <==> o in r.ops || o == op;
    forall i | 0 <= i < |r.ops| ensures DedupKey(r.ops[i]) != DedupKey(op) {
      assert r.ops[i] in r.ops;
    }
    forall o | o in r.ops ensures Reaches(t.frontier, o) {
      assert Reaches(r.frontier, o) && o in U;
    }
    assert Keys(t.ops) == Keys(r.ops) + {DedupKey(op)} by {
      KeysSnoc(r.ops, op);
    }
  }

  lemma KeysSnoc(ops: seq<Op>, op: Op)
    ensures Keys(ops + [op]) == Keys(ops) + {DedupKey(op)}
  {
    assert op in ops + [op];
    forall k | k in Keys(ops) ensures k in Keys(ops + [op]) {
      var o :| o in ops && DedupKey(o) == k;
      assert o in ops + [op];
    }
  }

  /** Frontiers made before do not reach a new operation. */
  lemma OthersUntouched(s: System, U: set<Op>, p: Peer, now: nat, op: Op, q: Peer)
    requires p in s.replicas && q in s.replicas && MemberOk(s, U, q)
    requires op.stamp == StampAt(SentFrom(s.replicas[p].clock, now), p)
    ensures ReplicaOk(U + {op}, s.replicas[q], {})
  {
    hide Passed, Less, Leq, Bounded, SentFrom;
    var r := s.replicas[q];
    if p in r.frontier {
      FrontierAt(s, r.frontier, p);
      MintedBeyond(s, p, now, r.frontier[p]);
    }
  }

  lemma PacketUntouched(s: System, U: set<Op>, p: Peer, now: nat, op: Op, k: Packet)
    requires p in s.replicas && PacketOk(s, U, k)
    requires op.stamp == StampAt(SentFrom(s.replicas[p].clock, now), p)
    ensures PacketOk(s, U + {op}, k)
  {
    hide Passed, Less, Leq, Bounded, SentFrom;
    forall e | e in k.frame.frontier ensures EntryKept(s, U + {op}, k, e) {
      assert EntryKept(s, U, k, e);
      if e.stamp.peer == p {
        MintedBeyond(s, p, now, e.stamp);
      }
    }
  }

  lemma MintOk(s: System, p: Peer, now: nat, op: Op, cells: map<nat, Option<Op>>)
    requires Inv(s) && p in s.replicas && op.stamp == StampAt(SentFrom(s.replicas[p].clock, now), p)
    ensures var r := s.replicas[p]; Inv(Put(s, p, Record(r.(clock := SentFrom(r.clock, now), cells := cells), op)))
  {
    hide ReplicaOk, Passed, Less, Leq, SentFrom, PositionLeq, Record, Bounded, PacketOk, MemberOk, FrontierBounded;
    var U, r := Universe(s), s.replicas[p];
    var c := SentFrom(r.clock, now);
    var t := Record(r.(clock := c, cells := cells), op);
    var s1 := Put(s, p, t);
    MinterOk(s, p, now, op, cells);
    MemberGives(s, p);
    SendAdvances(r.clock, now, p, op.stamp);
    RecordClock(r.(clock := c, cells := cells), op);
    PutGrows(s, p, t);
    MintUniverse(s, p, t, op);
    forall o | o in U + {op} ensures Home(s1, o) {
      if o in U {
        assert Home(s, o);
      }
    }
    forall a, b | a in U + {op} && b in U + {op} && a.stamp == b.stamp ensures a == b {
      if a in U { MintedNew(s, p, now, a); }
      if b in U { MintedNew(s, p, now, b); }
    }
    FrontierGrows(s, s1, r.frontier);
    MintedBounded(s1, r.frontier, p, op.stamp, c);
    forall q | q in s1.replicas ensures MemberOk(s1, U + {op}, q) {
      if q == p {
        MemberIs(s1, U + {op}, p);
      } else {
        OtherMember(s, s1, U, p, now, op, q);
      }
    }
    forall k | k in s1.packets ensures PacketOk(s1, U + {op}, k) {
      PacketUntouched(s, U, p, now, op, k);
      PacketGrows(s, s1, U + {op}, k);
    }
  }

  lemma OtherMember(s: System, t: System, U: set<Op>, p: Peer, now: nat, op: Op, q: Peer)
    requires p in s.replicas && q in s.replicas && MemberOk(s, U, q) && Grows(s, t)
    requires op.stamp == StampAt(SentFrom(s.replicas[p].clock, now), p) && q in t.replicas && t.replicas[q] == s.replicas[q]
    ensures MemberOk(t, U + {op}, q)
  {
    hide ReplicaOk, Passed, SentFrom, Bounded;
    OthersUntouched(s, U, p, now, op, q);
    FrontierGrows(s, t, s.replicas[q].frontier);
  }

  lemma RecordClock(r: Replica, op: Op)
    ensures var t := Record(r, op); t.clock == r.clock && t.peer == r.peer
  {
  }

  lemma MintedBounded(s: System, f: map<Peer, Stamp>, p: Peer, m: Stamp, c: Position)
    requires FrontierBounded(s, f) && p in s.replicas && s.replicas[p].clock == c && m.peer == p && Passed(m, c)
    ensures FrontierBounded(s, f[p := m])
  {
  }

  lemma MintUniverse(s: System, p: Peer, t: Replica, op: Op)
    requires p in s.replicas && t.ops == s.replicas[p].ops + [op]
    ensures Universe(Put(s, p, t)) == Universe(s) + {op}
  {
    var s1 := Put(s, p, t);
    assert op in s1.replicas[p].ops;
    forall o | o in Universe(s) ensures o in Universe(s1) {
      var q :| q in s.replicas && o in s.replicas[q].ops;
      assert o in s1.replicas[q].ops;
    }
    forall o | o in Universe(s1) ensures o in Universe(s) + {op} {
      var q :| q in s1.replicas && o in s1.replicas[q].ops;
      assert q == p || o in s.replicas[q].ops;
    }
  }

  lemma UpdateOk(s: System, p: Peer, node: nat, now: nat, state: State)
    requires Inv(s) && p in s.replicas
    ensures Inv(Put(s, p, LocalUpdate(s.replicas[p], node, now, state).0))
  {
    hide Inv, LocalUpdate, Record, SentFrom, PositionLeq, FrontierBounded, ReplicaOk;
    var r := s.replicas[p];
    var (t, made) := LocalUpdate(r, node, now, state);
    LocalParts(r, node, now, state);
    MemberGives(s, p);
    if made.Some? {
      MintOk(s, p, now, made.value, t.cells);
      assert t == Record(r.(clock := SentFrom(r.clock, now), cells := t.cells), made.value);
    } else {
      ClockOnly(Universe(s), r, t.clock, t.cells);
      PutGrows(s, p, t);
      FrontierGrows(s, Put(s, p, t), t.frontier);
      PutOk(s, p, t);
    }
  }

  // -- every run ----------------------------------------------------------------------------------------------------

  lemma StepOk(s: System, step: Step)
    requires Inv(s) && Allowed(s, step)
    ensures Inv(Take(s, step))
  {
    hide Inv, LocalUpdate, Ingest, IsSyncFrame, IsSyncReply, PacketOk;
    match step
    case Join(p) => JoinOk(s, p);
    case Open(p, node) => OpenOk(s, p, node);
    case Update(p, node, now, state) => UpdateOk(s, p, node, now, state);
    case Announce(p, f) =>
      AnnounceOk(s, p, f);
      SendOk(s, Packet(p, None, f));
    case Reply(p, k, f) =>
      ReplyOk(s, p, s.packets[k], f);
      SendOk(s, Packet(p, Some(s.packets[k].from), f));
    case Deliver(q, k, now) => DeliverOk(s, q, s.packets[k], now);
  }

  lemma StartOk()
    ensures Inv(START)
  {
  }

  /** The system after a run, or None once a step was not allowed. */
  ghost function Reach(steps: seq<Step>): Option<System>
    decreases |steps|
  {
    if steps == [] then Some(START)
    else
      var r := Reach(steps[..|steps| - 1]);
      var step := steps[|steps| - 1];
      if r.Some? && Allowed(r.value, step) then Some(Take(r.value, step)) else None
  }

  lemma {:induction false} ReachOk(steps: seq<Step>)
    ensures match Reach(steps) case None => true case Some(s) => Inv(s)
    decreases |steps|
  {
    hide Inv, Allowed, Take;
    if steps == [] {
      StartOk();
    } else {
      var r, step := Reach(steps[..|steps| - 1]), steps[|steps| - 1];
      ReachOk(steps[..|steps| - 1]);
      if r.Some? && Allowed(r.value, step) {
        StepOk(r.value, step);
      }
    }
  }

  /** In every run, a replica holds an operation exactly when its frontier reaches it. */
  lemma FrontierIsExact(steps: seq<Step>, p: Peer, op: Op)
    ensures match Reach(steps)
      case None => true
      case Some(s) => p in s.replicas && op in Universe(s) ==> (op in s.replicas[p].ops <==> Reaches(s.replicas[p].frontier, op))
  {
    hide Reaches, FrontierBounded, Passed;
    ReachOk(steps);
    var r := Reach(steps);
    if r.Some? && p in r.value.replicas && op in Universe(r.value) {
      MemberGives(r.value, p);
    }
  }

  // -- replies are exact --------------------------------------------------------------------------------------------

  lemma {:induction false} AllNew(r: Replica, ops: seq<Op>, now: nat)
    requires forall op :: op in ops ==> DedupKey(op) !in r.log
    requires Once(ops)
    ensures TakeOps(r, ops, now).1 == |ops|
    decreases |ops|
  {
    hide Merge, Hear;
    if ops != [] {
      assert ops == [ops[0]] + ops[1..] && ops[0] in ops;
      var r1 := TakeOp(r, ops[0], now);
      TakeOpLogs(r, ops[0], now);
      forall op | op in ops[1..] ensures DedupKey(op) !in r1.log {
        var i :| 0 <= i < |ops[1..]| && ops[1..][i] == op;
        assert DedupKey(ops[0]) != DedupKey(ops[i + 1]);
      }
      AllNew(r1, ops[1..], now);
    }
  }

  lemma {:induction false} SinceOnce(ops: seq<Op>, mark: map<Peer, Stamp>)
    requires Once(ops)
    ensures Once(OpsSince(ops, mark))
    decreases |ops|
  {
    hide Unseen;
    if ops != [] {
      var n := |ops| - 1;
      SinceOnce(ops[..n], mark);
      var r := OpsSince(ops[..n], mark);
      forall i | 0 <= i < |r| ensures DedupKey(r[i]) != DedupKey(ops[n]) {
        assert r[i] in ops[..n];
      }
      OnceSnoc(r, ops[n]);
    }
  }

  lemma OnceSnoc(r: seq<Op>, op: Op)
    requires Once(r) && forall i :: 0 <= i < |r| ==> DedupKey(r[i]) != DedupKey(op)
    ensures Once(r + [op]) && r + [] == r
  {
  }

  lemma {:induction false} MarkIs(entries: seq<Entry>, f: map<Peer, Stamp>)
    requires Lists(entries, f)
    ensures Watermark(entries) == f
  {
    forall p ensures p in Watermark(entries) <==> p in f {
      MarkFrom(entries, p);
      if p in f {
        assert Entry(p, f[p]) in entries;
      }
    }
    forall p | p in f ensures Watermark(entries)[p] == f[p] {
      MarkFrom(entries, p);
    }
  }

  /** What a replier ships is what it holds and the requester does not. */
  lemma MissingExactly(s: System, p: Peer, q: Peer, request: Frame, reply: Frame)
    requires Inv(s) && p in s.replicas && q in s.replicas
    requires IsSyncFrame(s.replicas[p], request) && IsSyncReply(s.replicas[q], request, reply)
    ensures forall op :: op in reply.ops <==> op in s.replicas[q].ops && op !in s.replicas[p].ops
  {
    hide Inv, Lists, Leq, Less, FrontierBounded, Unseen, Passed;
    MemberGives(s, p);
    MemberGives(s, q);
    var mark := Watermark(request.frontier);
    MarkIs(request.frontier, s.replicas[p].frontier);
    forall op | op in s.replicas[q].ops ensures Unseen(mark, op) <==> op !in s.replicas[p].ops {
      NotUnseen(mark, op);
      assert op in Universe(s);
    }
  }

  lemma LogOf(s: System, p: Peer)
    requires Inv(s) && p in s.replicas
    ensures LogOk(s.replicas[p]) && forall op :: op in Universe(s) && op !in s.replicas[p].ops ==> DedupKey(op) !in s.replicas[p].log
  {
    hide Passed, Leq, FrontierBounded, Bounded;
    MemberGives(s, p);
    forall op | op in Universe(s) && DedupKey(op) in s.replicas[p].log ensures op in s.replicas[p].ops {
      KeyHeld(Universe(s), s.replicas[p], op, {});
    }
  }

  /**
   One round trip is complete and exact: ingesting the reply to one's own frame brings exactly the
   missing operations, counts them, and a second ingest applies none.
   */
  lemma RoundTrip(s: System, p: Peer, q: Peer, request: Frame, reply: Frame, now: nat, later: nat)
    requires Inv(s) && p in s.replicas && q in s.replicas
    requires IsSyncFrame(s.replicas[p], request) && IsSyncReply(s.replicas[q], request, reply)
    ensures var (t, n) := Ingest(s.replicas[p], reply, now);
      && (forall op :: op in t.ops <==> op in s.replicas[p].ops || op in s.replicas[q].ops)
      && n == |reply.ops| && Ingest(t, reply, later).1 == 0
  {
    hide Inv, Ingest, Lists, LogOk, IsSyncFrame, TakeEntries, TakeOps, PacketOk;
    var k := Packet(p, None, request);
    var s1 := s.(packets := s.packets + [k]);
    AnnounceOk(s, p, request);
    SendOk(s, k);
    ReplyOk(s1, q, k, reply);
    var j := Packet(q, Some(p), reply);
    SendOk(s1, j);
    var s2 := s1.(packets := s1.packets + [j]);
    DeliverOk(s2, p, j, now);
    MissingExactly(s, p, q, request, reply);
    IngestTwice(s.replicas[p], reply, now, later);
    CountExact(s, p, q, request, reply, now);
  }

  lemma CountExact(s: System, p: Peer, q: Peer, request: Frame, reply: Frame, now: nat)
    requires Inv(s) && p in s.replicas && q in s.replicas && IsSyncReply(s.replicas[q], request, reply)
    requires forall op :: op in reply.ops <==> op in s.replicas[q].ops && op !in s.replicas[p].ops
    ensures Ingest(s.replicas[p], reply, now).1 == |reply.ops|
  {
    hide Inv, TakeEntries, TakeOps, Lists, Unseen, Watermark, Keys;
    LogOf(s, p);
    LogOf(s, q);
    SinceOnce(s.replicas[q].ops, Watermark(request.frontier));
    EntriesKeepLog(s.replicas[p], reply.frontier, now);
    forall op | op in reply.ops ensures DedupKey(op) !in s.replicas[p].log {
      assert op in Universe(s);
    }
    AllNew(TakeEntries(s.replicas[p], reply.frontier, now), reply.ops, now);
  }
}
