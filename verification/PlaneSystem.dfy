/** Replicas exchanging whole frames and replies over a network that may delay, drop, reorder and repeat. */
module PlaneSystem {
  import opened Basics
  import opened Clock
  import opened PlaneModel
  import opened PlaneProofs

  /** A frame in flight: to anyone, or back to the replica that asked. */
  datatype Packet = Packet(from: Peer, to: Option<Peer>, frame: Frame)

  datatype System = System(replicas: map<Peer, Replica>, packets: seq<Packet>)

  datatype Step =
    | Join(peer: Peer)
    | Open(peer: Peer, node: nat)
    | Update(peer: Peer, node: nat, now: nat, state: State)
    | Announce(peer: Peer, frame: Frame)
    | Reply(peer: Peer, request: nat, frame: Frame)
    | Deliver(peer: Peer, packet: nat, now: nat)

  const START := System(map[], [])

  ghost predicate Allowed(s: System, step: Step) {
    match step
    case Join(p) => p !in s.replicas
    case Open(p, _) => p in s.replicas
    case Update(p, _, _, _) => p in s.replicas
    case Announce(p, f) => p in s.replicas && IsSyncFrame(s.replicas[p], f)
    case Reply(p, k, f) => p in s.replicas && k < |s.packets| && IsSyncReply(s.replicas[p], s.packets[k].frame, f)
    case Deliver(q, k, _) =>
      q in s.replicas && k < |s.packets| && (s.packets[k].to.None? || s.packets[k].to == Some(q))
  }

  function Put(s: System, p: Peer, r: Replica): System { s.(replicas := s.replicas[p := r]) }

  function Take(s: System, step: Step): System
    requires Allowed(s, step)
  {
    match step
    case Join(p) => Put(s, p, NewReplica(p))
    case Open(p, node) => Put(s, p, Register(s.replicas[p], node))
    case Update(p, node, now, state) => Put(s, p, LocalUpdate(s.replicas[p], node, now, state).0)
    case Announce(p, f) => s.(packets := s.packets + [Packet(p, None, f)])
    case Reply(p, k, f) => s.(packets := s.packets + [Packet(p, Some(s.packets[k].from), f)])
    case Deliver(q, k, now) => Put(s, q, Ingest(s.replicas[q], s.packets[k].frame, now).0)
  }

  // -- invariants ------------------------------------------------------------------------------------------

  /** Every logged operation is in the log of the replica that minted it. */
  ghost function Universe(s: System): (U: set<Op>)
    ensures forall op :: op in U <==> exists p :: p in s.replicas && op in s.replicas[p].ops
  {
    set p, op | p in s.replicas && op in s.replicas[p].ops :: op
  }

  /** The clock of the peer a stamp names has passed it. */
  predicate Bounded(s: System, x: Stamp) { x.peer in s.replicas && Passed(x, s.replicas[x.peer].clock) }

  ghost predicate FrontierBounded(s: System, f: map<Peer, Stamp>) { forall p :: p in f ==> Bounded(s, f[p]) }

  ghost predicate Home(s: System, op: Op) { op.stamp.peer in s.replicas && op in s.replicas[op.stamp.peer].ops }

  ghost predicate MemberOk(s: System, U: set<Op>, p: Peer)
    requires p in s.replicas
  {
    var r := s.replicas[p];
    r.peer == p && ReplicaOk(U, r, {}) && FrontierBounded(s, r.frontier)
  }

  /** Everything up to an entry that is not in the frame is already held by whoever may receive it. */
  ghost predicate EntryKept(s: System, U: set<Op>, k: Packet, e: Entry)
    requires k.from in s.replicas && (k.to.Some? ==> k.to.value in s.replicas)
  {
    && e.stamp.peer == e.peer && Bounded(s, e.stamp)
    && forall op :: op in U && op.stamp.peer == e.peer && Leq(op.stamp, e.stamp) ==>
         op in s.replicas[k.from].ops && (op in k.frame.ops || (k.to.Some? && op in s.replicas[k.to.value].ops))
  }

  ghost predicate PacketOk(s: System, U: set<Op>, k: Packet) {
    && k.from in s.replicas && (k.to.Some? ==> k.to.value in s.replicas)
    && (forall e :: e in k.frame.frontier ==> EntryKept(s, U, k, e))
    && (forall op :: op in k.frame.ops ==> op in U && exists e :: e in k.frame.frontier && e.peer == op.stamp.peer && Leq(op.stamp, e.stamp))
  }

  ghost predicate Inv(s: System) {
    var U := Universe(s);
    && Distinct(U) && (forall op :: op in U ==> Home(s, op))
    && (forall p :: p in s.replicas ==> MemberOk(s, U, p))
    && (forall k :: k in s.packets ==> PacketOk(s, U, k))
  }

  // -- monotone steps -----------------------------------------------------------------------------------------

  /** Clocks advance and logs grow. */
  ghost predicate Grows(s: System, t: System) {
    forall p :: p in s.replicas ==>
      p in t.replicas && PositionLeq(s.replicas[p].clock, t.replicas[p].clock)
      && forall op :: op in s.replicas[p].ops ==> op in t.replicas[p].ops
  }

  lemma BoundedGrows(s: System, t: System, x: Stamp)
    requires Grows(s, t) && Bounded(s, x)
    ensures Bounded(t, x)
  {
  }

  /** The universe stays, everyone grows: members other than the changed one stay good. */
  lemma MemberGrows(s: System, t: System, U: set<Op>, p: Peer)
    requires Grows(s, t) && p in s.replicas && MemberOk(s, U, p) && p in t.replicas && t.replicas[p] == s.replicas[p]
    ensures MemberOk(t, U, p)
  {
    hide ReplicaOk;
    FrontierGrows(s, t, s.replicas[p].frontier);
  }

  lemma FrontierGrows(s: System, t: System, f: map<Peer, Stamp>)
    requires Grows(s, t) && FrontierBounded(s, f)
    ensures FrontierBounded(t, f)
  {
    hide Bounded;
    forall p | p in f ensures Bounded(t, f[p]) {
      BoundedGrows(s, t, f[p]);
    }
  }

  lemma PacketGrows(s: System, t: System, U: set<Op>, k: Packet)
    requires Grows(s, t) && PacketOk(s, U, k)
    ensures PacketOk(t, U, k)
  {
    hide Bounded, Leq;
    forall e | e in k.frame.frontier ensures EntryKept(t, U, k, e) {
      assert EntryKept(s, U, k, e);
      BoundedGrows(s, t, e.stamp);
    }
  }

  lemma GrowsSame(s: System)
    ensures Grows(s, s)
  {
    hide PositionLeq;
    forall p | p in s.replicas ensures PositionLeq(s.replicas[p].clock, s.replicas[p].clock) {
      PositionSame(s.replicas[p].clock);
    }
  }

  lemma PutGrows(s: System, p: Peer, r: Replica)
    requires p in s.replicas ==> PositionLeq(s.replicas[p].clock, r.clock) && forall op :: op in s.replicas[p].ops ==> op in r.ops
    ensures Grows(s, Put(s, p, r))
  {
    hide PositionLeq;
    forall q | q in s.replicas && q != p ensures PositionLeq(s.replicas[q].clock, s.replicas[q].clock) {
      PositionSame(s.replicas[q].clock);
    }
  }

  lemma UniverseSame(s: System, t: System)
    requires Grows(s, t) && forall p, op :: p in t.replicas && op in t.replicas[p].ops ==> op in Universe(s)
    ensures Universe(t) == Universe(s)
  {
    hide PositionLeq;
    forall op | op in Universe(s) ensures op in Universe(t) {
      var p :| p in s.replicas && op in s.replicas[p].ops;
      assert op in t.replicas[p].ops;
    }
  }

  /** A step that mints nothing and changes only replica `p`. */
  lemma PutOk(s: System, p: Peer, r: Replica)
    requires Inv(s) && (p in s.replicas ==> PositionLeq(s.replicas[p].clock, r.clock) && forall op :: op in s.replicas[p].ops ==> op in r.ops)
    requires r.peer == p && ReplicaOk(Universe(s), r, {})
    requires FrontierBounded(Put(s, p, r), r.frontier)
    ensures Inv(Put(s, p, r))
  {
    hide ReplicaOk, PositionLeq, Bounded, PacketOk, MemberOk, Distinct, FrontierBounded;
    var U, t := Universe(s), Put(s, p, r);
    PutGrows(s, p, r);
    WithinU(U, r);
    forall q, op | q in t.replicas && op in t.replicas[q].ops ensures op in U {
      assert q != p ==> op in s.replicas[q].ops;
    }
    UniverseSame(s, t);
    forall op | op in U ensures Home(t, op) {
      assert Home(s, op);
    }
    forall q | q in t.replicas ensures MemberOk(t, U, q) {
      if q == p {
        MemberIs(t, U, p);
      } else {
        MemberGrows(s, t, U, q);
      }
    }
    forall k | k in t.packets ensures PacketOk(t, U, k) {
      PacketGrows(s, t, U, k);
    }
  }

  lemma WithinU(U: set<Op>, r: Replica)
    requires ReplicaOk(U, r, {})
    ensures forall op :: op in r.ops ==> op in U
  {
  }

  lemma MemberIs(t: System, U: set<Op>, p: Peer)
    requires p in t.replicas && t.replicas[p].peer == p && ReplicaOk(U, t.replicas[p], {})
    requires FrontierBounded(t, t.replicas[p].frontier)
    ensures MemberOk(t, U, p)
  {
  }

  lemma MemberGives(s: System, p: Peer)
    requires Inv(s) && p in s.replicas
    ensures FrontierBounded(s, s.replicas[p].frontier) && ReplicaOk(Universe(s), s.replicas[p], {}) && s.replicas[p].peer == p
    ensures Distinct(Universe(s)) && forall op :: op in Universe(s) ==> Home(s, op)
  {
  }

  lemma JoinOk(s: System, p: Peer)
    requires Inv(s) && p !in s.replicas
    ensures Inv(Put(s, p, NewReplica(p)))
  {
    hide Inv;
    PutOk(s, p, NewReplica(p));
  }

  lemma OpenOk(s: System, p: Peer, node: nat)
    requires Inv(s) && p in s.replicas
    ensures Inv(Put(s, p, Register(s.replicas[p], node)))
  {
    hide Inv, FrontierBounded;
    MemberGives(s, p);
    var r := Register(s.replicas[p], node);
    PositionSame(r.clock);
    PutGrows(s, p, r);
    FrontierGrows(s, Put(s, p, r), r.frontier);
    PutOk(s, p, r);
  }

  // -- delivery ------------------------------------------------------------------------------------------------

  /** What a packet may be handed to its receiver for. */
  lemma PacketServes(s: System, k: Packet, q: Peer)
    requires Inv(s) && k in s.packets && q in s.replicas && (k.to.None? || k.to == Some(q))
    ensures var U, r := Universe(s), s.replicas[q];
      && EntriesOk(U, r, k.frame.frontier, set op | op in k.frame.ops)
      && (forall op :: op in k.frame.ops ==> op in U && Hearable(r, op.stamp))
      && (forall op :: op in k.frame.ops ==> exists e :: e in k.frame.frontier && e.peer == op.stamp.peer && Leq(op.stamp, e.stamp))
  {
    hide ReplicaOk, Leq, Passed;
    var U, r := Universe(s), s.replicas[q];
    MemberGives(s, q);
    assert PacketOk(s, U, k);
    forall e | e in k.frame.frontier ensures EntryOk(U, r, e, set op | op in k.frame.ops) {
      assert EntryKept(s, U, k, e);
    }
    forall op | op in k.frame.ops ensures Hearable(r, op.stamp) {
      if op.stamp.peer == q {
        assert Home(s, op);
        OwnPassed(U, r, op);
      }
    }
  }

  lemma OwnPassed(U: set<Op>, r: Replica, op: Op)
    requires ReplicaOk(U, r, {}) && op in r.ops
    ensures Passed(op.stamp, r.clock)
  {
  }

  lemma {:induction false} FrontierFrom(s: System, r: Replica, entries: seq<Entry>, now: nat)
    requires FrontierBounded(s, r.frontier) && forall e :: e in entries ==> Bounded(s, e.stamp)
    ensures FrontierBounded(s, TakeEntries(r, entries, now).frontier)
    decreases |entries|
  {
    hide Bounded, Less;
    if entries != [] {
      assert entries == [entries[0]] + entries[1..];
      var r1 := Hear(r, entries[0].stamp, now);
      FrontierFrom(s, r1.(frontier := ObserveStamp(r1.frontier, entries[0].stamp)), entries[1..], now);
    }
  }

  lemma {:induction false} FrontierFromOps(s: System, r: Replica, ops: seq<Op>, now: nat)
    requires FrontierBounded(s, r.frontier) && forall op :: op in ops ==> Bounded(s, op.stamp)
    ensures FrontierBounded(s, TakeOps(r, ops, now).0.frontier)
    decreases |ops|
  {
    hide Bounded, Less, Merge;
    if ops != [] {
      assert ops == [ops[0]] + ops[1..] && ops[0] in ops;
      FrontierFromOps(s, TakeOp(r, ops[0], now), ops[1..], now);
    }
  }

  lemma IngestBounded(s: System, k: Packet, q: Peer, now: nat)
    requires Inv(s) && k in s.packets && q in s.replicas
    ensures FrontierBounded(s, Ingest(s.replicas[q], k.frame, now).0.frontier)
  {
    hide TakeEntries, TakeOps, ReplicaOk, Passed;
    assert PacketOk(s, Universe(s), k);
    assert MemberOk(s, Universe(s), q);
    forall e | e in k.frame.frontier ensures Bounded(s, e.stamp) {
      assert EntryKept(s, Universe(s), k, e);
    }
    forall op | op in k.frame.ops ensures Bounded(s, op.stamp) {
      assert Home(s, op);
      assert MemberOk(s, Universe(s), op.stamp.peer);
      OwnPassed(Universe(s), s.replicas[op.stamp.peer], op);
    }
    FrontierFrom(s, s.replicas[q], k.frame.frontier, now);
    FrontierFromOps(s, TakeEntries(s.replicas[q], k.frame.frontier, now), k.frame.ops, now);
  }

  lemma DeliverOk(s: System, q: Peer, k: Packet, now: nat)
    requires Inv(s) && k in s.packets && q in s.replicas && (k.to.None? || k.to == Some(q))
    ensures Inv(Put(s, q, Ingest(s.replicas[q], k.frame, now).0))
    ensures var (t, n) := Ingest(s.replicas[q], k.frame, now);
      (forall o :: o in t.ops <==> o in s.replicas[q].ops || o in k.frame.ops) && |t.ops| == |s.replicas[q].ops| + n
  {
    hide Inv, Ingest, Bounded, EntriesOk, Hearable, ReplicaOk, PositionLeq, Leq, FrontierBounded;
    PacketServes(s, k, q);
    MemberGives(s, q);
    IngestOk(Universe(s), s.replicas[q], k.frame, now);
    IngestBounded(s, k, q, now);
    var t := Ingest(s.replicas[q], k.frame, now).0;
    PutGrows(s, q, t);
    FrontierGrows(s, Put(s, q, t), t.frontier);
    PutOk(s, q, t);
  }
}
