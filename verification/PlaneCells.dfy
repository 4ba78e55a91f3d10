/** The cells: which local updates are logged, and when equal logs mean equal cells. */
module PlaneCells {
  import opened Basics
  import opened Clock
  import opened PlaneModel
  import opened PlaneProofs
  import opened PlaneSystem
  import opened PlaneTheorems

  /** The cell is the newest logged operation on its node. */
  ghost predicate Best(ops: seq<Op>, node: nat, cell: Option<Op>) {
    match cell
    case None => forall op :: op in ops ==> op.node != node
    case Some(o) => o in ops && o.node == node && forall op :: op in ops && op.node == node ==> !Less(o.stamp, op.stamp)
  }

  ghost predicate CellsOk(r: Replica) { forall node :: Best(r.ops, node, CellOf(r, node)) }

  lemma LessTrans(a: Stamp, b: Stamp, c: Stamp)
    requires Less(a, b) && !Less(c, b)
    ensures Less(a, c)
  {
  }

  /** Logging an operation and merging it into its cell. */
  lemma MergeBest(ops: seq<Op>, node: nat, cell: Option<Op>, op: Op)
    requires Best(ops, node, cell)
    ensures Best(ops + [op], node, if op.node == node then Merge(cell, op).0 else cell)
  {
    hide Less;
    assert op in ops + [op];
    LessTotal(op.stamp, op.stamp);
    if op.node == node && cell.Some? && Less(cell.value.stamp, op.stamp) {
      forall o | o in ops && o.node == node ensures !Less(op.stamp, o.stamp) {
        if Less(op.stamp, o.stamp) {
          LessTotal(op.stamp, o.stamp);
          LessTrans(cell.value.stamp, op.stamp, o.stamp);
        }
      }
    }
  }

  lemma TakeOpCells(r: Replica, op: Op, now: nat)
    requires CellsOk(r)
    ensures CellsOk(TakeOp(r, op, now))
  {
    hide Best, Merge, Hear;
    var t := TakeOp(r, op, now);
    if DedupKey(op) !in r.log {
      HearKeeps(Record(r, op), op.stamp, now);
      forall node ensures Best(t.ops, node, CellOf(t, node)) {
        MergeBest(r.ops, node, CellOf(r, node), op);
      }
    }
  }

  lemma HearKeeps(r: Replica, s: Stamp, now: nat)
    ensures var t := Hear(r, s, now); t == r.(clock := t.clock)
  {
  }

  lemma {:induction false} TakeOpsCells(r: Replica, ops: seq<Op>, now: nat)
    requires CellsOk(r)
    ensures CellsOk(TakeOps(r, ops, now).0)
    decreases |ops|
  {
    hide CellsOk, TakeOp;
    if ops != [] {
      TakeOpCells(r, ops[0], now);
      TakeOpsCells(TakeOp(r, ops[0], now), ops[1..], now);
    }
  }

  lemma IngestCells(r: Replica, f: Frame, now: nat)
    requires CellsOk(r)
    ensures CellsOk(Ingest(r, f, now).0)
  {
    hide TakeOps, TakeEntries, Best;
    EntriesKeepLog(r, f.frontier, now);
    var t := TakeEntries(r, f.frontier, now);
    forall node ensures Best(t.ops, node, CellOf(t, node)) {
      assert Best(r.ops, node, CellOf(r, node));
    }
    TakeOpsCells(t, f.ops, now);
  }

  lemma UpdateCells(r: Replica, node: nat, now: nat, state: State)
    requires CellsOk(r) && (node !in r.cells || LocalUpdate(r, node, now, state).1.Some?)
    ensures CellsOk(LocalUpdate(r, node, now, state).0)
  {
    hide Best, Merge;
    if node in r.cells {
      var (t, made) := LocalUpdate(r, node, now, state);
      forall n ensures Best(t.ops, n, CellOf(t, n)) {
        MergeBest(r.ops, n, CellOf(r, n), made.value);
      }
    }
  }

  /**
   The step neither writes the value a cell already has nor registers a node that has one: the caller can
   read both off the cell before the call.
   */
  ghost predicate Keeps(s: System, step: Step)
    requires Allowed(s, step)
  {
    match step
    case Open(p, node) => CellOf(s.replicas[p], node).None?
    case Update(p, node, now, state) => CellOf(s.replicas[p], node).None? || CellOf(s.replicas[p], node).value.state != state
    case _ => true
  }

  ghost predicate AllCells(s: System) { forall p :: p in s.replicas ==> CellsOk(s.replicas[p]) }

  ghost predicate AllPassed(s: System) { forall p :: p in s.replicas ==> CellsPassed(s.replicas[p]) }

  /** A step leaves every cell the newest logged operation on its node exactly when it keeps to that rule. */
  lemma StepKeepsCells(s: System, step: Step)
    requires Inv(s) && Allowed(s, step) && AllCells(s) && AllPassed(s)
    ensures AllCells(Take(s, step)) <==> Keeps(s, step)
  {
    hide Inv, CellsOk, CellsPassed, LocalUpdate, Ingest, IsSyncFrame, IsSyncReply;
    match step
    case Join(p) => NewCells(p);
    case Open(p, node) =>
      OpenCells(s.replicas[p], node);
      OneChanged(s, p, Register(s.replicas[p], node));
    case Update(p, node, now, state) =>
      MemberGives(s, p);
      UpdateKeepsCells(Universe(s), s.replicas[p], node, now, state);
      OneChanged(s, p, LocalUpdate(s.replicas[p], node, now, state).0);
    case Announce(_, _) =>
    case Reply(_, _, _) =>
    case Deliver(q, k, now) => IngestCells(s.replicas[q], s.packets[k].frame, now);
  }

  lemma OneChanged(s: System, p: Peer, r: Replica)
    requires AllCells(s) && p in s.replicas
    ensures AllCells(Put(s, p, r)) <==> CellsOk(r)
  {
    hide CellsOk;
    assert Put(s, p, r).replicas[p] == r;
  }

  lemma NewCells(p: Peer)
    ensures CellsOk(NewReplica(p))
  {
  }

  /** Registering a node that has a logged operation empties its cell. */
  lemma OpenCells(r: Replica, node: nat)
    requires CellsOk(r)
    ensures CellsOk(Register(r, node)) <==> CellOf(r, node).None?
  {
    var t := Register(r, node);
    assert Best(r.ops, node, CellOf(r, node));
    if CellOf(r, node).None? {
      forall n ensures Best(t.ops, n, CellOf(t, n)) {
        assert Best(r.ops, n, CellOf(r, n));
      }
    } else {
      assert CellOf(t, node).None? && CellOf(r, node).value in t.ops;
      assert !Best(t.ops, node, CellOf(t, node));
    }
  }

  /** Writing the value a cell already has puts an operation in it that is in no log. */
  lemma UpdateKeepsCells(U: set<Op>, r: Replica, node: nat, now: nat, state: State)
    requires ReplicaOk(U, r, {}) && CellsOk(r) && CellsPassed(r)
    ensures CellsOk(LocalUpdate(r, node, now, state).0) <==> CellOf(r, node).None? || CellOf(r, node).value.state != state
  {
    hide CellsOk, ReplicaOk, LocalUpdate;
    LoggedIffChanged(r, node, now, state);
    if node !in r.cells || LocalUpdate(r, node, now, state).1.Some? {
      UpdateCells(r, node, now, state);
    } else {
      UnloggedCell(U, r, node, now, state);
    }
  }

  lemma UnloggedCell(U: set<Op>, r: Replica, node: nat, now: nat, state: State)
    requires ReplicaOk(U, r, {}) && CellsPassed(r)
    requires node in r.cells && r.cells[node].Some? && r.cells[node].value.state == state
    ensures !CellsOk(LocalUpdate(r, node, now, state).0)
  {
    hide Passed, SentFrom, Covers, Reaches;
    var op := Op(node, StampAt(SentFrom(r.clock, now), r.peer), state);
    assert CellOf(r, node) == r.cells[node];
    SendAdvances(r.clock, now, r.peer, r.cells[node].value.stamp);
    var t := LocalUpdate(r, node, now, state).0;
    assert CellOf(t, node) == Some(op) && t.ops == r.ops;
    if op in r.ops {
      SendAdvances(r.clock, now, r.peer, op.stamp);
    }
    assert !Best(t.ops, node, CellOf(t, node));
  }

  /** Every step of the run keeps to the rule. */
  ghost predicate KeptRun(steps: seq<Step>)
    decreases |steps|
  {
    if steps == [] then true
    else
      var before := steps[..|steps| - 1];
      KeptRun(before) && match Reach(before)
        case None => false
        case Some(s) => Allowed(s, steps[|steps| - 1]) && Keeps(s, steps[|steps| - 1])
  }

  lemma {:induction false} KeptCells(steps: seq<Step>)
    requires KeptRun(steps)
    ensures Reach(steps).Some? && AllCells(Reach(steps).value)
    decreases |steps|
  {
    hide AllCells, Keeps, Allowed, Inv, AllPassed;
    if steps == [] {
      NoCells();
    } else {
      var before := steps[..|steps| - 1];
      KeptCells(before);
      ReachOk(before);
      RunPassed(before);
      StepKeepsCells(Reach(before).value, steps[|steps| - 1]);
    }
  }

  lemma NoCells()
    ensures AllCells(START)
  {
  }

  /** If no step wrote a value already there or registered a node that had one, replicas with equal logs hold equal cells. */
  lemma EqualLogsEqualCells(steps: seq<Step>, p: Peer, q: Peer, node: nat)
    requires KeptRun(steps)
    ensures match Reach(steps)
      case None => false
      case Some(s) =>
        p in s.replicas && q in s.replicas && (forall op :: op in s.replicas[p].ops <==> op in s.replicas[q].ops) ==>
          CellOf(s.replicas[p], node) == CellOf(s.replicas[q], node)
  {
    hide KeptRun;
    KeptCells(steps);
    ReachOk(steps);
    var s := Reach(steps).value;
    if p in s.replicas && q in s.replicas && forall op :: op in s.replicas[p].ops <==> op in s.replicas[q].ops {
      MemberGives(s, p);
      BestUnique(Universe(s), s.replicas[p], s.replicas[q], node);
    }
  }

  lemma BestUnique(U: set<Op>, r: Replica, t: Replica, node: nat)
    requires Distinct(U) && ReplicaOk(U, r, {}) && CellsOk(r) && CellsOk(t) && forall op :: op in r.ops <==> op in t.ops
    ensures CellOf(r, node) == CellOf(t, node)
  {
    hide Less;
    assert Best(r.ops, node, CellOf(r, node)) && Best(t.ops, node, CellOf(t, node));
    if CellOf(r, node).Some? && CellOf(t, node).Some? {
      LessTotal(CellOf(r, node).value.stamp, CellOf(t, node).value.stamp);
    }
  }

  // -- which updates are logged --------------------------------------------------------------------------------

  /** No cell holds a stamp its replica's clock has not passed. */
  ghost predicate CellsPassed(r: Replica) {
    forall node :: CellOf(r, node).Some? ==> Passed(CellOf(r, node).value.stamp, r.clock)
  }

  /** A local update of a known node is logged exactly when it changes the value, whatever the wall clock says. */
  lemma LoggedIffChanged(r: Replica, node: nat, now: nat, state: State)
    requires CellsPassed(r)
    ensures LocalUpdate(r, node, now, state).1.Some? <==>
      node in r.cells && (r.cells[node].None? || r.cells[node].value.state != state)
    ensures CellsPassed(LocalUpdate(r, node, now, state).0)
  {
    if node in r.cells {
      assert CellOf(r, node) == r.cells[node];
      var (t, _) := LocalUpdate(r, node, now, state);
      if r.cells[node].Some? {
        SendAdvances(r.clock, now, r.peer, r.cells[node].value.stamp);
      }
      forall n | CellOf(t, n).Some? ensures Passed(CellOf(t, n).value.stamp, t.clock) {
        if n != node {
          SendAdvances(r.clock, now, r.peer, CellOf(r, n).value.stamp);
        }
      }
    }
  }

  lemma PassedLater(r: Replica, t: Replica)
    requires CellsPassed(r) && t.cells == r.cells && PositionLeq(r.clock, t.clock)
    ensures CellsPassed(t)
  {
    forall node | CellOf(t, node).Some? ensures Passed(CellOf(t, node).value.stamp, t.clock) {
      assert CellOf(t, node) == CellOf(r, node);
    }
  }

  lemma TakeOpPassed(U: set<Op>, r: Replica, op: Op, now: nat, coming: set<Op>)
    requires ReplicaOk(U, r, coming) && Reaches(r.frontier, op) && CellsPassed(r)
    ensures CellsPassed(TakeOp(r, op, now))
  {
    hide Reaches, Covers, Passed, PositionLeq, Less, ReceivedAt;
    if DedupKey(op) !in r.log {
      FrontierPassed(r, op);
      var r0 := Record(r, op);
      var r1 := Hear(r0, op.stamp, now);
      HearClock(r0, op.stamp, now);
      PassedLater(r, r1);
      var t := TakeOp(r, op, now);
      forall node | CellOf(t, node).Some? ensures Passed(CellOf(t, node).value.stamp, t.clock) {
        assert CellOf(r1, node).Some? ==> Passed(CellOf(r1, node).value.stamp, r1.clock);
      }
    }
  }

  lemma HearClock(r: Replica, s: Stamp, now: nat)
    ensures PositionLeq(r.clock, Hear(r, s, now).clock) && (Passed(s, r.clock) ==> Passed(s, Hear(r, s, now).clock))
  {
    ReceiveAdvances(r.clock, s, now, s);
    PositionSame(r.clock);
  }

  lemma {:induction false} TakeOpsPassed(U: set<Op>, r: Replica, ops: seq<Op>, now: nat, coming: set<Op>)
    requires Distinct(U) && ReplicaOk(U, r, coming) && CellsPassed(r)
    requires forall op :: op in ops ==> op in U && Reaches(r.frontier, op) && Hearable(r, op.stamp)
    ensures CellsPassed(TakeOps(r, ops, now).0)
    decreases |ops|
  {
    hide ReplicaOk, Reaches, Hearable, PositionLeq, TakeOp, CellsPassed;
    if ops != [] {
      var op, rest := ops[0], ops[1..];
      assert ops == [op] + rest && op in ops;
      TakeOpOk(U, r, op, now, coming);
      TakeOpPassed(U, r, op, now, coming);
      var r1 := TakeOp(r, op, now);
      forall o | o in rest ensures Hearable(r1, o.stamp) {
        HearableKept(r, r1, o.stamp);
      }
      TakeOpsPassed(U, r1, rest, now, coming);
    }
  }

  lemma IngestPassed(s: System, q: Peer, k: Packet, now: nat)
    requires Inv(s) && k in s.packets && q in s.replicas && (k.to.None? || k.to == Some(q)) && CellsPassed(s.replicas[q])
    ensures CellsPassed(Ingest(s.replicas[q], k.frame, now).0)
  {
    hide Inv, ReplicaOk, Reaches, Hearable, PositionLeq, TakeOps, TakeEntries, Leq, EntryOk, Distinct, CellsPassed, FrontierBounded;
    var U, r, f := Universe(s), s.replicas[q], k.frame;
    PacketServes(s, k, q);
    MemberGives(s, q);
    var coming := set op | op in f.ops;
    Widen(U, r, {}, coming);
    EntriesTaken(U, r, f.frontier, now, coming);
    var t1 := TakeEntries(r, f.frontier, now);
    PassedLater(r, t1);
    forall op | op in f.ops ensures Reaches(t1.frontier, op) && Hearable(t1, op.stamp) {
      HearableKept(r, t1, op.stamp);
    }
    TakeOpsPassed(U, t1, f.ops, now, coming);
  }

  lemma StepPassed(s: System, step: Step)
    requires Inv(s) && Allowed(s, step) && AllPassed(s)
    ensures AllPassed(Take(s, step))
  {
    hide Inv, CellsPassed, LocalUpdate, Ingest, IsSyncFrame, IsSyncReply;
    match step
    case Join(p) => NoneStale(NewReplica(p));
    case Open(p, node) => OpenPassed(s.replicas[p], node);
    case Update(p, node, now, state) => LoggedIffChanged(s.replicas[p], node, now, state);
    case Announce(_, _) =>
    case Reply(_, _, _) =>
    case Deliver(q, k, now) => IngestPassed(s, q, s.packets[k], now);
  }

  lemma NoneStale(r: Replica)
    requires r.cells == map[]
    ensures CellsPassed(r)
  {
  }

  lemma OpenPassed(r: Replica, node: nat)
    requires CellsPassed(r)
    ensures CellsPassed(Register(r, node))
  {
    var t := Register(r, node);
    forall n | CellOf(t, n).Some? ensures Passed(CellOf(t, n).value.stamp, t.clock) {
      assert CellOf(t, n) == CellOf(r, n);
    }
  }

  lemma {:induction false} RunPassed(steps: seq<Step>)
    ensures match Reach(steps) case None => true case Some(s) => AllPassed(s)
    decreases |steps|
  {
    hide Inv, AllPassed, Allowed, Take;
    if steps == [] {
      NonePassed();
    } else if Reach(steps).Some? {
      var before := steps[..|steps| - 1];
      RunPassed(before);
      ReachOk(before);
      StepPassed(Reach(before).value, steps[|steps| - 1]);
    }
  }

  lemma NonePassed()
    ensures AllPassed(START)
  {
  }

  /** In every run a local update returns an operation exactly when the node is known and the value changes. */
  lemma UpdateReturnsIffChanged(steps: seq<Step>, p: Peer, node: nat, now: nat, state: State)
    ensures match Reach(steps)
      case None => true
      case Some(s) => p in s.replicas ==>
        (LocalUpdate(s.replicas[p], node, now, state).1.Some? <==>
          node in s.replicas[p].cells && (s.replicas[p].cells[node].None? || s.replicas[p].cells[node].value.state != state))
  {
    hide CellsPassed, LocalUpdate, Inv;
    RunPassed(steps);
    var r := Reach(steps);
    if r.Some? && p in r.value.replicas {
      LoggedIffChanged(r.value.replicas[p], node, now, state);
    }
  }

  /**
   What a local update writes, in every run: the cell of that node, and no other, holds the new state under a
   stamp of this peer beyond the one it held; what is logged and returned is the operation the cell holds.
   */
  ghost predicate Writes(r: Replica, t: Replica, made: Option<Op>, node: nat, state: State) {
    && CellOf(t, node).Some? && (forall n :: n != node ==> CellOf(t, n) == CellOf(r, n))
    && CellOf(t, node).value == Op(node, CellOf(t, node).value.stamp, state) && CellOf(t, node).value.stamp.peer == r.peer
    && (CellOf(r, node).Some? ==> Less(CellOf(r, node).value.stamp, CellOf(t, node).value.stamp))
    && (made.Some? ==> made == CellOf(t, node) && t.ops == r.ops + [made.value])
    && (made.None? ==> t.ops == r.ops && t.log == r.log && t.frontier == r.frontier)
  }

  lemma UpdateWrites(steps: seq<Step>, p: Peer, node: nat, now: nat, state: State)
    ensures match Reach(steps)
      case None => true
      case Some(s) => p in s.replicas ==>
        var (t, made) := LocalUpdate(s.replicas[p], node, now, state);
        if node in s.replicas[p].cells then Writes(s.replicas[p], t, made, node, state) else t == s.replicas[p] && made.None?
  {
    hide CellsPassed, LocalUpdate, Inv, Writes;
    RunPassed(steps);
    var r := Reach(steps);
    if r.Some? && p in r.value.replicas {
      UpdatedCell(r.value.replicas[p], node, now, state);
    }
  }

  lemma UpdatedCell(r: Replica, node: nat, now: nat, state: State)
    requires CellsPassed(r)
    ensures var (t, made) := LocalUpdate(r, node, now, state);
      if node in r.cells then Writes(r, t, made, node, state) else t == r && made.None?
  {
    hide Passed, SentFrom, Less;
    if node in r.cells {
      assert CellOf(r, node) == r.cells[node];
      if r.cells[node].Some? {
        SendAdvances(r.clock, now, r.peer, r.cells[node].value.stamp);
      }
    }
  }

  // -- the two ways to break it ----------------------------------------------------------------------------------

  lemma ReachNext(run: seq<Step>, k: nat, s: System)
    requires k < |run| && Reach(run[..k]) == Some(s) && Allowed(s, run[k])
    ensures Reach(run[..k + 1]) == Some(Take(s, run[k]))
  {
    assert run[..k + 1][..k] == run[..k];
  }

  /** The operation peer 1 logs at time 10, and the frame it announces then. */
  function FirstOp(a: State): Op { Op(0, Stamp(10, 0, 1), a) }
  function FirstFrame(a: State): Frame { Frame([Entry(1, Stamp(10, 0, 1))], [FirstOp(a)]) }
  function FirstLogged(a: State): Replica {
    Replica(1, Position(10, 0), map[0 := Some(FirstOp(a))], {DedupKey(FirstOp(a))}, [FirstOp(a)], map[1 := Stamp(10, 0, 1)])
  }
  function SecondHeard(a: State): Replica {
    Replica(2, Position(10, 2), map[0 := Some(FirstOp(a))], {DedupKey(FirstOp(a))}, [FirstOp(a)], map[1 := Stamp(10, 0, 1)])
  }
  function Shared(a: State): System { System(map[1 := FirstLogged(a), 2 := SecondHeard(a)], [Packet(1, None, FirstFrame(a))]) }

  /** Peer 1 registers node 0, writes it and announces; peer 2 takes the frame. */
  function SharingRun(a: State): seq<Step> {
    [Join(1), Open(1, 0), Update(1, 0, 10, a), Join(2), Announce(1, FirstFrame(a)), Deliver(2, 0, 10)]
  }

  lemma FirstWrites(a: State)
    ensures LocalUpdate(Register(NewReplica(1), 0), 0, 10, a).0 == FirstLogged(a)
  {
    var t := LocalUpdate(Register(NewReplica(1), 0), 0, 10, a).0;
    assert t.ops == [FirstOp(a)] && t.clock == Position(10, 0) && t.frontier == map[1 := Stamp(10, 0, 1)];
  }

  lemma SecondTakes(a: State)
    ensures Ingest(NewReplica(2), FirstFrame(a), 10).0 == SecondHeard(a)
  {
    var x, entries := FirstOp(a), [Entry(1, Stamp(10, 0, 1))];
    assert entries[1..] == [] && [x][1..] == [];
    var r1 := NewReplica(2).(clock := Position(10, 1), frontier := map[1 := x.stamp]);
    assert TakeEntries(r1, [], 10) == r1;
    assert TakeEntries(NewReplica(2), entries, 10) == r1;
    var t := TakeOp(r1, x, 10);
    assert t.ops == [x] && t.clock == Position(10, 2);
    assert TakeOps(t, [], 10) == (t, 0);
    assert TakeOps(r1, [x], 10).0 == t;
  }

  lemma SharingReaches(run: seq<Step>, a: State)
    requires SharingRun(a) <= run
    ensures Reach(run[..6]) == Some(Shared(a))
  {
    hide LocalUpdate, Ingest, Reach, Take, Allowed;
    assert forall k :: 0 <= k < 6 ==> run[k] == SharingRun(a)[k];
    SharingOpens(a);
    SharingAnnounces(a);
    ReachNone(run);
    ReachNext(run, 0, START);
    ReachNext(run, 1, OnePeer(NewReplica(1)));
    ReachNext(run, 2, OnePeer(Register(NewReplica(1), 0)));
    ReachNext(run, 3, OnePeer(FirstLogged(a)));
    ReachNext(run, 4, TwoPeers(FirstLogged(a), NewReplica(2), []));
    ReachNext(run, 5, TwoPeers(FirstLogged(a), NewReplica(2), [Packet(1, None, FirstFrame(a))]));
  }

  function OnePeer(p: Replica): System { System(map[1 := p], []) }

  function TwoPeers(p: Replica, q: Replica, packets: seq<Packet>): System { System(map[1 := p, 2 := q], packets) }

  lemma SharingOpens(a: State)
    ensures Allowed(START, Join(1)) && Take(START, Join(1)) == OnePeer(NewReplica(1))
    ensures var s := OnePeer(NewReplica(1)); Allowed(s, Open(1, 0)) && Take(s, Open(1, 0)) == OnePeer(Register(NewReplica(1), 0))
    ensures
      var s := OnePeer(Register(NewReplica(1), 0));
      Allowed(s, Update(1, 0, 10, a)) && Take(s, Update(1, 0, 10, a)) == OnePeer(FirstLogged(a))
    ensures
      var s := OnePeer(FirstLogged(a));
      Allowed(s, Join(2)) && Take(s, Join(2)) == TwoPeers(FirstLogged(a), NewReplica(2), [])
  {
    hide LocalUpdate, Register;
    FirstWrites(a);
    PutOne(NewReplica(1), Register(NewReplica(1), 0));
    PutOne(Register(NewReplica(1), 0), FirstLogged(a));
  }

  lemma PutOne(p: Replica, r: Replica)
    ensures Put(OnePeer(p), 1, r) == OnePeer(r)
  {
    assert map[1 := p][1 := r] == map[1 := r];
  }

  lemma PutTwo(p: Replica, q: Replica, packets: seq<Packet>, r: Replica)
    ensures Put(TwoPeers(p, q, packets), 1, r) == TwoPeers(r, q, packets)
    ensures Put(TwoPeers(p, q, packets), 2, r) == TwoPeers(p, r, packets)
  {
    assert map[1 := p, 2 := q][1 := r] == map[1 := r, 2 := q];
    assert map[1 := p, 2 := q][2 := r] == map[1 := p, 2 := r];
  }

  lemma SharingAnnounces(a: State)
    ensures
      var s, step := TwoPeers(FirstLogged(a), NewReplica(2), []), Announce(1, FirstFrame(a));
      Allowed(s, step) && Take(s, step) == TwoPeers(FirstLogged(a), NewReplica(2), [Packet(1, None, FirstFrame(a))])
    ensures
      var s := TwoPeers(FirstLogged(a), NewReplica(2), [Packet(1, None, FirstFrame(a))]);
      Allowed(s, Deliver(2, 0, 10)) && Take(s, Deliver(2, 0, 10)) == Shared(a)
  {
    hide Ingest;
    SecondTakes(a);
    assert IsSyncFrame(FirstLogged(a), FirstFrame(a));
    PutTwo(FirstLogged(a), NewReplica(2), [Packet(1, None, FirstFrame(a))], SecondHeard(a));
  }

  lemma ReachNone(run: seq<Step>)
    ensures Reach(run[..0]) == Some(START)
  {
  }

  /**
   Registering a node that already has a value empties its cell: no local update went unlogged, the logs are
   equal, and the cells differ.
   */
  lemma ReRegistrationDiverges(a: State)
    ensures match Reach(SharingRun(a) + [Open(1, 0)])
      case None => false
      case Some(s) =>
        && 1 in s.replicas && 2 in s.replicas && s.replicas[1].ops == s.replicas[2].ops
        && CellOf(s.replicas[1], 0) == None && CellOf(s.replicas[2], 0) == Some(FirstOp(a))
  {
    hide Reach;
    var run := SharingRun(a) + [Open(1, 0)];
    SharingReaches(run, a);
    ReachNext(run, 6, Shared(a));
    assert run[..7] == run;
  }

  /** The operation peer 2 logs at time 20, and the frame it announces then. */
  function SecondOp(b: State): Op { Op(0, Stamp(20, 0, 2), b) }
  function SecondFrame(a: State, b: State): Frame {
    Frame([Entry(1, Stamp(10, 0, 1)), Entry(2, Stamp(20, 0, 2))], [FirstOp(a), SecondOp(b)])
  }

  /** Peer 1 writes the value its cell has, peer 2 another one, a little earlier by its clock, and peer 1 takes that. */
  function UnloggedRun(a: State, b: State): seq<Step> {
    SharingRun(a) + [Update(1, 0, 30, a), Update(2, 0, 20, b), Announce(2, SecondFrame(a, b)), Deliver(1, 1, 40)]
  }

  /**
   Writing the value a cell already has moves its stamp without logging it. Another replica's older
   write then loses here and wins there: equal logs, different cells.
   */
  lemma UnloggedUpdateDiverges(a: State, b: State)
    requires a != b
    ensures match Reach(UnloggedRun(a, b))
      case None => false
      case Some(s) =>
        && 1 in s.replicas && 2 in s.replicas && s.replicas[1].ops == s.replicas[2].ops
        && CellOf(s.replicas[1], 0).Some? && CellOf(s.replicas[1], 0).value.state == a
        && CellOf(s.replicas[2], 0).Some? && CellOf(s.replicas[2], 0).value.state == b
  {
    hide Reach, Take, Allowed;
    var run := UnloggedRun(a, b);
    var p, q, first := FirstAgain(a), SecondLogged(a, b), Packet(1, None, FirstFrame(a));
    SharingReaches(run, a);
    BothWrite(a, b);
    LastTakes(a, b);
    ReachNext(run, 6, Shared(a));
    ReachNext(run, 7, TwoPeers(p, SecondHeard(a), [first]));
    ReachNext(run, 8, TwoPeers(p, q, [first]));
    ReachNext(run, 9, TwoPeers(p, q, [first, Packet(2, None, SecondFrame(a, b))]));
    assert run[..10] == run;
  }

  lemma BothWrite(a: State, b: State)
    requires a != b
    ensures
      var s, t := Shared(a), TwoPeers(FirstAgain(a), SecondHeard(a), [Packet(1, None, FirstFrame(a))]);
      Allowed(s, Update(1, 0, 30, a)) && Take(s, Update(1, 0, 30, a)) == t
      && Allowed(t, Update(2, 0, 20, b)) && Take(t, Update(2, 0, 20, b)) == TwoPeers(FirstAgain(a), SecondLogged(a, b), t.packets)
  {
    hide LocalUpdate, FirstAgain, SecondHeard, FirstLogged;
    FirstRewrites(a);
    SecondWrites(a, b);
    PutTwo(FirstLogged(a), SecondHeard(a), [Packet(1, None, FirstFrame(a))], FirstAgain(a));
    PutTwo(FirstAgain(a), SecondHeard(a), [Packet(1, None, FirstFrame(a))], SecondLogged(a, b));
  }

  lemma LastTakes(a: State, b: State)
    ensures
      var p, q, packets := FirstAgain(a), SecondLogged(a, b), [Packet(1, None, FirstFrame(a))];
      var s, t := TwoPeers(p, q, packets), TwoPeers(p, q, packets + [Packet(2, None, SecondFrame(a, b))]);
      && packets + [Packet(2, None, SecondFrame(a, b))] == [Packet(1, None, FirstFrame(a)), Packet(2, None, SecondFrame(a, b))]
      && Allowed(s, Announce(2, SecondFrame(a, b))) && Take(s, Announce(2, SecondFrame(a, b))) == t
      && Allowed(t, Deliver(1, 1, 40))
      && var r := Take(t, Deliver(1, 1, 40)).replicas; 1 in r && 2 in r && r[2] == q && r[1].ops == q.ops && r[1].cells == p.cells
  {
    hide Ingest;
    assert IsSyncFrame(SecondLogged(a, b), SecondFrame(a, b));
    FirstKeeps(FirstAgain(a), a, b);
  }

  function FirstAgain(a: State): Replica {
    FirstLogged(a).(clock := Position(30, 0), cells := map[0 := Some(Op(0, Stamp(30, 0, 1), a))])
  }

  function SecondLogged(a: State, b: State): Replica {
    Replica(2, Position(20, 0), map[0 := Some(SecondOp(b))], {DedupKey(FirstOp(a)), DedupKey(SecondOp(b))}, [FirstOp(a), SecondOp(b)],
            map[1 := Stamp(10, 0, 1), 2 := Stamp(20, 0, 2)])
  }

  lemma FirstRewrites(a: State)
    ensures LocalUpdate(FirstLogged(a), 0, 30, a).0 == FirstAgain(a)
  {
  }

  lemma SecondWrites(a: State, b: State)
    requires a != b
    ensures LocalUpdate(SecondHeard(a), 0, 20, b).0 == SecondLogged(a, b)
  {
    var t := LocalUpdate(SecondHeard(a), 0, 20, b).0;
    assert t.ops == [FirstOp(a), SecondOp(b)];
    assert t.log == {DedupKey(FirstOp(a)), DedupKey(SecondOp(b))};
    assert t.frontier == map[1 := Stamp(10, 0, 1), 2 := Stamp(20, 0, 2)];
  }

  lemma FirstKeeps(p: Replica, a: State, b: State)
    requires p == FirstAgain(a)
    ensures var t := Ingest(p, SecondFrame(a, b), 40).0; t.ops == [FirstOp(a), SecondOp(b)] && t.cells == p.cells
  {
    hide ReceivedAt, ObserveStamp, TakeEntries;
    var entries, x, y := [Entry(1, Stamp(10, 0, 1)), Entry(2, Stamp(20, 0, 2))], FirstOp(a), SecondOp(b);
    EntriesKeepLog(p, entries, 40);
    EntriesKeepPeer(p, entries, 40);
    assert [x, y][1..] == [y] && [y][1..] == [];
    var r := TakeEntries(p, entries, 40);
    assert TakeOp(r, x, 40) == r;
    var t := TakeOp(r, y, 40);
    assert t.ops == [x, y] && t.cells == p.cells;
    assert TakeOps(t, [], 40) == (t, 0);
    assert TakeOps(r, [y], 40).0 == t;
  }

  lemma {:induction false} EntriesKeepPeer(r: Replica, entries: seq<Entry>, now: nat)
    ensures TakeEntries(r, entries, now).peer == r.peer
    decreases |entries|
  {
    if entries != [] {
      var r1 := Hear(r, entries[0].stamp, now);
      EntriesKeepPeer(r1.(frontier := ObserveStamp(r1.frontier, entries[0].stamp)), entries[1..], now);
    }
  }
}
