/** Strong eventual consistency of the tree: any order, batching and duplication gives the same replica. */
module TreeDelivery {
  import opened Basics
  import opened TreeModel
  import opened TreeConvergence

  // -- passes ------------------------------------------------------------------------------------------

  /** No parked operation is ready. */
  ghost predicate Stuck(r: Replica) {
    forall op :: op in r.buffered ==> !Contains(r.frontier, op.id) && !Ready(r, op)
  }

  /** Everything received so far is applied or parked. */
  ghost predicate Accounts(r: Replica, ops: set<Op>) { forall op :: op in ops ==> op in r.log || op in r.buffered }

  /** What a replica has received is applied, parked, or still in the pass. */
  ghost predicate InPass(r: Replica, pending: seq<Op>, D: set<Op>) {
    Valid(r, D) && forall op :: op in pending ==> op in D && op.id.counter <= r.counter
  }

  lemma HeldById(r: Replica, D: set<Op>, op: Op)
    requires WellFormed(D) && Valid(r, D) && op in D && Contains(r.frontier, op.id)
    ensures op in r.log
  {
    var o :| o in r.log && o.id == op.id;
    assert o in D;
  }

  lemma {:induction false} PassOk(r: Replica, pending: seq<Op>, D: set<Op>)
    requires WellFormed(D) && InPass(r, pending, D)
    ensures var (t, progressed) := Pass(r, pending);
      && Valid(t, D) && t.peer == r.peer && t.counter == r.counter
      && (forall op :: op in r.log ==> op in t.log) && (forall op :: op in r.buffered ==> op in t.buffered)
      && (forall op :: op in pending ==> op in t.log || op in t.buffered)
      && (forall op :: op in t.log ==> op in r.log || op in pending)
      && (forall op :: op in t.buffered ==> op in r.buffered || op in pending)
      && (!progressed ==> t == r.(buffered := t.buffered))
      && (!progressed ==> forall op :: op in t.buffered && op !in r.buffered ==> !Contains(r.frontier, op.id) && !Ready(r, op))
    decreases |pending|
  {
    hide Valid, Contains, Ready, Commit;
    if pending != [] {
      var op, rest := pending[0], pending[1..];
      assert pending == [op] + rest && op in pending;
      if Contains(r.frontier, op.id) {
        HeldById(r, D, op);
        PassOk(r, rest, D);
      } else if Ready(r, op) {
        CommitReady(r, D, op);
        PassOk(Commit(r, op), rest, D);
      } else {
        ParkedOk(r, D, op);
        PassOk(r.(buffered := r.buffered + [op]), rest, D);
        assert op in r.buffered + [op];
        SameReady(r, r.buffered + [op]);
      }
    }
  }

  lemma CommitReady(r: Replica, D: set<Op>, op: Op)
    requires WellFormed(D) && Valid(r, D) && op in D && Ready(r, op) && !Contains(r.frontier, op.id) && op.id.counter <= r.counter
    ensures Valid(Commit(r, op), D)
    ensures var t := Commit(r, op); t.log == r.log + [op] && t.buffered == r.buffered && t.counter == r.counter && t.peer == r.peer
  {
    hide Valid, Contains, Ready;
    CommitValid(r, D, op);
    CommitParts(r, op);
  }

  lemma ParkedOk(r: Replica, D: set<Op>, op: Op)
    requires Valid(r, D) && op in D && op.id.counter <= r.counter
    ensures Valid(r.(buffered := r.buffered + [op]), D)
  {
    hide Describes, Grounded, OrderOk, FrontierOk;
  }

  lemma SameReady(r: Replica, buffered: seq<Op>)
    ensures forall op :: Ready(r.(buffered := buffered), op) <==> Ready(r, op)
  {
  }

  lemma Unparked(r: Replica, D: set<Op>)
    requires Valid(r, D)
    ensures InPass(r.(buffered := []), r.buffered, D)
  {
    hide Describes, Grounded, OrderOk, FrontierOk;
  }

  /** Draining applies until nothing parked is ready, and loses nothing. */
  lemma {:induction false} DrainOk(r: Replica, D: set<Op>)
    requires WellFormed(D) && Valid(r, D)
    ensures var t := Drain(r);
      && Valid(t, D) && Stuck(t) && t.peer == r.peer && t.counter == r.counter
      && (forall op :: op in r.log ==> op in t.log) && (forall op :: op in r.buffered ==> op in t.log || op in t.buffered)
      && (forall op :: op in t.log || op in t.buffered ==> op in r.log || op in r.buffered)
    decreases |r.buffered|
  {
    hide Valid, Contains, Ready, Pass;
    var r0 := r.(buffered := []);
    Unparked(r, D);
    PassOk(r0, r.buffered, D);
    var (t, progressed) := Pass(r0, r.buffered);
    PassShrinks(r0, r.buffered);
    if progressed {
      DrainOk(t, D);
    } else {
      SameReady(r0, t.buffered);
    }
  }

  lemma {:induction false} ParkOk(r: Replica, ops: seq<Op>, D: set<Op>)
    requires WellFormed(D) && Valid(r, D) && forall op :: op in ops ==> op in D
    ensures var t := Park(r, ops);
      && Valid(t, D) && t.log == r.log && t.peer == r.peer && r.counter <= t.counter
      && (forall op :: op in r.buffered ==> op in t.buffered)
      && (forall op :: op in ops ==> op in t.log || op in t.buffered)
      && (forall op :: op in t.buffered ==> op in r.buffered || op in ops)
    decreases |ops|
  {
    hide Valid, Contains;
    if ops != [] {
      var op, rest := ops[0], ops[1..];
      assert ops == [op] + rest && op in ops;
      var r1 := if r.counter < op.id.counter then r.(counter := op.id.counter) else r;
      RaiseOk(r, D, op.id.counter);
      if Contains(r1.frontier, op.id) {
        HeldById(r1, D, op);
        ParkOk(r1, rest, D);
      } else {
        ParkedOk(r1, D, op);
        assert op in r1.buffered + [op];
        ParkOk(r1.(buffered := r1.buffered + [op]), rest, D);
      }
    }
  }

  lemma RaiseOk(r: Replica, D: set<Op>, c: nat)
    requires Valid(r, D)
    ensures r.counter < c ==> Valid(r.(counter := c), D)
  {
    hide Describes, Grounded, OrderOk, FrontierOk;
  }

  /** One update: nothing received is lost, nothing ready is left parked. */
  lemma UpdateOk(r: Replica, ops: seq<Op>, D: set<Op>)
    requires WellFormed(D) && Valid(r, D) && forall op :: op in ops ==> op in D
    ensures var t := ApplyUpdate(r, ops);
      && Valid(t, D) && Stuck(t) && t.peer == r.peer && r.counter <= t.counter
      && (forall op :: op in r.log ==> op in t.log)
      && (forall op :: op in r.buffered || op in ops ==> op in t.log || op in t.buffered)
      && (forall op :: op in t.log || op in t.buffered ==> op in r.log || op in r.buffered || op in ops)
  {
    hide Valid, Stuck, Drain, Park;
    ParkOk(r, ops, D);
    DrainOk(Park(r, ops), D);
  }

  // -- causally closed deliveries empty the buffer ------------------------------------------------------------

  /** A causally closed set, once received, is applied whole. */
  lemma ClosedIsApplied(r: Replica, D: set<Op>, K: set<Op>)
    requires WellFormed(D) && WellFormed(K) && K <= D && Closed(K) && Valid(r, D) && Stuck(r) && Accounts(r, K)
    ensures forall op :: op in K ==> op in r.log
  {
    hide Ready, Contains, Closed, WellFormed, Valid;
    forall op | op in K ensures op in r.log {
      AppliedIfReceived(r, D, K, op);
    }
  }

  /** If all that was received is causally closed, nothing stays parked. */
  lemma ClosedDrains(r: Replica, D: set<Op>)
    requires WellFormed(D) && Closed(D) && Valid(r, D) && Stuck(r) && Accounts(r, D)
    ensures r.buffered == [] && forall op :: op in D <==> op in r.log
  {
    hide Ready, Contains, Closed, WellFormed, Describes, Grounded, OrderOk, FrontierOk;
    ClosedIsApplied(r, D, D);
    forall op | op in D ensures Contains(r.frontier, op.id) {
      HeldSeen(r, D, op);
    }
    ValidWithin(r, D);
    HeadParked(r);
  }

  lemma HeadParked(r: Replica)
    ensures r.buffered != [] ==> r.buffered[0] in r.buffered
  {
  }

  lemma HeldSeen(r: Replica, D: set<Op>, op: Op)
    requires WellFormed(D) && Valid(r, D) && op in r.log && op in D
    ensures Contains(r.frontier, op.id)
  {
  }

  /** Older operations first: what each needs is there, so each was ready. */
  lemma {:induction false} AppliedIfReceived(r: Replica, D: set<Op>, K: set<Op>, op: Op)
    requires WellFormed(D) && WellFormed(K) && K <= D && Closed(K) && Valid(r, D) && Stuck(r) && Accounts(r, K) && op in K
    ensures op in r.log
    decreases op.id.counter
  {
    hide Contains, Grounded, FrontierOk, OrderOk, RecordOk;
    if Needs(op) != ROOT {
      var c :| c in K && Makes(c, Needs(op)) && c.id.counter < op.id.counter;
      AppliedIfReceived(r, D, K, c);
      assert c in Held(r.log);
    }
    assert Exists(Held(r.log), Needs(op));
    assert Ready(r, op);
  }

  lemma ValidWithin(r: Replica, D: set<Op>)
    requires Valid(r, D)
    ensures forall op :: op in r.log || op in r.buffered ==> op in D
  {
  }

  /** An update of one ready operation is that operation applied. */
  lemma OneReady(r: Replica, op: Op)
    requires r.buffered == [] && !Contains(r.frontier, op.id) && Ready(r, op)
    ensures ApplyUpdate(r, [op]) == Commit(r.(counter := Max(r.counter, op.id.counter)), op)
  {
    hide Contains, Commit, Ready;
    var r1 := r.(counter := Max(r.counter, op.id.counter));
    assert Park(r, [op]) == r1.(buffered := [op]) by {
      assert [op][1..] == [] && r1.buffered + [op] == [op];
    }
    ReadyCounter(r, r1.counter, op);
    CommitKeepsBuffer(r1, op);
    assert [op][1..] == [];
    assert Pass(r1, [op]) == (Commit(r1, op), true);
    assert r1.(buffered := []) == r1;
    assert Commit(r1, op).(buffered := []) == Commit(r1, op);
    assert Drain(Commit(r1, op)) == Commit(r1, op);
  }

  lemma ReadyCounter(r: Replica, c: nat, op: Op)
    ensures Ready(r.(counter := c), op) <==> Ready(r, op)
  {
  }

  // -- runs -------------------------------------------------------------------------------------------------------

  /** A replica after a list of updates. */
  function Deliver(peer: Peer, updates: seq<seq<Op>>): Replica
    decreases |updates|
  {
    if updates == [] then NewReplica(peer)
    else ApplyUpdate(Deliver(peer, updates[..|updates| - 1]), updates[|updates| - 1])
  }

  function Delivered(updates: seq<seq<Op>>): (r: set<Op>)
    ensures forall op :: op in r <==> exists i :: 0 <= i < |updates| && op in updates[i]
  {
    set i, op | 0 <= i < |updates| && op in updates[i] :: op
  }

  lemma {:induction false} DeliverOk(peer: Peer, updates: seq<seq<Op>>, D: set<Op>)
    requires WellFormed(D) && forall op :: op in Delivered(updates) ==> op in D
    ensures var r := Deliver(peer, updates); Valid(r, D) && Stuck(r) && Accounts(r, Delivered(updates))
    decreases |updates|
  {
    hide Valid, Stuck, ApplyUpdate;
    var r := Deliver(peer, updates);
    if updates == [] {
      NewValid(peer, D);
      NewStuck(peer);
    } else {
      var n := |updates| - 1;
      var before := updates[..n];
      assert forall op :: op in Delivered(before) ==> op in Delivered(updates);
      DeliverOk(peer, before, D);
      forall op | op in updates[n] ensures op in D {
        assert op in Delivered(updates);
      }
      UpdateOk(Deliver(peer, before), updates[n], D);
      forall op | op in Delivered(updates) ensures op in r.log || op in r.buffered {
        var i :| 0 <= i < |updates| && op in updates[i];
        if i < n {
          assert op in before[i];
          assert op in Delivered(before);
        }
      }
    }
  }

  lemma NewStuck(peer: Peer)
    ensures Stuck(NewReplica(peer))
  {
  }

  /**
   Delivering a causally closed set of operations, in any order, batched and duplicated in any way,
   applies each operation exactly once and leaves nothing parked.
   */
  lemma EachAppliedOnce(peer: Peer, updates: seq<seq<Op>>)
    requires WellFormed(Delivered(updates)) && Closed(Delivered(updates))
    ensures var r := Deliver(peer, updates);
      && r.buffered == []
      && (forall op :: op in r.log <==> op in Delivered(updates))
      && (forall i, j :: 0 <= i < j < |r.log| ==> r.log[i].id != r.log[j].id)
  {
    hide Stuck, Deliver, Closed, WellFormed, Describes, Grounded, OrderOk, FrontierOk;
    var D := Delivered(updates);
    DeliverOk(peer, updates, D);
    ClosedDrains(Deliver(peer, updates), D);
  }

  /** Two replicas that hold the same operations have the same table and frontier. */
  lemma SameOpsSameTable(r: Replica, s: Replica, D: set<Op>)
    requires WellFormed(D) && Valid(r, D) && Valid(s, D) && forall op :: op in r.log <==> op in s.log
    ensures r.nodes == s.nodes && r.frontier == s.frontier
  {
    hide Describes, Grounded, OrderOk, Contains, Canonical;
    assert Held(r.log) == Held(s.log);
    HeldWellFormed(r.log, D);
    TableUnique(Held(r.log), r.nodes, s.nodes);
    SameFrontier(r, s);
  }

  lemma HeldWellFormed(log: seq<Op>, D: set<Op>)
    requires WellFormed(D) && forall op :: op in log ==> op in D
    ensures WellFormed(Held(log))
  {
  }

  lemma SameFrontier(r: Replica, s: Replica)
    requires FrontierOk(r.frontier, r.log) && FrontierOk(s.frontier, s.log) && forall op :: op in r.log <==> op in s.log
    ensures r.frontier == s.frontier
  {
    hide Contains, Canonical;
    FrontierUnique(r.frontier, s.frontier);
  }

  /** Strong eventual consistency: the same operations, delivered in any two ways, give the same table. */
  lemma DeliveryOrderDoesNotMatter(p: Peer, q: Peer, us: seq<seq<Op>>, vs: seq<seq<Op>>)
    requires Delivered(us) == Delivered(vs) && WellFormed(Delivered(us)) && Closed(Delivered(us))
    ensures Deliver(p, us).nodes == Deliver(q, vs).nodes && Deliver(p, us).frontier == Deliver(q, vs).frontier
  {
    hide Valid, Stuck, Deliver, Closed, WellFormed;
    var D := Delivered(us);
    DeliverOk(p, us, D);
    DeliverOk(q, vs, D);
    EachAppliedOnce(p, us);
    EachAppliedOnce(q, vs);
    SameOpsSameTable(Deliver(p, us), Deliver(q, vs), D);
  }
}
