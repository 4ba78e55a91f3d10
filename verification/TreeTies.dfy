/** When two live siblings have one sort key, the order of arrival shows; and then only. */
module TreeTies {
  import opened Basics
  import opened TreeModel
  import opened TreeConvergence
  import opened TreeDelivery
  import opened TreeRender

  // -- tables and logs only grow at the end -------------------------------------------------------

  lemma {:induction false} PassAppends(r: Replica, pending: seq<Op>)
    ensures var t := Pass(r, pending).0; r.order <= t.order && r.log <= t.log
    decreases |pending|
  {
    if pending != [] {
      var op, rest := pending[0], pending[1..];
      if Contains(r.frontier, op.id) {
        PassAppends(r, rest);
      } else if Ready(r, op) {
        CommitAppends(r, op);
        PassAppends(Commit(r, op), rest);
      } else {
        PassAppends(r.(buffered := r.buffered + [op]), rest);
      }
    }
  }

  lemma CommitAppends(r: Replica, op: Op)
    ensures var t := Commit(r, op); r.order <= t.order && r.log <= t.log
  {
  }

  lemma {:induction false} DrainAppends(r: Replica)
    ensures var t := Drain(r); r.order <= t.order && r.log <= t.log
    decreases |r.buffered|
  {
    var r0 := r.(buffered := []);
    PassAppends(r0, r.buffered);
    PassShrinks(r0, r.buffered);
    if Pass(r0, r.buffered).1 {
      DrainAppends(Pass(r0, r.buffered).0);
    }
  }

  lemma {:induction false} ParkKeeps(r: Replica, ops: seq<Op>)
    ensures var t := Park(r, ops); t.order == r.order && t.log == r.log
    decreases |ops|
  {
    if ops != [] {
      var op := ops[0];
      var r1 := if r.counter < op.id.counter then r.(counter := op.id.counter) else r;
      ParkKeeps(if Contains(r1.frontier, op.id) then r1 else r1.(buffered := r1.buffered + [op]), ops[1..]);
    }
  }

  lemma UpdateAppends(r: Replica, ops: seq<Op>)
    ensures var t := ApplyUpdate(r, ops); r.order <= t.order && r.log <= t.log
  {
    hide Park, Drain;
    ParkKeeps(r, ops);
    DrainAppends(Park(r, ops));
  }

  // -- delivering one sibling before the other ---------------------------------------------------------------

  lemma Listing(D: set<Op>) returns (ops: seq<Op>)
    ensures forall op :: op in ops <==> op in D
    decreases D
  {
    if D == {} {
      ops := [];
    } else {
      var op :| op in D;
      var rest := Listing(D - {op});
      ops := [op] + rest;
    }
  }

  /** What is older than `limit`, and one more operation. */
  function Early(D: set<Op>, limit: nat, c: Op): (r: set<Op>)
    ensures forall op :: op in r <==> (op in D && op.id.counter < limit) || op == c
  {
    (set op | op in D && op.id.counter < limit) + {c}
  }

  /** The creations of two siblings in `D`. */
  ghost predicate Siblings(D: set<Op>, c: Op, d: Op) {
    && c in D && d in D && c.id != d.id && c.kind.CreateNode? && d.kind.CreateNode? && c.kind.parent == d.kind.parent
  }

  /** The ancestors of both are older than both, so either may come first. */
  lemma EarlyClosed(D: set<Op>, c: Op, d: Op)
    requires WellFormed(D) && Closed(D) && Siblings(D, c, d)
    ensures var K := Early(D, Min(c.id.counter, d.id.counter), c);
      K <= D && WellFormed(K) && Closed(K) && d.id != ROOT && forall op :: op in K ==> !Makes(op, d.id)
  {
    var limit := Min(c.id.counter, d.id.counter);
    var K := Early(D, limit, c);
    forall a | a in K ensures MadeBefore(K, Needs(a), a.id.counter) {
      assert MadeBefore(D, Needs(a), a.id.counter);
      if Needs(a) != ROOT {
        var m :| m in D && Makes(m, Needs(a)) && m.id.counter < a.id.counter;
        if a == c {
          assert MadeBefore(D, Needs(d), d.id.counter);
          var n :| n in D && Makes(n, Needs(d)) && n.id.counter < d.id.counter;
          assert m == n;
        }
        assert m in K;
      }
    }
  }

  lemma {:induction false} IndexFirst(xs: seq<Id>, x: Id, j: nat)
    requires j < |xs| && xs[j] == x
    ensures IndexOf(xs, x) <= j
  {
    if j > 0 && xs[0] != x {
      IndexFirst(xs[1..], x, j - 1);
    }
  }

  lemma IndexBefore(xs: seq<Id>, ys: seq<Id>, x: Id, y: Id)
    requires xs <= ys && x in xs && y !in xs
    ensures IndexOf(ys, x) < IndexOf(ys, y)
  {
    var i := IndexOf(ys, y);
    var j :| 0 <= j < |xs| && xs[j] == x;
    assert ys[j] == x;
    IndexFirst(ys, x, j);
    assert forall k :: 0 <= k < |xs| ==> xs[k] in xs && xs[k] == ys[k];
  }

  /** A delivery of all of `D` after which the one sibling stands before the other in the table. */
  lemma OneFirst(p: Peer, D: set<Op>, c: Op, d: Op) returns (us: seq<seq<Op>>)
    requires WellFormed(D) && Closed(D) && Siblings(D, c, d)
    ensures Delivered(us) == D && IndexOf(Deliver(p, us).order, c.id) < IndexOf(Deliver(p, us).order, d.id)
  {
    hide WellFormed, Closed, Valid, Stuck, ApplyUpdate, Deliver, Accounts;
    var K := Early(D, Min(c.id.counter, d.id.counter), c);
    EarlyClosed(D, c, d);
    var early := Listing(K);
    var all := Listing(D);
    us := [early, all];
    BothDelivered(early, all, K, D);
    EarlyNodes(p, [early], K, c, d);
    LastUpdate(p, early, all);
    UpdateAppends(Deliver(p, [early]), all);
    IndexBefore(Deliver(p, [early]).order, Deliver(p, us).order, c.id, d.id);
  }

  lemma LastUpdate(p: Peer, early: seq<Op>, all: seq<Op>)
    ensures Deliver(p, [early, all]) == ApplyUpdate(Deliver(p, [early]), all)
  {
    assert [early, all][..1] == [early];
  }

  lemma BothDelivered(early: seq<Op>, all: seq<Op>, K: set<Op>, D: set<Op>)
    requires (forall op :: op in early <==> op in K) && (forall op :: op in all <==> op in D) && K <= D
    ensures Delivered([early]) == K && Delivered([early, all]) == D
  {
    assert [early][0] == early && [early, all][1] == all;
  }

  lemma EarlyNodes(p: Peer, us: seq<seq<Op>>, K: set<Op>, c: Op, d: Op)
    requires Delivered(us) == K && WellFormed(K) && Closed(K) && c in K && c.kind.CreateNode?
    requires d.id != ROOT && forall op :: op in K ==> !Makes(op, d.id)
    ensures c.id in Deliver(p, us).order && d.id !in Deliver(p, us).order
  {
    hide Deliver, Closed, RecordOk, FrontierOk, Grounded, Counted, Stuck, Accounts;
    DeliverOk(p, us, K);
    EachAppliedOnce(p, us);
    var r := Deliver(p, us);
    assert Makes(c, c.id);
    assert Exists(Held(r.log), c.id) && !Exists(Held(r.log), d.id);
  }

  // -- the converse ---------------------------------------------------------------------------------------------

  /** Every parent lists its children in the same order. */
  ghost predicate SameArrangement(r: Replica, s: Replica) {
    forall p :: LiveChildren(r.nodes, r.order, p) == LiveChildren(s.nodes, s.order, p)
  }

  /** However the operations are delivered, to whomever, the children come out in one order. */
  ghost predicate OneArrangement(D: set<Op>, p: Peer, q: Peer) {
    forall us, vs :: Delivered(us) == D && Delivered(vs) == D ==> SameArrangement(Deliver(p, us), Deliver(q, vs))
  }

  /** Two live siblings with one key. */
  predicate Tied(nodes: map<Id, Record>, p: Id, x: Id, y: Id) {
    IsLiveChild(nodes, p, x) && IsLiveChild(nodes, p, y) && x != y && nodes[x].sort == nodes[y].sort
  }

  /** Siblings with one key are listed in the table's order. */
  lemma TieShows(nodes: map<Id, Record>, o: seq<Id>, q: seq<Id>, p: Id, x: Id, y: Id)
    requires OrderOk(nodes, o) && OrderOk(nodes, q) && Tied(nodes, p, x, y)
    requires IndexOf(o, x) < IndexOf(o, y) && IndexOf(q, y) < IndexOf(q, x)
    ensures LiveChildren(nodes, o, p) != LiveChildren(nodes, q, p)
  {
    hide KeyBefore, IndexOf;
    assert o[..|o|] == o && q[..|q|] == q;
    ChildrenArranged(nodes, o, |o|, p);
    ChildrenArranged(nodes, q, |q|, p);
    var s := LiveChildren(nodes, o, p);
    if s == LiveChildren(nodes, q, p) {
      assert x in s && y in s;
      var i :| 0 <= i < |s| && s[i] == x;
      var j :| 0 <= j < |s| && s[j] == y;
      AheadOne(nodes, o, x, y);
      AheadOne(nodes, q, x, y);
      assert false;
    }
  }

  /** Two live siblings with one key: two deliveries of the same operations list them in two orders. */
  lemma TiedKeysDiverge(D: set<Op>, nodes: map<Id, Record>, p: Peer, q: Peer, parent: Id, x: Id, y: Id)
    returns (us: seq<seq<Op>>, vs: seq<seq<Op>>)
    requires WellFormed(D) && Closed(D) && Describes(D, nodes) && Tied(nodes, parent, x, y)
    ensures Delivered(us) == D && Delivered(vs) == D
    ensures Deliver(p, us).nodes == nodes && Deliver(q, vs).nodes == nodes
    ensures LiveChildren(nodes, Deliver(p, us).order, parent) != LiveChildren(nodes, Deliver(q, vs).order, parent)
  {
    hide Closed, WellFormed, Deliver, Valid, Describes, OrderOk;
    var c, d := Creations(D, nodes, parent, x, y);
    us := OneFirst(p, D, c, d);
    vs := OneFirst(q, D, d, c);
    DeliveredTable(p, us, nodes);
    DeliveredTable(q, vs, nodes);
    TieShows(nodes, Deliver(p, us).order, Deliver(q, vs).order, parent, x, y);
  }

  lemma SomeTie(nodes: map<Id, Record>) returns (p: Id, x: Id, y: Id)
    requires !DistinctKeys(nodes)
    ensures Tied(nodes, p, x, y)
  {
    hide IsLiveChild;
    if forall a, b, c :: !Tied(nodes, a, b, c) {
      forall a, b, c | IsLiveChild(nodes, a, b) && IsLiveChild(nodes, a, c) && b != c
        ensures b in nodes && c in nodes && nodes[b].sort != nodes[c].sort
      {
        ChildIsNode(nodes, a, b);
        ChildIsNode(nodes, a, c);
        assert !Tied(nodes, a, b, c);
      }
      assert false;
    }
    p, x, y :| Tied(nodes, p, x, y);
  }

  lemma Creations(D: set<Op>, nodes: map<Id, Record>, parent: Id, x: Id, y: Id) returns (c: Op, d: Op)
    requires WellFormed(D) && Describes(D, nodes) && Tied(nodes, parent, x, y)
    ensures Siblings(D, c, d) && c.id == x && d.id == y && Siblings(D, d, c)
  {
    hide SortOk, TombOk;
    assert RecordOk(D, x, nodes[x]) && RecordOk(D, y, nodes[y]);
    c :| c in D && Makes(c, x) && nodes[x].parent == Some(c.kind.parent);
    d :| d in D && Makes(d, y) && nodes[y].parent == Some(d.kind.parent);
  }

  lemma DeliveredTable(p: Peer, us: seq<seq<Op>>, nodes: map<Id, Record>)
    requires WellFormed(Delivered(us)) && Closed(Delivered(us)) && Describes(Delivered(us), nodes)
    ensures Deliver(p, us).nodes == nodes && OrderOk(nodes, Deliver(p, us).order)
  {
    hide Deliver, Closed, WellFormed, Describes, Stuck, Accounts;
    var D := Delivered(us);
    DeliverOk(p, us, D);
    EachAppliedOnce(p, us);
    var r := Deliver(p, us);
    assert Held(r.log) == D;
    TableUnique(D, r.nodes, nodes);
  }

  /** The children come out in one order, whatever the delivery, exactly when live siblings have distinct keys. */
  lemma OneArrangementIffDistinct(D: set<Op>, nodes: map<Id, Record>, p: Peer, q: Peer)
    requires WellFormed(D) && Closed(D) && Describes(D, nodes)
    ensures OneArrangement(D, p, q) <==> DistinctKeys(nodes)
  {
    hide Closed, WellFormed, Deliver, Describes, OrderOk, IsLiveChild, LiveChildren;
    if DistinctKeys(nodes) {
      forall us, vs | Delivered(us) == D && Delivered(vs) == D ensures SameArrangement(Deliver(p, us), Deliver(q, vs)) {
        DeliveredTable(p, us, nodes);
        DeliveredTable(q, vs, nodes);
        forall parent ensures LiveChildren(nodes, Deliver(p, us).order, parent) == LiveChildren(nodes, Deliver(q, vs).order, parent) {
          SameChildren(nodes, Deliver(p, us).order, Deliver(q, vs).order, parent);
        }
      }
    } else {
      var parent, x, y := SomeTie(nodes);
      var us, vs := TiedKeysDiverge(D, nodes, p, q, parent, x, y);
      assert !SameArrangement(Deliver(p, us), Deliver(q, vs));
    }
  }
}
