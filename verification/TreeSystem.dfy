/** Replicas editing and exchanging operations: everything minted is well formed, so all replicas agree. */
module TreeSystem {
  import opened Basics
  import FracKeys
  import opened TreeModel
  import opened TreeConvergence
  import opened TreeDelivery
  import opened TreeRender

  // -- local edits -----------------------------------------------------------------------------------

  function FracOf(nodes: map<Id, Record>, x: Option<Id>): Option<FracKeys.Key>
    requires x.Some? ==> x.value in nodes
  {
    if x.None? then None else Some(nodes[x.value].sort.frac)
  }

  function At(xs: seq<Id>, i: nat): Option<Id> { if i < |xs| then Some(xs[i]) else None }

  /** The neighbours of a new child: after the anchor, at the front without one, at the end if it is gone. */
  function Neighbours(kids: seq<Id>, after: Option<Id>): (r: (Option<Id>, Option<Id>))
    ensures (r.0.Some? ==> r.0.value in kids) && (r.1.Some? ==> r.1.value in kids)
  {
    if after.None? then (None, At(kids, 0))
    else
      var i := IndexOf(kids, after.value);
      if i < |kids| then (after, At(kids, i + 1))
      else (if kids == [] then None else Some(kids[|kids| - 1]), None)
  }

  function KeyAfter(r: Replica, parent: Id, after: Option<Id>): SortKey {
    var (lo, hi) := Neighbours(LiveChildren(r.nodes, r.order, parent), after);
    SortKey(FracKeys.KeyBetween(FracKeys.OrEmpty(FracOf(r.nodes, lo)), FracOf(r.nodes, hi)), r.peer)
  }

  function NextId(r: Replica): Id { Id(r.counter + 1, r.peer) }

  function CommitLocal(r: Replica, op: Op): Replica { Commit(r.(counter := r.counter + 1), op) }

  datatype Edit =
    | Create(parent: Id, after: Option<Id>, seed: Body)
    | Delete(node: Id)
    | Place(node: Id, after: Option<Id>)

  /** The operation an edit mints, or None where the tree refuses it. */
  function Mint(r: Replica, e: Edit): Option<Op> {
    match e
    case Create(parent, after, seed) =>
      if parent !in r.nodes then None
      else Some(Op(NextId(r), CreateNode(NextId(r), parent, KeyAfter(r, parent, after), seed)))
    case Delete(x) =>
      if x !in r.nodes || x == ROOT then None else Some(Op(NextId(r), Tombstone(x)))
    case Place(x, after) =>
      if x !in r.nodes || r.nodes[x].parent.None? then None
      else Some(Op(NextId(r), Reorder(x, KeyAfter(r, r.nodes[x].parent.value, after))))
  }

  function Perform(r: Replica, e: Edit): Replica {
    match Mint(r, e)
    case None => r
    case Some(op) => CommitLocal(r, op)
  }

  /** What a replica holds that a frontier lacks, by id. */
  function Diff(r: Replica, their: Frontier): (ops: seq<Op>)
    ensures forall op :: op in ops <==> op in r.log && !Contains(their, op.id)
  {
    SortById(Lacking(r.log, their))
  }

  function Lacking(log: seq<Op>, their: Frontier): (ops: seq<Op>)
    ensures forall op :: op in ops <==> op in log && !Contains(their, op.id)
  {
    if log == [] then []
    else
      var n := |log| - 1;
      assert log == log[..n] + [log[n]];
      Lacking(log[..n], their) + if Contains(their, log[n].id) then [] else [log[n]]
  }

  function InsertById(sorted: seq<Op>, op: Op): (r: seq<Op>)
    ensures |r| == |sorted| + 1 && forall o :: o in r <==> o in sorted || o == op
  {
    if sorted == [] then [op]
    else
      var n := |sorted| - 1;
      assert sorted == sorted[..n] + [sorted[n]];
      if Before(op.id, sorted[n].id) then InsertById(sorted[..n], op) + [sorted[n]] else sorted + [op]
  }

  function SortById(ops: seq<Op>): (r: seq<Op>)
    ensures |r| == |ops| && forall o :: o in r <==> o in ops
  {
    if ops == [] then []
    else
      var n := |ops| - 1;
      assert ops == ops[..n] + [ops[n]];
      InsertById(SortById(ops[..n]), ops[n])
  }

  ghost predicate Ascending(ops: seq<Op>) { forall i, j :: 0 <= i < j < |ops| ==> !Before(ops[j].id, ops[i].id) }

  ghost predicate NoneAfter(ops: seq<Op>, last: Op) { forall op :: op in ops ==> !Before(last.id, op.id) }

  lemma AscendingSnoc(front: seq<Op>, last: Op)
    requires Ascending(front) && NoneAfter(front, last)
    ensures Ascending(front + [last])
  {
    var all := front + [last];
    forall i, j | 0 <= i < j < |all| ensures !Before(all[j].id, all[i].id) {
      assert all[i] in front;
    }
  }

  lemma AscendingFront(ops: seq<Op>)
    requires Ascending(ops) && ops != []
    ensures Ascending(ops[..|ops| - 1]) && NoneAfter(ops[..|ops| - 1], ops[|ops| - 1])
  {
  }

  lemma {:induction false} InsertAscends(sorted: seq<Op>, op: Op)
    requires Ascending(sorted)
    ensures Ascending(InsertById(sorted, op))
    decreases |sorted|
  {
    hide Ascending, Before;
    if sorted == [] {
      OneAscends(op);
    } else {
      var n := |sorted| - 1;
      var front, last := sorted[..n], sorted[n];
      AscendingFront(sorted);
      assert sorted == front + [last];
      if Before(op.id, last.id) {
        InsertAscends(front, op);
        BeforeOneWay(op.id, last.id);
        AscendingSnoc(InsertById(front, op), last);
      } else {
        AfterAll(front, last, op);
        AscendingSnoc(sorted, op);
      }
    }
  }

  lemma OneAscends(op: Op)
    ensures Ascending([op])
  {
  }

  lemma BeforeOneWay(a: Id, b: Id)
    requires Before(a, b)
    ensures !Before(b, a)
  {
  }

  lemma AfterAll(front: seq<Op>, last: Op, op: Op)
    requires NoneAfter(front, last) && !Before(op.id, last.id)
    ensures NoneAfter(front + [last], op)
  {
  }

  lemma {:induction false} SortAscends(ops: seq<Op>)
    ensures Ascending(SortById(ops))
    decreases |ops|
  {
    if ops != [] {
      var n := |ops| - 1;
      assert ops == ops[..n] + [ops[n]];
      SortAscends(ops[..n]);
      InsertAscends(SortById(ops[..n]), ops[n]);
    }
  }

  // -- a system of replicas ----------------------------------------------------------------------------------

  /** Replicas by peer. */
  type System = map<Peer, Replica>

  datatype Step =
    | Join(peer: Peer)
    | Local(peer: Peer, edit: Edit)
    | Send(from: Peer, to: Peer, ops: seq<Op>)
    | Sync(from: Peer, to: Peer)

  /** A send may carry any held operations, in any order, any number of times. */
  ghost predicate Allowed(s: System, step: Step) {
    match step
    case Join(p) => p !in s
    case Local(p, _) => p in s
    case Send(p, q, ops) => p in s && q in s && forall op :: op in ops ==> op in s[p].log
    case Sync(p, q) => p in s && q in s
  }

  function Take(s: System, step: Step): System
    requires Allowed(s, step)
  {
    match step
    case Join(p) => s[p := NewReplica(p)]
    case Local(p, e) => s[p := Perform(s[p], e)]
    case Send(_, q, ops) => s[q := ApplyUpdate(s[q], ops)]
    case Sync(p, q) => s[q := ApplyUpdate(s[q], Diff(s[p], s[q].frontier))]
  }

  /** Every operation ever minted: each is in the log of the replica that minted it. */
  ghost function Everything(s: System): set<Op> { set p, op | p in s && op in s[p].log :: op }

  ghost predicate Fine(s: System) {
    var D := Everything(s);
    && WellFormed(D) && Closed(D)
    && (forall p :: p in s ==> s[p].peer == p && Valid(s[p], D))
    && (forall op :: op in D ==> op.id.peer in s && op in s[op.id.peer].log)
  }

  // -- what every step keeps -----------------------------------------------------------------------------------

  /** More operations in the universe do no harm. */
  lemma ValidWiden(r: Replica, D: set<Op>, E: set<Op>)
    requires Valid(r, D) && D <= E
    ensures Valid(r, E)
  {
    hide Describes, Grounded, OrderOk, FrontierOk;
  }

  lemma WellFormedSub(D: set<Op>, K: set<Op>)
    requires WellFormed(D) && K <= D
    ensures WellFormed(K)
  {
  }

  /** A replica's own operations are causally closed. */
  lemma HeldClosed(r: Replica, D: set<Op>)
    requires WellFormed(D) && Closed(D) && Valid(r, D)
    ensures WellFormed(Held(r.log)) && Closed(Held(r.log))
  {
    hide Describes, OrderOk, FrontierOk;
    var K := Held(r.log);
    WellFormedSub(D, K);
    forall a | a in K ensures MadeBefore(K, Needs(a), a.id.counter) {
      assert MadeBefore(D, Needs(a), a.id.counter);
      assert Exists(K, Needs(a));
    }
  }

  /** A minted operation has a new id and needs a node that is there. */
  lemma MintOk(r: Replica, e: Edit, D: set<Op>)
    requires WellFormed(D) && Closed(D) && Valid(r, D) && Mint(r, e).Some?
    ensures var op := Mint(r, e).value;
      op.id == NextId(r) && Minted(op) && Ready(r, op) && MadeBefore(D, Needs(op), op.id.counter)
  {
    hide KeyAfter, OrderOk, FrontierOk;
    var op := Mint(r, e).value;
    var x := Needs(op);
    assert Exists(Held(r.log), x);
    if x != ROOT {
      var c :| c in Held(r.log) && Makes(c, x);
      assert c.id.counter <= r.counter;
      assert c in D;
    }
  }

  /** A new operation extends the universe. */
  lemma UniverseGrows(D: set<Op>, op: Op)
    requires WellFormed(D) && Closed(D) && Minted(op) && (forall o :: o in D ==> o.id != op.id)
    requires MadeBefore(D, Needs(op), op.id.counter)
    ensures WellFormed(D + {op}) && Closed(D + {op})
  {
    var E := D + {op};
    forall a | a in E ensures MadeBefore(E, Needs(a), a.id.counter) {
      assert MadeBefore(D, Needs(a), a.id.counter);
    }
  }

  lemma PerformOk(r: Replica, e: Edit, D: set<Op>)
    requires WellFormed(D) && Closed(D) && Valid(r, D) && forall o :: o in D && o.id.peer == r.peer ==> o in r.log
    ensures match Mint(r, e)
      case None => Perform(r, e) == r
      case Some(op) =>
        && (forall o :: o in D ==> o.id != op.id) && op.id.peer == r.peer
        && WellFormed(D + {op}) && Closed(D + {op}) && Valid(Perform(r, e), D + {op})
        && Perform(r, e).log == r.log + [op] && Perform(r, e).peer == r.peer
  {
    hide KeyAfter, Describes, OrderOk, FrontierOk, Grounded, Ready, Closed, Contains, Commit;
    var m := Mint(r, e);
    if m.Some? {
      var op := m.value;
      MintOk(r, e, D);
      forall o | o in D ensures o.id != op.id {
        assert o.id == op.id ==> o in r.log && o.id.counter <= r.counter;
      }
      UniverseGrows(D, op);
      var r1 := r.(counter := r.counter + 1);
      RaiseOk(r, D, r.counter + 1);
      ValidWiden(r1, D, D + {op});
      NotSeen(r1, D, op);
      ReadyCounter(r, r.counter + 1, op);
      CommitValid(r1, D + {op}, op);
      CommitParts(r1, op);
    }
  }

  lemma NotSeen(r: Replica, D: set<Op>, op: Op)
    requires Valid(r, D) && op.id.counter > 0 && forall o :: o in D ==> o.id != op.id
    ensures !Contains(r.frontier, op.id)
  {
  }

  lemma EverythingHas(s: System)
    ensures forall op :: op in Everything(s) <==> exists p :: p in s && op in s[p].log
  {
  }

  lemma ValidIn(s: System, p: Peer)
    requires Fine(s) && p in s
    ensures var D := Everything(s);
      WellFormed(D) && Closed(D) && Valid(s[p], D) && s[p].peer == p && forall op :: op in s[p].log || op in s[p].buffered ==> op in D
  {
  }

  lemma JoinOk(s: System, p: Peer)
    requires Fine(s) && p !in s
    ensures Fine(s[p := NewReplica(p)])
  {
    hide Valid, Closed, WellFormed;
    var t := s[p := NewReplica(p)];
    EverythingHas(s);
    EverythingHas(t);
    forall op | op in Everything(s) ensures op in Everything(t) {
      var q :| q in s && op in s[q].log;
      assert op in t[q].log;
    }
    assert Everything(t) == Everything(s);
    NewValid(p, Everything(s));
  }

  lemma LocalOk(s: System, p: Peer, e: Edit)
    requires Fine(s) && p in s
    ensures Fine(s[p := Perform(s[p], e)])
  {
    hide Valid, Closed, WellFormed, Perform, Mint;
    var D := Everything(s);
    ValidIn(s, p);
    PerformOk(s[p], e, D);
    var m := Mint(s[p], e);
    var t := s[p := Perform(s[p], e)];
    if m.Some? {
      var op := m.value;
      EverythingHas(s);
      EverythingHas(t);
      assert op in t[p].log;
      forall o | o in D ensures o in Everything(t) {
        var q :| q in s && o in s[q].log;
        assert o in t[q].log;
      }
      assert Everything(t) == D + {op};
      forall q | q in t && q != p ensures Valid(t[q], D + {op}) {
        ValidWiden(s[q], D, D + {op});
      }
    } else {
      assert t == s;
    }
  }

  lemma ReceiveOk(s: System, q: Peer, ops: seq<Op>)
    requires Fine(s) && q in s && forall op :: op in ops ==> op in Everything(s)
    ensures Fine(s[q := ApplyUpdate(s[q], ops)])
  {
    hide Valid, Closed, WellFormed, ApplyUpdate, Stuck;
    var D := Everything(s);
    ValidIn(s, q);
    UpdateOk(s[q], ops, D);
    var t := s[q := ApplyUpdate(s[q], ops)];
    EverythingHas(s);
    EverythingHas(t);
    forall op ensures op in Everything(t) <==> op in D {
      if op in D {
        var p :| p in s && op in s[p].log;
        assert op in t[p].log;
      }
    }
    assert Everything(t) == D;
  }

  lemma StepFine(s: System, step: Step)
    requires Fine(s) && Allowed(s, step)
    ensures Fine(Take(s, step))
  {
    hide Fine, ApplyUpdate, Perform;
    EverythingHas(s);
    match step
    case Join(p) => JoinOk(s, p);
    case Local(p, e) => LocalOk(s, p, e);
    case Send(p, q, ops) => ReceiveOk(s, q, ops);
    case Sync(p, q) => ReceiveOk(s, q, Diff(s[p], s[q].frontier));
  }

  lemma EmptyFine()
    ensures Fine(map[])
  {
    assert Everything(map[]) == {};
  }

  /** The system after a run, or None once a step was not allowed. */
  ghost function Reach(steps: seq<Step>): Option<System>
    decreases |steps|
  {
    if steps == [] then Some(map[])
    else
      var r := Reach(steps[..|steps| - 1]);
      var step := steps[|steps| - 1];
      if r.Some? && Allowed(r.value, step) then Some(Take(r.value, step)) else None
  }

  lemma {:induction false} ReachOk(steps: seq<Step>)
    ensures match Reach(steps) case None => true case Some(s) => Fine(s)
    decreases |steps|
  {
    hide Fine, Allowed, Take;
    if steps == [] {
      EmptyFine();
    } else {
      var r, step := Reach(steps[..|steps| - 1]), steps[|steps| - 1];
      ReachOk(steps[..|steps| - 1]);
      if r.Some? && Allowed(r.value, step) {
        StepFine(r.value, step);
      }
    }
  }

  // -- agreement -------------------------------------------------------------------------------------------------

  /** In every reachable system, replicas that hold the same operations show the same document. */
  lemma Agreement(steps: seq<Step>, p: Peer, q: Peer)
    ensures match Reach(steps)
      case None => true
      case Some(s) =>
        p in s && q in s && (forall op :: op in s[p].log <==> op in s[q].log) ==>
          && s[p].nodes == s[q].nodes && s[p].frontier == s[q].frontier
          && (DistinctKeys(s[p].nodes) ==> Render(s[p]) == Render(s[q]))
  {
    hide Fine, Reach, DistinctKeys, Render;
    ReachOk(steps);
    var r := Reach(steps);
    if r.Some? && p in r.value && q in r.value && forall op :: op in r.value[p].log <==> op in r.value[q].log {
      Agree(r.value, p, q);
    }
  }

  lemma Agree(s: System, p: Peer, q: Peer)
    requires Fine(s) && p in s && q in s && forall op :: op in s[p].log <==> op in s[q].log
    ensures s[p].nodes == s[q].nodes && s[p].frontier == s[q].frontier
    ensures DistinctKeys(s[p].nodes) ==> Render(s[p]) == Render(s[q])
  {
    hide Fine, DistinctKeys, Render, OrderOk, Describes, Grounded, FrontierOk;
    ValidIn(s, p);
    ValidIn(s, q);
    SameOpsSameTable(s[p], s[q], Everything(s));
    if DistinctKeys(s[p].nodes) {
      SameRender(s[p], s[q]);
    }
  }

  /** The system after `q` took what it lacked of `p`. */
  function Synced(s: System, p: Peer, q: Peer): (t: System)
    requires p in s && q in s
    ensures t.Keys == s.Keys
  {
    Take(s, Sync(p, q))
  }

  /** A synchronisation brings the receiver everything the sender holds, and nothing it has not seen. */
  lemma SyncCompletes(s: System, p: Peer, q: Peer)
    requires Fine(s) && p in s && q in s
    ensures var t := Synced(s, p, q);
      && (forall op :: op in s[p].log || op in s[q].log ==> op in t[q].log)
      && (forall op :: op in t[q].log || op in t[q].buffered ==> op in s[p].log || op in s[q].log || op in s[q].buffered)
  {
    hide Fine, Valid, Closed, WellFormed, ApplyUpdate, Stuck, Contains;
    var D := Everything(s);
    ValidIn(s, p);
    ValidIn(s, q);
    var ops := Diff(s[p], s[q].frontier);
    UpdateOk(s[q], ops, D);
    var t := ApplyUpdate(s[q], ops);
    HeldClosed(s[p], D);
    forall op | op in Held(s[p].log) ensures op in t.log || op in t.buffered {
      if op !in ops {
        HeldById(s[q], D, op);
      }
    }
    ClosedIsApplied(t, D, Held(s[p].log));
  }

  /** Synchronising both ways makes two replicas equal, unless the first still parks operations. */
  lemma BothWaysAgree(s: System, p: Peer, q: Peer)
    requires Fine(s) && p in s && q in s && s[p].buffered == []
    ensures var t := Synced(Synced(s, p, q), q, p);
      && (forall op :: op in t[p].log <==> op in t[q].log)
      && t[p].nodes == t[q].nodes && t[p].frontier == t[q].frontier
      && (DistinctKeys(t[p].nodes) ==> Render(t[p]) == Render(t[q]))
  {
    hide Fine, ApplyUpdate, Diff, DistinctKeys, Render;
    var s1 := Synced(s, p, q);
    StepFine(s, Sync(p, q));
    SyncCompletes(s, p, q);
    StepFine(s1, Sync(q, p));
    SyncCompletes(s1, q, p);
    Agree(Synced(s1, q, p), p, q);
  }
}
