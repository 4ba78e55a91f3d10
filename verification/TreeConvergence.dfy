/** The node table is a function of the set of applied operations, so delivery order does not matter. */
module TreeConvergence {
  import opened Basics
  import opened TreeModel

  // -- the operations that take part -----------------------------------------------------------------

  /** Created, entombed or reordered: the kinds whose effects commute. */
  predicate Structural(op: Op) { op.kind.CreateNode? || op.kind.Tombstone? || op.kind.Reorder? }

  predicate Minted(op: Op) {
    Structural(op) && op.id.counter > 0 && (op.kind.CreateNode? ==> op.kind.id == op.id)
  }

  /** The node an operation needs to find. */
  function Needs(op: Op): Id
    requires Structural(op)
  {
    match op.kind
    case CreateNode(_, parent, _, _) => parent
    case Tombstone(x) => x
    case Reorder(x, _) => x
  }

  predicate Makes(op: Op, x: Id) { op.kind.CreateNode? && op.id == x }

  ghost predicate Unique(D: set<Op>) { forall a, b :: a in D && b in D && a.id == b.id ==> a == b }

  ghost predicate MadeBefore(D: set<Op>, x: Id, limit: nat) {
    x == ROOT || exists c :: c in D && Makes(c, x) && c.id.counter < limit
  }

  /** One operation per id, as replicas mint them. */
  ghost predicate WellFormed(D: set<Op>) { Unique(D) && forall a :: a in D ==> Minted(a) }

  /** Every operation comes with the creation of the node it needs, which is older. */
  ghost predicate Closed(D: set<Op>)
    requires WellFormed(D)
  {
    forall a :: a in D ==> MadeBefore(D, Needs(a), a.id.counter)
  }

  // -- the table a set of operations describes -----------------------------------------------------------

  predicate Places(op: Op, x: Id) { Makes(op, x) || (op.kind.Reorder? && op.kind.moved == x) }

  function KeyOf(op: Op): SortKey
    requires op.kind.CreateNode? || op.kind.Reorder?
  {
    if op.kind.CreateNode? then op.kind.createSort else op.kind.moveSort
  }

  predicate Entombs(op: Op, x: Id) { op.kind.Tombstone? && op.kind.target == x }

  ghost predicate BirthOk(S: set<Op>, x: Id, rec: Record) {
    if x == ROOT then rec.parent == None && rec.body == ROOT_RECORD.body && rec.textHead == ROOT
    else exists c :: c in S && Makes(c, x) && rec.parent == Some(c.kind.parent) && rec.body == c.kind.seed && rec.textHead == c.id
  }

  ghost predicate SortOk(S: set<Op>, x: Id, rec: Record) {
    && ((x == ROOT && rec.sort == ROOT_RECORD.sort && rec.sortStamp == ROOT)
        || exists c :: c in S && Places(c, x) && rec.sort == KeyOf(c) && rec.sortStamp == c.id)
    && (forall c :: c in S && Places(c, x) ==> !Before(rec.sortStamp, c.id))
  }

  ghost predicate TombOk(S: set<Op>, x: Id, rec: Record) {
    match rec.tomb
    case None => forall c :: c in S ==> !Entombs(c, x)
    case Some(t) =>
      && (exists c :: c in S && Entombs(c, x) && c.id == t)
      && (forall c :: c in S && Entombs(c, x) ==> !Before(c.id, t))
  }

  ghost predicate RecordOk(S: set<Op>, x: Id, rec: Record) { BirthOk(S, x, rec) && SortOk(S, x, rec) && TombOk(S, x, rec) }

  ghost predicate Exists(S: set<Op>, x: Id) { x == ROOT || exists c :: c in S && Makes(c, x) }

  ghost predicate Describes(S: set<Op>, nodes: map<Id, Record>) {
    (forall x :: x in nodes <==> Exists(S, x)) && forall x :: x in nodes ==> RecordOk(S, x, nodes[x])
  }

  lemma RecordUnique(S: set<Op>, x: Id, a: Record, b: Record)
    requires WellFormed(S) && RecordOk(S, x, a) && RecordOk(S, x, b)
    ensures a == b
  {
    SortUnique(S, x, a, b);
    TombUnique(S, x, a, b);
  }

  lemma SortUnique(S: set<Op>, x: Id, a: Record, b: Record)
    requires WellFormed(S) && SortOk(S, x, a) && SortOk(S, x, b)
    ensures a.sort == b.sort && a.sortStamp == b.sortStamp
  {
    if a.sortStamp == b.sortStamp != ROOT {
      var c :| c in S && Places(c, x) && a.sort == KeyOf(c) && a.sortStamp == c.id;
      var d :| d in S && Places(d, x) && b.sort == KeyOf(d) && b.sortStamp == d.id;
      assert c == d;
    }
  }

  lemma TombUnique(S: set<Op>, x: Id, a: Record, b: Record)
    requires WellFormed(S) && TombOk(S, x, a) && TombOk(S, x, b)
    ensures a.tomb == b.tomb
  {
  }

  /** The same operations describe one table. */
  lemma TableUnique(S: set<Op>, m: map<Id, Record>, n: map<Id, Record>)
    requires WellFormed(S) && Describes(S, m) && Describes(S, n)
    ensures m == n
  {
    forall x | x in m ensures x in n && m[x] == n[x] {
      RecordUnique(S, x, m[x], n[x]);
    }
  }

  // -- one operation ----------------------------------------------------------------------------------------

  /** Only the node an operation is about changes. */
  function Subject(op: Op): Id
    requires Structural(op)
  {
    match op.kind
    case CreateNode(x, _, _, _) => x
    case Tombstone(x) => x
    case Reorder(x, _) => x
  }

  lemma OthersKeep(S: set<Op>, op: Op, x: Id, rec: Record)
    requires Minted(op) && x != Subject(op) && RecordOk(S, x, rec)
    ensures RecordOk(S + {op}, x, rec)
  {
    assert !Makes(op, x) && !Places(op, x) && !Entombs(op, x);
  }

  lemma CreateOk(S: set<Op>, op: Op, rec: Record)
    requires Minted(op) && op.kind.CreateNode? && (forall c :: c in S ==> !Makes(c, op.id)) && op.id != ROOT
    requires forall c :: c in S && Structural(c) ==> Needs(c) != op.id || c.kind.CreateNode?
    requires forall c :: c in S ==> Structural(c)
    requires rec == Record(Some(op.kind.parent), op.kind.createSort, op.id, op.kind.seed, None, op.id)
    ensures RecordOk(S + {op}, op.id, rec)
  {
    var T := S + {op};
    assert op in T && Makes(op, op.id) && Places(op, op.id);
  }

  lemma TombstoneOk(S: set<Op>, op: Op, x: Id, rec: Record)
    requires op.kind == Tombstone(x) && RecordOk(S, x, rec)
    ensures RecordOk(S + {op}, x, Entomb(rec, op.id))
  {
    var T := S + {op};
    assert op in T && Entombs(op, x);
    var r := Entomb(rec, op.id);
    assert BirthOk(T, x, r) && SortOk(T, x, r);
  }

  lemma ReorderOk(S: set<Op>, op: Op, x: Id, rec: Record)
    requires op.kind.Reorder? && op.kind.moved == x && RecordOk(S, x, rec)
    ensures var r := if Before(rec.sortStamp, op.id) then rec.(sort := op.kind.moveSort, sortStamp := op.id) else rec;
      RecordOk(S + {op}, x, r)
  {
    var T := S + {op};
    assert op in T && Places(op, x);
    var r := if Before(rec.sortStamp, op.id) then rec.(sort := op.kind.moveSort, sortStamp := op.id) else rec;
    assert BirthOk(T, x, r) && TombOk(T, x, r);
  }

  /** Nothing held yet mentions a node that is about to be created. */
  ghost predicate Grounded(S: set<Op>) {
    forall c :: c in S ==> Minted(c) && Exists(S, Needs(c))
  }

  /** Applying a ready operation describes the larger set. */
  lemma ApplyDescribes(r: Replica, S: set<Op>, op: Op)
    requires Describes(S, r.nodes) && Grounded(S) && Minted(op) && Ready(r, op) && forall c :: c in S ==> c.id != op.id
    ensures Describes(S + {op}, ApplyOp(r, op).nodes) && Grounded(S + {op})
  {
    hide RecordOk, Before;
    var T, t := S + {op}, ApplyOp(r, op);
    var y := Subject(op);
    ExistsGrows(S, op);
    assert Exists(S, Needs(op));
    match op.kind {
      case CreateNode(x, parent, sort, seed) =>
        FreshNode(r, S, op);
        forall c | c in S && Structural(c) ensures Needs(c) != op.id || c.kind.CreateNode? {
          assert Exists(S, Needs(c));
        }
        CreateOk(S, op, t.nodes[y]);
      case Tombstone(x) => TombstoneOk(S, op, x, r.nodes[x]);
      case Reorder(x, sort) => ReorderOk(S, op, x, r.nodes[x]);
    }
    forall x | x in t.nodes ensures RecordOk(T, x, t.nodes[x]) {
      if x != y {
        OthersKeep(S, op, x, r.nodes[x]);
      }
    }
  }

  lemma FreshNode(r: Replica, S: set<Op>, op: Op)
    requires Describes(S, r.nodes) && op.id.counter > 0 && forall c :: c in S ==> c.id != op.id
    ensures op.id !in r.nodes && op.id != ROOT && !Exists(S, op.id) && forall c :: c in S ==> !Makes(c, op.id)
  {
  }

  lemma ExistsGrows(S: set<Op>, op: Op)
    ensures forall x :: Exists(S + {op}, x) <==> Exists(S, x) || Makes(op, x)
  {
    forall x ensures Exists(S + {op}, x) <==> Exists(S, x) || Makes(op, x) {
      if Exists(S, x) && x != ROOT {
        var c :| c in S && Makes(c, x);
        assert c in S + {op};
      }
      if Makes(op, x) {
        assert op in S + {op};
      }
    }
  }

  // -- the frontier ---------------------------------------------------------------------------------------

  lemma AbsorbOk(d: DotRange)
    requires forall c :: c in d.sparse ==> d.contiguous < c
    ensures RangeOk(d) || d.contiguous + 1 in d.sparse || d == DotRange(0, {})
    ensures var r := Absorb(d); (d.contiguous > 0 || d.sparse != {} ==> RangeOk(r))
    decreases |d.sparse|
  {
    if d.contiguous + 1 in d.sparse {
      AbsorbOk(DotRange(d.contiguous + 1, d.sparse - {d.contiguous + 1}));
    }
  }

  /** Observing a dot adds exactly that dot and keeps the one form. */
  lemma ObserveOk(f: Frontier, x: Id)
    requires Canonical(f) && x.counter > 0
    ensures Canonical(Observe(f, x))
    ensures forall y: Id :: y.counter > 0 ==> (Contains(Observe(f, x), y) <==> Contains(f, y) || y == x)
  {
    var d := if x.peer in f then f[x.peer] else DotRange(0, {});
    if x.counter > d.contiguous {
      AbsorbOk(d.(sparse := d.sparse + {x.counter}));
    }
    forall y: Id | y.counter > 0 ensures Contains(Observe(f, x), y) <==> Contains(f, y) || y == x {
      assert Contains(Observe(f, x), y) ==> y.peer in f || y.peer == x.peer;
    }
  }

  lemma RangeUnique(d: DotRange, e: DotRange)
    requires RangeOk(d) && RangeOk(e) && forall c: nat :: c > 0 ==> (InRange(d, c) <==> InRange(e, c))
    ensures d == e
  {
    assert !InRange(d, d.contiguous + 1) && !InRange(e, e.contiguous + 1);
    assert d.contiguous > 0 ==> InRange(d, d.contiguous);
    assert e.contiguous > 0 ==> InRange(e, e.contiguous);
    assert InRange(d, d.contiguous + 1) <==> InRange(e, d.contiguous + 1);
    assert InRange(d, e.contiguous + 1) <==> InRange(e, e.contiguous + 1);
    assert d.contiguous == e.contiguous;
    forall c ensures c in d.sparse <==> c in e.sparse {
      assert c > 0 ==> (InRange(d, c) <==> InRange(e, c));
    }
  }

  lemma SomeDot(d: DotRange) returns (c: nat)
    requires RangeOk(d)
    ensures c > 0 && InRange(d, c)
  {
    if d.contiguous > 0 {
      c := d.contiguous;
    } else {
      c :| c in d.sparse;
    }
  }

  /** A frontier is determined by the dots it holds. */
  lemma FrontierUnique(f: Frontier, h: Frontier)
    requires Canonical(f) && Canonical(h) && forall y: Id :: y.counter > 0 ==> (Contains(f, y) <==> Contains(h, y))
    ensures f == h
  {
    forall p ensures p in f <==> p in h {
      if p in f {
        var c := SomeDot(f[p]);
        assert Contains(f, Id(c, p));
      }
      if p in h {
        var c := SomeDot(h[p]);
        assert Contains(h, Id(c, p));
      }
    }
    forall p | p in f ensures f[p] == h[p] {
      forall c: nat | c > 0 ensures InRange(f[p], c) <==> InRange(h[p], c) {
        assert Contains(f, Id(c, p)) <==> Contains(h, Id(c, p));
      }
      RangeUnique(f[p], h[p]);
    }
  }

  // -- a replica and what it has applied ------------------------------------------------------------------------

  function Held(log: seq<Op>): (r: set<Op>)
    ensures forall op :: op in r <==> op in log
  {
    set op | op in log
  }

  ghost predicate Once(log: seq<Op>) { forall i, j :: 0 <= i < j < |log| ==> log[i].id != log[j].id }

  ghost predicate FrontierOk(f: Frontier, log: seq<Op>) {
    Canonical(f) && forall y: Id :: y.counter > 0 ==> (Contains(f, y) <==> exists op :: op in log && op.id == y)
  }

  ghost predicate OrderOk(nodes: map<Id, Record>, order: seq<Id>) {
    (forall i, j :: 0 <= i < j < |order| ==> order[i] != order[j]) && forall x :: x in order <==> x in nodes
  }

  ghost predicate Counted(r: Replica) {
    (forall op :: op in r.log ==> op.id.counter <= r.counter) && forall op :: op in r.buffered ==> op.id.counter <= r.counter
  }

  /** A replica all of whose operations come from `D`. */
  ghost predicate Valid(r: Replica, D: set<Op>) {
    && (forall op :: op in r.log ==> op in D) && (forall op :: op in r.buffered ==> op in D)
    && Once(r.log) && FrontierOk(r.frontier, r.log) && Counted(r)
    && Describes(Held(r.log), r.nodes) && Grounded(Held(r.log)) && OrderOk(r.nodes, r.order)
  }

  lemma NewValid(peer: Peer, D: set<Op>)
    ensures Valid(NewReplica(peer), D)
  {
    hide Contains;
    var r := NewReplica(peer);
    assert Held(r.log) == {};
    assert RecordOk({}, ROOT, ROOT_RECORD);
    assert FrontierOk(r.frontier, r.log) by {
      forall y: Id | y.counter > 0 ensures Contains(r.frontier, y) <==> exists op :: op in r.log && op.id == y {
        NothingHeld(y);
      }
    }
  }

  lemma NothingHeld(y: Id)
    ensures !Contains(map[], y)
  {
  }

  lemma HeldSnoc(log: seq<Op>, op: Op)
    ensures Held(log + [op]) == Held(log) + {op}
  {
  }

  lemma FrontierSnoc(f: Frontier, log: seq<Op>, op: Op)
    requires FrontierOk(f, log) && op.id.counter > 0
    ensures FrontierOk(Observe(f, op.id), log + [op])
  {
    hide Contains, Observe;
    ObserveOk(f, op.id);
    forall y: Id | y.counter > 0
      ensures Contains(Observe(f, op.id), y) <==> exists o :: o in log + [op] && o.id == y
    {
      if o :| o in log && o.id == y {
        assert o in log + [op];
      }
      if y == op.id {
        assert op in log + [op];
      }
    }
  }

  lemma OrderStep(r: Replica, op: Op)
    requires OrderOk(r.nodes, r.order) && Structural(op)
    ensures var t := ApplyOp(r, op); OrderOk(t.nodes, t.order)
  {
  }

  lemma CommitParts(r: Replica, op: Op)
    requires Structural(op)
    ensures var t := Commit(r, op);
      && t.log == r.log + [op] && t.frontier == Observe(r.frontier, op.id) && t.buffered == r.buffered && t.counter == r.counter
      && t.peer == r.peer && t.nodes == ApplyOp(r, op).nodes && t.order == ApplyOp(r, op).order
  {
  }

  /** Committing a ready operation that is not held yet. */
  lemma CommitValid(r: Replica, D: set<Op>, op: Op)
    requires WellFormed(D) && Valid(r, D) && op in D && Ready(r, op) && !Contains(r.frontier, op.id) && op.id.counter <= r.counter
    ensures Valid(Commit(r, op), D)
  {
    hide Contains, Observe, Describes, Grounded, OrderOk, Canonical, ApplyOp, Ready, Commit;
    assert Minted(op);
    CommitParts(r, op);
    NotHeld(r, op);
    ApplyDescribes(r, Held(r.log), op);
    HeldSnoc(r.log, op);
    FrontierSnoc(r.frontier, r.log, op);
    OrderStep(r, op);
  }

  lemma NotHeld(r: Replica, op: Op)
    requires FrontierOk(r.frontier, r.log) && op.id.counter > 0 && !Contains(r.frontier, op.id)
    ensures forall c :: c in r.log ==> c.id != op.id
  {
  }
}
