/** Edits between neighbours with different keys, sent on in context, never tie: then equal operations mean equal text. */
module TreeSpacing {
  import opened Basics
  import ByteOrder
  import FracKeys
  import opened TreeModel
  import opened TreeConvergence
  import opened TreeDelivery
  import opened TreeRender
  import opened TreeSystem
  import opened TreeEdits
  import opened TreeTies

  // -- the two rules a caller can keep ----------------------------------------------------------------------

  /** The neighbours a new child would go between are not two with one fractional key. */
  predicate Room(r: Replica, parent: Id, after: Option<Id>) {
    var (lo, hi) := Neighbours(LiveChildren(r.nodes, r.order, parent), after);
    lo.Some? && hi.Some? ==> r.nodes[lo.value].sort.frac != r.nodes[hi.value].sort.frac
  }

  predicate Spaced(r: Replica, e: Edit) {
    match e
    case Create(parent, after, _) => Room(r, parent, after)
    case Delete(_) => true
    case Place(x, after) => x in r.nodes && r.nodes[x].parent.Some? ==> Room(r, r.nodes[x].parent.value, after)
  }

  /** Whatever is sent comes with all that its maker held when it made it, unless the receiver has that already. */
  ghost predicate InContext(s: System, q: Peer, ops: seq<Op>)
    requires q in s
  {
    forall h, i, j :: h in s && 0 <= i < j < |s[h].log| && s[h].log[j].id.peer == h && s[h].log[j] in ops ==>
      s[h].log[i] in ops || s[h].log[i] in s[q].log
  }

  /** Edits have room, and what is sent is sent in its context. */
  ghost predicate Careful(s: System, step: Step)
    requires Allowed(s, step)
  {
    match step
    case Local(p, e) => Spaced(s[p], e)
    case Send(_, q, ops) => InContext(s, q, ops)
    case _ => true
  }

  ghost predicate CarefulRun(steps: seq<Step>)
    decreases |steps|
  {
    if steps == [] then true
    else
      var before := steps[..|steps| - 1];
      CarefulRun(before) && match Reach(before)
        case None => false
        case Some(s) => Allowed(s, steps[|steps| - 1]) && Careful(s, steps[|steps| - 1])
  }

  // -- a key with room is new ---------------------------------------------------------------------------------

  predicate Positioning(op: Op) { op.kind.CreateNode? || op.kind.Reorder? }

  predicate GoodFrac(k: FracKeys.Key) { FracKeys.Proper(k) && k != [] }

  ghost predicate KeysOk(D: set<Op>) {
    forall op :: op in D && Positioning(op) ==> KeyOf(op).peer == op.id.peer && GoodFrac(KeyOf(op).frac)
  }

  ghost predicate GoodKids(nodes: map<Id, Record>, p: Id) {
    forall x :: IsLiveChild(nodes, p, x) ==> GoodFrac(nodes[x].sort.frac)
  }

  lemma TableKeys(r: Replica, D: set<Op>, p: Id)
    requires WellFormed(D) && Valid(r, D) && KeysOk(D)
    ensures GoodKids(r.nodes, p)
  {
    hide OrderOk, FrontierOk, Grounded, TombOk, GoodFrac;
    forall x | IsLiveChild(r.nodes, p, x) ensures GoodFrac(r.nodes[x].sort.frac) {
      assert RecordOk(Held(r.log), x, r.nodes[x]);
      var c :| c in Held(r.log) && Places(c, x) && r.nodes[x].sort == KeyOf(c);
      assert c in D;
    }
  }

  /** A key put where there is room differs from the key of every live child. */
  lemma KeyIsNew(r: Replica, parent: Id, after: Option<Id>)
    requires OrderOk(r.nodes, r.order) && GoodKids(r.nodes, parent) && Room(r, parent, after)
    ensures GoodFrac(KeyAfter(r, parent, after).frac) && KeyAfter(r, parent, after).peer == r.peer
    ensures forall x :: IsLiveChild(r.nodes, parent, x) ==> r.nodes[x].sort.frac != KeyAfter(r, parent, after).frac
  {
    hide LiveChildren, IsLiveChild, OrderOk;
    var kids := LiveChildren(r.nodes, r.order, parent);
    var (lo, hi) := Neighbours(kids, after);
    NeighbourKeys(r, parent, after);
    var key := KeyAfter(r, parent, after).frac;
    FracKeys.KeyIsBetween(FracKeys.OrEmpty(FracOf(r.nodes, lo)), FracOf(r.nodes, hi));
    forall x | IsLiveChild(r.nodes, parent, x) ensures x in r.nodes && r.nodes[x].sort.frac != key {
      ChildIsNode(r.nodes, parent, x);
      ChildIsListed(r, parent, x);
      Sides(r.nodes, kids, after, x, key);
    }
  }

  lemma ChildIsListed(r: Replica, parent: Id, x: Id)
    requires OrderOk(r.nodes, r.order) && IsLiveChild(r.nodes, parent, x)
    ensures x in LiveChildren(r.nodes, r.order, parent)
  {
  }

  /** The neighbours' keys leave room. */
  lemma NeighbourKeys(r: Replica, parent: Id, after: Option<Id>)
    requires OrderOk(r.nodes, r.order) && GoodKids(r.nodes, parent) && Room(r, parent, after)
    ensures var kids := LiveChildren(r.nodes, r.order, parent);
      var (lo, hi) := Neighbours(kids, after);
      && Sorted(r.nodes, kids)
      && (lo.Some? ==> lo.value in r.nodes) && (hi.Some? ==> hi.value in r.nodes)
      && var (a, b) := (FracKeys.OrEmpty(FracOf(r.nodes, lo)), FracOf(r.nodes, hi));
         FracKeys.Bytes(a) && (b.Some? ==> FracKeys.Bytes(b.value) && ByteOrder.Less(a, b.value) && !FracKeys.Padded(a, b.value))
  {
    hide LiveChildren, Sorted;
    var kids := LiveChildren(r.nodes, r.order, parent);
    var (lo, hi) := Neighbours(kids, after);
    ChildrenSorted(r.nodes, r.order, parent);
    if hi.Some? {
      var b := r.nodes[hi.value].sort.frac;
      assert IsLiveChild(r.nodes, parent, hi.value);
      if lo.Some? {
        assert IsLiveChild(r.nodes, parent, lo.value);
        LowerFirst(r.nodes, kids, after);
        ByteOrder.LessTotal(r.nodes[lo.value].sort.frac, b);
        NotPadded(r.nodes[lo.value].sort.frac, b);
      } else {
        NotPadded([], b);
      }
    }
  }

  lemma NotPadded(lo: FracKeys.Key, hi: FracKeys.Key)
    requires FracKeys.Proper(hi) && ByteOrder.Less(lo, hi)
    ensures !FracKeys.Padded(lo, hi)
  {
    ByteOrder.NotLessSelf(lo);
    assert FracKeys.Padded(lo, hi) ==> hi == lo;
  }

  lemma LowerFirst(nodes: map<Id, Record>, kids: seq<Id>, after: Option<Id>)
    requires Sorted(nodes, kids) && Neighbours(kids, after).0.Some? && Neighbours(kids, after).1.Some?
    ensures var (lo, hi) := Neighbours(kids, after);
      && lo.value in nodes && hi.value in nodes
      && !ByteOrder.Less(nodes[hi.value].sort.frac, nodes[lo.value].sort.frac)
  {
    var i := IndexOf(kids, after.value);
    assert !KeyBefore(nodes[kids[i + 1]].sort, nodes[kids[i]].sort);
  }

  /** A child is not above the lower neighbour, or not below the upper one: either way a key between them is another. */
  lemma Sides(nodes: map<Id, Record>, kids: seq<Id>, after: Option<Id>, x: Id, key: FracKeys.Key)
    requires Sorted(nodes, kids) && x in kids && x in nodes
    requires var (lo, hi) := Neighbours(kids, after);
      && (lo.Some? ==> lo.value in nodes && ByteOrder.Less(nodes[lo.value].sort.frac, key))
      && (hi.Some? ==> hi.value in nodes && ByteOrder.Less(key, nodes[hi.value].sort.frac))
    ensures nodes[x].sort.frac != key
  {
    hide ByteOrder.Less;
    var k :| 0 <= k < |kids| && kids[k] == x;
    ByteOrder.NotLessSelf(key);
    if after.None? {
      assert k > 0 ==> !KeyBefore(nodes[kids[k]].sort, nodes[kids[0]].sort);
    } else {
      var i := IndexOf(kids, after.value);
      if i < |kids| {
        assert k < i ==> !KeyBefore(nodes[kids[i]].sort, nodes[kids[k]].sort);
        assert k > i + 1 ==> !KeyBefore(nodes[kids[k]].sort, nodes[kids[i + 1]].sort);
      } else {
        assert k < |kids| - 1 ==> !KeyBefore(nodes[kids[|kids| - 1]].sort, nodes[kids[k]].sort);
      }
    }
  }

  // -- what careful runs keep -----------------------------------------------------------------------------------

  /** Superseded: its node is deleted or was moved later. */
  ghost predicate Stale(S: set<Op>, a: Op)
    requires Structural(a)
  {
    exists d :: d in S && (Entombs(d, Subject(a)) || (Places(d, Subject(a)) && Before(a.id, d.id)))
  }

  ghost predicate Under(D: set<Op>, x: Id, p: Id) { exists c :: c in D && Makes(c, x) && c.kind.parent == p }

  /** Two operations of one peer that give two siblings one fractional key. */
  ghost predicate Clash(D: set<Op>, a: Op, b: Op) {
    && Positioning(a) && Positioning(b) && a.id.peer == b.id.peer && KeyOf(a).frac == KeyOf(b).frac
    && Subject(a) != Subject(b) && exists p :: Under(D, Subject(a), p) && Under(D, Subject(b), p)
  }

  /** When a peer reused a key among siblings, it had seen the older use superseded. */
  ghost predicate LogApart(D: set<Op>, h: Peer, log: seq<Op>) {
    forall i, j :: 0 <= i < j < |log| && log[i].id.peer == h && Clash(D, log[i], log[j]) ==> Stale(Held(log[..j]), log[i])
  }

  /** Whoever holds an operation holds what its peer held when it made it. */
  ghost predicate Carries(s: System, q: Peer, h: Peer)
    requires q in s && h in s
  {
    forall i, j :: 0 <= i < j < |s[h].log| && s[h].log[j].id.peer == h && s[h].log[j] in s[q].log ==> s[h].log[i] in s[q].log
  }

  ghost predicate Causal(s: System) { forall q, h :: q in s && h in s ==> Carries(s, q, h) }

  ghost predicate AllApart(s: System) { forall h :: h in s ==> LogApart(Everything(s), h, s[h].log) }

  ghost predicate NoneParked(s: System) { forall p :: p in s ==> s[p].buffered == [] }

  /** What a peer made rests on a creation it held before. */
  ghost predicate Rooted(h: Peer, log: seq<Op>) {
    forall j :: 0 <= j < |log| && log[j].id.peer == h && Minted(log[j]) ==> Exists(Held(log[..j]), Needs(log[j]))
  }

  ghost predicate AllRooted(s: System) { forall h :: h in s ==> Rooted(h, s[h].log) }

  ghost predicate Tidy(s: System) {
    Fine(s) && NoneParked(s) && KeysOk(Everything(s)) && Causal(s) && AllApart(s) && AllRooted(s)
  }

  // -- tidy systems have distinct keys ------------------------------------------------------------------------------

  /** The operation that gave a live child its key, and its creation. */
  lemma Placement(r: Replica, D: set<Op>, p: Id, x: Id) returns (a: Op)
    requires WellFormed(D) && Valid(r, D) && IsLiveChild(r.nodes, p, x)
    ensures a in r.log && a in D && Positioning(a) && Subject(a) == x && KeyOf(a) == r.nodes[x].sort
    ensures Under(D, x, p) && !Stale(Held(r.log), a)
  {
    hide OrderOk, FrontierOk, Grounded, Counted, Once;
    var S := Held(r.log);
    assert RecordOk(S, x, r.nodes[x]);
    var c :| c in S && Makes(c, x) && r.nodes[x].parent == Some(c.kind.parent);
    assert c in D;
    a :| a in S && Places(a, x) && r.nodes[x].sort == KeyOf(a) && r.nodes[x].sortStamp == a.id;
    assert a in D && Minted(a);
  }

  lemma TidyDistinct(s: System, q: Peer)
    requires Tidy(s) && q in s
    ensures DistinctKeys(s[q].nodes)
  {
    hide Valid, WellFormed, Closed, IsLiveChild, Stale, Under, LogApart;
    var D, nodes := Everything(s), s[q].nodes;
    ValidIn(s, q);
    forall p, x, y | IsLiveChild(nodes, p, x) && IsLiveChild(nodes, p, y) && x != y
      ensures x in nodes && y in nodes && nodes[x].sort != nodes[y].sort
    {
      ChildIsNode(nodes, p, x);
      ChildIsNode(nodes, p, y);
      if nodes[x].sort == nodes[y].sort {
        var a := Placement(s[q], D, p, x);
        var b := Placement(s[q], D, p, y);
        NoClash(s, q, a, b, p);
      }
    }
  }

  /** Two keys in force for two siblings were never minted the same. */
  lemma NoClash(s: System, q: Peer, a: Op, b: Op, p: Id)
    requires Tidy(s) && q in s && a in s[q].log && b in s[q].log && a in Everything(s) && b in Everything(s)
    requires Positioning(a) && Positioning(b) && Subject(a) != Subject(b)
    requires Under(Everything(s), Subject(a), p) && Under(Everything(s), Subject(b), p)
    requires !Stale(Held(s[q].log), a) && !Stale(Held(s[q].log), b)
    ensures KeyOf(a) != KeyOf(b)
  {
    hide Valid, WellFormed, Closed, Stale, Under, Everything, LogApart, Carries;
    if KeyOf(a) == KeyOf(b) {
      var D, h := Everything(s), a.id.peer;
      assert b.id.peer == h && h in s;
      var log := s[h].log;
      var i :| 0 <= i < |log| && log[i] == a;
      var j :| 0 <= j < |log| && log[j] == b;
      assert Clash(D, a, b) && Clash(D, b, a);
      if i < j {
        StaleThere(s, q, h, i, j);
      } else {
        StaleThere(s, q, h, j, i);
      }
      assert false;
    }
  }

  lemma StaleThere(s: System, q: Peer, h: Peer, i: nat, j: nat)
    requires Causal(s) && AllApart(s) && q in s && h in s
    requires i < j < |s[h].log| && s[h].log[i].id.peer == h && s[h].log[j].id.peer == h
    requires Clash(Everything(s), s[h].log[i], s[h].log[j]) && s[h].log[j] in s[q].log
    ensures Structural(s[h].log[i]) && Stale(Held(s[q].log), s[h].log[i])
  {
    hide Clash, Stale, Everything;
    var log := s[h].log;
    assert LogApart(Everything(s), h, log) && Carries(s, q, h);
    forall d | d in Held(log[..j]) ensures d in s[q].log {
      var k :| 0 <= k < j && log[..j][k] == d;
      assert log[k] == d;
    }
    ClashPlaces(Everything(s), log[i], log[j]);
    StaleGrows(Held(log[..j]), Held(s[q].log), log[i]);
  }

  lemma ClashPlaces(D: set<Op>, a: Op, b: Op)
    requires Clash(D, a, b)
    ensures Structural(a)
  {
  }

  lemma StaleGrows(S: set<Op>, T: set<Op>, a: Op)
    requires S <= T && Structural(a) && Stale(S, a)
    ensures Stale(T, a)
  {
  }

  // -- every careful step keeps it ------------------------------------------------------------------------------------

  lemma UnderBack(D: set<Op>, op: Op, x: Id, p: Id)
    requires Under(D + {op}, x, p) && x != op.id
    ensures Under(D, x, p)
  {
  }

  /** An operation that is there is not about a node still to come. */
  lemma NotAhead(D: set<Op>, op: Op, a: Op)
    requires WellFormed(D) && Closed(D) && Minted(op) && (forall o :: o in D ==> o.id != op.id) && a in D
    ensures Structural(a) && Subject(a) != op.id
  {
    assert MadeBefore(D, Needs(a), a.id.counter);
  }

  lemma ClashBack(D: set<Op>, op: Op, a: Op, b: Op)
    requires WellFormed(D) && Closed(D) && Minted(op) && (forall o :: o in D ==> o.id != op.id) && a in D && b in D
    requires Clash(D + {op}, a, b)
    ensures Clash(D, a, b)
  {
    hide WellFormed, Closed, Under;
    NotAhead(D, op, a);
    NotAhead(D, op, b);
    var p :| Under(D + {op}, Subject(a), p) && Under(D + {op}, Subject(b), p);
    UnderBack(D, op, Subject(a), p);
    UnderBack(D, op, Subject(b), p);
  }

  /** A key that nothing superseded is the key its node has. */
  lemma InForce(r: Replica, D: set<Op>, a: Op, p: Id)
    requires WellFormed(D) && Valid(r, D) && a in r.log && Positioning(a) && !Stale(Held(r.log), a) && Under(D, Subject(a), p)
    ensures IsLiveChild(r.nodes, p, Subject(a)) && r.nodes[Subject(a)].sort == KeyOf(a)
  {
    hide OrderOk, FrontierOk, Counted, Once;
    var S, x := Held(r.log), Subject(a);
    assert a in S && a in D && Places(a, x);
    var m :| m in D && Makes(m, x) && m.kind.parent == p;
    assert Exists(S, x) by {
      assert a.kind.Reorder? ==> Exists(S, Needs(a));
      assert a.kind.CreateNode? ==> Makes(a, x);
    }
    var rec := r.nodes[x];
    assert RecordOk(S, x, rec);
    var c :| c in S && Makes(c, x) && rec.parent == Some(c.kind.parent);
    assert c in D && c == m;
    var w :| w in S && Places(w, x) && rec.sort == KeyOf(w) && rec.sortStamp == w.id;
    assert w in D && !Before(w.id, a.id) && !Before(a.id, w.id);
    assert w.id == a.id && w == a;
  }

  /** A new key clashes only with superseded ones. */
  lemma NewKeyApart(r: Replica, e: Edit, D: set<Op>, a: Op)
    requires WellFormed(D) && Closed(D) && Valid(r, D) && KeysOk(D) && Mint(r, e).Some? && Spaced(r, e) && a in r.log
    requires var op := Mint(r, e).value; (forall o :: o in D ==> o.id != op.id) && Minted(op) && Clash(D + {op}, a, op)
    ensures Structural(a) && Stale(Held(r.log), a)
  {
    hide Valid, WellFormed, Closed, KeyAfter, Stale, Under, KeysOk, Room;
    var op := Mint(r, e).value;
    LogWithin(r, D);
    NotAhead(D, op, a);
    var p :| Under(D + {op}, Subject(a), p) && Under(D + {op}, Subject(op), p);
    UnderBack(D, op, Subject(a), p);
    if !Stale(Held(r.log), a) {
      InForce(r, D, a, p);
      MintedUnder(r, e, D, p);
      TableKeys(r, D, p);
      ValidOrder(r, D);
      KeyIsNew(r, p, e.after);
      assert false;
    }
  }

  lemma ValidOrder(r: Replica, D: set<Op>)
    requires Valid(r, D)
    ensures OrderOk(r.nodes, r.order)
  {
  }

  lemma LogWithin(r: Replica, D: set<Op>)
    requires Valid(r, D)
    ensures forall op :: op in r.log ==> op in D
  {
  }

  /** The parent an operation's key is chosen under. */
  lemma MintedUnder(r: Replica, e: Edit, D: set<Op>, p: Id)
    requires WellFormed(D) && Valid(r, D) && Mint(r, e).Some? && (e.Create? || e.Place?)
    requires var op := Mint(r, e).value; (forall o :: o in D ==> o.id != op.id) && Minted(op) && Under(D + {op}, Subject(op), p)
    ensures match e case Create(parent, _, _) => parent == p case Place(x, _) => r.nodes[x].parent == Some(p) case Delete(_) => true
  {
    hide KeyAfter, OrderOk, FrontierOk, Grounded, SortOk, TombOk;
    var op := Mint(r, e).value;
    var c :| c in D + {op} && Makes(c, Subject(op)) && c.kind.parent == p;
    if e.Place? {
      var x := e.node;
      assert RecordOk(Held(r.log), x, r.nodes[x]);
      var m :| m in Held(r.log) && Makes(m, x) && r.nodes[x].parent == Some(m.kind.parent);
      assert m in D && c in D;
    }
  }

  lemma MintKeys(r: Replica, e: Edit, D: set<Op>)
    requires WellFormed(D) && Valid(r, D) && KeysOk(D) && Mint(r, e).Some? && Spaced(r, e)
    ensures KeysOk(D + {Mint(r, e).value})
  {
    hide Valid, WellFormed, KeyAfter, Room, GoodFrac;
    var op := Mint(r, e).value;
    ValidOrder(r, D);
    if op.kind.CreateNode? {
      TableKeys(r, D, e.parent);
      KeyIsNew(r, e.parent, e.after);
    } else if op.kind.Reorder? {
      TableKeys(r, D, r.nodes[e.node].parent.value);
      KeyIsNew(r, r.nodes[e.node].parent.value, e.after);
    }
  }

  lemma EverythingAfter(s: System, p: Peer, r: Replica, more: set<Op>)
    requires p in s && Held(r.log) == Held(s[p].log) + more
    ensures Everything(s[p := r]) == Everything(s) + more
  {
    var t := s[p := r];
    EverythingHas(s);
    EverythingHas(t);
    forall op ensures op in Everything(t) <==> op in Everything(s) + more {
      if op in Everything(s) {
        var q :| q in s && op in s[q].log;
        assert q != p ==> op in t[q].log;
        assert q == p ==> op in Held(s[p].log) && op in t[p].log;
      }
      if op in more {
        assert op in Held(r.log) && op in t[p].log;
      }
      if op in Everything(t) {
        var q :| q in t && op in t[q].log;
        assert q == p ==> op in Held(r.log) && (op in more || op in s[p].log);
        assert q != p ==> op in s[q].log;
      }
    }
  }

  /** One replica's log grew by operations of others or by one of its own that nobody has. */
  ghost predicate Extends(s: System, q: Peer, r: Replica)
    requires q in s
  {
    && s[q].log <= r.log
    && (forall i :: |s[q].log| <= i < |r.log| && r.log[i].id.peer == q ==>
          i == |r.log| - 1 == |s[q].log| && forall p :: p in s ==> r.log[i] !in s[p].log)
  }

  /** All that the operations in the log were made on is in the log. */
  ghost predicate Covers(s: System, r: Replica) {
    forall h, i, j :: h in s && 0 <= i < j < |s[h].log| && s[h].log[j].id.peer == h && s[h].log[j] in r.log ==> s[h].log[i] in r.log
  }

  lemma CausalAfter(s: System, q: Peer, r: Replica)
    requires Causal(s) && q in s && Extends(s, q, r) && Covers(s, r)
    ensures Causal(s[q := r])
  {
    var t := s[q := r];
    forall p, h | p in t && h in t ensures Carries(t, p, h) {
      assert Carries(s, p, h);
      forall i, j | 0 <= i < j < |t[h].log| && t[h].log[j].id.peer == h && t[h].log[j] in t[p].log ensures t[h].log[i] in t[p].log {
        if h == q && p != q {
          assert j < |s[q].log|;
          assert s[q].log[j] == r.log[j] && s[q].log[i] == r.log[i];
        } else if h != q && p == q {
          assert s[h].log[j] in r.log;
        }
      }
    }
  }

  /** The new operation clashes only with superseded ones. */
  ghost predicate NewApart(D: set<Op>, log: seq<Op>, op: Op) {
    forall i :: 0 <= i < |log| && Clash(D, log[i], op) ==> Stale(Held(log), log[i])
  }

  lemma ApartAfter(s: System, q: Peer, r: Replica, D: set<Op>)
    requires AllApart(s) && q in s && Extends(s, q, r)
    requires forall a, b :: a in Everything(s) && b in Everything(s) && Clash(D, a, b) ==> Clash(Everything(s), a, b)
    requires |s[q].log| < |r.log| && r.log[|s[q].log|].id.peer == q ==> NewApart(D, s[q].log, r.log[|s[q].log|])
    requires Everything(s[q := r]) == D
    ensures AllApart(s[q := r])
  {
    hide Clash, Stale, Everything;
    var t := s[q := r];
    forall h | h in t ensures LogApart(D, h, t[h].log) {
      assert LogApart(Everything(s), h, s[h].log);
      var log := t[h].log;
      forall i, j | 0 <= i < j < |log| && log[i].id.peer == h && Clash(D, log[i], log[j])
        ensures Structural(log[i]) && Stale(Held(log[..j]), log[i])
      {
        ClashPeers(D, log[i], log[j]);
        if h != q || j < |s[q].log| {
          OldPair(s, h, log, D, i, j);
        } else {
          assert log[..j] == s[q].log && log[i] == s[q].log[i];
        }
      }
    }
  }

  lemma OldPair(s: System, h: Peer, log: seq<Op>, D: set<Op>, i: nat, j: nat)
    requires h in s && i < j < |s[h].log| && s[h].log <= log && log[i].id.peer == h && Clash(D, log[i], log[j])
    requires LogApart(Everything(s), h, s[h].log)
    requires forall a, b :: a in Everything(s) && b in Everything(s) && Clash(D, a, b) ==> Clash(Everything(s), a, b)
    ensures Structural(log[i]) && Stale(Held(log[..j]), log[i])
  {
    hide Clash, Stale;
    var mine := s[h].log;
    assert mine[i] == log[i] && mine[j] == log[j] && mine[..j] == log[..j];
    EverythingHas(s);
    assert mine[i] in mine && mine[j] in mine;
    ClashPeers(D, log[i], log[j]);
  }

  lemma ClashPeers(D: set<Op>, a: Op, b: Op)
    requires Clash(D, a, b)
    ensures a.id.peer == b.id.peer && Structural(a)
  {
  }

  lemma RootedAfter(s: System, q: Peer, r: Replica)
    requires AllRooted(s) && q in s && Extends(s, q, r)
    requires var n := |s[q].log|;
      n < |r.log| && r.log[n].id.peer == q && Minted(r.log[n]) ==> Exists(Held(s[q].log), Needs(r.log[n]))
    ensures AllRooted(s[q := r])
  {
    hide Exists;
    var t, was := s[q := r], s[q].log;
    assert Rooted(q, was);
    forall j | 0 <= j < |r.log| && r.log[j].id.peer == q && Minted(r.log[j]) ensures Exists(Held(r.log[..j]), Needs(r.log[j])) {
      assert j < |was| ==> was[j] == r.log[j] && was[..j] == r.log[..j];
      assert j >= |was| ==> r.log[..j] == was;
    }
    forall h | h in t ensures Rooted(h, t[h].log) {
      assert h != q ==> Rooted(h, s[h].log);
    }
  }

  lemma LocalTidy(s: System, p: Peer, e: Edit)
    requires Tidy(s) && p in s && Spaced(s[p], e)
    ensures Tidy(s[p := Perform(s[p], e)])
  {
    hide Valid, WellFormed, Closed, Perform, Mint, Spaced, KeysOk, LogApart, Carries, Extends, Covers, Causal, AllApart,
      AllRooted, Exists, Clash, Stale, Everything;
    var D, r := Everything(s), Perform(s[p], e);
    var t := s[p := r];
    ValidIn(s, p);
    LocalOk(s, p, e);
    OwnIn(s, p);
    PerformOk(s[p], e, D);
    if Mint(s[p], e).None? {
      assert t == s;
    } else {
      var op := Mint(s[p], e).value;
      HeldSnoc(s[p].log, op);
      EverythingAfter(s, p, r, {op});
      MintKeys(s[p], e, D);
      LocalExtends(s, p, r, op);
      PerformParks(s[p], e);
      CausalAfter(s, p, r);
      MintOk(s[p], e, D);
      forall a, b | a in D && b in D && Clash(D + {op}, a, b) ensures Clash(D, a, b) {
        ClashBack(D, op, a, b);
      }
      forall i | 0 <= i < |s[p].log| && Clash(D + {op}, s[p].log[i], op)
        ensures Structural(s[p].log[i]) && Stale(Held(s[p].log), s[p].log[i])
      {
        NewKeyApart(s[p], e, D, s[p].log[i]);
      }
      ApartAfter(s, p, r, D + {op});
      ReadyRests(s[p], D, op);
      RootedAfter(s, p, r);
    }
  }

  lemma ReadyRests(r: Replica, D: set<Op>, op: Op)
    requires Valid(r, D) && Ready(r, op) && Minted(op)
    ensures Exists(Held(r.log), Needs(op))
  {
    hide FrontierOk, OrderOk, Grounded;
  }

  lemma OwnIn(s: System, p: Peer)
    requires Fine(s) && p in s
    ensures forall o :: o in Everything(s) && o.id.peer == p ==> o in s[p].log
  {
  }

  lemma PerformParks(r: Replica, e: Edit)
    ensures Perform(r, e).buffered == r.buffered
  {
    hide Commit;
    if Mint(r, e).Some? {
      CommitKeepsBuffer(r.(counter := r.counter + 1), Mint(r, e).value);
    }
  }

  lemma LocalExtends(s: System, p: Peer, r: Replica, op: Op)
    requires Tidy(s) && p in s && r.log == s[p].log + [op] && forall o :: o in Everything(s) ==> o.id != op.id
    requires op.id.peer == p
    ensures Extends(s, p, r) && Covers(s, r)
  {
    hide Fine, KeysOk, AllApart, AllRooted, NoneParked;
    EverythingHas(s);
    forall h, i, j | h in s && 0 <= i < j < |s[h].log| && s[h].log[j].id.peer == h && s[h].log[j] in r.log ensures s[h].log[i] in r.log {
      assert Carries(s, p, h);
      assert s[h].log[j] in s[h].log && s[h].log[j] in Everything(s);
      assert s[h].log[j] in s[p].log;
    }
  }

  // -- receiving operations in their context -------------------------------------------------------------------------

  /** Everything made is in its maker's log, and has its creation there before it. */
  lemma MadeHere(s: System, a: Op) returns (j: nat, c: Op)
    requires Fine(s) && AllRooted(s) && a in Everything(s)
    ensures a.id.peer in s && j < |s[a.id.peer].log| && s[a.id.peer].log[j] == a && Structural(a)
    ensures Needs(a) == ROOT || (c in s[a.id.peer].log[..j] && Makes(c, Needs(a)))
  {
    hide Valid, Unique, Closed, Everything;
    var log := s[a.id.peer].log;
    j :| 0 <= j < |log| && log[j] == a;
    assert Rooted(a.id.peer, log);
    c := a;
    if Needs(a) != ROOT {
      c :| c in Held(log[..j]) && Makes(c, Needs(a));
    }
  }

  /** A creation is older than what needs it. */
  lemma MadeEarlier(D: set<Op>, a: Op, c: Op)
    requires WellFormed(D) && Closed(D) && a in D && c in D && Structural(a) && Makes(c, Needs(a)) && Needs(a) != ROOT
    ensures c.id.counter < a.id.counter
  {
    assert MadeBefore(D, Needs(a), a.id.counter);
  }

  /** An operation's creation is among what its maker held, so it is sent along or there already. */
  lemma ContextClosed(s: System, q: Peer, ops: seq<Op>, a: Op)
    requires Fine(s) && AllRooted(s) && q in s && InContext(s, q, ops) && a in ops && a in Everything(s)
    ensures Structural(a) && MadeBefore(Held(ops) + Held(s[q].log), Needs(a), a.id.counter)
  {
    hide Valid, WellFormed, Closed, Everything, AllRooted;
    var j, c := MadeHere(s, a);
    var log := s[a.id.peer].log;
    if Needs(a) != ROOT {
      var i :| 0 <= i < j && log[..j][i] == c;
      assert log[i] == c && c in log;
      EverythingHas(s);
      MadeEarlier(Everything(s), a, c);
      assert c in Held(ops) + Held(s[q].log);
    }
  }

  lemma AllInContext(s: System, q: Peer, ops: seq<Op>)
    requires Fine(s) && AllRooted(s) && q in s && (forall op :: op in ops ==> op in Everything(s)) && InContext(s, q, ops)
    ensures var U := Held(ops) + Held(s[q].log); WellFormed(U) && Closed(U)
  {
    hide Fine, Valid, AllRooted, InContext, Everything;
    ValidIn(s, q);
    HeldClosed(s[q], Everything(s));
    var U := Held(ops) + Held(s[q].log);
    WellFormedSub(Everything(s), U);
    forall a | a in U ensures MadeBefore(U, Needs(a), a.id.counter) {
      if a in Held(ops) {
        ContextClosed(s, q, ops, a);
      } else {
        assert MadeBefore(Held(s[q].log), Needs(a), a.id.counter);
      }
    }
  }

  /** The receiver then holds what it was sent beside what it held, and parks nothing. */
  lemma ContextTaken(s: System, q: Peer, ops: seq<Op>)
    requires Fine(s) && NoneParked(s) && AllRooted(s) && q in s && (forall op :: op in ops ==> op in Everything(s)) && InContext(s, q, ops)
    ensures var t := ApplyUpdate(s[q], ops);
      t.buffered == [] && Once(t.log) && s[q].log <= t.log && forall op :: op in t.log <==> op in ops || op in s[q].log
  {
    hide Fine, WellFormed, Closed, ApplyUpdate, Describes, Grounded, OrderOk, FrontierOk, Stuck, AllRooted, InContext, MadeBefore;
    var D := Everything(s);
    ValidIn(s, q);
    UpdateOk(s[q], ops, D);
    UpdateAppends(s[q], ops);
    var t := ApplyUpdate(s[q], ops);
    var U := Held(ops) + Held(s[q].log);
    AllInContext(s, q, ops);
    assert Valid(t, U);
    ClosedDrains(t, U);
  }

  lemma SendTidy(s: System, q: Peer, ops: seq<Op>)
    requires Tidy(s) && q in s && (forall op :: op in ops ==> op in Everything(s)) && InContext(s, q, ops)
    ensures Tidy(s[q := ApplyUpdate(s[q], ops)])
  {
    hide Fine, ApplyUpdate, KeysOk, Carries, Extends, Covers, Causal, AllApart, AllRooted, InContext, Clash, Stale, Exists, Everything;
    var D, r := Everything(s), ApplyUpdate(s[q], ops);
    var t := s[q := r];
    EverythingHas(s);
    ReceiveOk(s, q, ops);
    ContextTaken(s, q, ops);
    assert Held(r.log) == Held(s[q].log) + Held(ops);
    EverythingAfter(s, q, r, Held(ops));
    assert D + Held(ops) == D;
    SendExtends(s, q, r, ops);
    CausalAfter(s, q, r);
    NoneOfItsOwn(s, q, r);
    ApartAfter(s, q, r, D);
    RootedAfter(s, q, r);
  }

  lemma NoneOfItsOwn(s: System, q: Peer, r: Replica)
    requires q in s && Fine(s) && Extends(s, q, r) && forall op :: op in r.log ==> op in Everything(s)
    ensures forall i :: |s[q].log| <= i < |r.log| ==> r.log[i].id.peer != q
  {
    OwnIn(s, q);
    forall i | |s[q].log| <= i < |r.log| ensures r.log[i].id.peer != q {
      assert r.log[i] in r.log;
    }
  }

  lemma SendExtends(s: System, q: Peer, r: Replica, ops: seq<Op>)
    requires Fine(s) && Causal(s) && q in s && s[q].log <= r.log && Once(r.log) && InContext(s, q, ops)
    requires (forall op :: op in ops ==> op in Everything(s)) && forall op :: op in r.log <==> op in ops || op in s[q].log
    ensures Extends(s, q, r) && Covers(s, r)
  {
    hide Fine;
    OwnIn(s, q);
    EverythingHas(s);
    forall i | |s[q].log| <= i < |r.log| ensures r.log[i].id.peer != q {
      assert r.log[i] in r.log;
      assert forall k :: 0 <= k < |s[q].log| ==> s[q].log[k] == r.log[k] && r.log[k].id != r.log[i].id;
    }
    forall h, i, j | h in s && 0 <= i < j < |s[h].log| && s[h].log[j].id.peer == h && s[h].log[j] in r.log ensures s[h].log[i] in r.log {
      assert Carries(s, q, h);
    }
  }

  // -- careful runs --------------------------------------------------------------------------------------------------------

  lemma JoinTidy(s: System, p: Peer)
    requires Tidy(s) && p !in s
    ensures Tidy(s[p := NewReplica(p)])
  {
    hide Fine, KeysOk, Clash, Stale, Exists;
    var t := s[p := NewReplica(p)];
    JoinOk(s, p);
    SameEverything(s, p);
    forall q, h | q in t && h in t ensures Carries(t, q, h) {
      assert q != p && h != p ==> Carries(s, q, h);
    }
    forall h | h in t ensures LogApart(Everything(s), h, t[h].log) {
      assert h != p ==> LogApart(Everything(s), h, s[h].log);
    }
    forall h | h in t ensures Rooted(h, t[h].log) {
      assert h != p ==> Rooted(h, s[h].log);
    }
  }

  lemma SameEverything(s: System, p: Peer)
    requires p !in s
    ensures Everything(s[p := NewReplica(p)]) == Everything(s)
  {
    var t := s[p := NewReplica(p)];
    EverythingHas(s);
    EverythingHas(t);
    forall op | op in Everything(s) ensures op in Everything(t) {
      var q :| q in s && op in s[q].log;
      assert op in t[q].log;
    }
  }

  lemma StepTidy(s: System, step: Step)
    requires Tidy(s) && Allowed(s, step) && Careful(s, step)
    ensures Tidy(Take(s, step))
  {
    hide Tidy, Perform, ApplyUpdate, Spaced;
    match step
    case Join(p) => JoinTidy(s, p);
    case Local(p, e) => LocalTidy(s, p, e);
    case Send(p, q, ops) =>
      EverythingHas(s);
      SendTidy(s, q, ops);
    case Sync(p, q) =>
      EverythingHas(s);
      SyncWhole(s, p, q);
      WholeInContext(s, p, q, Diff(s[p], s[q].frontier));
      SendTidy(s, q, Diff(s[p], s[q].frontier));
  }

  /** A send that leaves out nothing the receiver lacks, as a synchronisation does, is in context. */
  lemma WholeInContext(s: System, p: Peer, q: Peer, ops: seq<Op>)
    requires Tidy(s) && p in s && q in s && forall op :: op in ops ==> op in s[p].log
    requires forall op :: op in s[p].log ==> op in ops || op in s[q].log
    ensures InContext(s, q, ops)
  {
    hide Fine, KeysOk, AllApart, AllRooted, NoneParked;
    forall h, i, j | h in s && 0 <= i < j < |s[h].log| && s[h].log[j].id.peer == h && s[h].log[j] in ops
      ensures s[h].log[i] in ops || s[h].log[i] in s[q].log
    {
      assert Carries(s, p, h);
    }
  }

  lemma SyncWhole(s: System, p: Peer, q: Peer)
    requires Tidy(s) && p in s && q in s
    ensures forall op :: op in s[p].log ==> op in Diff(s[p], s[q].frontier) || op in s[q].log
  {
    hide Valid, WellFormed, Closed, Contains, Causal, AllApart, AllRooted;
    var D := Everything(s);
    ValidIn(s, p);
    ValidIn(s, q);
    forall op | op in s[p].log ensures op in Diff(s[p], s[q].frontier) || op in s[q].log {
      if Contains(s[q].frontier, op.id) {
        HeldById(s[q], D, op);
      }
    }
  }

  lemma EmptyTidy()
    ensures Tidy(map[])
  {
    EmptyFine();
    assert Everything(map[]) == {};
  }

  lemma {:induction false} CarefulTidy(steps: seq<Step>)
    requires CarefulRun(steps)
    ensures Reach(steps).Some? && Tidy(Reach(steps).value)
    decreases |steps|
  {
    hide Tidy, Allowed, Careful, Take;
    if steps == [] {
      EmptyTidy();
    } else {
      var before := steps[..|steps| - 1];
      CarefulTidy(before);
      StepTidy(Reach(before).value, steps[|steps| - 1]);
    }
  }

  /** In a careful run live siblings have distinct keys, so replicas with the same operations show the same text. */
  lemma CarefulAgreement(steps: seq<Step>, p: Peer, q: Peer)
    requires CarefulRun(steps)
    ensures match Reach(steps)
      case None => false
      case Some(s) =>
        && (p in s ==> DistinctKeys(s[p].nodes))
        && (p in s && q in s && (forall op :: op in s[p].log <==> op in s[q].log) ==>
              s[p].nodes == s[q].nodes && Render(s[p]) == Render(s[q]))
  {
    hide CarefulRun, DistinctKeys, Render, Fine, NoneParked, KeysOk, Causal, AllApart, AllRooted, Reach;
    CarefulTidy(steps);
    var s := Reach(steps).value;
    if p in s {
      TidyDistinct(s, p);
      if q in s && forall op :: op in s[p].log <==> op in s[q].log {
        Agree(s, p, q);
      }
    }
  }
}
