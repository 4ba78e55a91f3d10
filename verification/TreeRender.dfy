/** Rendering depends only on the table when live siblings have distinct sort keys. */
module TreeRender {
  import opened Basics
  import ByteOrder
  import opened TreeModel
  import opened TreeConvergence
  import opened TreeDelivery

  // -- sort keys are totally ordered ---------------------------------------------------------------

  lemma KeyBeforeTrans(a: SortKey, b: SortKey, c: SortKey)
    requires KeyBefore(a, b) && KeyBefore(b, c)
    ensures KeyBefore(a, c)
  {
    if ByteOrder.Less(a.frac, b.frac) && ByteOrder.Less(b.frac, c.frac) {
      ByteOrder.LessTrans(a.frac, b.frac, c.frac);
    }
  }

  lemma KeyBeforeOne(a: SortKey, b: SortKey)
    ensures KeyBefore(a, b) || a == b || KeyBefore(b, a)
    ensures !(KeyBefore(a, b) && KeyBefore(b, a)) && !KeyBefore(a, a)
  {
    ByteOrder.LessTotal(a.frac, b.frac);
    ByteOrder.NotLessSelf(a.frac);
    if ByteOrder.Less(a.frac, b.frac) && ByteOrder.Less(b.frac, a.frac) {
      ByteOrder.LessTrans(a.frac, b.frac, a.frac);
    }
  }

  /** Distinct siblings have distinct keys. */
  ghost predicate DistinctKeys(nodes: map<Id, Record>) {
    forall p, x, y {:trigger IsLiveChild(nodes, p, x), IsLiveChild(nodes, p, y)} ::
      IsLiveChild(nodes, p, x) && IsLiveChild(nodes, p, y) && x != y ==> nodes[x].sort != nodes[y].sort
  }

  // -- the one arrangement of the children ------------------------------------------------------------

  /** `x` is listed before `y`: by key, ties in the table's order. */
  predicate Ahead(nodes: map<Id, Record>, order: seq<Id>, x: Id, y: Id)
    requires x in nodes && y in nodes
  {
    KeyBefore(nodes[x].sort, nodes[y].sort) || (nodes[x].sort == nodes[y].sort && IndexOf(order, x) < IndexOf(order, y))
  }

  ghost predicate Arranged(nodes: map<Id, Record>, order: seq<Id>, s: seq<Id>) {
    (forall x :: x in s ==> x in nodes) && forall i, j :: 0 <= i < j < |s| ==> Ahead(nodes, order, s[i], s[j])
  }

  lemma AheadTrans(nodes: map<Id, Record>, order: seq<Id>, x: Id, y: Id, z: Id)
    requires x in nodes && y in nodes && z in nodes && Ahead(nodes, order, x, y) && Ahead(nodes, order, y, z)
    ensures Ahead(nodes, order, x, z)
  {
    hide KeyBefore;
    if KeyBefore(nodes[x].sort, nodes[y].sort) && KeyBefore(nodes[y].sort, nodes[z].sort) {
      KeyBeforeTrans(nodes[x].sort, nodes[y].sort, nodes[z].sort);
    }
  }

  lemma AheadOne(nodes: map<Id, Record>, order: seq<Id>, x: Id, y: Id)
    requires x in nodes && y in nodes
    ensures !(Ahead(nodes, order, x, y) && Ahead(nodes, order, y, x)) && !Ahead(nodes, order, x, x)
  {
    hide KeyBefore;
    KeyBeforeOne(nodes[x].sort, nodes[y].sort);
    KeyBeforeOne(nodes[x].sort, nodes[x].sort);
  }

  /** The stable insertion puts the newest of the table where it belongs. */
  lemma {:induction false} InsertedInOrder(nodes: map<Id, Record>, order: seq<Id>, s: seq<Id>, x: Id)
    requires Arranged(nodes, order, s) && x in nodes && forall y :: y in s ==> IndexOf(order, y) < IndexOf(order, x)
    ensures forall y :: y in s ==> y in nodes
    ensures Arranged(nodes, order, InsertSorted(nodes, s, x))
    decreases |s|
  {
    hide KeyBefore, Ahead, IndexOf;
    if s != [] {
      var n := |s| - 1;
      var last := s[n];
      assert last in s;
      LastOrNot(nodes, order, x, last);
      if KeyBefore(nodes[x].sort, nodes[last].sort) {
        InsertedInOrder(nodes, order, s[..n], x);
        InsertedMembers(nodes, s[..n], x);
        SnocInOrder(nodes, order, InsertSorted(nodes, s[..n], x), s, x);
      } else {
        forall i | 0 <= i < |s| ensures Ahead(nodes, order, s[i], x) {
          if i < n {
            AheadTrans(nodes, order, s[i], last, x);
          }
        }
      }
    }
  }

  lemma LastOrNot(nodes: map<Id, Record>, order: seq<Id>, x: Id, last: Id)
    requires x in nodes && last in nodes && IndexOf(order, last) < IndexOf(order, x)
    ensures if KeyBefore(nodes[x].sort, nodes[last].sort) then Ahead(nodes, order, x, last) else Ahead(nodes, order, last, x)
  {
    hide KeyBefore;
    KeyBeforeOne(nodes[x].sort, nodes[last].sort);
  }

  lemma SnocInOrder(nodes: map<Id, Record>, order: seq<Id>, t: seq<Id>, s: seq<Id>, x: Id)
    requires s != [] && Arranged(nodes, order, s) && Arranged(nodes, order, t) && x in nodes
    requires s[|s| - 1] in nodes && Ahead(nodes, order, x, s[|s| - 1])
    requires forall y :: y in t ==> y in s[..|s| - 1] || y == x
    ensures Arranged(nodes, order, t + [s[|s| - 1]])
  {
    hide Ahead;
    var last := s[|s| - 1];
    forall i | 0 <= i < |t| ensures Ahead(nodes, order, t[i], last) {
      assert t[i] in t;
      if t[i] != x {
        var j :| 0 <= j < |s| - 1 && s[..|s| - 1][j] == t[i];
        assert s[j] == t[i];
      }
    }
  }

  /** The children list is arranged, ties and all. */
  lemma {:induction false} ChildrenArranged(nodes: map<Id, Record>, order: seq<Id>, k: nat, p: Id)
    requires k <= |order| && forall i, j :: 0 <= i < j < |order| ==> order[i] != order[j]
    ensures Arranged(nodes, order, LiveChildren(nodes, order[..k], p))
  {
    hide KeyBefore, IsLiveChild, Ahead, IndexOf;
    if k > 0 {
      var x := order[k - 1];
      assert order[..k][..k - 1] == order[..k - 1];
      ChildrenArranged(nodes, order, k - 1, p);
      var r := LiveChildren(nodes, order[..k - 1], p);
      if IsLiveChild(nodes, p, x) {
        ChildIsNode(nodes, p, x);
        IndexIs(order, k - 1);
        forall y | y in r ensures y in nodes && IndexOf(order, y) < k - 1 {
          ChildIsNode(nodes, p, y);
          var i :| 0 <= i < k - 1 && order[..k - 1][i] == y;
          IndexIs(order, i);
        }
        InsertedInOrder(nodes, order, r, x);
      }
    }
  }

  lemma IndexIs(xs: seq<Id>, i: nat)
    requires i < |xs| && forall a, b :: 0 <= a < b < |xs| ==> xs[a] != xs[b]
    ensures IndexOf(xs, xs[i]) == i
  {
    var j := IndexOf(xs, xs[i]);
    assert xs[i] in xs;
  }

  lemma ChildIsNode(nodes: map<Id, Record>, p: Id, x: Id)
    requires IsLiveChild(nodes, p, x)
    ensures x in nodes
  {
  }

  /** There is one arrangement of the same nodes. */
  lemma {:induction false} OneOrder(nodes: map<Id, Record>, order: seq<Id>, s: seq<Id>, t: seq<Id>)
    requires Arranged(nodes, order, s) && Arranged(nodes, order, t) && forall x :: x in s <==> x in t
    ensures s == t
    decreases |s|
  {
    hide Ahead;
    if s == [] {
      Headless(t);
    } else {
      assert s[0] in t;
      SameHead(nodes, order, s, t);
      TailsInOrder(nodes, order, s, t);
      OneOrder(nodes, order, s[1..], t[1..]);
      assert s == [s[0]] + s[1..] && t == [t[0]] + t[1..];
    }
  }

  lemma Headless(t: seq<Id>)
    ensures t != [] ==> t[0] in t
  {
  }

  lemma SameHead(nodes: map<Id, Record>, order: seq<Id>, s: seq<Id>, t: seq<Id>)
    requires s != [] && t != [] && Arranged(nodes, order, s) && Arranged(nodes, order, t) && s[0] in t && t[0] in s
    ensures s[0] == t[0]
  {
    hide Ahead;
    var i :| 0 <= i < |t| && t[i] == s[0];
    var j :| 0 <= j < |s| && s[j] == t[0];
    AheadOne(nodes, order, s[0], t[0]);
  }

  lemma TailsInOrder(nodes: map<Id, Record>, order: seq<Id>, s: seq<Id>, t: seq<Id>)
    requires s != [] && t != [] && s[0] == t[0] && Arranged(nodes, order, s) && Arranged(nodes, order, t)
    requires forall x :: x in s <==> x in t
    ensures Arranged(nodes, order, s[1..]) && Arranged(nodes, order, t[1..]) && forall x :: x in s[1..] <==> x in t[1..]
  {
    hide Ahead;
    TailMembers(nodes, order, s);
    TailMembers(nodes, order, t);
  }

  lemma TailMembers(nodes: map<Id, Record>, order: seq<Id>, s: seq<Id>)
    requires s != [] && Arranged(nodes, order, s)
    ensures forall x :: x in s[1..] <==> x in s && x != s[0]
  {
    hide Ahead;
    forall x | x in s[1..] ensures x in s && x != s[0] {
      var i :| 0 <= i < |s[1..]| && s[1..][i] == x;
      AheadOne(nodes, order, s[0], s[i + 1]);
    }
  }

  /** The children are whatever arrangement of them there is. */
  lemma ChildrenAre(nodes: map<Id, Record>, order: seq<Id>, p: Id, s: seq<Id>)
    requires OrderOk(nodes, order) && Arranged(nodes, order, s) && forall x :: x in s <==> IsLiveChild(nodes, p, x)
    ensures LiveChildren(nodes, order, p) == s
  {
    hide Ahead, IsLiveChild;
    assert order[..|order|] == order;
    ChildrenArranged(nodes, order, |order|, p);
    forall x | IsLiveChild(nodes, p, x) ensures x in order {
      ChildIsNode(nodes, p, x);
    }
    OneOrder(nodes, order, LiveChildren(nodes, order, p), s);
  }

  lemma SameChildren(nodes: map<Id, Record>, o: seq<Id>, q: seq<Id>, p: Id)
    requires DistinctKeys(nodes) && OrderOk(nodes, o) && OrderOk(nodes, q)
    ensures LiveChildren(nodes, o, p) == LiveChildren(nodes, q, p)
  {
    hide KeyBefore, IndexOf, IsLiveChild;
    var s := LiveChildren(nodes, q, p);
    assert q[..|q|] == q;
    ChildrenArranged(nodes, q, |q|, p);
    forall i, j | 0 <= i < j < |s| ensures Ahead(nodes, o, s[i], s[j]) {
      assert s[i] in s && s[j] in s && Ahead(nodes, q, s[i], s[j]);
      AheadOne(nodes, q, s[i], s[j]);
      assert IsLiveChild(nodes, p, s[i]) && IsLiveChild(nodes, p, s[j]);
    }
    forall x ensures x in s <==> IsLiveChild(nodes, p, x) {
      if IsLiveChild(nodes, p, x) {
        ChildIsNode(nodes, p, x);
      }
    }
    ChildrenAre(nodes, o, p, s);
  }

  lemma {:induction false} SameFrom(nodes: map<Id, Record>, o: seq<Id>, q: seq<Id>, x: Id, limit: nat)
    requires DistinctKeys(nodes) && OrderOk(nodes, o) && OrderOk(nodes, q)
    ensures RenderFrom(nodes, o, x, limit) == RenderFrom(nodes, q, x, limit)
    decreases limit - x.counter, 1, 0
  {
    hide DistinctKeys, OrderOk;
    if x in nodes && nodes[x].body.Element? {
      SameChildren(nodes, o, q, x);
      SameAll(nodes, o, q, LiveChildren(nodes, o, x), x.counter, limit);
    }
  }

  lemma {:induction false} SameAll(nodes: map<Id, Record>, o: seq<Id>, q: seq<Id>, xs: seq<Id>, above: nat, limit: nat)
    requires DistinctKeys(nodes) && OrderOk(nodes, o) && OrderOk(nodes, q)
    ensures RenderAll(nodes, o, xs, above, limit) == RenderAll(nodes, q, xs, above, limit)
    decreases limit - above, 0, |xs|
  {
    hide DistinctKeys, OrderOk;
    if xs != [] {
      if above < xs[0].counter <= limit {
        SameFrom(nodes, o, q, xs[0], limit);
      }
      SameAll(nodes, o, q, xs[1..], above, limit);
    }
  }

  lemma {:induction false} TopAttained(order: seq<Id>)
    ensures TopCounter(order) == 0 || exists x :: x in order && x.counter == TopCounter(order)
  {
    if order != [] {
      var n := |order| - 1;
      TopAttained(order[..n]);
      assert order[n] in order;
    }
  }

  lemma SameTop(o: seq<Id>, q: seq<Id>)
    requires forall x :: x in o <==> x in q
    ensures TopCounter(o) == TopCounter(q)
  {
    hide TopCounter;
    TopAttained(o);
    TopAttained(q);
  }

  /** The same table with distinct live sibling keys renders the same, whatever order it was filled in. */
  lemma SameRender(r: Replica, s: Replica)
    requires OrderOk(r.nodes, r.order) && OrderOk(s.nodes, s.order) && r.nodes == s.nodes && DistinctKeys(r.nodes)
    ensures Render(r) == Render(s)
  {
    SameTop(r.order, s.order);
    SameFrom(r.nodes, r.order, s.order, ROOT, TopCounter(r.order));
  }

  /** Strong eventual consistency of what readers see. */
  lemma RenderConverges(p: Peer, q: Peer, us: seq<seq<Op>>, vs: seq<seq<Op>>)
    requires Delivered(us) == Delivered(vs) && WellFormed(Delivered(us)) && Closed(Delivered(us))
    ensures DistinctKeys(Deliver(p, us).nodes) ==> Render(Deliver(p, us)) == Render(Deliver(q, vs))
  {
    hide Stuck, Deliver, Closed, WellFormed, Render, DistinctKeys, OrderOk;
    var D := Delivered(us);
    DeliverOk(p, us, D);
    DeliverOk(q, vs, D);
    DeliveryOrderDoesNotMatter(p, q, us, vs);
    if DistinctKeys(Deliver(p, us).nodes) {
      SameRender(Deliver(p, us), Deliver(q, vs));
    }
  }

  // -- no live child is left out ---------------------------------------------------------------------------

  /** Every live child is newer than its parent, so the walk visits all of them. */
  lemma ChildrenAreNewer(r: Replica, D: set<Op>, p: Id, x: Id)
    requires WellFormed(D) && Closed(D) && Valid(r, D) && IsLiveChild(r.nodes, p, x)
    ensures p.counter < x.counter <= TopCounter(r.order)
  {
    assert x in r.nodes && RecordOk(Held(r.log), x, r.nodes[x]);
    var c :| c in Held(r.log) && Makes(c, x) && r.nodes[x].parent == Some(c.kind.parent);
    assert c in D && MadeBefore(D, Needs(c), c.id.counter);
    assert x in r.order;
  }
}
