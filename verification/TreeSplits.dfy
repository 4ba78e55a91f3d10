/** Local splits and merges: what they mint, the shape they keep, and that the text stays. */
module TreeSplits {
  import opened Basics
  import ByteOrder
  import FracKeys
  import opened TreeModel
  import opened TreeConvergence
  import opened TreeRender
  import opened TreeSystem
  import opened TreeEdits

  // -- the shape of a table ---------------------------------------------------------------------------

  ghost predicate NodeShape(r: Replica, x: Id)
    requires x in r.nodes
  {
    && x.counter <= r.counter && r.nodes[x].sortStamp.counter <= r.counter && FracKeys.Proper(r.nodes[x].sort.frac)
    && (r.nodes[x].parent.Some? ==> r.nodes[x].parent.value.counter < x.counter)
  }

  /** Children are newer than their parents, keys do not end in zero, nothing is newer than the clock, no placement either. */
  ghost predicate Shape(r: Replica) {
    && OrderOk(r.nodes, r.order) && ROOT in r.nodes && r.nodes[ROOT].parent.None? && r.nodes[ROOT].body.Element?
    && (forall x :: x in r.nodes ==> NodeShape(r, x))
  }

  lemma ShapeVisits(r: Replica)
    requires Shape(r)
    ensures Visited(r, TopCounter(r.order))
  {
    hide OrderOk, TopCounter;
    forall p, x | x in LiveChildren(r.nodes, r.order, p) ensures p.counter < x.counter <= TopCounter(r.order) {
      assert IsLiveChild(r.nodes, p, x) && NodeShape(r, x);
    }
  }

  // -- splitting ------------------------------------------------------------------------------------------

  /** Split a leaf at a character boundary; refused for elements, unknown nodes and offsets past the end. */
  function MintSplit(r: Replica, node: Id, atChar: nat): Option<Op> {
    if node !in r.nodes || !r.nodes[node].body.Leaf? || atChar > |r.nodes[node].body.text| || r.nodes[node].parent.None? then None
    else
      var rec := r.nodes[node];
      Some(Op(NextId(r), SplitLeaf(node, NextId(r), KeyAfter(r, rec.parent.value, Some(node)), atChar, rec.textHead)))
  }

  /** The live sibling after `node`. */
  function NextSibling(r: Replica, node: Id): Option<Id>
    requires node in r.nodes && r.nodes[node].parent.Some?
  {
    var kids := LiveChildren(r.nodes, r.order, r.nodes[node].parent.value);
    At(kids, IndexOf(kids, node) + 1)
  }

  /** The neighbour behind the leaf, if there is one, has another key. */
  predicate RoomBehind(r: Replica, node: Id)
    requires node in r.nodes && r.nodes[node].parent.Some?
  {
    var next := NextSibling(r, node);
    next.Some? && next.value in r.nodes ==> r.nodes[next.value].sort.frac != r.nodes[node].sort.frac
  }

  /** A live leaf whose live right neighbour, if any, has another key. */
  predicate Splittable(r: Replica, node: Id) {
    node in r.nodes && r.nodes[node].parent.Some? && r.nodes[node].tomb.None? && RoomBehind(r, node)
  }

  lemma LiveIsListed(r: Replica, node: Id)
    requires OrderOk(r.nodes, r.order) && node in r.nodes && r.nodes[node].parent.Some? && r.nodes[node].tomb.None?
    ensures var kids := LiveChildren(r.nodes, r.order, r.nodes[node].parent.value);
      node in kids && Sorted(r.nodes, kids) && IndexOf(kids, node) < |kids|
  {
    hide Sorted;
    assert node in r.order && IsLiveChild(r.nodes, r.nodes[node].parent.value, node);
    ChildrenSorted(r.nodes, r.order, r.nodes[node].parent.value);
  }

  /** The new key lies behind the leaf's and before the neighbour's. */
  lemma SplitKey(r: Replica, node: Id)
    requires Shape(r) && node in r.nodes && r.nodes[node].parent.Some? && r.nodes[node].tomb.None? && RoomBehind(r, node)
    ensures var kids := LiveChildren(r.nodes, r.order, r.nodes[node].parent.value);
      var i := IndexOf(kids, node);
      var key := KeyAfter(r, r.nodes[node].parent.value, Some(node));
      && i < |kids| && kids[i] == node && FracKeys.Proper(key.frac)
      && KeyBefore(r.nodes[node].sort, key)
      && (i + 1 < |kids| ==> kids[i + 1] in r.nodes && KeyBefore(key, r.nodes[kids[i + 1]].sort))
  {
    hide OrderOk, LiveChildren;
    LiveIsListed(r, node);
    var p := r.nodes[node].parent.value;
    var kids := LiveChildren(r.nodes, r.order, p);
    var i := IndexOf(kids, node);
    var lo := r.nodes[node].sort.frac;
    assert NodeShape(r, node);
    if i + 1 < |kids| {
      var next := kids[i + 1];
      assert next in kids && next in r.nodes && NodeShape(r, next);
      KeyBeforeOne(r.nodes[node].sort, r.nodes[next].sort);
      ByteOrder.LessTotal(lo, r.nodes[next].sort.frac);
      FracKeys.Dense(lo, r.nodes[next].sort.frac);
    } else {
      FracKeys.KeyIsBetween(lo, None);
    }
  }

  lemma MintSplitParts(r: Replica, node: Id, atChar: nat)
    requires MintSplit(r, node, atChar).Some?
    ensures node in r.nodes && r.nodes[node].body.Leaf? && r.nodes[node].parent.Some? && atChar <= |r.nodes[node].body.text|
    ensures var op := MintSplit(r, node, atChar).value;
      op.id == NextId(r) && op.kind.SplitLeaf? && op.kind.tailSort == KeyAfter(r, r.nodes[node].parent.value, Some(node))
  {
    hide KeyAfter;
  }

  lemma SplitParts(r: Replica, node: Id, atChar: nat)
    requires MintSplit(r, node, atChar).Some? && NextId(r) !in r.nodes
    ensures var op := MintSplit(r, node, atChar).value;
      var t := CommitLocal(r, op);
      var rec := r.nodes[node];
      var tail := NextId(r);
      && t.nodes == r.nodes[node := rec.(body := Leaf(rec.body.leafKind, rec.body.text[..atChar]), textHead := op.id)]
           [tail := Record(rec.parent, op.kind.tailSort, op.id, Leaf(rec.body.leafKind, rec.body.text[atChar..]), None, op.id)]
      && t.order == r.order + [tail] && t.counter == r.counter + 1
  {
    hide KeyAfter, Observe;
  }

  lemma NextIsFresh(r: Replica)
    requires Shape(r)
    ensures NextId(r) !in r.nodes && NextId(r) !in r.order && NextId(r) != ROOT
  {
    assert NextId(r) in r.nodes ==> NodeShape(r, NextId(r));
  }

  /** The children list gains the tail right behind the leaf. */
  lemma SplitKids(r: Replica, node: Id, atChar: nat, p: Id)
    requires Shape(r) && MintSplit(r, node, atChar).Some? && node in r.nodes && r.nodes[node].parent.Some?
    requires r.nodes[node].tomb.None? && RoomBehind(r, node)
    ensures var t := CommitLocal(r, MintSplit(r, node, atChar).value);
      LiveChildren(t.nodes, t.order, p) == Expand(LiveChildren(r.nodes, r.order, p), node, NextId(r))
  {
    hide KeyBefore, OrderOk, Sorted, KeyAfter, MintSplit, CommitLocal, InsertSorted, LiveChildren, RoomBehind;
    NextIsFresh(r);
    MintSplitParts(r, node, atChar);
    SplitParts(r, node, atChar);
    var t := CommitLocal(r, MintSplit(r, node, atChar).value);
    var tail := NextId(r);
    var kids := LiveChildren(r.nodes, r.order, p);
    forall x | x in r.order ensures SameKids(t.nodes, r.nodes, p, x) {
      OrderNodes(r, x);
    }
    ChildrenSame(t.nodes, r.nodes, r.order, p);
    ChildrenSnoc(t.nodes, r.order, tail, p);
    if r.nodes[node].parent == Some(p) {
      SplitKey(r, node);
      LiveIsListed(r, node);
      SplitLands(r, t, node, p, IndexOf(kids, node));
    } else {
      forall j | 0 <= j < |kids| ensures kids[j] != node {
        assert kids[j] in kids && IsLiveChild(r.nodes, p, kids[j]);
      }
      ExpandNone(kids, node, tail);
    }
  }

  lemma ChildrenSnoc(nodes: map<Id, Record>, order: seq<Id>, x: Id, p: Id)
    ensures var kids := LiveChildren(nodes, order, p);
      && (forall y :: y in kids ==> y in nodes)
      && LiveChildren(nodes, order + [x], p) == if IsLiveChild(nodes, p, x) then InsertSorted(nodes, kids, x) else kids
  {
    assert (order + [x])[..|order|] == order;
  }

  lemma OrderNodes(r: Replica, x: Id)
    requires Shape(r)
    ensures x in r.order <==> x in r.nodes
  {
  }

  lemma SplitLands(r: Replica, t: Replica, node: Id, p: Id, i: nat)
    requires var kids := LiveChildren(r.nodes, r.order, p);
      Sorted(r.nodes, kids) && i < |kids| && kids[i] == node && NextId(r) !in kids
    requires NextId(r) in t.nodes && forall x :: x in r.nodes ==> x in t.nodes && t.nodes[x].sort == r.nodes[x].sort
    requires var kids := LiveChildren(r.nodes, r.order, p);
      var key := t.nodes[NextId(r)].sort;
      KeyBefore(r.nodes[node].sort, key) && (i + 1 < |kids| ==> KeyBefore(key, r.nodes[kids[i + 1]].sort))
    ensures var kids := LiveChildren(r.nodes, r.order, p);
      && (forall y :: y in kids ==> y in t.nodes)
      && InsertSorted(t.nodes, kids, NextId(r)) == Expand(kids, node, NextId(r))
  {
    hide KeyBefore, LiveChildren, InsertSorted, Expand;
    var kids := LiveChildren(r.nodes, r.order, p);
    var tail := NextId(r);
    var key := t.nodes[tail].sort;
    KeyBeforeOne(r.nodes[node].sort, key);
    forall j | i + 1 <= j < |kids| ensures KeyBefore(key, t.nodes[kids[j]].sort) {
      if j > i + 1 {
        BeforeThrough(key, r.nodes[kids[i + 1]].sort, r.nodes[kids[j]].sort);
      }
    }
    InsertAt(t.nodes, kids, tail, i + 1);
    ExpandAt(kids, node, tail, i);
  }

  lemma BeforeThrough(a: SortKey, b: SortKey, c: SortKey)
    requires KeyBefore(a, b) && !KeyBefore(c, b)
    ensures KeyBefore(a, c)
  {
    KeyBeforeOne(b, c);
    if KeyBefore(b, c) {
      KeyBeforeTrans(a, b, c);
    }
  }

  /** Not behind a deleted leaf: the tail is listed and the leaf is not. */
  lemma DeadSplit(r: Replica, node: Id, atChar: nat)
    requires Shape(r) && MintSplit(r, node, atChar).Some? && node in r.nodes && r.nodes[node].parent.Some? && r.nodes[node].tomb.Some?
    ensures var (t, p) := (CommitLocal(r, MintSplit(r, node, atChar).value), r.nodes[node].parent.value);
      LiveChildren(t.nodes, t.order, p) != Expand(LiveChildren(r.nodes, r.order, p), node, NextId(r))
  {
    hide OrderOk, KeyAfter, MintSplit, CommitLocal, Expand;
    NextIsFresh(r);
    MintSplitParts(r, node, atChar);
    SplitParts(r, node, atChar);
    var t, p, tail := CommitLocal(r, MintSplit(r, node, atChar).value), r.nodes[node].parent.value, NextId(r);
    ExpandMembers(LiveChildren(r.nodes, r.order, p), node, tail);
    assert tail in t.order && IsLiveChild(t.nodes, p, tail);
  }

  /** The key chosen before a neighbour with the leaf's own key. */
  lemma CrowdedKey(r: Replica, node: Id)
    requires Shape(r) && node in r.nodes && r.nodes[node].parent.Some? && r.nodes[node].tomb.None? && !RoomBehind(r, node)
    ensures var kids := LiveChildren(r.nodes, r.order, r.nodes[node].parent.value);
      var i := IndexOf(kids, node);
      i + 1 < |kids| && kids[i] == node && kids[i + 1] in r.nodes
      && KeyBefore(r.nodes[kids[i + 1]].sort, KeyAfter(r, r.nodes[node].parent.value, Some(node)))
  {
    hide OrderOk, LiveChildren;
    LiveIsListed(r, node);
    assert NodeShape(r, node);
    FracKeys.NoRoom(r.nodes[node].sort.frac);
  }

  /** Nor before a neighbour with the leaf's own key: the tail goes past it. */
  lemma CrowdedSplit(r: Replica, node: Id, atChar: nat)
    requires Shape(r) && MintSplit(r, node, atChar).Some? && node in r.nodes && r.nodes[node].parent.Some?
    requires r.nodes[node].tomb.None? && !RoomBehind(r, node)
    ensures var (t, p) := (CommitLocal(r, MintSplit(r, node, atChar).value), r.nodes[node].parent.value);
      LiveChildren(t.nodes, t.order, p) != Expand(LiveChildren(r.nodes, r.order, p), node, NextId(r))
  {
    hide OrderOk, KeyAfter, MintSplit, CommitLocal, Expand, LiveChildren, RoomBehind, KeyBefore, NodeShape;
    NextIsFresh(r);
    MintSplitParts(r, node, atChar);
    SplitParts(r, node, atChar);
    CrowdedKey(r, node);
    LiveIsListed(r, node);
    var t, p, tail := CommitLocal(r, MintSplit(r, node, atChar).value), r.nodes[node].parent.value, NextId(r);
    var kids := LiveChildren(r.nodes, r.order, p);
    var i := IndexOf(kids, node);
    ExpandAt(kids, node, tail, i);
    var missed := Expand(kids, node, tail);
    assert missed[i + 1] == tail && missed[i + 2] == kids[i + 1];
    OrderSnoc(r, t);
    TailSorted(t, p);
  }

  lemma TailSorted(t: Replica, p: Id)
    requires OrderOk(t.nodes, t.order)
    ensures Sorted(t.nodes, LiveChildren(t.nodes, t.order, p))
  {
    ChildrenSorted(t.nodes, t.order, p);
  }

  /** The tail of a split lands right behind its leaf exactly when the leaf is live and its right neighbour has another key. */
  lemma SplitLandsIff(r: Replica, node: Id, atChar: nat)
    requires Shape(r) && MintSplit(r, node, atChar).Some?
    ensures node in r.nodes && r.nodes[node].parent.Some?
    ensures var (t, p) := (CommitLocal(r, MintSplit(r, node, atChar).value), r.nodes[node].parent.value);
      LiveChildren(t.nodes, t.order, p) == Expand(LiveChildren(r.nodes, r.order, p), node, NextId(r)) <==> Splittable(r, node)
  {
    hide Shape, MintSplit, CommitLocal, LiveChildren, Expand, RoomBehind;
    MintSplitParts(r, node, atChar);
    if r.nodes[node].tomb.Some? {
      DeadSplit(r, node, atChar);
    } else if RoomBehind(r, node) {
      SplitKids(r, node, atChar, r.nodes[node].parent.value);
    } else {
      CrowdedSplit(r, node, atChar);
    }
  }

  lemma SplitShape(r: Replica, node: Id, atChar: nat)
    requires Shape(r) && MintSplit(r, node, atChar).Some?
    requires FracKeys.Proper(MintSplit(r, node, atChar).value.kind.tailSort.frac)
    ensures Shape(CommitLocal(r, MintSplit(r, node, atChar).value))
  {
    hide KeyAfter, MintSplit, CommitLocal, FracKeys.Proper, OrderOk;
    NextIsFresh(r);
    MintSplitParts(r, node, atChar);
    SplitParts(r, node, atChar);
    var op := MintSplit(r, node, atChar).value;
    var t := CommitLocal(r, op);
    assert NodeShape(r, node);
    forall x | x in t.nodes ensures NodeShape(t, x) {
      if x in r.nodes {
        assert NodeShape(r, x);
      }
    }
    OrderSnoc(r, t);
  }

  lemma OrderSnoc(r: Replica, t: Replica)
    requires OrderOk(r.nodes, r.order) && NextId(r) !in r.order && t.order == r.order + [NextId(r)]
    requires forall x :: x in t.nodes <==> x in r.nodes || x == NextId(r)
    ensures OrderOk(t.nodes, t.order)
  {
  }

  lemma SplitDivides(r: Replica, node: Id, atChar: nat)
    requires Shape(r) && MintSplit(r, node, atChar).Some? && node in r.nodes && r.nodes[node].parent.Some?
    requires r.nodes[node].tomb.None? && RoomBehind(r, node)
    ensures Divided(r, CommitLocal(r, MintSplit(r, node, atChar).value), node, NextId(r))
  {
    hide KeyAfter, CommitLocal, LiveChildren, RoomBehind, Expand, NodeShape;
    var t := CommitLocal(r, MintSplit(r, node, atChar).value);
    var tail := NextId(r);
    NextIsFresh(r);
    SplitParts(r, node, atChar);
    assert DividedText(r.nodes, t.nodes, node, tail) by {
      var text := r.nodes[node].body.text;
      assert text == text[..atChar] + text[atChar..];
    }
    forall p ensures LiveChildren(t.nodes, t.order, p) == Expand(LiveChildren(r.nodes, r.order, p), node, tail) {
      SplitKids(r, node, atChar, p);
    }
    forall p ensures tail !in LiveChildren(r.nodes, r.order, p) {
      assert tail !in r.order;
    }
  }

  /** Splitting a live leaf that has room behind it leaves the document's text as it was. */
  lemma SplitKeepsText(r: Replica, node: Id, atChar: nat)
    requires Shape(r) && MintSplit(r, node, atChar).Some? && node in r.nodes && r.nodes[node].parent.Some?
    requires r.nodes[node].tomb.None? && RoomBehind(r, node)
    ensures var t := CommitLocal(r, MintSplit(r, node, atChar).value); Shape(t) && Render(t) == Render(r)
  {
    hide KeyAfter, CommitLocal, Shape, Render, Divided, Visited, MintSplit, RoomBehind;
    var t := CommitLocal(r, MintSplit(r, node, atChar).value);
    SplitKey(r, node);
    MintSplitParts(r, node, atChar);
    SplitShape(r, node, atChar);
    SplitDivides(r, node, atChar);
    ShapeVisits(r);
    ShapeVisits(t);
    RenderDivided(r, t, node, NextId(r));
  }

  // -- merging ----------------------------------------------------------------------------------------------

  /** Merge two leaves; refused unless `right` is the live sibling right after `left`. */
  function MintMerge(r: Replica, left: Id, right: Id): Option<Op> {
    if left !in r.nodes || !r.nodes[left].body.Leaf? || right !in r.nodes || !r.nodes[right].body.Leaf? then None
    else if r.nodes[left].parent.None? then None
    else
      var kids := LiveChildren(r.nodes, r.order, r.nodes[left].parent.value);
      var i := IndexOf(kids, left);
      if i + 1 < |kids| && kids[i + 1] == right then
        Some(Op(NextId(r), MergeLeaves(left, right, r.nodes[left].textHead, r.nodes[right].textHead)))
      else None
  }

  lemma MintMergeParts(r: Replica, left: Id, right: Id)
    requires MintMerge(r, left, right).Some? && OrderOk(r.nodes, r.order)
    ensures left in r.nodes && right in r.nodes && r.nodes[left].body.Leaf? && r.nodes[right].body.Leaf?
    ensures r.nodes[left].parent.Some? && left != right && r.nodes[right].tomb.None? && r.nodes[right].parent == r.nodes[left].parent
    ensures var kids := LiveChildren(r.nodes, r.order, r.nodes[left].parent.value);
      var i := IndexOf(kids, left);
      Sorted(r.nodes, kids) && i + 1 < |kids| && kids[i] == left && kids[i + 1] == right
    ensures var op := MintMerge(r, left, right).value; op.id == NextId(r) && op.kind.MergeLeaves?
    ensures MintMerge(r, left, right).value.kind.left == left && MintMerge(r, left, right).value.kind.right == right
  {
    var kids := LiveChildren(r.nodes, r.order, r.nodes[left].parent.value);
    ChildrenSorted(r.nodes, r.order, r.nodes[left].parent.value);
    assert right in kids;
  }

  lemma MergeParts(r: Replica, left: Id, right: Id)
    requires MintMerge(r, left, right).Some? && left in r.nodes && right in r.nodes && left != right
    requires r.nodes[left].body.Leaf? && r.nodes[right].body.Leaf? && r.nodes[right].tomb.None?
    ensures var op := MintMerge(r, left, right).value;
      var t := CommitLocal(r, op);
      var l := r.nodes[left];
      && t.nodes == r.nodes[left := l.(body := Leaf(l.body.leafKind, l.body.text + r.nodes[right].body.text), textHead := op.id)]
           [right := r.nodes[right].(tomb := Some(op.id))]
      && t.order == r.order && t.counter == r.counter + 1
  {
    hide LiveChildren, Observe;
  }

  function Drop(s: seq<Id>, x: Id): seq<Id> {
    if s == [] then []
    else
      var n := |s| - 1;
      Drop(s[..n], x) + if s[n] == x then [] else [s[n]]
  }

  lemma {:induction false} DropNone(s: seq<Id>, x: Id)
    requires forall j :: 0 <= j < |s| ==> s[j] != x
    ensures Drop(s, x) == s
  {
    if s != [] {
      DropNone(s[..|s| - 1], x);
    }
  }

  lemma {:induction false} DropMembers(s: seq<Id>, x: Id)
    ensures forall y :: y in Drop(s, x) <==> y in s && y != x
  {
    if s != [] {
      DropMembers(s[..|s| - 1], x);
    }
  }

  lemma {:induction false} DropAt(a: seq<Id>, x: Id, b: seq<Id>)
    requires (forall j :: 0 <= j < |a| ==> a[j] != x) && forall j :: 0 <= j < |b| ==> b[j] != x
    ensures Drop(a + [x] + b, x) == a + b
    decreases |b|
  {
    var s := a + [x] + b;
    if b == [] {
      assert s[..|s| - 1] == a;
      DropNone(a, x);
    } else {
      var m := |b| - 1;
      assert s[..|s| - 1] == a + [x] + b[..m] && s[|s| - 1] == b[m];
      DropAt(a, x, b[..m]);
    }
  }

  lemma InsertLast(nodes: map<Id, Record>, front: seq<Id>, last: Id, x: Id)
    requires x in nodes && last in nodes && forall y :: y in front ==> y in nodes
    ensures forall y :: y in front + [last] ==> y in nodes
    ensures InsertSorted(nodes, front + [last], x)
      == if KeyBefore(nodes[x].sort, nodes[last].sort) then InsertSorted(nodes, front, x) + [last] else front + [last] + [x]
  {
    assert (front + [last])[..|front|] == front;
  }

  lemma SortedFront(nodes: map<Id, Record>, s: seq<Id>)
    requires Sorted(nodes, s) && s != []
    ensures Sorted(nodes, s[..|s| - 1]) && (forall y :: y in s ==> y in nodes)
    ensures s[|s| - 1] !in s[..|s| - 1]
  {
    hide KeyBefore;
  }

  /** Taking a child out commutes with inserting another. */
  lemma {:induction false} InsertDrop(nodes: map<Id, Record>, s: seq<Id>, x: Id, gone: Id)
    requires Sorted(nodes, s) && x in nodes && x != gone
    ensures forall y :: y in s ==> y in nodes
    ensures forall y :: y in Drop(s, gone) ==> y in nodes
    ensures InsertSorted(nodes, Drop(s, gone), x) == Drop(InsertSorted(nodes, s, x), gone)
    decreases |s|
  {
    hide KeyBefore, InsertSorted, Drop, Sorted;
    SortedMembers(nodes, s);
    DropMembers(s, gone);
    if s == [] {
      DropNone([x], gone);
      DropNone([], gone);
      InsertNil(nodes, x);
    } else {
      var n := |s| - 1;
      var front, last := s[..n], s[n];
      assert s == front + [last] && last in s;
      SortedFront(nodes, s);
      InsertDrop(nodes, front, x, gone);
      DropSnoc(front, last, gone);
      InsertLast(nodes, front, last, x);
      if KeyBefore(nodes[x].sort, nodes[last].sort) {
        DropSnoc(InsertSorted(nodes, front, x), last, gone);
        if last != gone {
          InsertLast(nodes, Drop(front, gone), last, x);
        } else {
          assert Drop(s, gone) == Drop(front, gone);
          assert Drop(InsertSorted(nodes, s, x), gone) == Drop(InsertSorted(nodes, front, x), gone);
        }
      } else {
        DropSnoc(s, x, gone);
        if last == gone {
          DropLast(front, gone);
          LastNotAfter(nodes, s, x);
          assert Drop(s, gone) == front && InsertSorted(nodes, s, x) == s + [x];
        } else {
          InsertLast(nodes, Drop(front, gone), last, x);
        }
      }
    }
  }

  lemma SortedMembers(nodes: map<Id, Record>, s: seq<Id>)
    requires Sorted(nodes, s)
    ensures forall y :: y in s ==> y in nodes
  {
  }

  lemma InsertNil(nodes: map<Id, Record>, x: Id)
    requires x in nodes
    ensures InsertSorted(nodes, [], x) == [x]
  {
  }

  lemma DropSnoc(s: seq<Id>, x: Id, gone: Id)
    ensures Drop(s + [x], gone) == Drop(s, gone) + if x == gone then [] else [x]
  {
    assert (s + [x])[..|s|] == s;
  }

  lemma DropLast(front: seq<Id>, gone: Id)
    ensures gone !in front ==> Drop(front, gone) == front
  {
    if gone !in front {
      DropNone(front, gone);
    }
  }

  /** What goes behind the last goes behind the one before it too. */
  lemma LastNotAfter(nodes: map<Id, Record>, s: seq<Id>, x: Id)
    requires Sorted(nodes, s) && s != [] && x in nodes && !KeyBefore(nodes[x].sort, nodes[s[|s| - 1]].sort)
    ensures forall y :: y in s[..|s| - 1] ==> y in nodes
    ensures InsertSorted(nodes, s[..|s| - 1], x) == s[..|s| - 1] + [x]
  {
    hide KeyBefore;
    if |s| > 1 {
      NotBeforeTrans(nodes[s[|s| - 2]].sort, nodes[s[|s| - 1]].sort, nodes[x].sort);
    }
  }

  /** Entombing one child takes it out of the list and moves nothing else. */
  lemma {:induction false} ChildrenDrop(m: map<Id, Record>, n: map<Id, Record>, order: seq<Id>, p: Id, gone: Id)
    requires forall i, j :: 0 <= i < j < |order| ==> order[i] != order[j]
    requires (forall x :: x in order && x != gone ==> SameKids(m, n, p, x)) && !IsLiveChild(n, p, gone)
    ensures LiveChildren(n, order, p) == Drop(LiveChildren(m, order, p), gone)
    decreases |order|
  {
    hide KeyBefore, IsLiveChild, InsertSorted;
    if order != [] {
      var k := |order| - 1;
      var x := order[k];
      assert order == order[..k] + [x];
      ChildrenDrop(m, n, order[..k], p, gone);
      ChildrenSnoc(m, order[..k], x, p);
      ChildrenSnoc(n, order[..k], x, p);
      var kids := LiveChildren(m, order[..k], p);
      if x == gone {
        if IsLiveChild(m, p, x) {
          ChildIsNode(m, p, x);
          ChildrenSorted(m, order[..k], p);
          var i := Landing(m, kids, x);
          assert x !in order[..k] && kids == kids[..i] + kids[i..];
          DropAt(kids[..i], x, kids[i..]);
        }
        DropLast(kids, gone);
      } else if IsLiveChild(m, p, x) {
        ChildIsNode(m, p, x);
        ChildIsNode(n, p, x);
        ChildrenSorted(m, order[..k], p);
        InsertDrop(m, kids, x, gone);
        DropSame(m, n, p, kids, gone, x);
      }
    }
  }

  lemma DropSame(m: map<Id, Record>, n: map<Id, Record>, p: Id, kids: seq<Id>, gone: Id, x: Id)
    requires (forall y :: y in kids ==> IsLiveChild(m, p, y)) && (forall y :: y in kids && y != gone ==> SameKids(m, n, p, y))
    requires IsLiveChild(m, p, x) && SameKids(m, n, p, x)
    ensures forall y :: y in Drop(kids, gone) ==> y in m && y in n
    ensures x in m && x in n && InsertSorted(m, Drop(kids, gone), x) == InsertSorted(n, Drop(kids, gone), x)
  {
    DropMembers(kids, gone);
    InsertSame(m, n, Drop(kids, gone), x);
  }

  lemma {:induction false} ExpandDrop(kids: seq<Id>, left: Id, right: Id, i: nat)
    requires (forall a, b :: 0 <= a < b < |kids| ==> kids[a] != kids[b])
    requires i + 1 < |kids| && kids[i] == left && kids[i + 1] == right
    ensures Expand(Drop(kids, right), left, right) == kids
  {
    var a, b := kids[..i + 1], kids[i + 2..];
    assert kids == a + [right] + b;
    DropAt(a, right, b);
    var d := a + b;
    forall j | 0 <= j < |d| && j != i ensures d[j] != left {
      assert d[j] == if j < i + 1 then kids[j] else kids[j + 1];
    }
    ExpandAt(d, left, right, i);
  }

  lemma MergeKids(r: Replica, left: Id, right: Id, p: Id)
    requires Shape(r) && MintMerge(r, left, right).Some?
    ensures var t := CommitLocal(r, MintMerge(r, left, right).value);
      && LiveChildren(r.nodes, r.order, p) == Expand(LiveChildren(t.nodes, t.order, p), left, right)
      && right !in LiveChildren(t.nodes, t.order, p)
  {
    hide KeyBefore, Sorted, MintMerge, CommitLocal, LiveChildren, Expand, Drop;
    MintMergeParts(r, left, right);
    MergeParts(r, left, right);
    var t := CommitLocal(r, MintMerge(r, left, right).value);
    var kids := LiveChildren(r.nodes, r.order, p);
    ChildrenDrop(r.nodes, t.nodes, r.order, p, right);
    DropMembers(kids, right);
    ChildrenSorted(r.nodes, r.order, p);
    SortedOnce(r.nodes, kids);
    if r.nodes[left].parent == Some(p) {
      ExpandDrop(kids, left, right, IndexOf(kids, left));
    } else {
      NotKid(r, p, left);
      NotKid(r, p, right);
      DropLast(kids, right);
      ExpandNone(kids, left, right);
    }
  }

  lemma SortedOnce(nodes: map<Id, Record>, s: seq<Id>)
    requires Sorted(nodes, s)
    ensures forall a, b :: 0 <= a < b < |s| ==> s[a] != s[b]
  {
  }

  lemma NotKid(r: Replica, p: Id, x: Id)
    requires x in r.nodes && r.nodes[x].parent != Some(p)
    ensures var kids := LiveChildren(r.nodes, r.order, p); x !in kids && forall j :: 0 <= j < |kids| ==> kids[j] != x
  {
    var kids := LiveChildren(r.nodes, r.order, p);
    assert forall j :: 0 <= j < |kids| ==> kids[j] in kids;
  }

  lemma MergeShape(r: Replica, left: Id, right: Id)
    requires Shape(r) && MintMerge(r, left, right).Some?
    ensures Shape(CommitLocal(r, MintMerge(r, left, right).value))
  {
    hide MintMerge, CommitLocal, FracKeys.Proper, LiveChildren, Sorted;
    MintMergeParts(r, left, right);
    MergeParts(r, left, right);
    var t := CommitLocal(r, MintMerge(r, left, right).value);
    forall x | x in t.nodes ensures NodeShape(t, x) {
      assert NodeShape(r, x);
    }
  }

  lemma MergeDivides(r: Replica, left: Id, right: Id)
    requires Shape(r) && MintMerge(r, left, right).Some?
    ensures Divided(CommitLocal(r, MintMerge(r, left, right).value), r, left, right)
  {
    hide MintMerge, CommitLocal, LiveChildren, Expand, Sorted, NodeShape;
    var t := CommitLocal(r, MintMerge(r, left, right).value);
    MintMergeParts(r, left, right);
    MergeParts(r, left, right);
    forall p ensures LiveChildren(r.nodes, r.order, p) == Expand(LiveChildren(t.nodes, t.order, p), left, right)
      && right !in LiveChildren(t.nodes, t.order, p)
    {
      MergeKids(r, left, right, p);
    }
  }

  /** Merging adjacent leaves always leaves the document's text as it was. */
  lemma MergeKeepsText(r: Replica, left: Id, right: Id)
    requires Shape(r) && MintMerge(r, left, right).Some?
    ensures var t := CommitLocal(r, MintMerge(r, left, right).value); Shape(t) && Render(t) == Render(r)
  {
    hide MintMerge, CommitLocal, Shape, Render, Divided, Visited;
    var t := CommitLocal(r, MintMerge(r, left, right).value);
    MergeShape(r, left, right);
    MergeDivides(r, left, right);
    ShapeVisits(r);
    ShapeVisits(t);
    RenderDivided(t, r, left, right);
  }

  // -- structural edits keep the shape -----------------------------------------------------------------------------------

  lemma KeyAfterProper(r: Replica, parent: Id, after: Option<Id>)
    requires Shape(r)
    ensures FracKeys.Proper(KeyAfter(r, parent, after).frac)
  {
    hide OrderOk, LiveChildren;
    var kids := LiveChildren(r.nodes, r.order, parent);
    var (lo, hi) := Neighbours(kids, after);
    assert lo.Some? ==> lo.value in kids && NodeShape(r, lo.value);
    assert hi.Some? ==> hi.value in kids && NodeShape(r, hi.value);
    FracKeys.KeyIsBetween(FracKeys.OrEmpty(FracOf(r.nodes, lo)), FracOf(r.nodes, hi));
  }

  /** Every structural edit keeps the shape. */
  lemma PerformShape(r: Replica, e: Edit)
    requires Shape(r)
    ensures Shape(Perform(r, e))
  {
    hide Shape;
    if Mint(r, e).Some? {
      match e
      case Create(parent, after, seed) => CreateShape(r, parent, after, seed);
      case Delete(x) => DeleteShape(r, x);
      case Place(x, after) => PlaceShape(r, x, after);
    }
  }

  lemma CreateShape(r: Replica, parent: Id, after: Option<Id>, seed: Body)
    requires Shape(r) && Mint(r, Create(parent, after, seed)).Some?
    ensures Shape(Perform(r, Create(parent, after, seed)))
  {
    hide KeyAfter, FracKeys.Proper, Observe;
    NextIsFresh(r);
    var t := Perform(r, Create(parent, after, seed));
    KeyAfterProper(r, parent, after);
    assert NodeShape(r, parent);
    forall x | x in t.nodes ensures NodeShape(t, x) {
      assert x in r.nodes ==> NodeShape(r, x);
    }
  }

  lemma DeleteShape(r: Replica, x: Id)
    requires Shape(r) && Mint(r, Delete(x)).Some?
    ensures Shape(Perform(r, Delete(x)))
  {
    hide FracKeys.Proper, Observe;
    var t := Perform(r, Delete(x));
    forall y | y in t.nodes ensures NodeShape(t, y) {
      assert y in r.nodes ==> NodeShape(r, y);
    }
  }

  lemma PlaceShape(r: Replica, x: Id, after: Option<Id>)
    requires Shape(r) && Mint(r, Place(x, after)).Some?
    ensures Shape(Perform(r, Place(x, after)))
  {
    hide KeyAfter, FracKeys.Proper, Observe;
    var t := Perform(r, Place(x, after));
    KeyAfterProper(r, r.nodes[x].parent.value, after);
    forall y | y in t.nodes ensures NodeShape(t, y) {
      assert y in r.nodes ==> NodeShape(r, y);
    }
  }
}
