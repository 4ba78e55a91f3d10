/** Where a created or moved node lands among its siblings, and what a deletion takes out. */
module TreePlacing {
  import opened Basics
  import ByteOrder
  import FracKeys
  import opened TreeModel
  import opened TreeConvergence
  import opened TreeRender
  import opened TreeSystem
  import opened TreeEdits
  import opened TreeSplits
  import opened TreeSessions
  import opened TreeSpacing

  /** Right behind the anchor: first without one, last when it is not listed. */
  function Slot(kids: seq<Id>, after: Option<Id>): (i: nat)
    ensures i <= |kids|
  {
    if after.None? then 0
    else
      var i := IndexOf(kids, after.value);
      if i < |kids| then i + 1 else |kids|
  }

  function PutAt(kids: seq<Id>, i: nat, x: Id): seq<Id>
    requires i <= |kids|
  {
    kids[..i] + [x] + kids[i..]
  }

  /** The neighbours' keys leave room: that of the upper one is not the lower one's, nor empty if there is no lower one. */
  predicate Gap(r: Replica, parent: Id, after: Option<Id>) {
    var (lo, hi) := Neighbours(LiveChildren(r.nodes, r.order, parent), after);
    hi.Some? ==> FracKeys.OrEmpty(FracOf(r.nodes, lo)) != r.nodes[hi.value].sort.frac
  }

  /** No edit makes an empty key; among children without one, room is between neighbours with different keys. */
  lemma GapIsRoom(r: Replica, parent: Id, after: Option<Id>)
    requires GoodKids(r.nodes, parent)
    ensures Gap(r, parent, after) <==> Room(r, parent, after)
  {
    hide LiveChildren;
    var (lo, hi) := Neighbours(LiveChildren(r.nodes, r.order, parent), after);
    assert hi.Some? ==> IsLiveChild(r.nodes, parent, hi.value);
  }

  // -- the key and the slot -------------------------------------------------------------------------------

  lemma NeighboursAt(kids: seq<Id>, after: Option<Id>)
    ensures var ((lo, hi), i) := (Neighbours(kids, after), Slot(kids, after));
      && lo == (if i > 0 then Some(kids[i - 1]) else None)
      && hi == (if i < |kids| then Some(kids[i]) else None)
  {
  }

  /** With room the key lies between the children on either side of the slot, and without it is past the one behind. */
  lemma KeyInSlot(r: Replica, parent: Id, after: Option<Id>)
    requires Shape(r)
    ensures var kids, key := LiveChildren(r.nodes, r.order, parent), KeyAfter(r, parent, after);
      var i := Slot(kids, after);
      && Sorted(r.nodes, kids) && (forall y :: y in kids ==> y in r.nodes)
      && (Gap(r, parent, after) ==>
            && (i > 0 ==> KeyBefore(r.nodes[kids[i - 1]].sort, key))
            && (i < |kids| ==> KeyBefore(key, r.nodes[kids[i]].sort)))
      && (!Gap(r, parent, after) ==> i < |kids| && KeyBefore(r.nodes[kids[i]].sort, key))
  {
    hide OrderOk, LiveChildren, Neighbours, Slot;
    var kids := LiveChildren(r.nodes, r.order, parent);
    OrderOf(r);
    ChildrenSorted(r.nodes, r.order, parent);
    NeighboursAt(kids, after);
    var (lo, hi) := Neighbours(kids, after);
    var low, i := FracKeys.OrEmpty(FracOf(r.nodes, lo)), Slot(kids, after);
    assert lo.Some? ==> lo.value in kids && NodeShape(r, lo.value);
    if hi.Some? {
      assert hi.value in kids && NodeShape(r, hi.value);
      var high := r.nodes[hi.value].sort.frac;
      if low == high {
        FracKeys.NoRoom(high);
      } else {
        InOrder(r, kids, i, low);
        NotPadded(low, high);
        FracKeys.KeyIsBetween(low, Some(high));
      }
    } else {
      FracKeys.KeyIsBetween(low, None);
    }
  }

  lemma OrderOf(r: Replica)
    requires Shape(r)
    ensures OrderOk(r.nodes, r.order) && forall i, j :: 0 <= i < j < |r.order| ==> r.order[i] != r.order[j]
  {
  }

  lemma InOrder(r: Replica, kids: seq<Id>, i: nat, low: FracKeys.Key)
    requires Sorted(r.nodes, kids) && i < |kids| && kids[i] in r.nodes && (i > 0 ==> kids[i - 1] in r.nodes)
    requires low == (if i > 0 then r.nodes[kids[i - 1]].sort.frac else []) && low != r.nodes[kids[i]].sort.frac
    ensures ByteOrder.Less(low, r.nodes[kids[i]].sort.frac)
  {
    ByteOrder.LessTotal(low, r.nodes[kids[i]].sort.frac);
    if i > 0 {
      assert !KeyBefore(r.nodes[kids[i]].sort, r.nodes[kids[i - 1]].sort);
    }
  }

  // -- creating ------------------------------------------------------------------------------------------------

  /** A new node that holds its body, live, and nothing else of the table touched. */
  ghost predicate Adds(r: Replica, t: Replica, x: Id, parent: Id, seed: Body) {
    && x !in r.nodes && t.nodes.Keys == r.nodes.Keys + {x} && (forall y :: y in r.nodes ==> t.nodes[y] == r.nodes[y])
    && t.nodes[x].parent == Some(parent) && t.nodes[x].body == seed && t.nodes[x].tomb.None?
    && (forall p :: p != parent ==> LiveChildren(t.nodes, t.order, p) == LiveChildren(r.nodes, r.order, p))
  }

  lemma CreateParts(r: Replica, parent: Id, after: Option<Id>, seed: Body)
    requires Shape(r) && parent in r.nodes
    ensures var t, x := Perform(r, Create(parent, after, seed)), NextId(r);
      && x !in r.nodes && x !in r.order && t.order == r.order + [x]
      && t.nodes == r.nodes[x := Record(Some(parent), KeyAfter(r, parent, after), x, seed, None, x)]
  {
    hide KeyAfter, Observe;
    NextIsFresh(r);
  }

  lemma CreateChildren(r: Replica, t: Replica, x: Id, p: Id)
    requires x !in r.nodes && x !in r.order && t.order == r.order + [x] && x in t.nodes && t.nodes == r.nodes[x := t.nodes[x]]
    ensures var kids := LiveChildren(r.nodes, r.order, p);
      && (forall y :: y in kids ==> y in t.nodes)
      && LiveChildren(t.nodes, t.order, p) == if IsLiveChild(t.nodes, p, x) then InsertSorted(t.nodes, kids, x) else kids
  {
    hide InsertSorted;
    forall y | y in r.order ensures SameKids(t.nodes, r.nodes, p, y) {
    }
    ChildrenSame(t.nodes, r.nodes, r.order, p);
    ChildrenSnoc(t.nodes, r.order, x, p);
  }

  /**
   A created node takes its place right behind its anchor, first without one and last when the anchor is not
   listed, exactly when there is room; all other children stay in order.
   */
  lemma CreateLandsIff(r: Replica, parent: Id, after: Option<Id>, seed: Body)
    requires Shape(r) && parent in r.nodes
    ensures var t, x, kids := Perform(r, Create(parent, after, seed)), NextId(r), LiveChildren(r.nodes, r.order, parent);
      && Adds(r, t, x, parent, seed)
      && (LiveChildren(t.nodes, t.order, parent) == PutAt(kids, Slot(kids, after), x) <==> Gap(r, parent, after))
  {
    hide Shape, KeyAfter, Gap, LiveChildren, KeyBefore, InsertSorted, Slot, Sorted, Perform;
    var t, x, kids := Perform(r, Create(parent, after, seed)), NextId(r), LiveChildren(r.nodes, r.order, parent);
    CreateParts(r, parent, after, seed);
    KeyInSlot(r, parent, after);
    forall p ensures p != parent ==> LiveChildren(t.nodes, t.order, p) == LiveChildren(r.nodes, r.order, p) {
      CreateChildren(r, t, x, p);
    }
    CreateChildren(r, t, x, parent);
    var i := Slot(kids, after);
    if Gap(r, parent, after) {
      LandsAt(r, t, kids, x, i);
    } else {
      OrderOf(r);
      OrderSnoc(r, t);
      TailSorted(t, parent);
      MissesSlot(t, LiveChildren(t.nodes, t.order, parent), kids, x, i);
    }
  }

  lemma LandsAt(r: Replica, t: Replica, kids: seq<Id>, x: Id, i: nat)
    requires Sorted(r.nodes, kids) && i <= |kids| && x in t.nodes
    requires forall y :: y in kids ==> y in r.nodes && y in t.nodes && t.nodes[y].sort == r.nodes[y].sort
    requires i > 0 ==> KeyBefore(r.nodes[kids[i - 1]].sort, t.nodes[x].sort)
    requires i < |kids| ==> KeyBefore(t.nodes[x].sort, r.nodes[kids[i]].sort)
    ensures InsertSorted(t.nodes, kids, x) == PutAt(kids, i, x)
  {
    hide KeyBefore, InsertSorted;
    var key := t.nodes[x].sort;
    forall j | i <= j < |kids| ensures KeyBefore(key, t.nodes[kids[j]].sort) {
      if j > i {
        BeforeThrough(key, r.nodes[kids[i]].sort, r.nodes[kids[j]].sort);
      }
    }
    if i > 0 {
      KeyBeforeOne(r.nodes[kids[i - 1]].sort, key);
    }
    InsertAt(t.nodes, kids, x, i);
  }

  /** A sorted list cannot hold a child before one with a smaller key. */
  lemma MissesSlot(t: Replica, after: seq<Id>, kids: seq<Id>, x: Id, i: nat)
    requires Sorted(t.nodes, after) && i < |kids| && x in t.nodes && kids[i] in t.nodes
    requires KeyBefore(t.nodes[kids[i]].sort, t.nodes[x].sort)
    ensures after != PutAt(kids, i, x)
  {
    hide KeyBefore;
    var missed := PutAt(kids, i, x);
    assert missed[i] == x && missed[i + 1] == kids[i];
  }

  // -- deleting ----------------------------------------------------------------------------------------------------

  /** A deletion takes one child out of its list, keeps all others in order, and touches no other node. */
  lemma DeleteTakesOut(r: Replica, x: Id)
    requires Shape(r) && x in r.nodes && x != ROOT
    ensures var t := Perform(r, Delete(x));
      && t.nodes.Keys == r.nodes.Keys && (forall y :: y in r.nodes && y != x ==> t.nodes[y] == r.nodes[y])
      && t.nodes[x] == r.nodes[x].(tomb := t.nodes[x].tomb) && t.nodes[x].tomb.Some?
      && forall p :: LiveChildren(t.nodes, t.order, p) == Drop(LiveChildren(r.nodes, r.order, p), x)
  {
    hide Shape, LiveChildren, Drop, Observe, KeyAfter;
    var t := Perform(r, Delete(x));
    OrderOf(r);
    forall p ensures LiveChildren(t.nodes, t.order, p) == Drop(LiveChildren(r.nodes, r.order, p), x) {
      forall y | y in r.order && y != x ensures SameKids(r.nodes, t.nodes, p, y) {
      }
      ChildrenDrop(r.nodes, t.nodes, r.order, p, x);
    }
  }

  // -- moving ------------------------------------------------------------------------------------------------------

  /** The children without the moved node, and where in them it should go; behind itself it stays where it is. */
  function Others(r: Replica, x: Id): seq<Id>
    requires x in r.nodes && r.nodes[x].parent.Some?
  {
    Drop(LiveChildren(r.nodes, r.order, r.nodes[x].parent.value), x)
  }

  function Target(kids: seq<Id>, x: Id, after: Option<Id>): nat {
    var i := Slot(kids, after);
    if IndexOf(kids, x) < i then i - 1 else i
  }

  /**
   There is room; or the moved node itself stands right behind the slot, and the key past its own is still
   short of the child behind that.
   */
  predicate Fits(r: Replica, x: Id, after: Option<Id>)
    requires x in r.nodes && r.nodes[x].parent.Some?
  {
    var p := r.nodes[x].parent.value;
    var kids := LiveChildren(r.nodes, r.order, p);
    var i := Slot(kids, after);
    || Gap(r, p, after)
    || (i < |kids| && kids[i] == x && (i + 1 < |kids| ==> GoesBefore(r, x, KeyAfter(r, p, after), kids[i + 1])))
  }

  /** The key, or on a tie the place in the table, puts `x` before `y`. */
  predicate GoesBefore(r: Replica, x: Id, key: SortKey, y: Id) {
    y in r.nodes && (KeyBefore(key, r.nodes[y].sort) || (key == r.nodes[y].sort && IndexOf(r.order, x) < IndexOf(r.order, y)))
  }

  lemma PlaceParts(r: Replica, x: Id, after: Option<Id>)
    requires Shape(r) && x in r.nodes && r.nodes[x].parent.Some?
    ensures var t := Perform(r, Place(x, after));
      && t.order == r.order
      && t.nodes == r.nodes[x := r.nodes[x].(sort := KeyAfter(r, r.nodes[x].parent.value, after), sortStamp := NextId(r))]
  {
    hide KeyAfter, Observe;
    assert NodeShape(r, x);
  }

  /** Behind the first `i` of the others and before the rest. */
  predicate Between(t: Replica, others: seq<Id>, i: nat, x: Id)
    requires i <= |others| && x in t.nodes
  {
    && (i > 0 ==> others[i - 1] in t.nodes && Ahead(t.nodes, t.order, others[i - 1], x))
    && (i < |others| ==> others[i] in t.nodes && Ahead(t.nodes, t.order, x, others[i]))
  }

  /** The list with the moved node put at the target, as the table then arranges it or not. */
  lemma PlacedIff(t: Replica, p: Id, x: Id, others: seq<Id>, i: nat)
    requires OrderOk(t.nodes, t.order) && Arranged(t.nodes, t.order, others) && i <= |others| && x in t.nodes && x !in others
    requires IsLiveChild(t.nodes, p, x) && forall y :: y in others <==> IsLiveChild(t.nodes, p, y) && y != x
    ensures LiveChildren(t.nodes, t.order, p) == PutAt(others, i, x) <==>
      Between(t, others, i, x)
  {
    hide Ahead, LiveChildren, IsLiveChild;
    var all := PutAt(others, i, x);
    forall y ensures y in all <==> IsLiveChild(t.nodes, p, y) {
      assert y in all <==> y in others[..i] || y == x || y in others[i..];
      assert others == others[..i] + others[i..];
    }
    if Between(t, others, i, x) {
      ArrangedWith(t.nodes, t.order, others, x, i);
      ChildrenAre(t.nodes, t.order, p, all);
    }
    if LiveChildren(t.nodes, t.order, p) == all {
      assert t.order[..|t.order|] == t.order;
      ChildrenArranged(t.nodes, t.order, |t.order|, p);
      assert i > 0 ==> all[i - 1] == others[i - 1] && all[i] == x;
      assert i < |others| ==> all[i] == x && all[i + 1] == others[i];
      assert i > 0 ==> others[i - 1] in all;
      assert i < |others| ==> others[i] in all;
    }
  }

  lemma ArrangedWith(nodes: map<Id, Record>, order: seq<Id>, others: seq<Id>, x: Id, i: nat)
    requires Arranged(nodes, order, others) && x in nodes && i <= |others|
    requires (i > 0 ==> others[i - 1] in nodes && Ahead(nodes, order, others[i - 1], x))
    requires (i < |others| ==> others[i] in nodes && Ahead(nodes, order, x, others[i]))
    ensures Arranged(nodes, order, PutAt(others, i, x))
  {
    hide Ahead;
    var all := PutAt(others, i, x);
    forall j | 0 <= j < |others| ensures others[j] in nodes && (j < i ==> Ahead(nodes, order, others[j], x)) && (j >= i ==> Ahead(nodes, order, x, others[j])) {
      assert others[j] in others;
      if j < i - 1 {
        AheadTrans(nodes, order, others[j], others[i - 1], x);
      } else if j > i {
        AheadTrans(nodes, order, x, others[i], others[j]);
      }
    }
    forall j, k | 0 <= j < k < |all| ensures all[j] in nodes && all[k] in nodes && Ahead(nodes, order, all[j], all[k]) {
      assert all[j] == (if j < i then others[j] else if j == i then x else others[j - 1]);
      assert all[k] == (if k < i then others[k] else if k == i then x else others[k - 1]);
    }
  }

  /** The children without `x`, by position. */
  lemma OthersAt(kids: seq<Id>, x: Id)
    requires x in kids && forall a, b :: 0 <= a < b < |kids| ==> kids[a] != kids[b]
    ensures var ix := IndexOf(kids, x);
      && ix < |kids| && Drop(kids, x) == kids[..ix] + kids[ix + 1..] && x !in Drop(kids, x)
      && (forall j :: 0 <= j < |kids| - 1 ==> Drop(kids, x)[j] == if j < ix then kids[j] else kids[j + 1])
  {
    hide IndexOf, Drop;
    var ix := IndexOf(kids, x);
    var a, b := kids[..ix], kids[ix + 1..];
    assert kids == a + [x] + b;
    DropAt(a, x, b);
    DropMembers(kids, x);
  }

  lemma OthersArranged(r: Replica, t: Replica, p: Id, x: Id)
    requires OrderOk(r.nodes, r.order) && t.order == r.order && (forall y :: y in r.nodes && y != x ==> y in t.nodes && t.nodes[y] == r.nodes[y])
    requires forall a, b :: 0 <= a < b < |r.order| ==> r.order[a] != r.order[b]
    requires IsLiveChild(r.nodes, p, x)
    ensures var kids := LiveChildren(r.nodes, r.order, p);
      && x in kids && (forall a, b :: 0 <= a < b < |kids| ==> kids[a] != kids[b]) && Sorted(r.nodes, kids)
      && Arranged(t.nodes, t.order, Drop(kids, x))
      && forall y :: y in Drop(kids, x) <==> IsLiveChild(r.nodes, p, y) && y != x
  {
    hide Ahead, LiveChildren, IsLiveChild, Drop;
    var kids := LiveChildren(r.nodes, r.order, p);
    ChildIsNode(r.nodes, p, x);
    ChildrenSorted(r.nodes, r.order, p);
    SortedOnce(r.nodes, kids);
    OthersAt(kids, x);
    DropMembers(kids, x);
    assert r.order[..|r.order|] == r.order;
    ChildrenArranged(r.nodes, r.order, |r.order|, p);
    StillArranged(r, t, kids, x);
    forall y | IsLiveChild(r.nodes, p, y) ensures y in kids {
      ChildIsNode(r.nodes, p, y);
    }
  }

  lemma StillArranged(r: Replica, t: Replica, kids: seq<Id>, x: Id)
    requires x in kids && (forall a, b :: 0 <= a < b < |kids| ==> kids[a] != kids[b]) && t.order == r.order
    requires Arranged(r.nodes, r.order, kids) && forall y :: y in r.nodes && y != x ==> y in t.nodes && t.nodes[y] == r.nodes[y]
    ensures Arranged(t.nodes, t.order, Drop(kids, x))
  {
    hide Ahead, Drop, IndexOf;
    OthersAt(kids, x);
    DropMembers(kids, x);
    var others, ix := Drop(kids, x), IndexOf(kids, x);
    forall a, b | 0 <= a < b < |others| ensures others[a] in t.nodes && others[b] in t.nodes && Ahead(t.nodes, t.order, others[a], others[b]) {
      var c, d := if a < ix then a else a + 1, if b < ix then b else b + 1;
      assert others[a] == kids[c] && others[b] == kids[d] && others[a] in others && others[b] in others;
      AheadSame(r, t, kids[c], kids[d]);
    }
  }

  lemma AheadSame(r: Replica, t: Replica, y: Id, z: Id)
    requires y in r.nodes && z in r.nodes && y in t.nodes && z in t.nodes && t.nodes[y] == r.nodes[y] && t.nodes[z] == r.nodes[z]
    requires t.order == r.order
    ensures Ahead(t.nodes, t.order, y, z) <==> Ahead(r.nodes, r.order, y, z)
  {
  }

  /** Whether the key fits between the others at the target is what `Fits` says. */
  lemma KeyFits(r: Replica, t: Replica, x: Id, after: Option<Id>)
    requires Shape(r) && x in r.nodes && r.nodes[x].parent.Some? && x in t.nodes && t.order == r.order
    requires forall y :: y in r.nodes && y != x ==> y in t.nodes && t.nodes[y] == r.nodes[y]
    requires t.nodes[x].sort == KeyAfter(r, r.nodes[x].parent.value, after)
    requires var kids := LiveChildren(r.nodes, r.order, r.nodes[x].parent.value);
      x in kids && Sorted(r.nodes, kids) && forall a, b :: 0 <= a < b < |kids| ==> kids[a] != kids[b]
    ensures var kids, others := LiveChildren(r.nodes, r.order, r.nodes[x].parent.value), Others(r, x);
      var i := Target(kids, x, after);
      && i <= |others| && (Fits(r, x, after) <==> Between(t, others, i, x))
  {
    hide Shape, LiveChildren, KeyBefore, KeyAfter, Gap, Slot, Drop, Sorted, GoesBefore, IndexOf, Between, Without, Keyed;
    var p := r.nodes[x].parent.value;
    var kids := LiveChildren(r.nodes, r.order, p);
    var i, ix := Slot(kids, after), IndexOf(kids, x);
    SlotKeyed(r, p, after);
    OthersAt(kids, x);
    OthersSame(r, t, kids, x);
    if ix == i {
      FitsBehind(r, t, kids, Others(r, x), x, i, Gap(r, p, after));
    } else if ix + 1 == i {
      FitsAnchor(r, t, kids, Others(r, x), x, i, Gap(r, p, after));
    } else {
      FitsApart(r, t, kids, Others(r, x), x, ix, i, Gap(r, p, after));
    }
  }

  /** The others are the children without the one at `ix`, all as before. */
  ghost predicate Without(r: Replica, t: Replica, kids: seq<Id>, others: seq<Id>, ix: nat) {
    && ix < |kids| == |others| + 1 && (forall y :: y in kids ==> y in r.nodes) && t.order == r.order
    && (forall j :: 0 <= j < ix ==> others[j] == kids[j]) && (forall j :: ix <= j < |others| ==> others[j] == kids[j + 1])
    && (forall j :: 0 <= j < |kids| && j != ix ==> kids[j] in t.nodes && t.nodes[kids[j]] == r.nodes[kids[j]])
  }

  /** Where the key is in its slot among all children. */
  ghost predicate Keyed(r: Replica, kids: seq<Id>, i: nat, key: SortKey, gap: bool) {
    && i <= |kids| && (forall y :: y in kids ==> y in r.nodes)
    && (gap ==> (i > 0 ==> KeyBefore(r.nodes[kids[i - 1]].sort, key)) && (i < |kids| ==> KeyBefore(key, r.nodes[kids[i]].sort)))
    && (!gap ==> i < |kids| && KeyBefore(r.nodes[kids[i]].sort, key))
  }

  lemma SlotKeyed(r: Replica, p: Id, after: Option<Id>)
    requires Shape(r)
    ensures var kids := LiveChildren(r.nodes, r.order, p); Keyed(r, kids, Slot(kids, after), KeyAfter(r, p, after), Gap(r, p, after))
  {
    hide Shape, LiveChildren, KeyBefore, KeyAfter, Gap, Slot;
    KeyInSlot(r, p, after);
  }

  lemma OthersSame(r: Replica, t: Replica, kids: seq<Id>, x: Id)
    requires x in kids && (forall a, b :: 0 <= a < b < |kids| ==> kids[a] != kids[b]) && t.order == r.order
    requires forall y :: y in kids ==> y in r.nodes
    requires forall y :: y in r.nodes && y != x ==> y in t.nodes && t.nodes[y] == r.nodes[y]
    ensures Without(r, t, kids, Drop(kids, x), IndexOf(kids, x))
  {
    hide Drop, IndexOf;
    OthersAt(kids, x);
    var ix := IndexOf(kids, x);
    forall j | 0 <= j < |kids| && j != ix ensures kids[j] in t.nodes && t.nodes[kids[j]] == r.nodes[kids[j]] {
      assert kids[j] in kids && kids[j] != x;
    }
  }

  lemma FitsApart(r: Replica, t: Replica, kids: seq<Id>, others: seq<Id>, x: Id, ix: nat, i: nat, gap: bool)
    requires Without(r, t, kids, others, ix) && x in t.nodes && Keyed(r, kids, i, t.nodes[x].sort, gap) && ix != i && ix + 1 != i
    ensures Between(t, others, if ix < i then i - 1 else i, x) <==> gap
  {
    hide KeyBefore, Ahead;
    var j := if ix < i then i - 1 else i;
    if i < |kids| {
      assert ix < i ==> others[i - 1] == kids[i];
      assert i < ix ==> others[i] == kids[i];
      AheadIs(t, kids[i], x);
    }
    if i > 0 {
      assert ix < i ==> others[i - 2] == kids[i - 1];
      assert i < ix ==> others[i - 1] == kids[i - 1];
      AheadIs(t, kids[i - 1], x);
    }
    assert j <= |others| && (j < |others| <==> i < |kids|) && (j > 0 <==> i > 0);
  }

  lemma FitsAnchor(r: Replica, t: Replica, kids: seq<Id>, others: seq<Id>, x: Id, i: nat, gap: bool)
    requires i > 0 && Without(r, t, kids, others, i - 1) && x in t.nodes && Keyed(r, kids, i, t.nodes[x].sort, gap) && Sorted(r.nodes, kids)
    ensures Between(t, others, i - 1, x) <==> gap
  {
    hide KeyBefore, Ahead, Sorted;
    if i < |kids| {
      AheadIs(t, kids[i], x);
    }
    NextTo(r, kids, i - 1, t.nodes[x].sort);
    if i > 1 {
      AheadIs(t, kids[i - 2], x);
    }
  }

  lemma FitsBehind(r: Replica, t: Replica, kids: seq<Id>, others: seq<Id>, x: Id, i: nat, gap: bool)
    requires Without(r, t, kids, others, i) && x in t.nodes && Keyed(r, kids, i, t.nodes[x].sort, gap) && Sorted(r.nodes, kids)
    ensures Between(t, others, i, x) <==> gap || (i + 1 < |kids| ==> GoesBefore(r, x, t.nodes[x].sort, kids[i + 1]))
  {
    hide KeyBefore, Ahead, Sorted, GoesBefore;
    NextTo(r, kids, i, t.nodes[x].sort);
    if i > 0 {
      AheadIs(t, kids[i - 1], x);
    }
    if i + 1 < |kids| {
      AheadIs(t, kids[i + 1], x);
      GoesIs(r, t, x, kids[i + 1]);
    }
  }

  lemma AheadIs(t: Replica, y: Id, x: Id)
    requires x in t.nodes && y in t.nodes
    ensures KeyBefore(t.nodes[y].sort, t.nodes[x].sort) ==> Ahead(t.nodes, t.order, y, x) && !Ahead(t.nodes, t.order, x, y)
    ensures KeyBefore(t.nodes[x].sort, t.nodes[y].sort) ==> Ahead(t.nodes, t.order, x, y) && !Ahead(t.nodes, t.order, y, x)
  {
    hide KeyBefore;
    KeyBeforeOne(t.nodes[y].sort, t.nodes[x].sort);
    KeyBeforeOne(t.nodes[x].sort, t.nodes[x].sort);
  }

  lemma GoesIs(r: Replica, t: Replica, x: Id, y: Id)
    requires y in r.nodes && y in t.nodes && x in t.nodes && t.nodes[y] == r.nodes[y] && t.order == r.order
    ensures GoesBefore(r, x, t.nodes[x].sort, y) <==> Ahead(t.nodes, t.order, x, y)
  {
  }

  /** A key on one side of a child is on the same side of the next one out. */
  lemma NextTo(r: Replica, kids: seq<Id>, ix: nat, key: SortKey)
    requires Sorted(r.nodes, kids) && ix < |kids| && forall y :: y in kids ==> y in r.nodes
    ensures ix > 0 && KeyBefore(r.nodes[kids[ix]].sort, key) ==> KeyBefore(r.nodes[kids[ix - 1]].sort, key)
    ensures ix + 1 < |kids| && KeyBefore(key, r.nodes[kids[ix]].sort) ==> KeyBefore(key, r.nodes[kids[ix + 1]].sort)
  {
    hide KeyBefore;
    if ix > 0 && KeyBefore(r.nodes[kids[ix]].sort, key) {
      KeyBeforeOne(r.nodes[kids[ix - 1]].sort, r.nodes[kids[ix]].sort);
      if KeyBefore(r.nodes[kids[ix - 1]].sort, r.nodes[kids[ix]].sort) {
        KeyBeforeTrans(r.nodes[kids[ix - 1]].sort, r.nodes[kids[ix]].sort, key);
      }
    }
    if ix + 1 < |kids| && KeyBefore(key, r.nodes[kids[ix]].sort) {
      BeforeThrough(key, r.nodes[kids[ix]].sort, r.nodes[kids[ix + 1]].sort);
    }
  }

  /**
   A moved node that is live takes the place behind its anchor among the others, first without one and last
   when the anchor is not listed, exactly when it fits; the others stay in order. One that is deleted moves
   nothing.
   */
  lemma PlaceLandsIff(r: Replica, x: Id, after: Option<Id>)
    requires Shape(r) && x in r.nodes && r.nodes[x].parent.Some?
    ensures var (t, p) := (Perform(r, Place(x, after)), r.nodes[x].parent.value);
      var kids := LiveChildren(r.nodes, r.order, p);
      && t.nodes.Keys == r.nodes.Keys && (forall y :: y in r.nodes && y != x ==> t.nodes[y] == r.nodes[y])
      && t.nodes[x] == r.nodes[x].(sort := t.nodes[x].sort, sortStamp := NextId(r))
      && (forall q :: q != p || r.nodes[x].tomb.Some? ==> LiveChildren(t.nodes, t.order, q) == LiveChildren(r.nodes, r.order, q))
      && (r.nodes[x].tomb.None? ==>
            && Target(kids, x, after) <= |Others(r, x)|
            && (LiveChildren(t.nodes, t.order, p) == PutAt(Others(r, x), Target(kids, x, after), x) <==> Fits(r, x, after)))
  {
    hide Shape, LiveChildren, KeyBefore, KeyAfter, Gap, Slot, Drop, Sorted, Perform, Target, Fits, Arranged, Ahead, OrderOk;
    var (t, p) := (Perform(r, Place(x, after)), r.nodes[x].parent.value);
    PlaceParts(r, x, after);
    OrderOf(r);
    forall q | q != p || r.nodes[x].tomb.Some? ensures LiveChildren(t.nodes, t.order, q) == LiveChildren(r.nodes, r.order, q) {
      ChildrenSame(t.nodes, r.nodes, r.order, q);
    }
    if r.nodes[x].tomb.None? {
      OthersArranged(r, t, p, x);
      KeyFits(r, t, x, after);
      SameOrderOk(r, t);
      var kids, others := LiveChildren(r.nodes, r.order, p), Others(r, x);
      assert x !in others;
      forall y ensures y in others <==> IsLiveChild(t.nodes, p, y) && y != x {
      }
      PlacedIff(t, p, x, others, Target(kids, x, after));
    }
  }

  lemma SameOrderOk(r: Replica, t: Replica)
    requires OrderOk(r.nodes, r.order) && t.order == r.order && t.nodes.Keys == r.nodes.Keys
    ensures OrderOk(t.nodes, t.order)
  {
    assert forall y :: y in t.nodes <==> y in t.nodes.Keys;
    assert forall y :: y in r.nodes <==> y in r.nodes.Keys;
  }

  // -- in every session, and in every system of careful peers ------------------------------------------------------

  /** After any session of local changes and received updates, created and moved nodes land where they should exactly when there is room. */
  lemma EditsLand(peer: Peer, changes: seq<Change>, e: Edit)
    requires SoundChanges(changes)
    ensures var r := Session(peer, changes);
      match e
      case Create(parent, after, seed) =>
        if parent in r.nodes then
          var t, kids := Perform(r, e), LiveChildren(r.nodes, r.order, parent);
          && Adds(r, t, NextId(r), parent, seed)
          && (LiveChildren(t.nodes, t.order, parent) == PutAt(kids, Slot(kids, after), NextId(r)) <==> Gap(r, parent, after))
        else Perform(r, e) == r
      case Delete(x) =>
        if x in r.nodes && x != ROOT then
          var t := Perform(r, e);
          forall p :: LiveChildren(t.nodes, t.order, p) == Drop(LiveChildren(r.nodes, r.order, p), x)
        else Perform(r, e) == r
      case Place(x, after) =>
        if x in r.nodes && r.nodes[x].parent.Some? then
          var (t, p) := (Perform(r, e), r.nodes[x].parent.value);
          var kids := LiveChildren(r.nodes, r.order, p);
          r.nodes[x].tomb.None? ==>
            && Target(kids, x, after) <= |Others(r, x)|
            && (LiveChildren(t.nodes, t.order, p) == PutAt(Others(r, x), Target(kids, x, after), x) <==> Fits(r, x, after))
        else Perform(r, e) == r
  {
    hide Shape, LiveChildren, Gap, Slot, Drop, Target, Fits, Session, Commit, KeyAfter;
    SessionSteady(peer, changes);
    var r := Session(peer, changes);
    match e
    case Create(parent, after, seed) =>
      if parent in r.nodes {
        CreateLandsIff(r, parent, after, seed);
      }
    case Delete(x) =>
      if x in r.nodes && x != ROOT {
        DeleteTakesOut(r, x);
      }
    case Place(x, after) =>
      if x in r.nodes && r.nodes[x].parent.Some? {
        PlaceLandsIff(r, x, after);
      }
  }

  lemma TidyShape(s: System, p: Peer)
    requires Tidy(s) && p in s
    ensures Shape(s[p]) && s[p].peer == p
  {
    hide Causal, AllApart, AllRooted, NoneParked, Describes, OrderOk, FrontierOk, Everything, GoodFrac;
    var D, r := Everything(s), s[p];
    ValidIn(s, p);
    assert Exists(Held(r.log), ROOT) && OrderOk(r.nodes, r.order);
    RootRecord(r, D);
    forall x | x in r.nodes ensures NodeShape(r, x) {
      RecordShape(r, D, x);
    }
  }

  lemma RootRecord(r: Replica, D: set<Op>)
    requires WellFormed(D) && Valid(r, D)
    ensures ROOT in r.nodes && r.nodes[ROOT].parent.None? && r.nodes[ROOT].body.Element?
  {
    hide OrderOk, FrontierOk, SortOk, TombOk;
    assert Exists(Held(r.log), ROOT);
  }

  lemma RecordShape(r: Replica, D: set<Op>, x: Id)
    requires WellFormed(D) && Closed(D) && Valid(r, D) && KeysOk(D) && x in r.nodes
    ensures NodeShape(r, x)
  {
    hide OrderOk, FrontierOk, TombOk;
    var S, rec := Held(r.log), r.nodes[x];
    assert RecordOk(S, x, rec);
    if x != ROOT {
      var c :| c in S && Makes(c, x) && rec.parent == Some(c.kind.parent);
      assert c in D && c.id == x && MadeBefore(D, Needs(c), c.id.counter);
    }
    if !(x == ROOT && rec.sort == ROOT_RECORD.sort && rec.sortStamp == ROOT) {
      var d :| d in S && Places(d, x) && rec.sort == KeyOf(d) && rec.sortStamp == d.id;
      assert d in D;
    }
  }

  lemma TidyKids(s: System, p: Peer, parent: Id)
    requires Tidy(s) && p in s
    ensures GoodKids(s[p].nodes, parent)
  {
    hide Causal, AllApart, AllRooted, NoneParked, Describes, OrderOk, FrontierOk, Everything, KeysOk;
    ValidIn(s, p);
    TableKeys(s[p], Everything(s), parent);
  }

  /** In every careful run a node created with room takes the place behind its anchor, and one created without room does not. */
  lemma CarefulLanding(steps: seq<Step>, p: Peer, parent: Id, after: Option<Id>, seed: Body)
    requires CarefulRun(steps)
    ensures match Reach(steps)
      case None => false
      case Some(s) =>
        p in s && parent in s[p].nodes ==>
          var r, t := s[p], Perform(s[p], Create(parent, after, seed));
          var kids := LiveChildren(r.nodes, r.order, parent);
          && Adds(r, t, NextId(r), parent, seed)
          && (LiveChildren(t.nodes, t.order, parent) == PutAt(kids, Slot(kids, after), NextId(r)) <==> Room(r, parent, after))
  {
    hide CarefulRun, Tidy, Reach, Shape, LiveChildren, Gap, Room, Slot, Perform, Adds, GoodKids;
    CarefulTidy(steps);
    var s := Reach(steps).value;
    if p in s && parent in s[p].nodes {
      TidyShape(s, p);
      TidyKids(s, p, parent);
      GapIsRoom(s[p], parent, after);
      CreateLandsIff(s[p], parent, after, seed);
    }
  }

  // -- which merges and splits are taken, and what they leave --------------------------------------------------------

  /** Two leaves, the second listed directly behind the first. */
  ghost predicate Adjacent(r: Replica, left: Id, right: Id) {
    && left in r.nodes && right in r.nodes && r.nodes[left].body.Leaf? && r.nodes[right].body.Leaf?
    && exists p, i :: 0 <= i < |LiveChildren(r.nodes, r.order, p)| - 1
         && LiveChildren(r.nodes, r.order, p)[i] == left && LiveChildren(r.nodes, r.order, p)[i + 1] == right
  }

  /** A merge is taken exactly for adjacent leaves; the left one then has both texts, and only the right one leaves its list. */
  lemma MergeDoes(r: Replica, left: Id, right: Id)
    requires Shape(r)
    ensures MintMerge(r, left, right).Some? <==> Adjacent(r, left, right)
    ensures MintMerge(r, left, right).Some? ==>
      var t := CommitLocal(r, MintMerge(r, left, right).value);
      && left in r.nodes && right in r.nodes && left in t.nodes && r.nodes[left].body.Leaf? && r.nodes[right].body.Leaf?
      && t.nodes[left].body == Leaf(r.nodes[left].body.leafKind, r.nodes[left].body.text + r.nodes[right].body.text)
      && (forall y :: y in r.nodes && y != left && y != right ==> y in t.nodes && t.nodes[y] == r.nodes[y])
      && forall p :: LiveChildren(t.nodes, t.order, p) == Drop(LiveChildren(r.nodes, r.order, p), right)
  {
    hide LiveChildren, Drop, CommitLocal, Shape;
    if MintMerge(r, left, right).Some? {
      MergeTaken(r, left, right);
    } else if Adjacent(r, left, right) {
      var p, i :| 0 <= i < |LiveChildren(r.nodes, r.order, p)| - 1
        && LiveChildren(r.nodes, r.order, p)[i] == left && LiveChildren(r.nodes, r.order, p)[i + 1] == right;
      ListedAt(r, p, i);
    }
  }

  lemma ListedAt(r: Replica, p: Id, i: nat)
    requires Shape(r) && i < |LiveChildren(r.nodes, r.order, p)|
    ensures var kids := LiveChildren(r.nodes, r.order, p); IsLiveChild(r.nodes, p, kids[i]) && IndexOf(kids, kids[i]) == i
  {
    hide LiveChildren, Shape, OrderOk, Sorted;
    var kids := LiveChildren(r.nodes, r.order, p);
    assert kids[i] in kids;
    OrderOf(r);
    ChildrenSorted(r.nodes, r.order, p);
    SortedOnce(r.nodes, kids);
    IndexIs(kids, i);
  }

  lemma MergeTaken(r: Replica, left: Id, right: Id)
    requires Shape(r) && MintMerge(r, left, right).Some?
    ensures Adjacent(r, left, right)
    ensures var t := CommitLocal(r, MintMerge(r, left, right).value);
      && left in t.nodes && t.nodes[left].body == Leaf(r.nodes[left].body.leafKind, r.nodes[left].body.text + r.nodes[right].body.text)
      && (forall y :: y in r.nodes && y != left && y != right ==> y in t.nodes && t.nodes[y] == r.nodes[y])
      && forall p :: LiveChildren(t.nodes, t.order, p) == Drop(LiveChildren(r.nodes, r.order, p), right)
  {
    hide LiveChildren, Drop, CommitLocal, Sorted, MintMerge, Shape, OrderOk, Adjacent;
    OrderOf(r);
    MergeAdjacent(r, left, right);
    MintMergeParts(r, left, right);
    MergeParts(r, left, right);
    var t := CommitLocal(r, MintMerge(r, left, right).value);
    forall p ensures LiveChildren(t.nodes, t.order, p) == Drop(LiveChildren(r.nodes, r.order, p), right) {
      MergeChildren(r, t, left, right, p);
    }
  }

  lemma MergeAdjacent(r: Replica, left: Id, right: Id)
    requires OrderOk(r.nodes, r.order) && MintMerge(r, left, right).Some?
    ensures Adjacent(r, left, right)
  {
    hide LiveChildren, Sorted, MintMerge, OrderOk;
    MintMergeParts(r, left, right);
    var p := r.nodes[left].parent.value;
    var i := IndexOf(LiveChildren(r.nodes, r.order, p), left);
    assert LiveChildren(r.nodes, r.order, p)[i] == left && LiveChildren(r.nodes, r.order, p)[i + 1] == right;
  }

  lemma MergeChildren(r: Replica, t: Replica, left: Id, right: Id, p: Id)
    requires forall i, j :: 0 <= i < j < |r.order| ==> r.order[i] != r.order[j]
    requires t.order == r.order && left in r.nodes && right in r.nodes && left in t.nodes && right in t.nodes && left != right
    requires t.nodes[left] == r.nodes[left].(body := t.nodes[left].body, textHead := t.nodes[left].textHead) && t.nodes[right].tomb.Some?
    requires t.nodes.Keys == r.nodes.Keys && forall y :: y in r.nodes && y != left && y != right ==> t.nodes[y] == r.nodes[y]
    ensures LiveChildren(t.nodes, t.order, p) == Drop(LiveChildren(r.nodes, r.order, p), right)
  {
    hide LiveChildren, Drop;
    forall y | y in r.order && y != right ensures SameKids(r.nodes, t.nodes, p, y) {
      assert y in r.nodes <==> y in t.nodes by {
        assert y in r.nodes.Keys <==> y in t.nodes.Keys;
      }
    }
    ChildrenDrop(r.nodes, t.nodes, r.order, p, right);
  }

  /** A split is taken exactly for a leaf and an offset within its text; leaf and tail then have the two parts. */
  lemma SplitDoes(r: Replica, node: Id, atChar: nat)
    requires Shape(r)
    ensures MintSplit(r, node, atChar).Some? <==>
      node in r.nodes && r.nodes[node].body.Leaf? && r.nodes[node].parent.Some? && atChar <= |r.nodes[node].body.text|
    ensures MintSplit(r, node, atChar).Some? ==>
      var t, tail, leaf := CommitLocal(r, MintSplit(r, node, atChar).value), NextId(r), r.nodes[node];
      && t.nodes.Keys == r.nodes.Keys + {tail} && tail !in r.nodes && (forall y :: y in r.nodes && y != node ==> t.nodes[y] == r.nodes[y])
      && t.nodes[node].body == Leaf(leaf.body.leafKind, leaf.body.text[..atChar])
      && t.nodes[tail].body == Leaf(leaf.body.leafKind, leaf.body.text[atChar..])
      && t.nodes[tail].parent == leaf.parent && t.nodes[tail].tomb.None? && t.nodes[node].tomb == leaf.tomb
  {
    hide KeyAfter, CommitLocal, Shape;
    NextIsFresh(r);
    if MintSplit(r, node, atChar).Some? {
      SplitParts(r, node, atChar);
    }
  }
}
