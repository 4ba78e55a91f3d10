/** Splitting and merging leaves never change the rendered text, as long as neighbours have distinct keys. */
module TreeEdits {
  import opened TreeModel
  import opened TreeRender
  import opened TreeSystem

  // -- a finer and a coarser table ----------------------------------------------------------------

  /** `xs` with `tail` right behind `node`. */
  function Expand(xs: seq<Id>, node: Id, tail: Id): seq<Id> {
    if xs == [] then []
    else (if xs[0] == node then [node, tail] else [xs[0]]) + Expand(xs[1..], node, tail)
  }

  /** `f` shows what `c` shows, with the text of `node` divided between `node` and `tail`. */
  ghost predicate Divided(c: Replica, f: Replica, node: Id, tail: Id) {
    && DividedText(c.nodes, f.nodes, node, tail)
    && (forall p :: p !in {node, tail} ==>
          LiveChildren(f.nodes, f.order, p) == Expand(LiveChildren(c.nodes, c.order, p), node, tail))
    && (forall p :: tail !in LiveChildren(c.nodes, c.order, p))
  }

  ghost predicate DividedText(c: map<Id, Record>, f: map<Id, Record>, node: Id, tail: Id) {
    && node in c && node in f && tail in f && node != tail && node != ROOT && tail != ROOT
    && c[node].body.Leaf? && f[node].body.Leaf? && f[tail].body.Leaf?
    && c[node].body.text == f[node].body.text + f[tail].body.text
    && (forall x :: x != node && x != tail ==> (x in c <==> x in f) && (x in c ==> c[x].body == f[x].body))
  }

  /** Every listed child is newer than its parent and within the limit. */
  ghost predicate Visited(r: Replica, limit: nat) {
    forall p, x {:trigger x in LiveChildren(r.nodes, r.order, p)} ::
      x in LiveChildren(r.nodes, r.order, p) ==> p.counter < x.counter <= limit
  }

  ghost predicate AllVisited(xs: seq<Id>, above: nat, limit: nat) { forall x :: x in xs ==> above < x.counter <= limit }

  lemma {:induction false} RenderDividedFrom(c: Replica, f: Replica, node: Id, tail: Id, x: Id, lc: nat, lf: nat)
    requires Divided(c, f, node, tail) && Visited(c, lc) && Visited(f, lf) && x != node && x != tail
    ensures RenderFrom(c.nodes, c.order, x, lc) == RenderFrom(f.nodes, f.order, x, lf)
    decreases lc - x.counter, 1, 0
  {
    hide LiveChildren, Expand;
    if x in c.nodes && c.nodes[x].body.Element? {
      var xs := LiveChildren(c.nodes, c.order, x);
      ExpandMembers(xs, node, tail);
      RenderDividedAll(c, f, node, tail, xs, x.counter, lc, lf);
    }
  }

  lemma {:induction false} RenderDividedAll(c: Replica, f: Replica, node: Id, tail: Id, xs: seq<Id>, above: nat, lc: nat, lf: nat)
    requires Divided(c, f, node, tail) && Visited(c, lc) && Visited(f, lf) && tail !in xs
    requires AllVisited(xs, above, lc) && AllVisited(Expand(xs, node, tail), above, lf)
    ensures RenderAll(c.nodes, c.order, xs, above, lc) == RenderAll(f.nodes, f.order, Expand(xs, node, tail), above, lf)
    decreases lc - above, 0, |xs|
  {
    hide LiveChildren, Divided, Visited;
    if xs != [] {
      var x, rest := xs[0], xs[1..];
      RestVisited(xs, node, tail, above, lc, lf);
      RenderCons(c, x, rest, above, lc);
      assert xs == [x] + rest;
      RenderDividedAll(c, f, node, tail, rest, above, lc, lf);
      RenderExpanded(c, f, node, tail, x, rest, above, lc, lf);
    }
  }

  /** The first child and its images show the same text. */
  lemma {:induction false} RenderExpanded(c: Replica, f: Replica, node: Id, tail: Id, x: Id, rest: seq<Id>, above: nat, lc: nat, lf: nat)
    requires Divided(c, f, node, tail) && Visited(c, lc) && Visited(f, lf) && tail != x
    requires AllVisited([x] + rest, above, lc) && AllVisited(Expand([x] + rest, node, tail), above, lf)
    ensures RenderAll(f.nodes, f.order, Expand([x] + rest, node, tail), above, lf)
      == RenderFrom(c.nodes, c.order, x, lc) + RenderAll(f.nodes, f.order, Expand(rest, node, tail), above, lf)
    decreases lc - above, 0, 0
  {
    hide LiveChildren, Divided, Visited, RenderAll;
    var xs, more := [x] + rest, Expand(rest, node, tail);
    assert xs[0] == x && xs[1..] == rest && x in xs;
    if x == node {
      assert Expand(xs, node, tail) == [node] + ([tail] + more);
      NodeText(c, f, node, tail, lc, lf);
      RenderCons(f, node, [tail] + more, above, lf);
      RenderCons(f, tail, more, above, lf);
    } else {
      assert Expand(xs, node, tail) == [x] + more;
      RenderDividedFrom(c, f, node, tail, x, lc, lf);
      RenderCons(f, x, more, above, lf);
    }
  }

  lemma RestVisited(xs: seq<Id>, node: Id, tail: Id, above: nat, lc: nat, lf: nat)
    requires xs != [] && AllVisited(xs, above, lc) && AllVisited(Expand(xs, node, tail), above, lf)
    ensures AllVisited(xs[1..], above, lc) && AllVisited(Expand(xs[1..], node, tail), above, lf)
    ensures above < xs[0].counter <= lc && xs[0] in xs
  {
    assert forall y :: y in xs[1..] ==> y in xs;
    assert forall y :: y in Expand(xs[1..], node, tail) ==> y in Expand(xs, node, tail);
  }

  lemma NodeText(c: Replica, f: Replica, node: Id, tail: Id, lc: nat, lf: nat)
    requires Divided(c, f, node, tail)
    ensures RenderFrom(c.nodes, c.order, node, lc)
      == RenderFrom(f.nodes, f.order, node, lf) + RenderFrom(f.nodes, f.order, tail, lf)
  {
    hide LiveChildren;
  }

  lemma RenderCons(r: Replica, x: Id, rest: seq<Id>, above: nat, limit: nat)
    requires AllVisited([x] + rest, above, limit)
    ensures RenderAll(r.nodes, r.order, [x] + rest, above, limit)
      == RenderFrom(r.nodes, r.order, x, limit) + RenderAll(r.nodes, r.order, rest, above, limit)
    ensures AllVisited(rest, above, limit)
  {
    var xs := [x] + rest;
    assert xs[0] == x && xs[1..] == rest && x in xs;
  }

  lemma {:induction false} ExpandMembers(xs: seq<Id>, node: Id, tail: Id)
    ensures forall y :: y in Expand(xs, node, tail) <==> y in xs || (y == tail && node in xs)
  {
    if xs != [] {
      ExpandMembers(xs[1..], node, tail);
    }
  }

  /** A finer table renders the same. */
  lemma RenderDivided(c: Replica, f: Replica, node: Id, tail: Id)
    requires Divided(c, f, node, tail) && Visited(c, TopCounter(c.order)) && Visited(f, TopCounter(f.order))
    ensures Render(c) == Render(f)
  {
    hide LiveChildren;
    RenderDividedFrom(c, f, node, tail, ROOT, TopCounter(c.order), TopCounter(f.order));
  }

  // -- the children list in key order -----------------------------------------------------------------

  /** In key order, ties allowed. */
  ghost predicate Sorted(nodes: map<Id, Record>, s: seq<Id>) {
    && (forall x :: x in s ==> x in nodes)
    && (forall i, j :: 0 <= i < j < |s| ==> s[i] != s[j])
    && (forall i, j :: 0 <= i < j < |s| ==> !KeyBefore(nodes[s[j]].sort, nodes[s[i]].sort))
  }

  lemma NotBeforeTrans(a: SortKey, b: SortKey, c: SortKey)
    requires !KeyBefore(b, a) && !KeyBefore(c, b)
    ensures !KeyBefore(c, a)
  {
    KeyBeforeOne(a, b);
    KeyBeforeOne(b, c);
    if KeyBefore(a, b) && KeyBefore(b, c) {
      KeyBeforeTrans(a, b, c);
    }
    KeyBeforeOne(a, c);
  }

  /** Where the stable insertion puts `x`: behind the first `i`. */
  lemma {:induction false} InsertAt(nodes: map<Id, Record>, s: seq<Id>, x: Id, i: nat)
    requires x in nodes && (forall y :: y in s ==> y in nodes) && i <= |s|
    requires forall j :: i <= j < |s| ==> KeyBefore(nodes[x].sort, nodes[s[j]].sort)
    requires i > 0 ==> !KeyBefore(nodes[x].sort, nodes[s[i - 1]].sort)
    ensures InsertSorted(nodes, s, x) == s[..i] + [x] + s[i..]
    decreases |s|
  {
    hide KeyBefore;
    if i < |s| {
      var n := |s| - 1;
      InsertAt(nodes, s[..n], x, i);
      assert s[..n][..i] == s[..i] && s[i..] == s[..n][i..] + [s[n]];
    } else {
      assert s[..i] == s && s[i..] == [];
    }
  }

  /** How many of `s` the insertion of `x` passes by. */
  lemma {:induction false} Landing(nodes: map<Id, Record>, s: seq<Id>, x: Id) returns (i: nat)
    requires x in nodes && Sorted(nodes, s)
    ensures i <= |s| && InsertSorted(nodes, s, x) == s[..i] + [x] + s[i..]
    ensures forall j :: i <= j < |s| ==> KeyBefore(nodes[x].sort, nodes[s[j]].sort)
    ensures forall j :: 0 <= j < i ==> !KeyBefore(nodes[x].sort, nodes[s[j]].sort)
  {
    hide KeyBefore;
    i := |s|;
    while i > 0 && KeyBefore(nodes[x].sort, nodes[s[i - 1]].sort)
      invariant i <= |s| && forall j :: i <= j < |s| ==> KeyBefore(nodes[x].sort, nodes[s[j]].sort)
    {
      i := i - 1;
    }
    InsertAt(nodes, s, x, i);
    forall j | 0 <= j < i ensures !KeyBefore(nodes[x].sort, nodes[s[j]].sort) {
      if j < i - 1 {
        NotBeforeTrans(nodes[s[j]].sort, nodes[s[i - 1]].sort, nodes[x].sort);
      }
    }
  }

  lemma InsertKeepsSorted(nodes: map<Id, Record>, s: seq<Id>, x: Id)
    requires x in nodes && x !in s && Sorted(nodes, s)
    ensures Sorted(nodes, InsertSorted(nodes, s, x))
  {
    hide KeyBefore;
    var i := Landing(nodes, s, x);
    var t := s[..i] + [x] + s[i..];
    InsertedMembers(nodes, s, x);
    forall a, b | 0 <= a < b < |t| ensures t[a] != t[b] && !KeyBefore(nodes[t[b]].sort, nodes[t[a]].sort) {
      if a == i {
        KeyBeforeOne(nodes[x].sort, nodes[t[b]].sort);
      }
    }
  }

  lemma {:induction false} ChildrenSorted(nodes: map<Id, Record>, order: seq<Id>, p: Id)
    requires forall i, j :: 0 <= i < j < |order| ==> order[i] != order[j]
    ensures Sorted(nodes, LiveChildren(nodes, order, p))
    decreases |order|
  {
    hide KeyBefore, Sorted, IsLiveChild;
    EmptySorted(nodes);
    if order != [] {
      var n := |order| - 1;
      ChildrenSorted(nodes, order[..n], p);
      if IsLiveChild(nodes, p, order[n]) {
        ChildIsNode(nodes, p, order[n]);
        var r := LiveChildren(nodes, order[..n], p);
        forall y | y in r ensures y in nodes {
          ChildIsNode(nodes, p, y);
        }
        assert order[n] !in order[..n];
        InsertKeepsSorted(nodes, r, order[n]);
      }
    }
  }

  lemma EmptySorted(nodes: map<Id, Record>)
    ensures Sorted(nodes, [])
  {
  }

  /** The children list only looks at parents, tombs and sort keys. */
  ghost predicate SameKids(m: map<Id, Record>, n: map<Id, Record>, p: Id, x: Id) {
    (IsLiveChild(m, p, x) <==> IsLiveChild(n, p, x)) && (IsLiveChild(m, p, x) ==> m[x].sort == n[x].sort)
  }

  lemma {:induction false} InsertSame(m: map<Id, Record>, n: map<Id, Record>, s: seq<Id>, x: Id)
    requires x in m && x in n && m[x].sort == n[x].sort
    requires forall y :: y in s ==> y in m && y in n && m[y].sort == n[y].sort
    ensures InsertSorted(m, s, x) == InsertSorted(n, s, x)
    decreases |s|
  {
    if s != [] {
      assert s[|s| - 1] in s;
      InsertSame(m, n, s[..|s| - 1], x);
    }
  }

  lemma {:induction false} ChildrenSame(m: map<Id, Record>, n: map<Id, Record>, order: seq<Id>, p: Id)
    requires forall x :: x in order ==> SameKids(m, n, p, x)
    ensures LiveChildren(m, order, p) == LiveChildren(n, order, p)
    decreases |order|
  {
    if order != [] {
      var k := |order| - 1;
      ChildrenSame(m, n, order[..k], p);
      var x := order[k];
      assert SameKids(m, n, p, x);
      if IsLiveChild(m, p, x) {
        var r := LiveChildren(m, order[..k], p);
        forall y | y in r ensures y in m && y in n && m[y].sort == n[y].sort {
          assert SameKids(m, n, p, y);
        }
        InsertSame(m, n, r, x);
      }
    }
  }

  lemma {:induction false} ExpandAt(xs: seq<Id>, node: Id, tail: Id, i: nat)
    requires i < |xs| && xs[i] == node && forall j :: 0 <= j < |xs| && j != i ==> xs[j] != node
    ensures Expand(xs, node, tail) == xs[..i + 1] + [tail] + xs[i + 1..]
  {
    if i == 0 {
      ExpandNone(xs[1..], node, tail);
    } else {
      ExpandAt(xs[1..], node, tail, i - 1);
      assert xs[..i + 1] == [xs[0]] + xs[1..][..i];
    }
  }

  lemma {:induction false} ExpandNone(xs: seq<Id>, node: Id, tail: Id)
    requires forall j :: 0 <= j < |xs| ==> xs[j] != node
    ensures Expand(xs, node, tail) == xs
  {
    if xs != [] {
      ExpandNone(xs[1..], node, tail);
    }
  }
}
