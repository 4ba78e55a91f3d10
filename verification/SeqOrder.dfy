/** The order in which a sequence shows its elements: when merged replicas agree on it, and where an edit puts an element. */
module SeqOrder {
  import opened Basics
  import opened Clock
  import ByteOrder
  import FracKeys
  import opened SeqModel
  import opened SeqProofs
  import opened SeqEdits

  // -- the order ---------------------------------------------------------------------------------------------

  predicate SpotBefore(a: Spot, b: Spot) { ByteOrder.Less(a.frac, b.frac) || (a.frac == b.frac && a.peer < b.peer) }

  predicate Live(m: map<Id, Entry>, x: Id) { x in m && !m[x].deleted.value }

  function SpotOf(m: map<Id, Entry>, x: Id): Spot
    requires x in m
  {
    m[x].position.value
  }

  /** Behind every element that is not after it: sorting is stable. */
  function PlaceIn(m: map<Id, Entry>, sorted: seq<Id>, x: Id): (r: seq<Id>)
    requires x in m && forall y :: y in sorted ==> y in m
    ensures multiset(r) == multiset(sorted) + multiset{x}
  {
    if sorted == [] then [x]
    else
      assert sorted == [sorted[0]] + sorted[1..];
      if SpotBefore(SpotOf(m, x), SpotOf(m, sorted[0])) then [x] + sorted else [sorted[0]] + PlaceIn(m, sorted[1..], x)
  }

  /** The live elements among `keys`, sorted by position. */
  function Ordered(m: map<Id, Entry>, keys: seq<Id>): (r: seq<Id>)
    ensures forall y :: y in r ==> Live(m, y)
  {
    if keys == [] then []
    else
      var (rest, x) := (Ordered(m, keys[..|keys| - 1]), keys[|keys| - 1]);
      if Live(m, x) then
        var r := PlaceIn(m, rest, x);
        assert forall y :: y in r ==> y in multiset(r);
        r
      else rest
  }

  function Order(r: Replica): seq<Id> { Ordered(r.entries, r.keys) }

  // -- what it lists -------------------------------------------------------------------------------------------

  ghost predicate Once(keys: seq<Id>) { forall i, j :: 0 <= i < j < |keys| ==> keys[i] != keys[j] }

  /** `keys` lists the elements of `m`, each once. */
  ghost predicate Lists(m: map<Id, Entry>, keys: seq<Id>) { Once(keys) && forall x :: x in keys <==> x in m }

  ghost predicate Sorted(m: map<Id, Entry>, s: seq<Id>) {
    (forall x :: x in s ==> x in m) && forall i, j :: 0 <= i < j < |s| ==> s[i] in m && s[j] in m && !SpotBefore(SpotOf(m, s[j]), SpotOf(m, s[i]))
  }

  lemma SpotTotal(a: Spot, b: Spot, c: Spot)
    ensures SpotBefore(a, b) || a == b || SpotBefore(b, a)
    ensures !SpotBefore(a, a) && !(SpotBefore(a, b) && SpotBefore(b, a))
    ensures SpotBefore(a, b) && !SpotBefore(c, b) ==> SpotBefore(a, c)
    ensures !SpotBefore(b, a) && !SpotBefore(c, b) ==> !SpotBefore(c, a)
  {
    hide ByteOrder.Less;
    ByteOrder.LessTotal(a.frac, b.frac);
    ByteOrder.LessTotal(b.frac, c.frac);
    ByteOrder.NotLessSelf(a.frac);
    ByteOrder.NotLessSelf(b.frac);
    if ByteOrder.Less(a.frac, b.frac) && ByteOrder.Less(b.frac, a.frac) {
      ByteOrder.LessTrans(a.frac, b.frac, a.frac);
    }
    if ByteOrder.Less(a.frac, b.frac) && ByteOrder.Less(b.frac, c.frac) {
      ByteOrder.LessTrans(a.frac, b.frac, c.frac);
    }
    if ByteOrder.Less(c.frac, a.frac) {
      if ByteOrder.Less(a.frac, b.frac) {
        ByteOrder.LessTrans(c.frac, a.frac, b.frac);
      }
      if ByteOrder.Less(b.frac, c.frac) {
        ByteOrder.LessTrans(b.frac, c.frac, a.frac);
      }
    }
  }

  lemma ConsSorted(m: map<Id, Entry>, x: Id, s: seq<Id>)
    requires x in m && Sorted(m, s) && forall y :: y in s ==> !SpotBefore(SpotOf(m, y), SpotOf(m, x))
    ensures Sorted(m, [x] + s)
  {
    hide SpotBefore;
    var r := [x] + s;
    forall i, j | 0 <= i < j < |r| ensures r[i] in m && r[j] in m && !SpotBefore(SpotOf(m, r[j]), SpotOf(m, r[i])) {
      assert r[j] == s[j - 1] && s[j - 1] in s;
      assert i > 0 ==> r[i] == s[i - 1];
    }
  }

  lemma TailSorted(m: map<Id, Entry>, s: seq<Id>)
    requires Sorted(m, s) && s != []
    ensures Sorted(m, s[1..]) && s[0] in m && forall y :: y in s[1..] ==> y in m && !SpotBefore(SpotOf(m, y), SpotOf(m, s[0]))
  {
  }

  lemma {:induction false} PlaceSorted(m: map<Id, Entry>, s: seq<Id>, x: Id)
    requires x in m && Sorted(m, s)
    ensures Sorted(m, PlaceIn(m, s, x))
  {
    hide SpotBefore, Sorted;
    SortedIn(m, s);
    if s != [] {
      TailSorted(m, s);
      if SpotBefore(SpotOf(m, x), SpotOf(m, s[0])) {
        forall y | y in s ensures !SpotBefore(SpotOf(m, y), SpotOf(m, x)) {
          SpotTotal(SpotOf(m, x), SpotOf(m, s[0]), SpotOf(m, y));
          SpotTotal(SpotOf(m, x), SpotOf(m, s[0]), SpotOf(m, s[0]));
          assert y != s[0] ==> y in s[1..];
        }
        ConsSorted(m, x, s);
      } else {
        var t := PlaceIn(m, s[1..], x);
        PlaceSorted(m, s[1..], x);
        forall y | y in t ensures y in m && !SpotBefore(SpotOf(m, y), SpotOf(m, s[0])) {
          assert y in multiset(t);
        }
        ConsSorted(m, s[0], t);
      }
    } else {
      OneSorted(m, x);
    }
  }

  lemma SortedIn(m: map<Id, Entry>, s: seq<Id>)
    requires Sorted(m, s)
    ensures forall y :: y in s ==> y in m
  {
  }

  lemma OneSorted(m: map<Id, Entry>, x: Id)
    requires x in m
    ensures Sorted(m, [x])
  {
  }

  /** The order lists exactly the live elements, each once, by position. */
  lemma {:induction false} OrderLists(m: map<Id, Entry>, keys: seq<Id>)
    requires Once(keys)
    ensures Once(Ordered(m, keys)) && Sorted(m, Ordered(m, keys))
    ensures forall x :: x in Ordered(m, keys) <==> x in keys && Live(m, x)
  {
    if keys != [] {
      var less, x := keys[..|keys| - 1], keys[|keys| - 1];
      OrderLists(m, less);
      assert keys == less + [x] && x !in less;
      if Live(m, x) {
        var s := Ordered(m, less);
        PlaceSorted(m, s, x);
        PlacedOnce(m, s, x);
      }
    }
  }

  lemma PlacedOnce(m: map<Id, Entry>, s: seq<Id>, x: Id)
    requires x in m && (forall y :: y in s ==> y in m) && Once(s) && x !in s
    ensures Once(PlaceIn(m, s, x)) && forall y :: y in PlaceIn(m, s, x) <==> y in s || y == x
  {
    var t := PlaceIn(m, s, x);
    OnceCounts(s);
    forall y ensures y in t <==> y in s || y == x {
      assert y in t <==> y in multiset(t);
    }
    CountsOnce(t);
  }

  lemma {:induction false} OnceCounts(s: seq<Id>)
    requires Once(s)
    ensures forall y :: multiset(s)[y] <= 1
  {
    if s != [] {
      OnceCounts(s[1..]);
      assert s == [s[0]] + s[1..] && s[0] !in s[1..];
      assert multiset(s) == multiset{s[0]} + multiset(s[1..]);
    }
  }

  lemma CountsOnce(s: seq<Id>)
    requires forall y :: multiset(s)[y] <= 1
    ensures Once(s)
  {
    forall i, j | 0 <= i < j < |s| ensures s[i] != s[j] {
      assert s == s[..j] + s[j..] && s[i] in s[..j] && s[j] in s[j..];
      assert multiset(s) == multiset(s[..j]) + multiset(s[j..]);
      assert multiset(s)[s[i]] <= 1 && s[i] in multiset(s[..j]) && s[j] in multiset(s[j..]);
    }
  }

  // -- when replicas agree --------------------------------------------------------------------------------------

  /** No two live elements have one position. */
  ghost predicate Distinct(m: map<Id, Entry>) {
    forall x, y :: Live(m, x) && Live(m, y) && x != y ==> SpotOf(m, x) != SpotOf(m, y)
  }

  lemma {:induction false} SortedOneWay(m: map<Id, Entry>, s: seq<Id>, t: seq<Id>)
    requires Sorted(m, s) && Sorted(m, t) && Once(s) && Once(t) && (forall x :: x in s <==> x in t)
    requires forall x, y :: x in s && y in s && x != y ==> SpotOf(m, x) != SpotOf(m, y)
    ensures s == t
  {
    hide SpotBefore;
    if s != [] {
      assert s[0] in t;
      assert t != [] && t[0] in s;
      var (i, j) := (Find(t, s[0]), Find(s, t[0]));
      SpotTotal(SpotOf(m, s[0]), SpotOf(m, t[0]), SpotOf(m, s[0]));
      assert s[0] == t[0];
      assert s == [s[0]] + s[1..] && t == [t[0]] + t[1..];
      forall x ensures x in s[1..] <==> x in t[1..] {
        assert x in s[1..] <==> x in s && x != s[0];
        assert x in t[1..] <==> x in t && x != t[0];
      }
      SortedOneWay(m, s[1..], t[1..]);
    } else {
      HasFirst(t);
    }
  }

  lemma HasFirst(s: seq<Id>)
    ensures s == [] || s[0] in s
  {
  }

  function Find(s: seq<Id>, x: Id): (i: nat)
    requires x in s
    ensures i < |s| && s[i] == x
  {
    if s[0] == x then 0 else 1 + Find(s[1..], x)
  }

  lemma SameOrder(m: map<Id, Entry>, a: seq<Id>, b: seq<Id>)
    requires Lists(m, a) && Lists(m, b) && Distinct(m)
    ensures Ordered(m, a) == Ordered(m, b)
  {
    OrderLists(m, a);
    OrderLists(m, b);
    SortedOneWay(m, Ordered(m, a), Ordered(m, b));
  }

  ghost predicate Ahead(s: seq<Id>, x: Id, y: Id) { exists i, j :: 0 <= i < j < |s| && s[i] == x && s[j] == y }

  lemma AheadCons(z: Id, s: seq<Id>, x: Id, y: Id)
    requires Ahead(s, x, y) || (z == x && y in s)
    ensures Ahead([z] + s, x, y)
  {
    var r := [z] + s;
    if Ahead(s, x, y) {
      var i, j :| 0 <= i < j < |s| && s[i] == x && s[j] == y;
      assert r[i + 1] == x && r[j + 1] == y;
    } else {
      assert r[0] == x && r[Find(s, y) + 1] == y;
    }
  }

  lemma AheadTail(s: seq<Id>, x: Id, y: Id)
    requires Ahead(s, x, y)
    ensures s != [] && (Ahead(s[1..], x, y) || (s[0] == x && y in s[1..]))
  {
    var i, j :| 0 <= i < j < |s| && s[i] == x && s[j] == y;
    assert s[1..][j - 1] == y;
    if i > 0 {
      assert s[1..][i - 1] == x;
    }
  }

  lemma PlacedIn(m: map<Id, Entry>, s: seq<Id>, z: Id)
    requires z in m && forall w :: w in s ==> w in m
    ensures z in PlaceIn(m, s, z) && forall w :: w in s ==> w in PlaceIn(m, s, z)
  {
    assert forall w :: w in PlaceIn(m, s, z) <==> w in multiset(PlaceIn(m, s, z));
  }

  lemma {:induction false} PlaceKeeps(m: map<Id, Entry>, s: seq<Id>, z: Id, x: Id, y: Id)
    requires z in m && (forall w :: w in s ==> w in m) && Ahead(s, x, y)
    ensures Ahead(PlaceIn(m, s, z), x, y)
  {
    hide SpotBefore, Ahead;
    AheadTail(s, x, y);
    if SpotBefore(SpotOf(m, z), SpotOf(m, s[0])) {
      AheadCons(z, s, x, y);
    } else {
      if Ahead(s[1..], x, y) {
        PlaceKeeps(m, s[1..], z, x, y);
      }
      PlacedIn(m, s[1..], z);
      AheadCons(s[0], PlaceIn(m, s[1..], z), x, y);
    }
  }

  /** A new element is put behind all that have its position. */
  lemma {:induction false} PlaceBehind(m: map<Id, Entry>, s: seq<Id>, x: Id, y: Id)
    requires y in m && Sorted(m, s) && x in s && SpotOf(m, x) == SpotOf(m, y)
    ensures Ahead(PlaceIn(m, s, y), x, y)
  {
    hide SpotBefore, Ahead, Sorted;
    SortedIn(m, s);
    TailSorted(m, s);
    SpotTotal(SpotOf(m, x), SpotOf(m, x), SpotOf(m, x));
    if s[0] != x {
      assert x in s[1..];
      PlaceBehind(m, s[1..], x, y);
    }
    PlacedIn(m, s[1..], y);
    AheadCons(s[0], PlaceIn(m, s[1..], y), x, y);
  }

  /** Elements with one position are shown in the order of the keys. */
  lemma {:induction false} TiesByKeys(m: map<Id, Entry>, keys: seq<Id>, x: Id, y: Id)
    requires Once(keys) && Ahead(keys, x, y) && Live(m, x) && Live(m, y) && SpotOf(m, x) == SpotOf(m, y)
    ensures Ahead(Ordered(m, keys), x, y)
  {
    hide SpotBefore;
    var i, j :| 0 <= i < j < |keys| && keys[i] == x && keys[j] == y;
    var n := |keys| - 1;
    var less, z := keys[..n], keys[n];
    OrderLists(m, less);
    if j == n {
      assert less[i] == x;
      PlaceBehind(m, Ordered(m, less), x, y);
    } else {
      assert less[i] == x && less[j] == y;
      TiesByKeys(m, less, x, y);
      if Live(m, z) {
        PlaceKeeps(m, Ordered(m, less), z, x, y);
      }
    }
  }

  lemma SwapLists(m: map<Id, Entry>, keys: seq<Id>, i: nat, j: nat) returns (other: seq<Id>)
    requires Lists(m, keys) && i < j < |keys|
    ensures Lists(m, other) && Ahead(other, keys[j], keys[i])
  {
    other := keys[i := keys[j]][j := keys[i]];
    assert other[i] == keys[j] && other[j] == keys[i];
    forall x ensures x in other <==> x in keys {
      if x in keys {
        var k := Find(keys, x);
        assert other[if k == i then j else if k == j then i else k] == x;
      }
    }
  }

  lemma NotBothWays(s: seq<Id>, x: Id, y: Id)
    requires Once(s) && Ahead(s, x, y)
    ensures !Ahead(s, y, x)
  {
    var i, j :| 0 <= i < j < |s| && s[i] == x && s[j] == y;
    forall k, l | 0 <= k < l < |s| && s[k] == y ensures s[l] != x {
      assert k == j && i < l;
    }
  }

  /** The elements are shown in one order, in whatever order they were first seen, exactly when no two live ones have one position. */
  lemma OneOrderIffDistinct(m: map<Id, Entry>, keys: seq<Id>)
    requires Lists(m, keys)
    ensures (forall other :: Lists(m, other) ==> Ordered(m, other) == Ordered(m, keys)) <==> Distinct(m)
  {
    if Distinct(m) {
      forall other | Lists(m, other) ensures Ordered(m, other) == Ordered(m, keys) {
        SameOrder(m, other, keys);
      }
    } else {
      var x, y :| Live(m, x) && Live(m, y) && x != y && SpotOf(m, x) == SpotOf(m, y);
      var (i, j) := (Find(keys, x), Find(keys, y));
      var (a, b) := if i < j then (i, j) else (j, i);
      var other := SwapLists(m, keys, a, b);
      assert keys[a] == keys[a] && keys[b] == keys[b];
      TiesByKeys(m, keys, keys[a], keys[b]);
      TiesByKeys(m, other, keys[b], keys[a]);
      OrderLists(m, keys);
      NotBothWays(Ordered(m, keys), keys[a], keys[b]);
    }
  }

  // -- in every run ------------------------------------------------------------------------------------------------

  ghost predicate AllOnce(s: System) {
    (forall p :: p in s.replicas ==> Once(s.replicas[p].keys)) && forall r :: r in s.snapshots ==> Once(r.keys)
  }

  lemma OnceMore(keys: seq<Id>, x: Id)
    requires Once(keys) && x !in keys
    ensures Once(keys + [x])
  {
  }

  lemma {:induction false} NewKeysOnce(m: map<Id, Entry>, keys: seq<Id>)
    requires Once(keys)
    ensures Once(NewKeys(m, keys)) && forall x :: x in NewKeys(m, keys) <==> x in keys && x !in m
  {
    NewKeysAre(m, keys);
    if keys != [] {
      var n := |keys| - 1;
      NewKeysOnce(m, keys[..n]);
      if keys[n] !in m {
        OnceMore(NewKeys(m, keys[..n]), keys[n]);
      }
    }
  }

  lemma OnceJoined(a: seq<Id>, b: seq<Id>)
    requires Once(a) && Once(b) && forall x :: x in b ==> x !in a
    ensures Once(a + b)
  {
    forall i, j | 0 <= i < j < |a + b| ensures (a + b)[i] != (a + b)[j] {
      if i < |a| <= j {
        assert b[j - |a|] in b && a[i] in a;
      }
    }
  }

  lemma MergeLists(r: Replica, other: Replica, now: nat)
    requires Lists(r.entries, r.keys) && Lists(other.entries, other.keys)
    ensures Lists(Merge(r, other, now).entries, Merge(r, other, now).keys)
  {
    NewKeysOnce(r.entries, other.keys);
    OnceJoined(r.keys, NewKeys(r.entries, other.keys));
  }

  lemma StepOnce(s: System, step: Step)
    requires Inv(s) && Allowed(s, step) && AllOnce(s)
    ensures AllOnce(Take(s, step))
  {
    hide Inv, Once, Heard, Join, SpotBetween, Less, NewKeys;
    match step
    case Start(p) => NoneOnce();
    case Insert(p, x, v, l, r, now) =>
      KeysOf(s, p);
      if x !in s.replicas[p].entries {
        OnceMore(s.replicas[p].keys, x);
      }
    case Absorb(p, k, now) => AbsorbOnce(s, p, k);
    case _ =>
  }

  lemma AbsorbOnce(s: System, p: Peer, k: nat)
    requires Inv(s) && AllOnce(s) && p in s.replicas && k < |s.snapshots|
    ensures Once(s.replicas[p].keys + NewKeys(s.replicas[p].entries, s.snapshots[k].keys))
  {
    hide Inv, Once;
    KeysOf(s, p);
    var (r, other) := (s.replicas[p], s.snapshots[k]);
    NewKeysOnce(r.entries, other.keys);
    OnceJoined(r.keys, NewKeys(r.entries, other.keys));
  }

  lemma NoneOnce()
    ensures Once([])
  {
  }

  /** In every run each replica lists its elements, each once. */
  lemma {:induction false} ReachLists(steps: seq<SeqProofs.Step>)
    ensures match Reach(steps)
      case None => true
      case Some(s) => AllOnce(s) && forall p :: p in s.replicas ==> Lists(s.replicas[p].entries, s.replicas[p].keys)
    decreases |steps|
  {
    hide Inv, AllOnce, Allowed, Take;
    ReachOk(steps);
    if steps == [] {
      NothingListed();
    } else {
      var before, step := steps[..|steps| - 1], steps[|steps| - 1];
      ReachLists(before);
      ReachOk(before);
      if Reach(before).Some? && Allowed(Reach(before).value, step) {
        StepOnce(Reach(before).value, step);
      }
    }
    if Reach(steps).Some? {
      AllListed(Reach(steps).value);
    }
  }

  lemma NothingListed()
    ensures AllOnce(System(map[], []))
  {
  }

  lemma AllListed(s: System)
    requires Inv(s) && AllOnce(s)
    ensures forall p :: p in s.replicas ==> Lists(s.replicas[p].entries, s.replicas[p].keys)
  {
    hide Inv, Once;
    forall p | p in s.replicas ensures Lists(s.replicas[p].entries, s.replicas[p].keys) {
      KeysOf(s, p);
    }
  }

  /**
   In every run, two replicas that merge each other show the same elements in the same order, if no two live ones
   among them have one position.
   */
  lemma MergedOrdersAgree(steps: seq<SeqProofs.Step>, p: Peer, q: Peer, now: nat, later: nat)
    ensures match Reach(steps)
      case None => true
      case Some(s) => p in s.replicas && q in s.replicas ==>
        var (t, u) := (Merge(s.replicas[p], s.replicas[q], now), Merge(s.replicas[q], s.replicas[p], later));
        Distinct(t.entries) ==> Order(t) == Order(u)
  {
    hide Merge, Distinct, Lists, AllOnce, Ordered;
    MutualMergeAgrees(steps, p, q, now, later);
    ReachLists(steps);
    var r := Reach(steps);
    if r.Some? && p in r.value.replicas && q in r.value.replicas {
      var (a, b) := (r.value.replicas[p], r.value.replicas[q]);
      MergeLists(a, b, now);
      MergeLists(b, a, later);
      if Distinct(Merge(a, b, now).entries) {
        SameOrder(Merge(a, b, now).entries, Merge(a, b, now).keys, Merge(b, a, later).keys);
      }
    }
  }

  // -- where an edit puts an element -------------------------------------------------------------------------------

  /** One element is shown ahead of another by position, and by the order of the keys where positions are equal. */
  lemma AheadIff(m: map<Id, Entry>, keys: seq<Id>, x: Id, y: Id)
    requires Once(keys) && x in keys && y in keys && Live(m, x) && Live(m, y) && x != y
    ensures Ahead(Ordered(m, keys), x, y) <==> SpotBefore(SpotOf(m, x), SpotOf(m, y)) || (SpotOf(m, x) == SpotOf(m, y) && Ahead(keys, x, y))
    ensures Ahead(Ordered(m, keys), x, y) <==> !Ahead(Ordered(m, keys), y, x)
  {
    hide SpotBefore, Ahead, Sorted, Once;
    var s := Ordered(m, keys);
    OrderLists(m, keys);
    EitherWay(s, x, y);
    EitherWay(keys, x, y);
    SpotTotal(SpotOf(m, x), SpotOf(m, y), SpotOf(m, x));
    if SpotOf(m, x) == SpotOf(m, y) {
      if Ahead(keys, x, y) {
        TiesByKeys(m, keys, x, y);
      } else {
        TiesByKeys(m, keys, y, x);
      }
    } else {
      SortedAhead(m, s, x, y);
      SortedAhead(m, s, y, x);
    }
  }

  lemma SortedAhead(m: map<Id, Entry>, s: seq<Id>, x: Id, y: Id)
    requires Sorted(m, s) && x in m && y in m
    ensures Ahead(s, x, y) ==> !SpotBefore(SpotOf(m, y), SpotOf(m, x))
  {
  }

  lemma EitherWay(s: seq<Id>, x: Id, y: Id)
    requires Once(s) && x in s && y in s && x != y
    ensures Ahead(s, x, y) <==> !Ahead(s, y, x)
  {
    var (i, j) := (Find(s, x), Find(s, y));
    assert s[i] == x && s[j] == y;
    if Ahead(s, x, y) {
      NotBothWays(s, x, y);
    }
  }

  /** `x` may go directly behind `left` and before `right`: everything else shown is at or before the one, or at or after the other. */
  ghost predicate Gap(s: seq<Id>, x: Id, left: Option<Id>, right: Option<Id>) {
    && (left.Some? ==> left.value in s && left.value != x) && (right.Some? ==> right.value in s && right.value != x)
    && (left.Some? && right.Some? ==> Ahead(s, left.value, right.value))
    && forall y :: y in s && y != x ==> UpTo(s, y, left) || From(s, y, right)
  }

  ghost predicate UpTo(s: seq<Id>, y: Id, left: Option<Id>) { left.Some? && (y == left.value || Ahead(s, y, left.value)) }
  ghost predicate From(s: seq<Id>, y: Id, right: Option<Id>) { right.Some? && (y == right.value || Ahead(s, right.value, y)) }

  /** All others are shown as before, and `x` behind exactly those up to `left`. */
  ghost predicate Lands(s: seq<Id>, t: seq<Id>, x: Id, left: Option<Id>) {
    && x in t && (forall y :: y != x ==> (y in t <==> y in s))
    && (forall y, z :: y != x && z != x ==> (Ahead(t, y, z) <==> Ahead(s, y, z)))
    && forall y :: y in t && y != x ==> (Ahead(t, y, x) <==> UpTo(s, y, left))
  }

  /** Off `x` the two maps show the same, and the two lists of keys have the same order. */
  ghost predicate SameBut(m: map<Id, Entry>, a: seq<Id>, n: map<Id, Entry>, b: seq<Id>, x: Id) {
    && Lists(m, a) && Lists(n, b)
    && (forall y :: y != x ==> Live(m, y) == Live(n, y)) && (forall y :: y != x && Live(m, y) ==> SpotOf(m, y) == SpotOf(n, y))
    && (forall y, z :: y != x && z != x ==> (Ahead(a, y, z) <==> Ahead(b, y, z)))
  }

  lemma OthersAhead(m: map<Id, Entry>, a: seq<Id>, n: map<Id, Entry>, b: seq<Id>, x: Id, y: Id, z: Id)
    requires SameBut(m, a, n, b, x) && y != x && z != x
    ensures Ahead(Ordered(n, b), y, z) <==> Ahead(Ordered(m, a), y, z)
  {
    hide SpotBefore, Ahead;
    OrderLists(m, a);
    OrderLists(n, b);
    AheadIn(Ordered(m, a), y, z);
    AheadIn(Ordered(n, b), y, z);
    if y != z && Live(m, y) && Live(m, z) {
      assert Live(n, y) && Live(n, z);
      AheadIff(m, a, y, z);
      AheadIff(n, b, y, z);
    }
  }

  lemma AheadIn(s: seq<Id>, y: Id, z: Id)
    requires Once(s)
    ensures Ahead(s, y, z) ==> y in s && z in s && y != z
  {
  }

  /** Where `x` stands against one other element, by its new key. */
  lemma AgainstKey(m: map<Id, Entry>, a: seq<Id>, n: map<Id, Entry>, b: seq<Id>, x: Id, y: Id)
    requires SameBut(m, a, n, b, x) && y != x && Live(m, y) && Live(n, x)
    ensures ByteOrder.Less(SpotOf(m, y).frac, SpotOf(n, x).frac) ==> Ahead(Ordered(n, b), y, x)
    ensures ByteOrder.Less(SpotOf(n, x).frac, SpotOf(m, y).frac) ==> !Ahead(Ordered(n, b), y, x)
  {
    hide ByteOrder.Less;
    assert Live(n, y);
    AheadIff(n, b, y, x);
    AheadIff(n, b, x, y);
  }

  lemma NotAfter(m: map<Id, Entry>, keys: seq<Id>, y: Id, z: Id)
    requires Lists(m, keys) && Live(m, z) && (y == z || Ahead(Ordered(m, keys), y, z))
    ensures Live(m, y) && !ByteOrder.Less(SpotOf(m, z).frac, SpotOf(m, y).frac)
  {
    hide ByteOrder.Less;
    OrderLists(m, keys);
    ByteOrder.NotLessSelf(SpotOf(m, z).frac);
    if y != z {
      AheadIn(Ordered(m, keys), y, z);
      AheadIff(m, keys, y, z);
      ByteOrder.LessTotal(SpotOf(m, y).frac, SpotOf(m, z).frac);
      SpotTotal(SpotOf(m, y), SpotOf(m, z), SpotOf(m, y));
    }
  }

  lemma LessThan(a: FracKeys.Key, b: FracKeys.Key, c: FracKeys.Key)
    ensures !ByteOrder.Less(b, a) && ByteOrder.Less(b, c) ==> ByteOrder.Less(a, c)
    ensures ByteOrder.Less(a, b) && !ByteOrder.Less(c, b) ==> ByteOrder.Less(a, c)
  {
    hide ByteOrder.Less;
    ByteOrder.LessTotal(a, b);
    ByteOrder.LessTotal(b, c);
    if ByteOrder.Less(a, b) && ByteOrder.Less(b, c) {
      ByteOrder.LessTrans(a, b, c);
    }
  }

  /** With room for its key, `x` lands in its gap. */
  lemma LandsInside(m: map<Id, Entry>, a: seq<Id>, n: map<Id, Entry>, b: seq<Id>, x: Id, left: Option<Id>, right: Option<Id>)
    requires SameBut(m, a, n, b, x) && Live(n, x) && Gap(Ordered(m, a), x, left, right)
    requires left.Some? ==> Live(m, left.value) && ByteOrder.Less(SpotOf(m, left.value).frac, SpotOf(n, x).frac)
    requires right.Some? ==> Live(m, right.value) && ByteOrder.Less(SpotOf(n, x).frac, SpotOf(m, right.value).frac)
    ensures Lands(Ordered(m, a), Ordered(n, b), x, left)
  {
    hide ByteOrder.Less, Ahead;
    var (s, t) := (Ordered(m, a), Ordered(n, b));
    OrderLists(m, a);
    OrderLists(n, b);
    forall y, z | y != x && z != x ensures Ahead(t, y, z) <==> Ahead(s, y, z) {
      OthersAhead(m, a, n, b, x, y, z);
    }
    forall y | y in t && y != x ensures Ahead(t, y, x) <==> UpTo(s, y, left) {
      assert Live(n, y) && Live(m, y) && y in s;
      AgainstKey(m, a, n, b, x, y);
      if UpTo(s, y, left) {
        NotAfter(m, a, y, left.value);
        LessThan(SpotOf(m, y).frac, SpotOf(m, left.value).frac, SpotOf(n, x).frac);
      } else {
        NotAfter(m, a, right.value, y);
        LessThan(SpotOf(n, x).frac, SpotOf(m, right.value).frac, SpotOf(m, y).frac);
      }
    }
  }

  /** Between neighbours of one fractional key, it lands past the right one. */
  lemma LandsPast(m: map<Id, Entry>, a: seq<Id>, n: map<Id, Entry>, b: seq<Id>, x: Id, left: Id, right: Id)
    requires SameBut(m, a, n, b, x) && Live(n, x) && Gap(Ordered(m, a), x, Some(left), Some(right))
    requires Live(m, right) && ByteOrder.Less(SpotOf(m, right).frac, SpotOf(n, x).frac)
    ensures !Lands(Ordered(m, a), Ordered(n, b), x, Some(left))
  {
    hide ByteOrder.Less, Ahead;
    OrderLists(m, a);
    OrderLists(n, b);
    AgainstKey(m, a, n, b, x, right);
    AheadIn(Ordered(m, a), left, right);
    EitherWay(Ordered(m, a), left, right);
    assert right in Ordered(n, b);
  }

  /** Among good keys it lands in its gap exactly when the keys of its neighbours are in order, or one is absent. */
  lemma LandsIff(r: Replica, t: Replica, x: Id, left: Option<Id>, right: Option<Id>)
    requires GoodKeys(r.entries) && SameBut(r.entries, r.keys, t.entries, t.keys, x) && Live(t.entries, x)
    requires Gap(Order(r), x, left, right) && SpotOf(t.entries, x) == SpotBetween(r, left, right)
    ensures Lands(Order(r), Order(t), x, left) <==> InOrder(Bound(r, left), Bound(r, right))
  {
    hide SpotBetween, ByteOrder.Less, Ahead, Lands, GoodKey, SameBut;
    SpotLies(r, left, right);
    SameLists(r, t, x);
    OrderLists(r.entries, r.keys);
    if InOrder(Bound(r, left), Bound(r, right)) {
      LandsInside(r.entries, r.keys, t.entries, t.keys, x, left, right);
    } else {
      NotAfter(r.entries, r.keys, left.value, right.value);
      ByteOrder.LessTotal(Bound(r, left).value, Bound(r, right).value);
      PastBoth(r, left.value, right.value);
      LandsPast(r.entries, r.keys, t.entries, t.keys, x, left.value, right.value);
    }
  }

  lemma SameLists(r: Replica, t: Replica, x: Id)
    requires SameBut(r.entries, r.keys, t.entries, t.keys, x)
    ensures Lists(r.entries, r.keys)
  {
  }

  lemma PastBoth(r: Replica, left: Id, right: Id)
    requires GoodKeys(r.entries) && left in r.entries && right in r.entries
    requires SpotOf(r.entries, left).frac == SpotOf(r.entries, right).frac
    ensures ByteOrder.Less(SpotOf(r.entries, right).frac, SpotBetween(r, Some(left), Some(right)).frac)
  {
    FracKeys.NoRoom(SpotOf(r.entries, left).frac);
  }

  lemma AheadSnoc(keys: seq<Id>, x: Id)
    ensures forall y, z :: y != x && z != x ==> (Ahead(keys, y, z) <==> Ahead(keys + [x], y, z))
  {
    var b := keys + [x];
    forall y, z | y != x && z != x ensures Ahead(keys, y, z) <==> Ahead(b, y, z) {
      if Ahead(keys, y, z) {
        var i, j :| 0 <= i < j < |keys| && keys[i] == y && keys[j] == z;
        assert b[i] == y && b[j] == z;
      }
    }
  }

  /**
   In every run: a new element is shown directly behind its left neighbour and before its right one, all others as
   they were, exactly when the keys of the two are in order, or one is absent.
   */
  lemma InsertLandsIff(steps: seq<SeqProofs.Step>, p: Peer, x: Id, v: Value, left: Option<Id>, right: Option<Id>, now: nat)
    ensures match Reach(steps)
      case None => true
      case Some(s) => p in s.replicas && x !in s.replicas[p].entries && Gap(Order(s.replicas[p]), x, left, right) ==>
        var r := s.replicas[p];
        Lands(Order(r), Order(InsertBetween(r, x, v, left, right, now)), x, left) <==> InOrder(Bound(r, left), Bound(r, right))
  {
    hide SpotBetween, Lands, Gap, InOrder, GoodKeys, Once, Inv, Ordered;
    ReachLists(steps);
    ReachGood(steps);
    var reached := Reach(steps);
    if reached.Some? && p in reached.value.replicas {
      var r := reached.value.replicas[p];
      if x !in r.entries && Gap(Order(r), x, left, right) {
        AheadSnoc(r.keys, x);
        OnceMore(r.keys, x);
        LandsIff(r, InsertBetween(r, x, v, left, right, now), x, left, right);
      }
    }
  }

  /** In every run: the same of an element that is moved, the others standing as they do without it. */
  lemma MoveLandsIff(steps: seq<SeqProofs.Step>, p: Peer, x: Id, left: Option<Id>, right: Option<Id>, now: nat)
    ensures match Reach(steps)
      case None => true
      case Some(s) => p in s.replicas && Live(s.replicas[p].entries, x) && Gap(Order(s.replicas[p]), x, left, right) ==>
        var r := s.replicas[p];
        Lands(Order(r), Order(MoveBetween(r, x, left, right, now).0), x, left) <==> InOrder(Bound(r, left), Bound(r, right))
  {
    hide SpotBetween, Lands, Gap, InOrder, GoodKeys, Once, Inv, Ordered, Ahead, AllPassed;
    ReachLists(steps);
    ReachGood(steps);
    ReachOk(steps);
    var reached := Reach(steps);
    if reached.Some? && p in reached.value.replicas {
      var r := reached.value.replicas[p];
      if Live(r.entries, x) && Gap(Order(r), x, left, right) {
        PassedIn(reached.value, p);
        MovedSpot(r, x, left, right, now);
        LandsIff(r, MoveBetween(r, x, left, right, now).0, x, left, right);
      }
    }
  }

  /** A move of a present element is never dropped. */
  lemma MovedSpot(r: Replica, x: Id, left: Option<Id>, right: Option<Id>, now: nat)
    requires AllPassed(r.entries, r.clock) && x in r.entries
    ensures var t := MoveBetween(r, x, left, right, now).0;
      && t.keys == r.keys && t.entries.Keys == r.entries.Keys && SpotOf(t.entries, x) == SpotBetween(r, left, right)
      && t.entries[x].deleted == r.entries[x].deleted && forall y :: y in r.entries && y != x ==> t.entries[y] == r.entries[y]
  {
    hide SpotBetween, Less, SentFrom;
    var m := TickFresh(r, now);
  }

  // -- edits placed by the order itself ------------------------------------------------------------------------------

  /** The elements around place `i` of the order. */
  function At(order: seq<Id>, i: int): Option<Id> { if 0 <= i < |order| then Some(order[i]) else None }

  function InsertBack(r: Replica, x: Id, v: Value, now: nat): Replica { InsertBetween(r, x, v, At(Order(r), |Order(r)| - 1), None, now) }

  function InsertFront(r: Replica, x: Id, v: Value, now: nat): Replica { InsertBetween(r, x, v, None, At(Order(r), 0), now) }

  /** Nothing is moved beside an element that is not shown. */
  function MoveAfter(r: Replica, x: Id, anchor: Id, now: nat): (Replica, bool) {
    if anchor !in Order(r) then (r, false) else MoveBetween(r, x, Some(anchor), At(Order(r), Find(Order(r), anchor) + 1), now)
  }

  function MoveBefore(r: Replica, x: Id, anchor: Id, now: nat): (Replica, bool) {
    if anchor !in Order(r) then (r, false) else MoveBetween(r, x, At(Order(r), Find(Order(r), anchor) - 1), Some(anchor), now)
  }

  /** Two elements next to each other, or an end, leave a gap for any other. */
  lemma NextGap(s: seq<Id>, i: int, x: Id)
    requires Once(s) && -1 <= i < |s| && At(s, i) != Some(x) && At(s, i + 1) != Some(x)
    ensures Gap(s, x, At(s, i), At(s, i + 1))
  {
    forall y | y in s && y != x ensures UpTo(s, y, At(s, i)) || From(s, y, At(s, i + 1)) {
      var k := Find(s, y);
      if k < i {
        assert s[k] == y && s[i] == s[i];
      } else if k > i + 1 {
        assert s[i + 1] == s[i + 1] && s[k] == y;
      }
    }
    if 0 <= i && i + 1 < |s| {
      assert s[i] == s[i] && s[i + 1] == s[i + 1];
    }
  }

  /** In every run: an insert at the back is shown last, and one at the front first, whatever the keys. */
  lemma EndsLand(steps: seq<SeqProofs.Step>, p: Peer, x: Id, v: Value, now: nat)
    ensures match Reach(steps)
      case None => true
      case Some(s) => p in s.replicas && x !in s.replicas[p].entries ==>
        var r := s.replicas[p];
        && Lands(Order(r), Order(InsertBack(r, x, v, now)), x, At(Order(r), |Order(r)| - 1))
        && Lands(Order(r), Order(InsertFront(r, x, v, now)), x, None)
  {
    hide Lands, Gap, Once, Inv, Ordered, InsertBetween;
    ReachLists(steps);
    var reached := Reach(steps);
    if reached.Some? && p in reached.value.replicas && x !in reached.value.replicas[p].entries {
      var r := reached.value.replicas[p];
      var n := |Order(r)|;
      NotShown(r, x);
      NextGap(Order(r), n - 1, x);
      NextGap(Order(r), -1, x);
      InsertLandsIff(steps, p, x, v, At(Order(r), n - 1), None, now);
      InsertLandsIff(steps, p, x, v, None, At(Order(r), 0), now);
    }
  }

  lemma NotShown(r: Replica, x: Id)
    requires Lists(r.entries, r.keys)
    ensures Once(Order(r)) && (x !in r.entries ==> x !in Order(r))
  {
    OrderLists(r.entries, r.keys);
  }

  /**
   In every run: a move behind an element, or before one, puts the moved one directly there exactly when the keys
   of the two it comes between are in order, or one is absent; beside an element not shown nothing is moved.
   */
  lemma BesideLandsIff(steps: seq<SeqProofs.Step>, p: Peer, x: Id, anchor: Id, now: nat)
    ensures match Reach(steps)
      case None => true
      case Some(s) => p in s.replicas && Live(s.replicas[p].entries, x) && anchor != x ==>
        var r := s.replicas[p];
        var (after, before) := (MoveAfter(r, x, anchor, now), MoveBefore(r, x, anchor, now));
        if anchor !in Order(r) then after == (r, false) == before
        else
          var i: int := Find(Order(r), anchor);
          var (left, right) := (At(Order(r), i - 1), At(Order(r), i + 1));
          && (right != Some(x) ==> (Lands(Order(r), Order(after.0), x, Some(anchor)) <==> InOrder(Bound(r, Some(anchor)), Bound(r, right))))
          && (left != Some(x) ==> (Lands(Order(r), Order(before.0), x, left) <==> InOrder(Bound(r, left), Bound(r, Some(anchor)))))
  {
    hide Lands, Gap, Once, Inv, Ordered, MoveBetween, InOrder, Bound;
    ReachLists(steps);
    var reached := Reach(steps);
    if reached.Some? && p in reached.value.replicas && Live(reached.value.replicas[p].entries, x) && anchor != x {
      var r := reached.value.replicas[p];
      if anchor in Order(r) {
        var i: int := Find(Order(r), anchor);
        var (left, right) := (At(Order(r), i - 1), At(Order(r), i + 1));
        NotShown(r, x);
        if right != Some(x) {
          NextGap(Order(r), i, x);
          MoveLandsIff(steps, p, x, Some(anchor), right, now);
        }
        if left != Some(x) {
          NextGap(Order(r), i - 1, x);
          MoveLandsIff(steps, p, x, left, Some(anchor), now);
        }
      }
    }
  }

  /** In every run: a removal takes the element out of the order, a write leaves the order alone, and so does a fork. */
  lemma OthersStay(steps: seq<SeqProofs.Step>, p: Peer, x: Id, v: Value, now: nat, child: Peer)
    ensures match Reach(steps)
      case None => true
      case Some(s) => p in s.replicas && x in s.replicas[p].entries ==>
        var r := s.replicas[p];
        var (removed, written) := (Remove(r, x, now).0, SetValue(r, x, v, now).0);
        && x !in Order(removed) && (forall y :: y != x ==> (y in Order(removed) <==> y in Order(r)))
        && (forall y, z :: y != x && z != x ==> (Ahead(Order(removed), y, z) <==> Ahead(Order(r), y, z)))
        && Order(written) == Order(r) && Order(Fork(r, child)) == Order(r)
  {
    hide Once, Inv, Ahead, AllPassed;
    ReachLists(steps);
    ReachOk(steps);
    var reached := Reach(steps);
    if reached.Some? && p in reached.value.replicas && x in reached.value.replicas[p].entries {
      PassedIn(reached.value, p);
      RemovedOrder(reached.value.replicas[p], x, now);
      WrittenOrder(reached.value.replicas[p], x, v, now);
    }
  }

  lemma RemovedOrder(r: Replica, x: Id, now: nat)
    requires AllPassed(r.entries, r.clock) && Lists(r.entries, r.keys) && x in r.entries
    ensures var t := Remove(r, x, now).0;
      && x !in Order(t) && (forall y :: y != x ==> (y in Order(t) <==> y in Order(r)))
      && (forall y, z :: y != x && z != x ==> (Ahead(Order(t), y, z) <==> Ahead(Order(r), y, z)))
  {
    hide Less, SentFrom, Ahead, Once;
    var m := TickFresh(r, now);
    var t := Remove(r, x, now).0;
    OrderLists(r.entries, r.keys);
    OrderLists(t.entries, t.keys);
    forall y, z | y != x && z != x ensures Ahead(Order(t), y, z) <==> Ahead(Order(r), y, z) {
      OthersAhead(r.entries, r.keys, t.entries, t.keys, x, y, z);
    }
  }

  lemma WrittenOrder(r: Replica, x: Id, v: Value, now: nat)
    requires Lists(r.entries, r.keys) && x in r.entries
    ensures Order(SetValue(r, x, v, now).0) == Order(r)
  {
    hide Less, SentFrom, Once;
    OrderAlike(r.entries, SetValue(r, x, v, now).0.entries, r.keys);
  }

  lemma {:induction false} PlaceAlike(m: map<Id, Entry>, n: map<Id, Entry>, s: seq<Id>, x: Id)
    requires x in m && x in n && SpotOf(m, x) == SpotOf(n, x)
    requires forall y :: y in s ==> y in m && y in n && SpotOf(m, y) == SpotOf(n, y)
    ensures PlaceIn(m, s, x) == PlaceIn(n, s, x)
  {
    hide SpotBefore;
    if s != [] {
      PlaceAlike(m, n, s[1..], x);
    }
  }

  lemma {:induction false} OrderAlike(m: map<Id, Entry>, n: map<Id, Entry>, keys: seq<Id>)
    requires forall x :: Live(m, x) == Live(n, x) && (Live(m, x) ==> SpotOf(m, x) == SpotOf(n, x))
    ensures Ordered(m, keys) == Ordered(n, keys)
  {
    if keys != [] {
      var less, x := keys[..|keys| - 1], keys[|keys| - 1];
      OrderAlike(m, n, less);
      if Live(m, x) {
        PlaceAlike(m, n, Ordered(m, less), x);
      }
    }
  }
}
