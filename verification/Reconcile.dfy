/** The reconciliation walk, what it reaches, and why nothing reaches it with fewer moves. */
module Reconcile {
  import opened Basics
  import Lis
  import opened Collections

  // -- one operation and the keys it leaves alone ------------------------------------------------

  lemma WithoutSplit(s: seq<Key>, k: Key)
    requires k in s
    ensures var i := IndexOf(s, k); s == s[..i] + [k] + s[i + 1..] && Without(s, k) == s[..i] + s[i + 1..]
  {
  }

  lemma PlaceSplit(s: seq<Key>, k: Key, after: Option<Key>) returns (x: seq<Key>, y: seq<Key>)
    requires Place(s, k, after).Some?
    ensures s == x + y && Place(s, k, after).value == x + [k] + y
    ensures if after.None? then x == [] else x != [] && x[|x| - 1] == after.value
  {
    match after
    case None => x, y := [], s;
    case Some(a) =>
      var i := IndexOf(s, a) + 1;
      x, y := s[..i], s[i..];
  }

  lemma KeepMiddle(x: seq<Key>, k: Key, y: seq<Key>, ks: set<Key>)
    ensures Keep(x + [k] + y, ks) == Keep(x, ks) + (if k in ks then [k] else []) + Keep(y, ks)
  {
    hide Keep;
    KeepConcat(x + [k], y, ks);
    KeepSnoc(x, k, ks);
  }

  lemma WithoutKeeps(s: seq<Key>, k: Key, ks: set<Key>)
    requires k !in ks
    ensures Keep(Without(s, k), ks) == Keep(s, ks)
  {
    hide Keep;
    if k in s {
      WithoutSplit(s, k);
      var i := IndexOf(s, k);
      KeepMiddle(s[..i], k, s[i + 1..], ks);
      KeepConcat(s[..i], s[i + 1..], ks);
    }
  }

  lemma PlaceKeeps(s: seq<Key>, k: Key, after: Option<Key>, ks: set<Key>)
    requires k !in ks && Place(s, k, after).Some?
    ensures Keep(Place(s, k, after).value, ks) == Keep(s, ks)
  {
    hide Keep;
    var x, y := PlaceSplit(s, k, after);
    KeepMiddle(x, k, y, ks);
    KeepConcat(x, y, ks);
  }

  lemma ApplyKeeps(s: seq<Key>, op: Op, ks: set<Key>)
    requires op.key !in ks && Apply(s, op).Some?
    ensures Keep(Apply(s, op).value, ks) == Keep(s, ks)
  {
    hide Keep, Place, Without;
    match op
    case Remove(k) => WithoutKeeps(s, k, ks);
    case Move(k, a) =>
      if a != Some(k) {
        WithoutKeeps(s, k, ks);
        PlaceKeeps(Without(s, k), k, a, ks);
      }
    case Insert(k, _, a) => PlaceKeeps(s, k, a, ks);
  }

  lemma {:induction false} ApplyAllKeeps(s: seq<Key>, ops: seq<Op>, ks: set<Key>)
    requires ApplyAll(s, ops).Some? && forall j :: 0 <= j < |ops| ==> ops[j].key !in ks
    ensures Keep(ApplyAll(s, ops).value, ks) == Keep(s, ks)
    decreases |ops|
  {
    hide Keep, Apply;
    if ops != [] {
      var n := |ops| - 1;
      ApplyAllKeeps(s, ops[..n], ks);
      ApplyKeeps(ApplyAll(s, ops[..n]).value, ops[n], ks);
    }
  }

  // -- the fewest moves ------------------------------------------------------------------------------

  predicate Placing(op: Op) { !op.Remove? }

  /** How many operations move or insert a key of `ks`. */
  function Placements(ops: seq<Op>, ks: set<Key>): nat
    decreases |ops|
  {
    if ops == [] then 0
    else Placements(ops[..|ops| - 1], ks) + if Placing(ops[|ops| - 1]) && ops[|ops| - 1].key in ks then 1 else 0
  }

  predicate Touched(ops: seq<Op>, k: Key) { exists j :: 0 <= j < |ops| && ops[j].key == k }
  predicate Placed(ops: seq<Op>, k: Key) { exists j :: 0 <= j < |ops| && ops[j].key == k && Placing(ops[j]) }

  lemma DropOne(c: seq<Key>, k: Key)
    requires NoDup(c)
    ensures var d := Without(c, k);
      NoDup(d) && |d| == (if k in c then |c| - 1 else |c|) && k !in d && forall x :: x in d <==> x in c && x != k
  {
    if k in c {
      WithoutSplit(c, k);
    }
  }

  /** Distinct placed keys need distinct placements. */
  lemma {:induction false} PlacementsCover(ops: seq<Op>, ks: set<Key>, c: seq<Key>)
    requires NoDup(c) && forall k :: k in c ==> k in ks && Placed(ops, k)
    ensures |c| <= Placements(ops, ks)
    decreases |ops|
  {
    if ops == [] {
      NothingPlaced(ops, c);
    } else {
      var n := |ops| - 1;
      var d := if Placing(ops[n]) then Without(c, ops[n].key) else c;
      DropOne(c, ops[n].key);
      forall k | k in d ensures k in ks && Placed(ops[..n], k) {
        var j :| 0 <= j < |ops| && ops[j].key == k && Placing(ops[j]);
        assert ops[..n][j] == ops[j];
      }
      PlacementsCover(ops[..n], ks, d);
      if Placing(ops[n]) && ops[n].key in c {
        assert ops[n].key in ks;
      }
    }
  }

  lemma NothingPlaced(ops: seq<Op>, c: seq<Key>)
    requires ops == [] && forall k :: k in c ==> Placed(ops, k)
    ensures c == []
  {
    HeadIn(c);
  }

  lemma HeadIn(c: seq<Key>)
    ensures c != [] ==> c[0] in c
  {
  }

  /** Distinct touched keys need distinct operations. */
  lemma {:induction false} OpsCover(ops: seq<Op>, c: seq<Key>)
    requires NoDup(c) && forall k :: k in c ==> Touched(ops, k)
    ensures |c| <= |ops|
    decreases |ops|
  {
    if ops == [] {
      HeadIn(c);
    } else {
      var n := |ops| - 1;
      var d := Without(c, ops[n].key);
      DropOne(c, ops[n].key);
      forall k | k in d ensures Touched(ops[..n], k) {
        var j :| 0 <= j < |ops| && ops[j].key == k;
        assert ops[..n][j] == ops[j];
      }
      OpsCover(ops[..n], d);
    }
  }

  lemma ApplyMember(s: seq<Key>, op: Op, k: Key)
    requires NoDup(s) && Apply(s, op).Some?
    ensures var t := Apply(s, op).value;
      NoDup(t) && (k in t <==> if op.key == k then Placing(op) else k in s)
  {
    DropOne(s, op.key);
    if Placing(op) && !(op.Move? && op.after == Some(op.key)) {
      var base := if op.Move? then Without(s, op.key) else s;
      var x, y := PlaceSplit(base, op.key, op.after);
      PlaceNoDup(x, op.key, y);
    }
  }

  lemma PlaceNoDup(x: seq<Key>, k: Key, y: seq<Key>)
    requires NoDup(x + y) && k !in x + y
    ensures NoDup(x + [k] + y)
    ensures forall z :: z in x + [k] + y <==> z == k || z in x + y
  {
    var t := x + [k] + y;
    forall i, j | 0 <= i < j < |t| ensures t[i] != t[j] {
      var u := x + y;
      assert i != |x| ==> t[i] == u[if i < |x| then i else i - 1];
      assert j != |x| ==> t[j] == u[if j < |x| then j else j - 1];
    }
    forall z | z in x + y ensures z in t {
      if z in x {} else { assert z in y; }
    }
  }

  /** A key ends up in the order exactly when its last operation placed it, or it was there untouched. */
  lemma {:induction false} MemberTrace(s: seq<Key>, ops: seq<Op>, k: Key)
    requires NoDup(s) && ApplyAll(s, ops).Some?
    ensures var t := ApplyAll(s, ops).value;
      && NoDup(t)
      && (!Touched(ops, k) ==> (k in t <==> k in s))
      && (Touched(ops, k) && k in t ==> Placed(ops, k))
    decreases |ops|
  {
    hide Apply;
    if ops != [] {
      var n := |ops| - 1;
      MemberTrace(s, ops[..n], k);
      ApplyMember(ApplyAll(s, ops[..n]).value, ops[n], k);
      TouchedStep(ops, k);
    }
  }

  lemma TouchedStep(ops: seq<Op>, k: Key)
    requires ops != []
    ensures var n := |ops| - 1;
      && (Touched(ops, k) <==> Touched(ops[..n], k) || ops[n].key == k)
      && (Placed(ops, k) <==> Placed(ops[..n], k) || (ops[n].key == k && Placing(ops[n])))
  {
    var n := |ops| - 1;
    if Touched(ops[..n], k) {
      var j :| 0 <= j < n && ops[..n][j].key == k;
      assert ops[j].key == k;
    }
    if Placed(ops[..n], k) {
      var j :| 0 <= j < n && ops[..n][j].key == k && Placing(ops[..n][j]);
      assert ops[j].key == k;
    }
    if Touched(ops, k) && ops[n].key != k {
      var j :| 0 <= j < |ops| && ops[j].key == k;
      assert ops[..n][j] == ops[j];
    }
    if Placed(ops, k) && !(ops[n].key == k && Placing(ops[n])) {
      var j :| 0 <= j < |ops| && ops[j].key == k && Placing(ops[j]);
      assert ops[..n][j] == ops[j];
    }
  }

  /** Where each common key stood, read in target order. */
  function Ranks(prior: seq<Key>, common: seq<Key>): (r: seq<int>)
    requires forall k :: k in common ==> k in prior
    ensures |r| == |common| && forall i :: 0 <= i < |r| ==> r[i] == IndexOf(prior, common[i])
  {
    seq(|common|, i requires 0 <= i < |common| => IndexOf(prior, common[i]))
  }

  lemma KeyAt(s: seq<Key>, i: nat)
    requires NoDup(s) && i < |s|
    ensures IndexOf(s, s[i]) == i
  {
    var j := IndexOf(s, s[i]);
  }

  /** Keys that keep their relative order pick an increasing subsequence of the ranks. */
  lemma UnmovedIncrease(prior: seq<Key>, common: seq<Key>, ks: set<Key>)
    requires NoDup(prior) && NoDup(common) && (forall k :: k in common ==> k in prior)
    requires Keep(prior, ks) == Keep(common, ks)
    ensures Lis.Increasing(Ranks(prior, common), Kept(common, ks)) && |Kept(common, ks)| == |Keep(common, ks)|
  {
    var p, q := Kept(common, ks), Kept(prior, ks);
    var r := Ranks(prior, common);
    assert |p| == |q|;
    forall j | 0 <= j < |p| ensures r[p[j]] == q[j] {
      assert common[p[j]] == Pick(common, p)[j] == Pick(prior, q)[j] == prior[q[j]];
      KeyAt(prior, q[j]);
    }
  }

  lemma {:induction false} KeepCount(s: seq<Key>, ks: set<Key>, ls: set<Key>)
    requires forall k :: k in s ==> (k in ks <==> k !in ls)
    ensures |Keep(s, ks)| + |Keep(s, ls)| == |s|
  {
    if s != [] {
      KeepCount(s[..|s| - 1], ks, ls);
    }
  }

  lemma KeepOfSub(s: seq<Key>, big: set<Key>, ks: set<Key>)
    requires ks <= big
    ensures Keep(Keep(s, big), ks) == Keep(s, ks)
  {
    KeepTwice(s, big, ks);
    assert big * ks == ks;
  }

  function Members(s: seq<Key>): (r: set<Key>)
    ensures forall k :: k in r <==> k in s
  {
    set k | k in s
  }

  function Common(prior: seq<Key>, target: seq<Key>): seq<Key> { Keep(target, Members(prior)) }

  /**
   Any operations that reach the target place all but an increasing subsequence of the common keys,
   and touch those, every prior-only key and every new key.
   */
  lemma FewestMoves(prior: seq<Key>, target: seq<Key>, ops: seq<Op>)
    requires NoDup(prior) && NoDup(target) && ApplyAll(prior, ops) == Some(target)
    ensures var common := Common(prior, target);
      exists p :: Lis.Increasing(Ranks(prior, common), p)
        && |common| <= Placements(ops, Members(prior)) + |p|
        && |Keep(prior, Members(prior) - Members(target))| + |target| <= |ops| + |p|
  {
    hide Keep, ApplyAll, Placements;
    var common := Common(prior, target);
    var P := Members(prior);
    KeepNoDup(target, P);
    var still := set k | k in common && !Touched(ops, k);
    var moved := set k | k in common && Touched(ops, k);
    assert NoneTouched(ops, still);
    ApplyAllKeeps(prior, ops, still);
    KeepOfSub(target, P, still);
    UnmovedIncrease(prior, common, still);
    var p := Kept(common, still);
    KeepCount(common, still, moved);
    KeepNoDup(common, moved);
    var c := Keep(common, moved);
    forall k | k in c ensures k in P && Placed(ops, k) {
      MemberTrace(prior, ops, k);
    }
    PlacementsCover(ops, P, c);
    TouchedAll(prior, target, ops, moved, c);
    KeepCount(target, P, Members(target) - P);
  }

  predicate NoneTouched(ops: seq<Op>, ks: set<Key>)
    ensures NoneTouched(ops, ks) <==> forall j :: 0 <= j < |ops| ==> ops[j].key !in ks
  {
    forall k :: k in ks ==> !Touched(ops, k)
  }

  lemma TouchedAll(prior: seq<Key>, target: seq<Key>, ops: seq<Op>, moved: set<Key>, c: seq<Key>)
    requires NoDup(prior) && NoDup(target) && ApplyAll(prior, ops) == Some(target)
    requires NoDup(c) && forall k :: k in c ==> k in prior && k in target && Touched(ops, k)
    ensures var gone, added := Keep(prior, Members(prior) - Members(target)), Keep(target, Members(target) - Members(prior));
      |gone| + |added| + |c| <= |ops|
  {
    hide Keep, ApplyAll;
    var gone, added := Keep(prior, Members(prior) - Members(target)), Keep(target, Members(target) - Members(prior));
    KeepNoDup(prior, Members(prior) - Members(target));
    KeepNoDup(target, Members(target) - Members(prior));
    var all := gone + added + c;
    forall k | k in all ensures Touched(ops, k) {
      MemberTrace(prior, ops, k);
      assert k in gone || k in added || k in c;
    }
    Apart(gone, added);
    Apart(gone + added, c);
    OpsCover(ops, all);
  }

  lemma Apart(a: seq<Key>, b: seq<Key>)
    requires NoDup(a) && NoDup(b) && forall k :: k in a ==> k !in b
    ensures NoDup(a + b)
  {
    forall i, j | 0 <= i < j < |a + b| ensures (a + b)[i] != (a + b)[j] {
      if i < |a| <= j {
        assert a[i] in a && b[j - |a|] in b;
      }
    }
  }

  // -- the walk over the target ------------------------------------------------------------------------

  /** Keys already where they belong once `i` target keys are placed. */
  function Settled(target: seq<Key>, stable: set<Key>, i: nat): set<Key>
    requires i <= |target|
  {
    Members(target[..i]) + stable
  }

  /** The order reached after `i` target keys: settled keys are in target order, nothing is lost. */
  ghost predicate Walking(prior: seq<Key>, target: seq<Key>, stable: set<Key>, i: nat, cur: seq<Key>)
    requires i <= |target|
  {
    && NoDup(cur)
    && (forall k :: k in cur <==> k in target && (k in prior || k in target[..i]))
    && Keep(cur, Settled(target, stable, i)) == Keep(target, Settled(target, stable, i))
  }

  /** The key the next one is anchored to: the one placed just before it. */
  function Anchor(target: seq<Key>, i: nat): Option<Key>
    requires i <= |target|
  {
    if i == 0 then None else Some(target[i - 1])
  }

  lemma SettledPrefix(target: seq<Key>, stable: set<Key>, i: nat)
    requires NoDup(target) && i <= |target|
    ensures Keep(target, Settled(target, stable, i)) == target[..i] + Keep(target[i..], stable)
  {
    hide Keep;
    var ks := Settled(target, stable, i);
    assert target == target[..i] + target[i..];
    KeepConcat(target[..i], target[i..], ks);
    KeepAll(target[..i], ks);
    forall k | k in target[i..] ensures k in ks <==> k in stable {
      NotBefore(target, i, k);
    }
    KeepSame(target[i..], ks, stable);
  }

  lemma NotBefore(target: seq<Key>, i: nat, k: Key)
    requires NoDup(target) && i <= |target| && k in target[i..]
    ensures k !in target[..i]
  {
  }

  lemma WalkStable(prior: seq<Key>, target: seq<Key>, stable: set<Key>, i: nat, cur: seq<Key>)
    requires i < |target| && target[i] in stable && target[i] in prior && Walking(prior, target, stable, i, cur)
    ensures Walking(prior, target, stable, i + 1, cur)
  {
    hide Keep;
    assert target[..i + 1] == target[..i] + [target[i]];
    assert Settled(target, stable, i + 1) == Settled(target, stable, i);
  }

  /** Placing the next target key after the previous one settles it. */
  lemma WalkPlace(prior: seq<Key>, target: seq<Key>, stable: set<Key>, i: nat, cur: seq<Key>, op: Op)
    requires NoDup(target) && i < |target| && target[i] !in stable && Walking(prior, target, stable, i, cur)
    requires op.key == target[i] && (if target[i] in prior then op.Move? else op.Insert?) && op.after == Anchor(target, i)
    ensures Apply(cur, op).Some? && Walking(prior, target, stable, i + 1, Apply(cur, op).value)
  {
    hide Keep, Without, Place, Settled;
    var k, a := target[i], Anchor(target, i);
    var base := Without(cur, k);
    WalkBase(prior, target, stable, i, cur);
    PlaceExists(base, k, a);
    assert Apply(cur, op) == Place(base, k, a);
    var x, y := PlaceSplit(base, k, a);
    PlaceNoDup(x, k, y);
    PlaceSettles(target, stable, i, base, x, y);
    var t := x + [k] + y;
    assert target[..i + 1] == target[..i] + [k];
    forall z ensures z in t <==> z in target && (z in prior || z in target[..i + 1]) {
      assert z in target[..i + 1] <==> z in target[..i] || z == k;
    }
  }

  lemma PlaceExists(s: seq<Key>, k: Key, a: Option<Key>)
    requires a.Some? ==> a.value in s
    ensures Place(s, k, a).Some?
  {
  }

  /** Taking the key out first leaves the settled keys as they were. */
  lemma WalkBase(prior: seq<Key>, target: seq<Key>, stable: set<Key>, i: nat, cur: seq<Key>)
    requires NoDup(target) && i < |target| && target[i] !in stable && Walking(prior, target, stable, i, cur)
    ensures var k, a := target[i], Anchor(target, i);
      var base := Without(cur, k);
      && NoDup(base) && k !in base && a != Some(k) && (a.Some? ==> a.value in base)
      && (k in cur <==> k in prior) && (k !in prior ==> base == cur)
      && (forall z :: z in base <==> z != k && z in target && (z in prior || z in target[..i]))
      && Keep(base, Settled(target, stable, i)) == Keep(target, Settled(target, stable, i))
  {
    hide Keep;
    var k := target[i];
    assert k in target[i..];
    NotBefore(target, i, k);
    assert k !in Settled(target, stable, i);
    DropOne(cur, k);
    WithoutKeeps(cur, k, Settled(target, stable, i));
    if i > 0 {
      assert target[..i][i - 1] == target[i - 1];
      assert target[i - 1] in target[..i];
    }
  }

  lemma PlaceSettles(target: seq<Key>, stable: set<Key>, i: nat, base: seq<Key>, x: seq<Key>, y: seq<Key>)
    requires NoDup(target) && i < |target| && NoDup(base) && base == x + y && target[i] !in base && target[i] !in stable
    requires Keep(base, Settled(target, stable, i)) == Keep(target, Settled(target, stable, i))
    requires if i == 0 then x == [] else x != [] && x[|x| - 1] == target[i - 1]
    ensures Keep(x + [target[i]] + y, Settled(target, stable, i + 1)) == Keep(target, Settled(target, stable, i + 1))
  {
    hide Keep, Settled;
    var k := target[i];
    var ks, ls := Settled(target, stable, i), Settled(target, stable, i + 1);
    SettledNext(target, stable, i);
    SettledPrefix(target, stable, i);
    SettledPrefix(target, stable, i + 1);
    KeepMiddle(x, k, y, ls);
    KeepSame(x, ls, ks);
    KeepSame(y, ls, ks);
    KeepConcat(x, y, ks);
    KeepNoDup(base, ks);
    var rest := Keep(target[i..], stable);
    SkipHead(target, stable, i);
    assert Keep(x, ks) + Keep(y, ks) == target[..i] + rest;
    SplitsAt(target, i, x, ks, Keep(y, ks), rest);
    assert target[..i + 1] == target[..i] + [k];
  }

  lemma SettledNext(target: seq<Key>, stable: set<Key>, i: nat)
    requires i < |target|
    ensures target[i] in Settled(target, stable, i + 1)
    ensures forall z :: z != target[i] ==> (z in Settled(target, stable, i + 1) <==> z in Settled(target, stable, i))
    ensures i > 0 ==> target[i - 1] in Settled(target, stable, i)
  {
    assert target[..i + 1] == target[..i] + [target[i]];
    if i > 0 {
      assert target[..i][i - 1] == target[i - 1];
    }
  }

  lemma SkipHead(target: seq<Key>, stable: set<Key>, i: nat)
    requires i < |target| && target[i] !in stable
    ensures Keep(target[i..], stable) == Keep(target[i + 1..], stable)
  {
    hide Keep;
    assert target[i..] == [] + [target[i]] + target[i + 1..];
    KeepMiddle([], target[i], target[i + 1..], stable);
    KeepNil(stable);
  }

  /** The anchor occurs once, so both sides split after it. */
  lemma SplitsAt(target: seq<Key>, i: nat, x: seq<Key>, ks: set<Key>, back: seq<Key>, rest: seq<Key>)
    requires i <= |target| && Keep(x, ks) + back == target[..i] + rest && NoDup(target[..i] + rest)
    requires if i == 0 then x == [] else x != [] && x[|x| - 1] == target[i - 1] && target[i - 1] in ks
    ensures Keep(x, ks) == target[..i] && back == rest
  {
    var whole := target[..i] + rest;
    if i > 0 {
      var f := Keep(x, ks);
      assert f[|f| - 1] == target[i - 1];
      assert whole[|f| - 1] == (f + back)[|f| - 1] == target[i - 1] == whole[i - 1];
      assert |f| == i;
    }
    assert Keep(x, ks) == whole[..i] && back == whole[i..];
  }

  // -- removals ------------------------------------------------------------------------------------------

  /** The order once the first `j` prior keys have been looked at. */
  function Culled(prior: seq<Key>, target: seq<Key>, j: nat): seq<Key>
    requires j <= |prior|
  {
    Keep(prior[..j], Members(target)) + prior[j..]
  }

  lemma CullNext(prior: seq<Key>, target: seq<Key>, j: nat)
    requires NoDup(prior) && j < |prior|
    ensures var k := prior[j];
      if k in target then Culled(prior, target, j + 1) == Culled(prior, target, j)
      else Apply(Culled(prior, target, j), Remove(k)) == Some(Culled(prior, target, j + 1))
  {
    hide Keep, Without;
    var k := prior[j];
    var x, y := Keep(prior[..j], Members(target)), prior[j + 1..];
    assert prior[..j + 1] == prior[..j] + [k] && prior[j..] == [k] + y;
    KeepSnoc(prior[..j], k, Members(target));
    if k !in target {
      assert Culled(prior, target, j) == x + [k] + y;
      WithoutMiddle(x, k, y);
      assert Keep(prior[..j + 1], Members(target)) == x;
    } else {
      assert x + ([k] + y) == (x + [k]) + y;
    }
  }

  lemma {:induction false} WithoutMiddle(x: seq<Key>, k: Key, y: seq<Key>)
    requires k !in x
    ensures Without(x + [k] + y, k) == x + y && k in x + [k] + y
  {
    var s := x + [k] + y;
    assert s[|x|] == k;
    var i := IndexOf(s, k);
    assert forall j :: 0 <= j < |x| ==> s[j] == x[j];
  }

  lemma CullStart(prior: seq<Key>, target: seq<Key>)
    ensures Culled(prior, target, 0) == prior
  {
  }

  /** After the removals only common keys are left, the stable ones in target order. */
  lemma WalkStart(prior: seq<Key>, target: seq<Key>, lis: seq<nat>, stable: set<Key>)
    requires NoDup(prior) && NoDup(target) && Lis.Increasing(Ranks(prior, Common(prior, target)), lis)
    requires stable == Members(Pick(Common(prior, target), lis))
    ensures Walking(prior, target, stable, 0, Culled(prior, target, |prior|))
  {
    hide Keep;
    var common := Common(prior, target);
    var cur := Culled(prior, target, |prior|);
    assert prior[..|prior|] == prior && prior[|prior|..] == [] && cur == Keep(prior, Members(target));
    KeepNoDup(prior, Members(target));
    assert Settled(target, stable, 0) == stable;
    StableInTarget(prior, target, lis, stable);
    StableInPrior(prior, target, lis, stable);
    KeepOfSub(prior, Members(target), stable);
  }

  lemma StableInTarget(prior: seq<Key>, target: seq<Key>, lis: seq<nat>, stable: set<Key>)
    requires NoDup(target) && Lis.Positions(|Common(prior, target)|, lis)
    requires stable == Members(Pick(Common(prior, target), lis))
    ensures Keep(target, stable) == Pick(Common(prior, target), lis) == Keep(Common(prior, target), stable)
  {
    hide Keep;
    var common := Common(prior, target);
    KeepNoDup(target, Members(prior));
    MarksStable(common, lis, stable);
    PickIsKeep(common, lis, stable);
    KeepOfSub(target, Members(prior), stable);
  }

  lemma MarksStable(s: seq<Key>, p: seq<nat>, ks: set<Key>)
    requires NoDup(s) && Lis.Positions(|s|, p) && ks == Members(Pick(s, p))
    ensures Marks(s, p, ks)
  {
    forall i: nat | i < |s| ensures s[i] in ks <==> i in p {
      if i in p {
        var j :| 0 <= j < |p| && p[j] == i;
        assert Pick(s, p)[j] == s[i];
      }
      if s[i] in ks {
        var j :| 0 <= j < |p| && Pick(s, p)[j] == s[i];
        assert p[j] == i;
      }
    }
  }

  lemma StableInPrior(prior: seq<Key>, target: seq<Key>, lis: seq<nat>, stable: set<Key>)
    requires NoDup(prior) && Lis.Increasing(Ranks(prior, Common(prior, target)), lis)
    requires stable == Members(Pick(Common(prior, target), lis))
    ensures Keep(prior, stable) == Pick(Common(prior, target), lis)
  {
    hide Keep;
    var common := Common(prior, target);
    var r := Ranks(prior, common);
    var q: seq<nat> := seq(|lis|, j requires 0 <= j < |lis| => r[lis[j]]);
    assert Pick(prior, q) == Pick(common, lis);
    MarksStable(prior, q, stable);
    PickIsKeep(prior, q, stable);
  }

  // -- counting what the walk emits --------------------------------------------------------------------------

  lemma PlacementsSnoc(ops: seq<Op>, op: Op, ks: set<Key>)
    ensures Placements(ops + [op], ks) == Placements(ops, ks) + if Placing(op) && op.key in ks then 1 else 0
  {
    assert (ops + [op])[..|ops|] == ops;
  }

  lemma ApplySnoc(s: seq<Key>, ops: seq<Op>, op: Op)
    ensures ApplyAll(s, ops + [op]) == if ApplyAll(s, ops).None? then None else Apply(ApplyAll(s, ops).value, op)
  {
    assert (ops + [op])[..|ops|] == ops;
  }

  /** The counts after `i` target keys: one placement for each common key that is not stable, one insert for each new one. */
  ghost predicate Counted(prior: seq<Key>, target: seq<Key>, stable: set<Key>, i: nat, ops: seq<Op>)
    requires i <= |target|
  {
    && Placements(ops, Members(prior)) == |Keep(target[..i], Members(prior) - stable)|
    && |ops| == |Keep(prior, Members(prior) - Members(target))| + |Keep(target[..i], Members(target) - stable)|
  }

  lemma CountStep(prior: seq<Key>, target: seq<Key>, stable: set<Key>, i: nat, ops: seq<Op>, op: Op)
    requires i < |target| && Counted(prior, target, stable, i, ops)
    requires op.key == target[i] && Placing(op)
    ensures Counted(prior, target, stable, i + 1, if target[i] in stable then ops else ops + [op])
  {
    hide Keep, Placements;
    assert target[..i + 1] == target[..i] + [target[i]];
    KeepSnoc(target[..i], target[i], Members(prior) - stable);
    KeepSnoc(target[..i], target[i], Members(target) - stable);
    PlacementsSnoc(ops, op, Members(prior));
  }

  /** The finished counts are what any other operations need at least. */
  lemma CountIsLeast(prior: seq<Key>, target: seq<Key>, lis: seq<nat>, stable: set<Key>, ops: seq<Op>)
    requires NoDup(prior) && NoDup(target) && Lis.Increasing(Ranks(prior, Common(prior, target)), lis)
    requires forall p :: Lis.Increasing(Ranks(prior, Common(prior, target)), p) ==> |p| <= |lis|
    requires stable == Members(Pick(Common(prior, target), lis)) && Counted(prior, target, stable, |target|, ops)
    ensures forall others :: ApplyAll(prior, others) == Some(target) ==>
      Placements(ops, Members(prior)) <= Placements(others, Members(prior)) && |ops| <= |others|
  {
    hide Keep, ApplyAll, Placements;
    assert target[..|target|] == target;
    var common := Common(prior, target);
    StableInTarget(prior, target, lis, stable);
    KeepOfSub(target, Members(prior), Members(prior) - stable);
    KeepCount(common, stable, Members(prior) - stable);
    KeepCount(target, stable, Members(target) - stable);
    forall others | ApplyAll(prior, others) == Some(target)
      ensures Placements(ops, Members(prior)) <= Placements(others, Members(prior)) && |ops| <= |others|
    {
      FewestMoves(prior, target, others);
    }
  }

  // -- the reconciliation itself --------------------------------------------------------------------------------

  /** The common keys whose prior positions form a longest increasing subsequence. */
  method StableKeys(priorOrder: seq<Key>, targetOrder: seq<Key>) returns (stable: set<Key>)
    ensures exists lis :: LongestStable(priorOrder, targetOrder, lis, stable)
  {
    hide Keep, Lis.Increasing, IndexOf;
    var priorIndex := map k | k in priorOrder :: IndexOf(priorOrder, k);
    var common := Keep(targetOrder, Members(priorOrder));
    var ranks := seq(|common|, i requires 0 <= i < |common| => priorIndex[common[i]]);
    assert ranks == Ranks(priorOrder, common);
    var positions := Lis.LongestIncreasingSubsequence(ranks);
    LisBound(ranks, positions);
    stable := set i | 0 <= i < |positions| :: common[positions[i]];
    StableIs(common, positions, stable);
    assert LongestStable(priorOrder, targetOrder, positions, stable);
  }

  ghost predicate LongestStable(prior: seq<Key>, target: seq<Key>, lis: seq<nat>, stable: set<Key>) {
    && Lis.Increasing(Ranks(prior, Common(prior, target)), lis)
    && (forall p :: Lis.Increasing(Ranks(prior, Common(prior, target)), p) ==> |p| <= |lis|)
    && stable == Members(Pick(Common(prior, target), lis))
  }

  lemma StableFacts(prior: seq<Key>, target: seq<Key>, lis: seq<nat>, stable: set<Key>)
    requires NoDup(prior) && NoDup(target) && LongestStable(prior, target, lis, stable)
    ensures forall k :: k in stable ==> k in prior && k in target
    ensures Walking(prior, target, stable, 0, Culled(prior, target, |prior|))
  {
    hide Keep, Culled, Walking;
    WalkStart(prior, target, lis, stable);
    StableInTarget(prior, target, lis, stable);
    assert forall k :: k in stable ==> k in Common(prior, target);
  }

  /** Remove every prior-only key, in prior order. */
  method EmitRemovals(priorOrder: seq<Key>, targetOrder: seq<Key>) returns (ops: seq<Op>)
    requires NoDup(priorOrder)
    ensures ApplyAll(priorOrder, ops) == Some(Culled(priorOrder, targetOrder, |priorOrder|))
    ensures Placements(ops, Members(priorOrder)) == 0
    ensures |ops| == |Keep(priorOrder, Members(priorOrder) - Members(targetOrder))|
    ensures forall op :: op in ops ==> op.Remove? && op.key !in targetOrder
  {
    hide Keep, Placements, ApplyAll, Apply, Culled;
    var targetSet := Members(targetOrder);
    ops := [];
    CullStart(priorOrder, targetOrder);
    NothingDone(priorOrder, targetOrder);
    var j := 0;
    while j < |priorOrder|
      invariant j <= |priorOrder|
      invariant ApplyAll(priorOrder, ops) == Some(Culled(priorOrder, targetOrder, j))
      invariant Placements(ops, Members(priorOrder)) == 0
      invariant |ops| == |Keep(priorOrder[..j], Members(priorOrder) - targetSet)|
      invariant forall op :: op in ops ==> op.Remove? && op.key !in targetSet
    {
      var key := priorOrder[j];
      CullNext(priorOrder, targetOrder, j);
      assert priorOrder[..j + 1] == priorOrder[..j] + [key];
      KeepSnoc(priorOrder[..j], key, Members(priorOrder) - targetSet);
      if key !in targetSet {
        ApplySnoc(priorOrder, ops, Remove(key));
        PlacementsSnoc(ops, Remove(key), Members(priorOrder));
        ops := ops + [Remove(key)];
      }
      j := j + 1;
    }
    assert priorOrder[..|priorOrder|] == priorOrder;
  }

  /** What the placing loop has done after `i` target keys. */
  ghost predicate PlacedSoFar(prior: seq<Key>, target: seq<Key>, values: map<Key, Value>, stable: set<Key>, i: nat, cur: seq<Key>, ops: seq<Op>)
    requires i <= |target|
  {
    && ApplyAll(prior, ops) == Some(cur) && Walking(prior, target, stable, i, cur) && Counted(prior, target, stable, i, ops)
    && (forall op :: op in ops && op.Insert? ==> op.key in target && op.key in values && op.value == values[op.key])
    && (forall op :: op in ops ==> op.key !in stable)
    && (forall k :: k in target[..i] && k !in stable ==> Touched(ops, k))
  }

  lemma PlacedNext(prior: seq<Key>, target: seq<Key>, values: map<Key, Value>, stable: set<Key>, i: nat, cur: seq<Key>, ops: seq<Op>, op: Op)
    requires NoDup(target) && i < |target| && PlacedSoFar(prior, target, values, stable, i, cur, ops)
    requires target[i] in stable ==> target[i] in prior
    requires op.key == target[i] && (if target[i] in prior then op.Move? else op.Insert?) && op.after == Anchor(target, i)
    requires op.Insert? ==> op.key in values && op.value == values[op.key]
    ensures if target[i] in stable then PlacedSoFar(prior, target, values, stable, i + 1, cur, ops)
            else Apply(cur, op).Some? && PlacedSoFar(prior, target, values, stable, i + 1, Apply(cur, op).value, ops + [op])
  {
    hide Keep, Placements, ApplyAll, Apply, Walking, Settled, Counted;
    CountStep(prior, target, stable, i, ops, op);
    assert target[..i + 1] == target[..i] + [target[i]];
    if target[i] in stable {
      WalkStable(prior, target, stable, i, cur);
    } else {
      WalkPlace(prior, target, stable, i, cur, op);
      ApplySnoc(prior, ops, op);
      TouchedSnoc(ops, op);
    }
  }

  /** Walk the target: leave stable keys, move or insert the others after the key placed before them. */
  method EmitPlacements(priorOrder: seq<Key>, targetOrder: seq<Key>, targetValues: map<Key, Value>, stable: set<Key>, removals: seq<Op>)
      returns (ops: seq<Op>)
    requires NoDup(targetOrder) && forall k :: k in targetOrder ==> k in targetValues
    requires forall k :: k in stable ==> k in priorOrder
    requires PlacedSoFar(priorOrder, targetOrder, targetValues, stable, 0, Culled(priorOrder, targetOrder, |priorOrder|), removals)
    ensures PlacedSoFar(priorOrder, targetOrder, targetValues, stable, |targetOrder|, targetOrder, ops)
  {
    hide PlacedSoFar, Apply, Culled;
    ops := removals;
    ghost var cur := Culled(priorOrder, targetOrder, |priorOrder|);
    var placedAfter: Option<Key> := None;
    var i := 0;
    while i < |targetOrder|
      invariant i <= |targetOrder| && placedAfter == Anchor(targetOrder, i)
      invariant PlacedSoFar(priorOrder, targetOrder, targetValues, stable, i, cur, ops)
    {
      var key := targetOrder[i];
      var op := if key in priorOrder then Move(key, placedAfter) else Insert(key, targetValues[key], placedAfter);
      PlacedNext(priorOrder, targetOrder, targetValues, stable, i, cur, ops, op);
      if key !in stable {
        cur := Apply(cur, op).value;
        ops := ops + [op];
      }
      placedAfter := Some(key);
      i := i + 1;
    }
    PlacedAll(priorOrder, targetOrder, targetValues, stable, cur, ops);
  }

  lemma PlacedAll(prior: seq<Key>, target: seq<Key>, values: map<Key, Value>, stable: set<Key>, cur: seq<Key>, ops: seq<Op>)
    requires PlacedSoFar(prior, target, values, stable, |target|, cur, ops)
    ensures cur == target
  {
    WalkEnd(prior, target, stable, cur);
  }

  lemma PlacingStarts(prior: seq<Key>, target: seq<Key>, values: map<Key, Value>, lis: seq<nat>, stable: set<Key>, ops: seq<Op>)
    requires NoDup(prior) && NoDup(target) && LongestStable(prior, target, lis, stable)
    requires ApplyAll(prior, ops) == Some(Culled(prior, target, |prior|)) && Placements(ops, Members(prior)) == 0
    requires |ops| == |Keep(prior, Members(prior) - Members(target))|
    requires forall op :: op in ops ==> op.Remove? && op.key !in target
    ensures PlacedSoFar(prior, target, values, stable, 0, Culled(prior, target, |prior|), ops)
    ensures forall k :: k in stable ==> k in prior && k in target
  {
    hide Keep, Placements, ApplyAll, Culled, Walking, Counted, LongestStable;
    StableFacts(prior, target, lis, stable);
    CountStart(prior, target, stable, ops);
  }

  /** What the finished operations promise. */
  lemma PlacedGives(prior: seq<Key>, target: seq<Key>, values: map<Key, Value>, lis: seq<nat>, stable: set<Key>, ops: seq<Op>)
    requires NoDup(prior) && NoDup(target) && LongestStable(prior, target, lis, stable)
    requires PlacedSoFar(prior, target, values, stable, |target|, target, ops)
    ensures ApplyAll(prior, ops) == Some(target)
    ensures forall others :: ApplyAll(prior, others) == Some(target) ==>
      Placements(ops, Members(prior)) <= Placements(others, Members(prior)) && |ops| <= |others|
    ensures forall op :: op in ops && op.Insert? ==> op.key in target && op.key in values && op.value == values[op.key]
    ensures forall k :: k in target ==> (Touched(ops, k) <==> k !in stable)
  {
    hide Keep, Placements, ApplyAll, Walking, Counted;
    CountIsLeast(prior, target, lis, stable, ops);
    UntouchedIsStable(target, ops, stable);
  }

  /**
   Diff two keyed orders by key: the operations, applied one by one, turn the prior order into the
   target, and no operations that do so are fewer or place fewer prior keys.
   */
  method ReconcileCollections(priorOrder: seq<Key>, priorValues: map<Key, Value>, targetOrder: seq<Key>, targetValues: map<Key, Value>)
      returns (ops: seq<Op>, resultOrder: seq<Key>, notInvalidated: seq<Key>)
    requires NoDup(priorOrder) && NoDup(targetOrder)
    requires (forall k :: k in priorOrder ==> k in priorValues) && (forall k :: k in targetOrder ==> k in targetValues)
    ensures ApplyAll(priorOrder, ops) == Some(targetOrder) && resultOrder == targetOrder
    ensures forall others :: ApplyAll(priorOrder, others) == Some(targetOrder) ==>
      Placements(ops, Members(priorOrder)) <= Placements(others, Members(priorOrder)) && |ops| <= |others|
    ensures forall op :: op in ops && op.Insert? ==> op.key in targetOrder && op.value == targetValues[op.key]
    ensures forall k :: k in notInvalidated <==>
      k in priorOrder && k in targetOrder && !Touched(ops, k) && priorValues[k] == targetValues[k]
  {
    hide LongestStable, PlacedSoFar, Placements, ApplyAll, Culled, Touched, Keep;
    var stable := StableKeys(priorOrder, targetOrder);
    ghost var lis :| LongestStable(priorOrder, targetOrder, lis, stable);
    var removals := EmitRemovals(priorOrder, targetOrder);
    PlacingStarts(priorOrder, targetOrder, targetValues, lis, stable, removals);
    var common := Keep(targetOrder, Members(priorOrder));
    notInvalidated := KeepUnchanged(Keep(common, stable), priorValues, targetValues);
    ops := EmitPlacements(priorOrder, targetOrder, targetValues, stable, removals);
    PlacedGives(priorOrder, targetOrder, targetValues, lis, stable, ops);
    resultOrder := targetOrder;
  }

  method KeepUnchanged(keys: seq<Key>, priorValues: map<Key, Value>, targetValues: map<Key, Value>) returns (r: seq<Key>)
    requires forall k :: k in keys ==> k in priorValues && k in targetValues
    ensures forall k :: k in r <==> k in keys && priorValues[k] == targetValues[k]
  {
    r := [];
    var i := 0;
    while i < |keys|
      invariant i <= |keys|
      invariant forall k :: k in r <==> k in keys[..i] && priorValues[k] == targetValues[k]
    {
      assert keys[..i + 1] == keys[..i] + [keys[i]];
      if priorValues[keys[i]] == targetValues[keys[i]] {
        r := r + [keys[i]];
      }
      i := i + 1;
    }
    assert keys[..|keys|] == keys;
  }

  lemma LisBound(ranks: seq<int>, lis: seq<nat>)
    requires Lis.Increasing(ranks, lis)
    ensures Lis.Positions(|ranks|, lis) && forall i :: 0 <= i < |lis| ==> lis[i] < |ranks|
  {
  }

  lemma StableIs(common: seq<Key>, lis: seq<nat>, stable: set<Key>)
    requires forall i :: 0 <= i < |lis| ==> lis[i] < |common|
    requires stable == set i | 0 <= i < |lis| :: common[lis[i]]
    ensures stable == Members(Pick(common, lis))
  {
    var picked := Pick(common, lis);
    forall k ensures k in stable <==> k in picked {
      if k in stable {
        var i :| 0 <= i < |lis| && common[lis[i]] == k;
        assert picked[i] == k;
      }
    }
  }

  lemma NothingDone(prior: seq<Key>, target: seq<Key>)
    ensures ApplyAll(prior, []) == Some(prior) && Placements([], Members(prior)) == 0
    ensures Keep(prior[..0], Members(prior) - Members(target)) == []
  {
  }

  lemma CountStart(prior: seq<Key>, target: seq<Key>, stable: set<Key>, ops: seq<Op>)
    requires Placements(ops, Members(prior)) == 0 && |ops| == |Keep(prior, Members(prior) - Members(target))|
    ensures Counted(prior, target, stable, 0, ops)
  {
  }

  lemma WalkEnd(prior: seq<Key>, target: seq<Key>, stable: set<Key>, cur: seq<Key>)
    requires Walking(prior, target, stable, |target|, cur)
    ensures cur == target
  {
    assert target[..|target|] == target;
    KeepAll(cur, Settled(target, stable, |target|));
    KeepAll(target, Settled(target, stable, |target|));
  }

  lemma TouchedSnoc(ops: seq<Op>, op: Op)
    ensures forall k :: Touched(ops + [op], k) <==> Touched(ops, k) || k == op.key
  {
    forall k ensures Touched(ops + [op], k) <==> Touched(ops, k) || k == op.key {
      TouchedStep(ops + [op], k);
      assert (ops + [op])[..|ops|] == ops;
    }
  }

  lemma UntouchedIsStable(target: seq<Key>, ops: seq<Op>, stable: set<Key>)
    requires forall op :: op in ops ==> op.key !in stable
    requires forall k :: k in target[..|target|] && k !in stable ==> Touched(ops, k)
    ensures forall k :: k in target ==> (Touched(ops, k) <==> k !in stable)
  {
    assert target[..|target|] == target;
    forall k | k in target && Touched(ops, k) ensures k !in stable {
      var j :| 0 <= j < |ops| && ops[j].key == k;
      assert ops[j] in ops;
    }
  }
}
