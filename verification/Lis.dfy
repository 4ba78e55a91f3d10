/** Longest strictly increasing subsequence by patience sorting. */
module Lis {
  /** `p` lists positions of `s` from left to right. */
  ghost predicate Positions(n: nat, p: seq<nat>) {
    (forall j :: 0 <= j < |p| ==> p[j] < n) && forall i, j :: 0 <= i < j < |p| ==> p[i] < p[j]
  }

  /** `p` picks a strictly increasing subsequence of `s`. */
  ghost predicate Increasing(s: seq<int>, p: seq<nat>) {
    Positions(|s|, p) && forall i, j :: 0 <= i < j < |p| ==> s[p[i]] < s[p[j]]
  }

  /** Some pile at least as high as `p` ends no higher than `p` does. */
  ghost predicate Dominated(s: seq<int>, tails: seq<nat>, p: seq<nat>)
    requires p != [] && p[|p| - 1] < |s| && forall k :: 0 <= k < |tails| ==> tails[k] < |s|
  {
    |p| <= |tails| && s[tails[|p| - 1]] <= s[p[|p| - 1]]
  }

  /** Every increasing subsequence of the first `n` elements is dominated by a pile. */
  ghost predicate Dominates(s: seq<int>, n: nat, tails: seq<nat>)
    requires n <= |s| && forall k :: 0 <= k < |tails| ==> tails[k] < n
  {
    forall p :: Increasing(s, p) && p != [] && p[|p| - 1] < n ==> Dominated(s, tails, p)
  }

  /** Pile `k` ends in an element reached through `k` back links, and the piles' ends ascend. */
  ghost predicate Piles(s: seq<int>, n: nat, tails: seq<nat>, level: seq<nat>) {
    && |level| == n <= |s|
    && (forall k :: 0 <= k < |tails| ==> tails[k] < n && level[tails[k]] == k)
    && (forall j, k :: 0 <= j < k < |tails| ==> s[tails[j]] < s[tails[k]])
  }

  ghost predicate Links(s: seq<int>, n: nat, prev: seq<int>, level: seq<nat>) {
    && |level| == n <= |s| <= |prev|
    && forall i :: 0 <= i < n ==> LinkOk(s, prev, level, i)
  }

  ghost predicate LinkOk(s: seq<int>, prev: seq<int>, level: seq<nat>, i: nat)
    requires i < |level| <= |s| <= |prev|
  {
    if level[i] == 0 then prev[i] == -1
    else 0 <= prev[i] < i && level[prev[i]] == level[i] - 1 && s[prev[i]] < s[i]
  }

  /** The piles once `i` ends pile `lo`. */
  function Place(tails: seq<nat>, lo: nat, i: nat): (r: seq<nat>)
    requires lo <= |tails|
    ensures |r| == (if lo < |tails| then |tails| else |tails| + 1) && r[lo] == i
    ensures forall k :: 0 <= k < |tails| && k != lo ==> r[k] == tails[k]
  {
    if lo < |tails| then tails[lo := i] else tails + [i]
  }

  /** Adding element `i` to pile `lo` keeps every subsequence dominated. */
  lemma DominatesNext(s: seq<int>, i: nat, tails: seq<nat>, lo: nat)
    requires i < |s| && lo <= |tails| && (forall k :: 0 <= k < |tails| ==> tails[k] < i)
    requires Dominates(s, i, tails)
    requires forall k :: 0 <= k < lo ==> s[tails[k]] < s[i]
    requires forall k :: lo <= k < |tails| ==> s[i] <= s[tails[k]]
    ensures Dominates(s, i + 1, Place(tails, lo, i))
  {
    hide Increasing, Place, Dominated;
    forall p | Increasing(s, p) && p != [] && p[|p| - 1] < i + 1 ensures Dominated(s, Place(tails, lo, i), p) {
      InRange(s, p);
      if p[|p| - 1] < i {
        DominatedStill(s, i, tails, lo, p);
      } else if |p| > 1 {
        PrefixIncreasing(s, p);
        DominatedLonger(s, i, tails, lo, p);
      } else {
        DominatedOne(s, i, tails, lo, p);
      }
    }
  }

  lemma InRange(s: seq<int>, p: seq<nat>)
    requires Increasing(s, p) && p != []
    ensures p[|p| - 1] < |s|
  {
  }

  /** A subsequence that ends before `i` is matched as before. */
  lemma DominatedStill(s: seq<int>, i: nat, tails: seq<nat>, lo: nat, p: seq<nat>)
    requires i < |s| && lo <= |tails| && (forall k :: 0 <= k < |tails| ==> tails[k] < i)
    requires forall k :: lo <= k < |tails| ==> s[i] <= s[tails[k]]
    requires Increasing(s, p) && p != [] && Dominated(s, tails, p)
    ensures Dominated(s, Place(tails, lo, i), p)
  {
  }

  /** One that ends at `i` extends one whose pile ends below `s[i]`, so before pile `lo`. */
  lemma DominatedLonger(s: seq<int>, i: nat, tails: seq<nat>, lo: nat, p: seq<nat>)
    requires i < |s| && lo <= |tails| && (forall k :: 0 <= k < |tails| ==> tails[k] < i)
    requires forall k :: 0 <= k < lo ==> s[tails[k]] < s[i]
    requires forall k :: lo <= k < |tails| ==> s[i] <= s[tails[k]]
    requires |p| > 1 && p[|p| - 1] == i && Increasing(s, p) && Dominates(s, i, tails)
    requires var q := p[..|p| - 1]; Increasing(s, q) && q[|q| - 1] < i && s[q[|q| - 1]] < s[i]
    ensures Dominated(s, Place(tails, lo, i), p)
  {
    assert Dominated(s, tails, p[..|p| - 1]);
  }

  lemma DominatedOne(s: seq<int>, i: nat, tails: seq<nat>, lo: nat, p: seq<nat>)
    requires i < |s| && lo <= |tails| && (forall k :: 0 <= k < |tails| ==> tails[k] < i)
    requires forall k :: lo <= k < |tails| ==> s[i] <= s[tails[k]]
    requires forall k :: 0 <= k < lo ==> s[tails[k]] < s[i]
    requires |p| == 1 && p[0] == i && Increasing(s, p)
    ensures Dominated(s, Place(tails, lo, i), p)
  {
  }

  lemma PrefixIncreasing(s: seq<int>, p: seq<nat>)
    requires Increasing(s, p) && |p| > 1
    ensures var q := p[..|p| - 1]; Increasing(s, q) && q[|q| - 1] < p[|p| - 1] && s[q[|q| - 1]] < s[p[|p| - 1]]
  {
  }

  /** The piles after placing `i`. */
  lemma PilesNext(s: seq<int>, i: nat, tails: seq<nat>, level: seq<nat>, lo: nat)
    requires i < |s| && lo <= |tails| && Piles(s, i, tails, level)
    requires forall k :: 0 <= k < lo ==> s[tails[k]] < s[i]
    requires forall k :: lo <= k < |tails| ==> s[i] <= s[tails[k]]
    ensures Piles(s, i + 1, Place(tails, lo, i), level + [lo])
  {
  }

  /** Binary search for the leftmost pile that does not end below `value`. */
  method PileFor(s: seq<int>, tails: seq<nat>, value: int) returns (lo: nat)
    requires forall k :: 0 <= k < |tails| ==> tails[k] < |s|
    requires forall j, k :: 0 <= j < k < |tails| ==> s[tails[j]] < s[tails[k]]
    ensures lo <= |tails|
    ensures forall k :: 0 <= k < lo ==> s[tails[k]] < value
    ensures forall k :: lo <= k < |tails| ==> value <= s[tails[k]]
  {
    lo := 0;
    var hi := |tails|;
    while lo < hi
      invariant lo <= hi <= |tails|
      invariant forall k :: 0 <= k < lo ==> s[tails[k]] < value
      invariant forall k :: hi <= k < |tails| ==> value <= s[tails[k]]
    {
      var mid := (lo + hi) / 2;
      if s[tails[mid]] < value {
        lo := mid + 1;
      } else {
        hi := mid;
      }
    }
  }

  /** Follow the back links from `last` to a bottom pile. */
  method TraceBack(s: seq<int>, prev: array<int>, last: nat, ghost level: seq<nat>) returns (lis: seq<nat>)
    requires |level| == |s| && last < |s| && Links(s, |s|, prev[..], level)
    ensures Increasing(s, lis) && |lis| == level[last] + 1
  {
    var cursor: int := last;
    ghost var left: nat := level[last] + 1;
    lis := [];
    while cursor != -1
      invariant -1 <= cursor < |s| && Increasing(s, lis) && |lis| + left == level[last] + 1
      invariant if cursor == -1 then left == 0 else level[cursor] == left - 1
      invariant cursor >= 0 && lis != [] ==> cursor < lis[0] && s[cursor] < s[lis[0]]
      decreases cursor
    {
      assert LinkOk(s, prev[..], level, cursor);
      lis := [cursor] + lis;
      cursor := prev[cursor];
      left := left - 1;
    }
  }

  /** What the loop has found once it has placed the first `i` elements. */
  ghost predicate Placed(s: seq<int>, i: nat, tails: seq<nat>, prev: seq<int>, level: seq<nat>) {
    && i <= |s| == |prev| && Piles(s, i, tails, level) && Links(s, i, prev, level) && Dominates(s, i, tails)
    && (i > 0 ==> tails != []) && forall j :: i <= j < |prev| ==> prev[j] == -1
  }

  lemma NonePlaced(s: seq<int>, prev: seq<int>)
    requires |prev| == |s| && forall j :: 0 <= j < |prev| ==> prev[j] == -1
    ensures Placed(s, 0, [], prev, [])
  {
  }

  /** The piles end in ascending order. */
  lemma PilesGive(s: seq<int>, i: nat, tails: seq<nat>, prev: seq<int>, level: seq<nat>)
    requires Placed(s, i, tails, prev, level)
    ensures (forall k :: 0 <= k < |tails| ==> tails[k] < i) && (i < |s| ==> prev[i] == -1)
    ensures forall j, k :: 0 <= j < k < |tails| ==> s[tails[j]] < s[tails[k]]
  {
  }

  lemma PlacedNext(s: seq<int>, i: nat, tails: seq<nat>, prev: seq<int>, level: seq<nat>, lo: nat)
    requires Placed(s, i, tails, prev, level) && i < |s| && lo <= |tails|
    requires forall k :: 0 <= k < lo ==> s[tails[k]] < s[i]
    requires forall k :: lo <= k < |tails| ==> s[i] <= s[tails[k]]
    ensures Placed(s, i + 1, Place(tails, lo, i), prev[i := if lo > 0 then tails[lo - 1] else -1], level + [lo])
  {
    hide Dominates, Links, Piles;
    PilesGive(s, i, tails, prev, level);
    DominatesNext(s, i, tails, lo);
    PilesNext(s, i, tails, level, lo);
    LinkedNext(s, i, prev, tails, level, lo);
  }

  /** Once all are placed there are as many piles as elements in a longest subsequence, and the last one has links to all below. */
  lemma AllPlaced(s: seq<int>, tails: seq<nat>, prev: seq<int>, level: seq<nat>)
    requires s != [] && Placed(s, |s|, tails, prev, level)
    ensures |level| == |s| && tails != [] && tails[|tails| - 1] < |s| && level[tails[|tails| - 1]] == |tails| - 1
    ensures Links(s, |s|, prev, level) && forall p :: Increasing(s, p) ==> |p| <= |tails|
  {
    LongestIs(s, tails);
  }

  method LongestIncreasingSubsequence(s: seq<int>) returns (lis: seq<nat>)
    ensures Increasing(s, lis)
    ensures forall p :: Increasing(s, p) ==> |p| <= |lis|
  {
    hide Placed, Links, Increasing, LinkOk;
    var n := |s|;
    if n == 0 {
      lis := [];
      EmptyLis(s);
      return;
    }
    var tails: seq<nat> := [];
    var prev := new int[n](_ => -1);
    ghost var level: seq<nat> := [];
    NonePlaced(s, prev[..]);
    var i := 0;
    while i < n
      invariant i <= n && Placed(s, i, tails, prev[..], level)
    {
      ghost var before := prev[..];
      PilesGive(s, i, tails, before, level);
      var lo := PileFor(s, tails, s[i]);
      PlacedNext(s, i, tails, before, level, lo);
      if lo > 0 {
        prev[i] := tails[lo - 1];
      }
      assert prev[..] == before[i := if lo > 0 then tails[lo - 1] else -1];
      tails := Place(tails, lo, i);
      level := level + [lo];
      i := i + 1;
    }
    AllPlaced(s, tails, prev[..], level);
    lis := TraceBack(s, prev, tails[|tails| - 1], level);
  }

  lemma EmptyLis(s: seq<int>)
    requires s == []
    ensures Increasing(s, []) && forall p :: Increasing(s, p) ==> |p| <= 0
  {
    forall p | Increasing(s, p) ensures |p| <= 0 {
      FirstInside(|s|, p);
    }
  }

  lemma FirstInside(n: nat, p: seq<nat>)
    requires Positions(n, p)
    ensures p == [] || p[0] < n
  {
  }

  lemma LongestIs(s: seq<int>, tails: seq<nat>)
    requires (forall k :: 0 <= k < |tails| ==> tails[k] < |s|) && Dominates(s, |s|, tails)
    ensures forall p :: Increasing(s, p) ==> |p| <= |tails|
  {
    forall p | Increasing(s, p) ensures |p| <= |tails| {
      if p != [] {
        assert Dominated(s, tails, p);
      }
    }
  }

  /** Linking element `i` to the end of the pile before its own. */
  lemma LinkedNext(s: seq<int>, i: nat, before: seq<int>, tails: seq<nat>, level: seq<nat>, lo: nat)
    requires i < |s| <= |before| && before[i] == -1 && Links(s, i, before, level) && lo <= |tails| && Piles(s, i, tails, level)
    requires forall k :: 0 <= k < lo ==> s[tails[k]] < s[i]
    ensures Links(s, i + 1, before[i := if lo > 0 then tails[lo - 1] else -1], level + [lo])
  {
    hide Links;
    var after := before[i := if lo > 0 then tails[lo - 1] else -1];
    LinksNext(s, i, before, after, level, lo);
  }

  lemma LinksNext(s: seq<int>, i: nat, before: seq<int>, after: seq<int>, level: seq<nat>, lo: nat)
    requires i < |s| <= |before| == |after| && Links(s, i, before, level)
    requires forall j :: 0 <= j < |before| && j != i ==> after[j] == before[j]
    requires LinkOk(s, after, level + [lo], i)
    ensures Links(s, i + 1, after, level + [lo])
  {
    forall j | 0 <= j < i + 1 ensures LinkOk(s, after, level + [lo], j) {
      if j < i {
        assert LinkOk(s, before, level, j);
      }
    }
  }
}
