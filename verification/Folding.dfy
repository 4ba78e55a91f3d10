/** Left folds under an associative merge: any grouping of the operands folds to the same total. */
module Folding {
  function FoldL<V>(m: (V, V) -> V, s: seq<V>): V
    requires s != []
  {
    if |s| == 1 then s[0] else m(FoldL(m, s[..|s| - 1]), s[|s| - 1])
  }

  ghost predicate Associative<V(!new)>(m: (V, V) -> V) { forall a, b, c :: m(m(a, b), c) == m(a, m(b, c)) }

  lemma FoldSnoc<V>(m: (V, V) -> V, s: seq<V>, v: V)
    requires s != []
    ensures FoldL(m, s + [v]) == m(FoldL(m, s), v)
  {
    assert (s + [v])[..|s|] == s;
  }

  lemma {:induction false} FoldConcat<V(!new)>(m: (V, V) -> V, s: seq<V>, t: seq<V>)
    requires Associative(m) && s != [] && t != []
    ensures FoldL(m, s + t) == m(FoldL(m, s), FoldL(m, t))
    decreases |t|
  {
    var n := |t| - 1;
    if n == 0 {
      assert t == [t[0]];
      FoldSnoc(m, s, t[0]);
    } else {
      FoldConcat(m, s, t[..n]);
      assert s + t == (s + t[..n]) + [t[n]] && t == t[..n] + [t[n]];
      FoldSnoc(m, s + t[..n], t[n]);
      FoldSnoc(m, t[..n], t[n]);
    }
  }

  function Flatten<V>(parts: seq<seq<V>>): seq<V> {
    if parts == [] then [] else Flatten(parts[..|parts| - 1]) + parts[|parts| - 1]
  }

  /** The fold of each part. */
  function Folds<V>(m: (V, V) -> V, parts: seq<seq<V>>): (r: seq<V>)
    requires forall i :: 0 <= i < |parts| ==> parts[i] != []
    ensures |r| == |parts|
  {
    if parts == [] then [] else Folds(m, parts[..|parts| - 1]) + [FoldL(m, parts[|parts| - 1])]
  }

  /** Folding the folds of the parts is folding everything. */
  lemma {:induction false} FoldOfFolds<V(!new)>(m: (V, V) -> V, parts: seq<seq<V>>)
    requires Associative(m) && parts != [] && forall i :: 0 <= i < |parts| ==> parts[i] != []
    ensures Flatten(parts) != [] && FoldL(m, Folds(m, parts)) == FoldL(m, Flatten(parts))
    decreases |parts|
  {
    var n := |parts| - 1;
    if n > 0 {
      FoldOfFolds(m, parts[..n]);
      FoldSnoc(m, Folds(m, parts[..n]), FoldL(m, parts[n]));
      FoldConcat(m, Flatten(parts[..n]), parts[n]);
    } else {
      assert Flatten(parts) == parts[0];
      assert Folds(m, parts) == [FoldL(m, parts[0])];
    }
  }

  /** A left fold from a starting value. */
  function FoldFrom<V>(m: (V, V) -> V, start: V, s: seq<V>): V {
    if s == [] then start else m(FoldFrom(m, start, s[..|s| - 1]), s[|s| - 1])
  }

  lemma {:induction false} FoldFromConcat<V>(m: (V, V) -> V, start: V, s: seq<V>, t: seq<V>)
    ensures FoldFrom(m, start, s + t) == FoldFrom(m, FoldFrom(m, start, s), t)
    decreases |t|
  {
    if t == [] {
      assert s + t == s;
    } else {
      var n := |t| - 1;
      FoldFromConcat(m, start, s, t[..n]);
      assert (s + t)[..|s| + n] == s + t[..n];
    }
  }

  /** Under an associative merge the operands may be folded on their own first. */
  lemma {:induction false} FoldFromIs<V(!new)>(m: (V, V) -> V, start: V, s: seq<V>)
    requires Associative(m) && s != []
    ensures FoldFrom(m, start, s) == m(start, FoldL(m, s))
    decreases |s|
  {
    var n := |s| - 1;
    if n > 0 {
      FoldFromIs(m, start, s[..n]);
    } else {
      assert FoldFrom(m, start, s[..0]) == start;
    }
  }
}
