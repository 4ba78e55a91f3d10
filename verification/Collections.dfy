/** Keyed reconciliation: the emitted operations turn one order into another with the fewest moves. */
module Collections {
  import opened Basics
  import Lis

  type Key(==, !new)
  type Value(==, !new)

  /** `after` names the key to follow; None means the front. */
  datatype Op =
    | Remove(key: Key)
    | Move(key: Key, after: Option<Key>)
    | Insert(key: Key, value: Value, after: Option<Key>)

  ghost predicate NoDup(s: seq<Key>) { forall i, j :: 0 <= i < j < |s| ==> s[i] != s[j] }

  // -- what an operation does to an order ------------------------------------------------------

  function IndexOf(s: seq<Key>, k: Key): (i: nat)
    requires k in s
    ensures i < |s| && s[i] == k && k !in s[..i]
  {
    if s[0] == k then 0 else 1 + IndexOf(s[1..], k)
  }

  function Without(s: seq<Key>, k: Key): seq<Key> {
    if k in s then var i := IndexOf(s, k); s[..i] + s[i + 1..] else s
  }

  function Place(s: seq<Key>, k: Key, after: Option<Key>): Option<seq<Key>> {
    match after
    case None => Some([k] + s)
    case Some(a) => if a in s then var i := IndexOf(s, a) + 1; Some(s[..i] + [k] + s[i..]) else None
  }

  /** The order after `op`, or None where the keyed map would refuse it. */
  function Apply(s: seq<Key>, op: Op): Option<seq<Key>> {
    match op
    case Remove(k) => if k in s then Some(Without(s, k)) else None
    case Move(k, a) => if k !in s then None else if a == Some(k) then Some(s) else Place(Without(s, k), k, a)
    case Insert(k, _, a) => if k in s then None else Place(s, k, a)
  }

  function ApplyAll(s: seq<Key>, ops: seq<Op>): Option<seq<Key>>
    decreases |ops|
  {
    if ops == [] then Some(s)
    else
      var r := ApplyAll(s, ops[..|ops| - 1]);
      if r.None? then None else Apply(r.value, ops[|ops| - 1])
  }

  // -- subsequences by membership -----------------------------------------------------------------

  function Keep(s: seq<Key>, ks: set<Key>): (r: seq<Key>)
    ensures forall k :: k in r <==> k in s && k in ks
  {
    if s == [] then []
    else
      var n := |s| - 1;
      assert s == s[..n] + [s[n]];
      Keep(s[..n], ks) + if s[n] in ks then [s[n]] else []
  }

  ghost function Pick(s: seq<Key>, p: seq<nat>): (r: seq<Key>)
    requires forall j :: 0 <= j < |p| ==> p[j] < |s|
    ensures |r| == |p| && forall j :: 0 <= j < |p| ==> r[j] == s[p[j]]
  {
    seq(|p|, j requires 0 <= j < |p| => s[p[j]])
  }

  lemma {:induction false} KeepConcat(s: seq<Key>, t: seq<Key>, ks: set<Key>)
    ensures Keep(s + t, ks) == Keep(s, ks) + Keep(t, ks)
    decreases |t|
  {
    hide Keep;
    KeepNil(ks);
    if t == [] {
      assert s + t == s;
    } else {
      var n := |t| - 1;
      KeepConcat(s, t[..n], ks);
      KeepSnoc(s + t[..n], t[n], ks);
      KeepSnoc(t[..n], t[n], ks);
      assert s + t == (s + t[..n]) + [t[n]] && t == t[..n] + [t[n]];
    }
  }

  lemma KeepNil(ks: set<Key>)
    ensures Keep([], ks) == []
  {
  }

  lemma KeepSnoc(s: seq<Key>, k: Key, ks: set<Key>)
    ensures Keep(s + [k], ks) == Keep(s, ks) + if k in ks then [k] else []
  {
    assert (s + [k])[..|s|] == s;
  }

  lemma {:induction false} KeepSame(s: seq<Key>, ks: set<Key>, ls: set<Key>)
    requires forall k :: k in s ==> (k in ks <==> k in ls)
    ensures Keep(s, ks) == Keep(s, ls)
  {
    if s != [] {
      KeepSame(s[..|s| - 1], ks, ls);
    }
  }

  lemma {:induction false} KeepAll(s: seq<Key>, ks: set<Key>)
    requires forall k :: k in s ==> k in ks
    ensures Keep(s, ks) == s
  {
    if s != [] {
      var n := |s| - 1;
      KeepAll(s[..n], ks);
      assert Keep(s, ks) == s[..n] + [s[n]];
    }
  }

  lemma {:induction false} KeepTwice(s: seq<Key>, ks: set<Key>, ls: set<Key>)
    ensures Keep(Keep(s, ks), ls) == Keep(s, ks * ls)
  {
    if s != [] {
      var n := |s| - 1;
      KeepTwice(s[..n], ks, ls);
      KeepConcat(Keep(s[..n], ks), if s[n] in ks then [s[n]] else [], ls);
    }
  }

  lemma {:induction false} KeepNoDup(s: seq<Key>, ks: set<Key>)
    requires NoDup(s)
    ensures NoDup(Keep(s, ks))
  {
    if s != [] {
      KeepNoDup(s[..|s| - 1], ks);
    }
  }

  /** The positions that Keep picks. */
  ghost function Kept(s: seq<Key>, ks: set<Key>): (p: seq<nat>)
    ensures Lis.Positions(|s|, p) && Pick(s, p) == Keep(s, ks)
  {
    if s == [] then []
    else
      var n := |s| - 1;
      var p := Kept(s[..n], ks);
      KeepSnoc(s[..n], s[n], ks);
      assert s == s[..n] + [s[n]];
      PickSnoc(s, if s[n] in ks then p + [n] else p, p);
      p + if s[n] in ks then [n] else []
  }

  /** The positions of `p` are those of the members of `ks`. */
  ghost predicate Marks(s: seq<Key>, p: seq<nat>, ks: set<Key>) {
    Lis.Positions(|s|, p) && forall i: nat {:trigger s[i]} :: i < |s| ==> (s[i] in ks <==> i in p)
  }

  /** Picking exactly the positions of the members of `ks` is keeping them. */
  lemma {:induction false} PickIsKeep(s: seq<Key>, p: seq<nat>, ks: set<Key>)
    requires Marks(s, p, ks)
    ensures (forall j :: 0 <= j < |p| ==> p[j] < |s|) && Pick(s, p) == Keep(s, ks)
    decreases |s|
  {
    hide Marks, Keep;
    MarksBound(s, p, ks);
    if s == [] {
      KeepNil(ks);
      MarksNil(s, p, ks);
    } else {
      var n := |s| - 1;
      assert s == s[..n] + [s[n]];
      KeepSnoc(s[..n], s[n], ks);
      MarksPrefix(s, p, ks);
      var q := if s[n] in ks then p[..|p| - 1] else p;
      MarksBound(s[..n], q, ks);
      PickIsKeep(s[..n], q, ks);
      PickSnoc(s, p, q);
    }
  }

  /** Positions below the last index pick from the prefix, and the last index picks the last key. */
  lemma PickSnoc(s: seq<Key>, p: seq<nat>, q: seq<nat>)
    requires s != [] && (p == q || p == q + [|s| - 1]) && forall j :: 0 <= j < |q| ==> q[j] < |s| - 1
    ensures forall j :: 0 <= j < |p| ==> p[j] < |s|
    ensures Pick(s, p) == Pick(s[..|s| - 1], q) + if p == q then [] else [s[|s| - 1]]
  {
  }

  lemma MarksNil(s: seq<Key>, p: seq<nat>, ks: set<Key>)
    requires Marks(s, p, ks) && s == []
    ensures p == []
  {
    Lis.FirstInside(0, p);
  }

  lemma MarksBound(s: seq<Key>, p: seq<nat>, ks: set<Key>)
    requires Marks(s, p, ks)
    ensures forall j :: 0 <= j < |p| ==> p[j] < |s|
  {
  }

  lemma MarksPrefix(s: seq<Key>, p: seq<nat>, ks: set<Key>)
    requires Marks(s, p, ks) && s != []
    ensures var n := |s| - 1;
      && (forall j :: 0 <= j < |p| ==> p[j] < |s|)
      && if s[n] in ks then p != [] && p[|p| - 1] == n && Marks(s[..n], p[..|p| - 1], ks) else Marks(s[..n], p, ks)
  {
    var n := |s| - 1;
    if s[n] in ks {
      assert n in p;
      var q := p[..|p| - 1];
      assert p[|p| - 1] == n;
      forall i: nat | i < n ensures s[..n][i] in ks <==> i in q {
        assert s[i] in ks <==> i in p;
      }
    } else {
      assert n !in p;
      forall j | 0 <= j < |p| ensures p[j] < n {
        assert p[j] in p;
      }
      forall i: nat | i < n ensures s[..n][i] in ks <==> i in p {
        assert s[i] in ks <==> i in p;
      }
    }
  }
}
