/** Fractional sort keys: byte strings with a key strictly between almost any two. */
module FracKeys {
  import opened Basics
  import opened ByteOrder

  type Key = seq<nat>

  predicate Bytes(k: Key) { forall i :: 0 <= i < |k| ==> k[i] < 256 }

  /** A key that does not end in a zero byte. */
  predicate Proper(k: Key) { Bytes(k) && (k != [] ==> k[|k| - 1] != 0) }

  /** `r` lies strictly between the bounds, None being open. */
  predicate Inside(lo: Key, r: Key, hi: Option<Key>) { Less(lo, r) && (hi.Some? ==> Less(r, hi.value)) }

  /** `hi` is `lo` followed by nothing but zero bytes. */
  predicate Padded(lo: Key, hi: Key) { lo <= hi && forall i :: |lo| <= i < |hi| ==> hi[i] == 0 }

  function Head(k: Key): nat { if k == [] then 0 else k[0] }
  function Tail(k: Key): Key { if k == [] then [] else k[1..] }
  function Cap(hi: Option<Key>): nat { if hi.None? then 256 else Head(hi.value) }
  function CapTail(hi: Option<Key>): Option<Key> { if hi.None? then None else Some(Tail(hi.value)) }
  function Size(hi: Option<Key>): nat { if hi.None? then 0 else |hi.value| }

  /** The key chosen between the bounds when at most `left` more bytes may be compared. */
  function Middle(lo: Key, hi: Option<Key>, left: nat): (r: Key)
    ensures r != []
    decreases hi.Some?, |lo|, left
  {
    if left == 0 then [128]
    else
      var a, b := Head(lo), Cap(hi);
      if a + 1 < b then [(a + b) / 2]
      else if a < b then [a] + Middle(Tail(lo), None, |Tail(lo)| + 3)
      else [a] + Middle(Tail(lo), CapTail(hi), left - 1)
  }

  function KeyBetween(lo: Key, hi: Option<Key>): Key { Middle(lo, hi, |lo| + Size(hi) + 3) }

  // -- what the key is --------------------------------------------------------------------------

  lemma ConsProper(a: nat, r: Key)
    requires a < 256 && Proper(r) && r != []
    ensures Proper([a] + r)
  {
    var k := [a] + r;
    assert k[|k| - 1] == r[|r| - 1];
  }

  lemma TailBytes(k: Key)
    requires Bytes(k)
    ensures Bytes(Tail(k)) && Head(k) < 256
  {
  }

  lemma {:induction false} MiddleProper(lo: Key, hi: Option<Key>, left: nat)
    requires Bytes(lo) && (hi.Some? ==> Bytes(hi.value))
    ensures Proper(Middle(lo, hi, left))
    decreases hi.Some?, |lo|, left
  {
    hide Middle, Proper, Bytes;
    if left == 0 {
      MiddleEnd(lo, hi);
      OneByte(128);
    } else {
      var a, b := Head(lo), Cap(hi);
      MiddleStep(lo, hi, left);
      TailBytes(lo);
      if hi.Some? {
        TailBytes(hi.value);
      }
      if a + 1 < b {
        OneByte((a + b) / 2);
      } else if a < b {
        MiddleProper(Tail(lo), None, |Tail(lo)| + 3);
        ConsProper(a, KeyBetween(Tail(lo), None));
      } else {
        MiddleProper(Tail(lo), CapTail(hi), left - 1);
        ConsProper(a, Middle(Tail(lo), CapTail(hi), left - 1));
      }
    }
  }

  lemma OneByte(b: nat)
    requires 0 < b < 256
    ensures Proper([b])
  {
  }

  /** The bounds differ, as if both went on in zero bytes, and the lower one is lower there. */
  predicate Apart(lo: Key, hi: Key)
    decreases |lo| + |hi|
  {
    if lo == [] && hi == [] then false
    else Head(lo) < Head(hi) || (Head(lo) == Head(hi) && Apart(Tail(lo), Tail(hi)))
  }

  lemma {:induction false} ApartMeans(lo: Key, hi: Key)
    ensures Apart(lo, hi) <==> Less(lo, hi) && !Padded(lo, hi)
    decreases |lo| + |hi|
  {
    if lo != [] || hi != [] {
      ApartMeans(Tail(lo), Tail(hi));
      if hi != [] && Head(lo) == Head(hi) {
        PaddedStep(lo, hi);
      }
    }
  }

  lemma PaddedStep(lo: Key, hi: Key)
    requires hi != [] && Head(lo) == Head(hi)
    ensures Padded(lo, hi) <==> Padded(Tail(lo), Tail(hi))
  {
    if lo != [] {
      assert lo == [lo[0]] + lo[1..] && hi == [hi[0]] + hi[1..];
      assert lo <= hi <==> lo[1..] <= hi[1..];
      assert forall i :: |lo| <= i < |hi| ==> hi[i] == hi[1..][i - 1];
      if Padded(lo[1..], hi[1..]) {
        forall i | |lo| <= i < |hi| ensures hi[i] == 0 {
          assert hi[1..][i - 1] == 0;
        }
      }
    } else {
      assert forall i :: 1 <= i < |hi| ==> hi[i] == hi[1..][i - 1];
      if Padded([], hi[1..]) {
        forall i | 0 <= i < |hi| ensures hi[i] == 0 {
          assert i > 0 ==> hi[1..][i - 1] == 0;
        }
      }
    }
  }

  /** Open above: the key is always greater. */
  lemma {:induction false} MiddleAbove(lo: Key, left: nat)
    requires Bytes(lo) && left > |lo|
    ensures Less(lo, Middle(lo, None, left))
    decreases |lo|
  {
    if lo != [] {
      assert lo == [lo[0]] + lo[1..];
      if lo[0] == 255 {
        MiddleAbove(lo[1..], |lo[1..]| + 3);
        LessStep(255, lo[1..], 255, Middle(lo[1..], None, |lo[1..]| + 3));
      }
    }
  }

  lemma {:induction false} MiddleInside(lo: Key, hi: Key, left: nat)
    requires Bytes(lo) && Bytes(hi) && left >= |lo| + |hi|
    ensures Inside(lo, Middle(lo, Some(hi), left), Some(hi)) <==> Apart(lo, hi)
    decreases left
  {
    if left != 0 {
      var a, b := Head(lo), Head(hi);
      if a + 1 < b {
      } else if a < b {
        MiddleAbove(Tail(lo), |Tail(lo)| + 3);
        StepInside(lo, hi, a, Middle(Tail(lo), None, |Tail(lo)| + 3));
      } else {
        MiddleInside(Tail(lo), Tail(hi), left - 1);
        StepInside(lo, hi, a, Middle(Tail(lo), Some(Tail(hi)), left - 1));
      }
    }
  }

  /** Adding the shared or lower byte in front. */
  lemma StepInside(lo: Key, hi: Key, a: nat, r: Key)
    requires a == Head(lo) && r != []
    ensures Less(lo, [a] + r) <==> Less(Tail(lo), r)
    ensures Less([a] + r, hi) <==> hi != [] && (a < Head(hi) || (a == Head(hi) && Less(r, Tail(hi))))
  {
    assert ([a] + r)[1..] == r;
  }

  /**
   The chosen key never ends in zero, and it lies strictly between the bounds exactly when they are
   in order and the upper one is not the lower one padded with zero bytes.
   */
  lemma KeyIsBetween(lo: Key, hi: Option<Key>)
    requires Bytes(lo) && (hi.Some? ==> Bytes(hi.value))
    ensures Proper(KeyBetween(lo, hi))
    ensures Inside(lo, KeyBetween(lo, hi), hi) <==> hi.None? || (Less(lo, hi.value) && !Padded(lo, hi.value))
  {
    hide Middle, Apart, Less, Padded, Proper;
    MiddleProper(lo, hi, |lo| + Size(hi) + 3);
    if hi.None? {
      MiddleAbove(lo, |lo| + 3);
    } else {
      MiddleInside(lo, hi.value, |lo| + |hi.value| + 3);
      ApartMeans(lo, hi.value);
    }
  }

  /** Keys that do not end in zero are dense: between any two there is one more. */
  lemma Dense(lo: Key, hi: Key)
    requires Bytes(lo) && Proper(hi) && Less(lo, hi)
    ensures var r := KeyBetween(lo, Some(hi)); Proper(r) && Less(lo, r) && Less(r, hi)
  {
    KeyIsBetween(lo, Some(hi));
    NotLessSelf(lo);
    assert Padded(lo, hi) ==> hi == lo;
  }

  lemma {:induction false} MiddleSame(k: Key, left: nat)
    requires Bytes(k) && left >= |k|
    ensures Less(k, Middle(k, Some(k), left))
    decreases left
  {
    if k != [] {
      MiddleSame(Tail(k), left - 1);
      StepInside(k, k, Head(k), Middle(Tail(k), Some(Tail(k)), left - 1));
    }
  }

  /** Equal bounds leave no room: the key chosen is above both. */
  lemma NoRoom(k: Key)
    requires Bytes(k)
    ensures Less(k, KeyBetween(k, Some(k)))
  {
    hide Less, Middle;
    MiddleSame(k, 2 * |k| + 3);
  }

  // -- the two loops ------------------------------------------------------------------------------

  function From(k: Key, i: nat): Key { if i <= |k| then k[i..] else [] }
  function CapFrom(hi: Option<Key>, i: nat): Option<Key> { if hi.None? then None else Some(From(hi.value, i)) }

  function OrEmpty(k: Option<Key>): Key { if k.None? then [] else k.value }

  lemma FromStep(lo: Key, hi: Option<Key>, i: nat)
    ensures Head(From(lo, i)) == (if i < |lo| then lo[i] else 0) && Tail(From(lo, i)) == From(lo, i + 1)
    ensures Cap(CapFrom(hi, i)) == (if hi.None? then 256 else if i < |hi.value| then hi.value[i] else 0)
    ensures CapTail(CapFrom(hi, i)) == CapFrom(hi, i + 1)
  {
  }

  /** The tree's key: an empty rest of the lower bound is passed on as an empty key. */
  method TreeKeyBetween(lo: Option<Key>, hi: Option<Key>) returns (result: Key)
    ensures result == KeyBetween(OrEmpty(lo), hi)
    decreases hi.Some?, Size(lo)
  {
    hide Middle, Head, Tail, Cap, CapTail;
    ghost var low := OrEmpty(lo);
    result := [];
    var i := 0;
    var cap := Size(lo) + Size(hi) + 2;
    assert From(low, 0) == low && CapFrom(hi, 0) == hi;
    while i <= cap
      invariant 0 <= i <= cap + 1
      invariant KeyBetween(low, hi) == result + Middle(From(low, i), CapFrom(hi, i), cap + 1 - i)
    {
      var a := if lo.Some? && i < |lo.value| then lo.value[i] else 0;
      var b := if hi.Some? then (if i < |hi.value| then hi.value[i] else 0) else 256;
      FromStep(low, hi, i);
      MiddleStep(From(low, i), CapFrom(hi, i), cap + 1 - i);
      if a + 1 < b {
        result := result + [(a + b) / 2];
        return;
      }
      Regroup(result, a);
      result := result + [a];
      i := i + 1;
      if a < b {
        var rest := if lo.Some? && i <= |lo.value| then lo.value[i..] else [];
        var more := TreeKeyBetween(Some(rest), None);
        result := result + more;
        return;
      }
    }
    MiddleEnd(From(low, i), CapFrom(hi, i));
    result := result + [128];
  }

  lemma Regroup(x: Key, a: nat)
    ensures forall y :: (x + [a]) + y == x + ([a] + y)
  {
  }

  lemma MiddleStep(lo: Key, hi: Option<Key>, left: nat)
    requires left > 0
    ensures var a, b := Head(lo), Cap(hi);
      Middle(lo, hi, left) ==
        if a + 1 < b then [(a + b) / 2]
        else if a < b then [a] + KeyBetween(Tail(lo), None)
        else [a] + Middle(Tail(lo), CapTail(hi), left - 1)
  {
  }

  lemma MiddleEnd(lo: Key, hi: Option<Key>)
    ensures Middle(lo, hi, 0) == [128]
  {
  }

  /** The sequence's key: an empty rest of the lower bound is passed on as no bound. */
  method SeqKeyBetween(lo: Option<Key>, hi: Option<Key>) returns (result: Key)
    ensures result == KeyBetween(OrEmpty(lo), hi)
    decreases hi.Some?, Size(lo)
  {
    hide Middle, Head, Tail, Cap, CapTail;
    ghost var low := OrEmpty(lo);
    result := [];
    var cap := Size(lo) + Size(hi) + 2;
    var i := 0;
    assert From(low, 0) == low && CapFrom(hi, 0) == hi;
    while i <= cap
      invariant 0 <= i <= cap + 1
      invariant KeyBetween(low, hi) == result + Middle(From(low, i), CapFrom(hi, i), cap + 1 - i)
    {
      var a := if lo.Some? && i < |lo.value| then lo.value[i] else 0;
      var b := if hi.None? then 256 else if i < |hi.value| then hi.value[i] else 0;
      FromStep(low, hi, i);
      MiddleStep(From(low, i), CapFrom(hi, i), cap + 1 - i);
      if a + 1 < b {
        result := result + [(a + b) / 2];
        return;
      }
      Regroup(result, a);
      result := result + [a];
      i := i + 1;
      if a < b {
        var rest := if lo.Some? && i <= |lo.value| then lo.value[i..] else [];
        var more := SeqKeyBetween(if rest != [] then Some(rest) else None, None);
        result := result + more;
        return;
      }
    }
    MiddleEnd(From(low, i), CapFrom(hi, i));
    result := result + [128];
  }
}
