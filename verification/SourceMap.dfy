/** The keyed ordered map: moves reorder keys and never touch a value or a handle. */
module SourceMap {
  import opened Basics
  import opened Collections
  import opened Reconcile

  datatype At = End | Start | Index(index: int) | After(anchor: Key)

  function Clamp(i: int, hi: int): int {
    if i < 0 || hi < 0 then 0 else if i > hi then hi else i
  }

  /** `key` taken out of `s` and put back at position `i`. */
  function MovedTo(s: seq<Key>, key: Key, i: nat): seq<Key>
    requires key in s && i < |s|
  {
    WithoutSplit(s, key);
    Without(s, key)[..i] + [key] + Without(s, key)[i..]
  }

  lemma MovedToAt(s: seq<Key>, key: Key, i: nat)
    requires NoDup(s) && key in s && i < |s|
    ensures var t := MovedTo(s, key, i);
      NoDup(t) && |t| == |s| && t[i] == key && Without(t, key) == Without(s, key) && forall k :: k in t <==> k in s
  {
    DropOne(s, key);
    WithoutSplit(s, key);
    var b := Without(s, key);
    assert b == b[..i] + b[i..];
    PlaceNoDup(b[..i], key, b[i..]);
    WithoutMiddle(b[..i], key, b[i..]);
  }

  /** Where an anchor stands once another key is taken out. */
  lemma IndexWithout(s: seq<Key>, key: Key, a: Key)
    requires NoDup(s) && key in s && a in s && a != key
    ensures var i, from := IndexOf(s, a), IndexOf(s, key);
      a in Without(s, key) && IndexOf(Without(s, key), a) == if from < i then i - 1 else i
  {
    DropOne(s, key);
    WithoutSplit(s, key);
    var i, from := IndexOf(s, a), IndexOf(s, key);
    var b := Without(s, key);
    var j := if from < i then i - 1 else i;
    assert b[j] == a;
    KeyAt(b, j);
  }

  /** Moving after an anchor is what the reconciliation's move asks for. */
  lemma MovedAfter(s: seq<Key>, key: Key, a: Key)
    requires NoDup(s) && key in s && a in s
    ensures var i, from := IndexOf(s, a) + 1, IndexOf(s, key);
      var slot := if from < i then i - 1 else i;
      slot < |s| && Apply(s, Move(key, Some(a))) == Some(MovedTo(s, key, slot))
  {
    hide NoDup, Without, IndexOf, MovedTo;
    if a != key {
      MovedAfterOther(s, key, a);
    } else {
      PutBack(s, key);
    }
  }

  lemma MovedAfterOther(s: seq<Key>, key: Key, a: Key)
    requires NoDup(s) && key in s && a in s && a != key
    ensures var i, from := IndexOf(s, a) + 1, IndexOf(s, key);
      var slot := if from < i then i - 1 else i;
      slot < |s| && Apply(s, Move(key, Some(a))) == Some(MovedTo(s, key, slot))
  {
    hide NoDup, Without, IndexOf;
    WithoutSplit(s, key);
    IndexWithout(s, key, a);
  }

  /** A key put back where it stood. */
  lemma PutBack(s: seq<Key>, key: Key)
    requires NoDup(s) && key in s
    ensures var i := IndexOf(s, key); i < |s| && MovedTo(s, key, i) == s && Without(s, key)[..i] == s[..i] && Without(s, key)[i..] == s[i + 1..]
  {
    hide NoDup, Without;
    WithoutSplit(s, key);
    var i := IndexOf(s, key);
    assert Without(s, key)[..i] == s[..i] && Without(s, key)[i..] == s[i + 1..];
  }

  class SourceMap {
    var order: seq<Key>
    var values: map<Key, Value>
    var handles: map<Key, nat>
    var nextHandle: nat

    /** The three parts hold the same keys, once each, and handles are distinct. */
    ghost predicate Valid()
      reads this
    {
      && NoDup(order)
      && (forall k :: (k in order <==> k in values) && (k in order <==> k in handles))
      && (forall k :: k in handles ==> handles[k] < nextHandle)
      && (forall k, l :: k in handles && l in handles && handles[k] == handles[l] ==> k == l)
    }

    lemma ValidOrder()
      requires Valid()
      ensures NoDup(order)
    {
    }

    constructor ()
      ensures Valid() && order == []
    {
      order, values, handles, nextHandle := [], map[], map[], 0;
    }

    /** Where an insertion goes, or None when its anchor is missing. */
    method Slot(at: At) returns (slot: Option<nat>)
      ensures slot.None? <==> at.After? && at.anchor !in order
      ensures slot.Some? ==> slot.value <= |order|
      ensures at.End? ==> slot == Some(|order|)
      ensures at.Start? ==> slot == Some(0)
      ensures at.Index? ==> slot == Some(Clamp(at.index, |order|) as nat)
      ensures at.After? && slot.Some? ==> slot == Some(IndexOf(order, at.anchor) + 1)
    {
      match at {
        case End => slot := Some(|order|);
        case Start => slot := Some(0);
        case Index(i) => slot := Some(Clamp(i, |order|));
        case After(anchor) => slot := if anchor in order then Some(IndexOf(order, anchor) + 1) else None;
      }
    }

    /** Refused when the key is there already or the anchor is not; a new entry gets a new handle. */
    method Insert(key: Key, value: Value, at: At) returns (ok: bool)
      requires Valid()
      modifies this
      ensures Valid()
      ensures ok == (key !in old(order) && (at.After? ==> at.anchor in old(order)))
      ensures !ok ==> order == old(order) && values == old(values) && handles == old(handles)
      ensures ok ==> Without(order, key) == old(order) && values == old(values)[key := value]
      ensures ok ==> key in handles && handles == old(handles)[key := handles[key]] && handles[key] !in old(handles).Values
      ensures ok && at.Start? ==> Apply(old(order), Collections.Insert(key, value, None)) == Some(order)
      ensures ok && at.After? ==> Apply(old(order), Collections.Insert(key, value, Some(at.anchor))) == Some(order)
      ensures ok && at.End? ==> order == old(order) + [key]
      ensures ok && at.Index? ==> |order| == |old(order)| + 1 && order[Clamp(at.index, |old(order)|)] == key
    {
      hide Without, Apply, Valid, NoDup;
      ValidOrder();
      ok := key !in order;
      if !ok {
        return;
      }
      var slot := Slot(at);
      if slot.None? {
        ok := false;
        return;
      }
      InsertedAt(order, key, value, at, slot.value);
      Enter(key, value, order[..slot.value] + [key] + order[slot.value..]);
    }

    /** Record a new entry whose place in the order is decided. */
    method Enter(key: Key, value: Value, newOrder: seq<Key>)
      requires Valid() && key !in order && NoDup(newOrder) && forall k :: k in newOrder <==> k == key || k in order
      modifies this
      ensures Valid() && order == newOrder && values == old(values)[key := value]
      ensures key in handles && handles == old(handles)[key := handles[key]] && handles[key] !in old(handles).Values
    {
      order := newOrder;
      values := values[key := value];
      handles := handles[key := nextHandle];
      nextHandle := nextHandle + 1;
    }

    method Remove(key: Key) returns (ok: bool)
      requires Valid()
      modifies this
      ensures Valid() && ok == (key in old(order))
      ensures !ok ==> order == old(order) && values == old(values) && handles == old(handles)
      ensures ok ==> Apply(old(order), Collections.Remove(key)) == Some(order)
      ensures ok ==> values == old(values) - {key} && handles == old(handles) - {key}
    {
      ok := key in order;
      if !ok {
        return;
      }
      DropOne(order, key);
      var index := IndexOf(order, key);
      order := order[..index] + order[index + 1..];
      values := values - {key};
      handles := handles - {key};
    }

    /** Take `key` out and put it at `slot` of the shortened order. */
    method Reinsert(key: Key, slot: nat)
      requires Valid() && key in order && slot < |order|
      modifies this`order
      ensures Valid() && order == MovedTo(old(order), key, slot)
    {
      MovedToAt(order, key, slot);
      WithoutSplit(order, key);
      var from := IndexOf(order, key);
      order := order[..from] + order[from + 1..];
      order := order[..slot] + [key] + order[slot..];
    }

    method ReorderBefore(key: Key, targetSlot: nat) returns (ok: bool)
      requires Valid() && targetSlot <= |order|
      modifies this`order
      ensures Valid() && ok == (key in old(order)) && (!ok ==> order == old(order))
      ensures ok ==>
        var slot := if IndexOf(old(order), key) < targetSlot then targetSlot - 1 else targetSlot;
        slot < |old(order)| && order == MovedTo(old(order), key, slot)
    {
      ok := key in order;
      if ok {
        var from := IndexOf(order, key);
        var slot := if from < targetSlot then targetSlot - 1 else targetSlot;
        Reinsert(key, slot);
      }
    }

    /** Only the order changes: the value and the handle of every entry stay. */
    method MoveTo(key: Key, index: int) returns (ok: bool)
      requires Valid()
      modifies this`order
      ensures Valid() && ok == (key in old(order)) && (!ok ==> order == old(order))
      ensures ok ==> Without(order, key) == Without(old(order), key) && |order| == |old(order)|
      ensures ok ==> order[Clamp(index, |order| - 1)] == key
    {
      ok := key in order;
      if ok {
        var from, to := IndexOf(order, key), Clamp(index, |order| - 1);
        if from != to {
          MovedToAt(order, key, to);
          Reinsert(key, to);
        }
      }
    }

    method MoveAfter(key: Key, afterKey: Key) returns (ok: bool)
      requires Valid()
      modifies this`order
      ensures Valid() && ok == (key in old(order) && afterKey in old(order)) && (!ok ==> order == old(order))
      ensures ok ==> Apply(old(order), Move(key, Some(afterKey))) == Some(order)
    {
      ok := afterKey in order;
      if ok {
        if key in order {
          MovedAfter(order, key, afterKey);
        }
        ok := ReorderBefore(key, IndexOf(order, afterKey) + 1);
      }
    }

    method MoveBefore(key: Key, beforeKey: Key) returns (ok: bool)
      requires Valid()
      modifies this`order
      ensures Valid() && ok == (key in old(order) && beforeKey in old(order)) && (!ok ==> order == old(order))
      ensures ok ==> Without(order, key) == Without(old(order), key) && beforeKey in order && key in order
      ensures ok && key != beforeKey ==> IndexOf(order, key) + 1 == IndexOf(order, beforeKey)
      ensures ok && key == beforeKey ==> order == old(order)
    {
      hide Without, MovedTo, NoDup;
      ok := beforeKey in order;
      if ok {
        ghost var s := order;
        var target := IndexOf(order, beforeKey);
        ok := ReorderBefore(key, target);
        if ok {
          BeforeAt(s, key, beforeKey);
        }
      }
    }
  }

  lemma InsertedAt(s: seq<Key>, key: Key, value: Value, at: At, i: nat)
    requires NoDup(s) && key !in s && i <= |s|
    ensures var t := s[..i] + [key] + s[i..];
      && NoDup(t) && Without(t, key) == s && (forall k :: k in t <==> k == key || k in s)
      && t[i] == key && (i == |s| ==> t == s + [key])
      && (i == 0 ==> Apply(s, Collections.Insert(key, value, None)) == Some(t))
      && (at.After? && at.anchor in s && i == IndexOf(s, at.anchor) + 1 ==>
            Apply(s, Collections.Insert(key, value, Some(at.anchor))) == Some(t))
  {
    assert s == s[..i] + s[i..];
    PlaceNoDup(s[..i], key, s[i..]);
    WithoutMiddle(s[..i], key, s[i..]);
    if i == 0 {
      assert s[..i] == [] && s[i..] == s;
    }
  }

  lemma BeforeAt(s: seq<Key>, key: Key, b: Key)
    requires NoDup(s) && key in s && b in s
    ensures var i, from := IndexOf(s, b), IndexOf(s, key);
      var slot := if from < i then i - 1 else i;
      && slot < |s|
      && var t := MovedTo(s, key, slot);
      && Without(t, key) == Without(s, key) && b in t && key in t
      && if b == key then t == s else IndexOf(t, key) + 1 == IndexOf(t, b)
  {
    hide NoDup, Without, IndexOf;
    var i, from := IndexOf(s, b), IndexOf(s, key);
    var slot := if from < i then i - 1 else i;
    MovedToAt(s, key, slot);
    WithoutSplit(s, key);
    var t := MovedTo(s, key, slot);
    KeyAt(t, slot);
    if b != key {
      MovedNext(s, key, b);
      KeyAt(t, slot + 1);
    } else {
      PutBack(s, key);
    }
  }

  lemma MovedNext(s: seq<Key>, key: Key, b: Key)
    requires NoDup(s) && key in s && b in s && b != key
    ensures var i, from := IndexOf(s, b), IndexOf(s, key);
      var slot := if from < i then i - 1 else i;
      slot + 1 < |s| && |MovedTo(s, key, slot)| == |s| && MovedTo(s, key, slot)[slot + 1] == b
  {
    hide NoDup, Without, IndexOf;
    DropOne(s, key);
    WithoutSplit(s, key);
    IndexWithout(s, key, b);
  }
}
