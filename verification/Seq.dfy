/** The sequence replica with its registers and clock changed in place. */
module Seq {
  import opened Basics
  import opened Clock
  import FracKeys
  import opened SeqModel
  import opened SeqProofs
  import SeqOrder

  /** Merging `b` into `a` changes what some register of `x` says, or brings `x`. */
  predicate Alters(a: map<Id, Entry>, b: map<Id, Entry>, x: Id)
    requires x in b
  {
    x !in a ||
    (var e := MergeEntry(a[x], b[x]);
     e.value.value != a[x].value.value || e.position.value != a[x].position.value || e.deleted.value != a[x].deleted.value)
  }

  /** What the entry of `x` is once the first `i` of `other`'s keys are merged in. */
  predicate MergedAt(a: map<Id, Entry>, other: Replica, i: nat, now: map<Id, Entry>, x: Id)
    requires i <= |other.keys|
  {
    var came := x in other.keys[..i] && x in other.entries;
    (x in now <==> x in a || came) && (x in now ==> now[x] == if came then JoinAt(a, other.entries, x) else a[x])
  }

  ghost predicate MergedSoFar(a: map<Id, Entry>, other: Replica, i: nat, now: map<Id, Entry>)
    requires i <= |other.keys|
  {
    forall x :: MergedAt(a, other, i, now, x)
  }

  lemma MergedNext(a: map<Id, Entry>, other: Replica, i: nat, now: map<Id, Entry>)
    requires i < |other.keys| && MergedSoFar(a, other, i, now) && KeysOk(other) && SeqOrder.Once(other.keys)
    ensures var x := other.keys[i];
      && x in other.entries && (x in now <==> x in a) && (x in a ==> now[x] == a[x])
      && MergedSoFar(a, other, i + 1, now[x := JoinAt(a, other.entries, x)])
  {
    hide MergeEntry, JoinAt;
    var x := other.keys[i];
    assert x in other.keys && x in other.entries;
    assert other.keys[..i + 1] == other.keys[..i] + [x];
    assert x !in other.keys[..i] && MergedAt(a, other, i, now, x);
    var next := now[x := JoinAt(a, other.entries, x)];
    var j := i + 1;
    forall y ensures MergedAt(a, other, j, next, y) {
      assert MergedAt(a, other, i, now, y);
    }
  }

  lemma MergedAll(a: map<Id, Entry>, other: Replica, now: map<Id, Entry>)
    requires MergedSoFar(a, other, |other.keys|, now) && KeysOk(other)
    ensures now == Join(a, other.entries)
  {
    hide MergeEntry;
    assert other.keys[..|other.keys|] == other.keys;
    forall x ensures x in now <==> x in Join(a, other.entries) {
      assert MergedAt(a, other, |other.keys|, now, x);
    }
    forall x | x in now ensures now[x] == Join(a, other.entries)[x] {
      assert MergedAt(a, other, |other.keys|, now, x);
    }
  }

  /** Everything the merging loop has done after `i` keys. */
  ghost predicate Merging(start: Replica, other: Replica, i: nat, entries: map<Id, Entry>, keys: seq<Id>, changed: bool)
    requires i <= |other.keys|
  {
    && MergedSoFar(start.entries, other, i, entries) && keys == start.keys + NewKeys(start.entries, other.keys[..i])
    && (changed <==> exists x :: x in other.keys[..i] && x in other.entries && Alters(start.entries, other.entries, x))
  }

  lemma MergingNext(start: Replica, other: Replica, i: nat, entries: map<Id, Entry>, keys: seq<Id>, changed: bool)
    requires i < |other.keys| && Merging(start, other, i, entries, keys, changed) && KeysOk(other) && SeqOrder.Once(other.keys)
    ensures var x := other.keys[i];
      && x in other.entries && (x in entries <==> x in start.entries) && (x in start.entries ==> entries[x] == start.entries[x])
      && Merging(start, other, i + 1, entries[x := JoinAt(start.entries, other.entries, x)],
           if x in entries then keys else keys + [x], Alters(start.entries, other.entries, x) || changed)
  {
    hide MergeEntry, Alters, MergedSoFar;
    var x := other.keys[i];
    assert x in other.keys;
    MergedNext(start.entries, other, i, entries);
    assert other.keys[..i + 1] == other.keys[..i] + [x] && other.keys[..i + 1][..i] == other.keys[..i];
  }

  lemma MergingStart(start: Replica, other: Replica)
    ensures Merging(start, other, 0, start.entries, start.keys, false)
  {
    assert start.keys + NewKeys(start.entries, other.keys[..0]) == start.keys;
  }

  lemma MergingDone(start: Replica, other: Replica, entries: map<Id, Entry>, keys: seq<Id>, changed: bool)
    requires Merging(start, other, |other.keys|, entries, keys, changed) && KeysOk(other)
    ensures entries == Join(start.entries, other.entries) && keys == start.keys + NewKeys(start.entries, other.keys)
    ensures changed <==> exists x :: x in other.entries && Alters(start.entries, other.entries, x)
  {
    hide MergeEntry, Alters;
    MergedAll(start.entries, other, entries);
    assert other.keys[..|other.keys|] == other.keys;
  }

  class SeqCrdt {
    const peer: Peer
    const hlc: Hlc
    var entries: map<Id, Entry>
    var keys: seq<Id>

    ghost function Value(): Replica
      reads this, hlc
    {
      Replica(peer, hlc.Here(), entries, keys)
    }

    ghost predicate Valid()
      reads this, hlc
    {
      && hlc.peer == peer && KeysOk(Value()) && AllPassed(entries, hlc.Here())
      && SeqOrder.Once(keys)
    }

    constructor (owner: Peer)
      ensures Valid() && Value() == NewReplica(owner) && fresh(hlc)
    {
      peer := owner;
      hlc := new Hlc(owner);
      entries, keys := map[], [];
    }

    /** A copy under another peer, from the same place on the clock. */
    constructor ForkOf(source: SeqCrdt, owner: Peer)
      requires source.Valid()
      ensures Valid() && Value() == Fork(source.Value(), owner) && fresh(hlc)
    {
      peer := owner;
      hlc := new Hlc(owner);
      entries, keys := source.entries, source.keys;
      new;
      hlc.lastWall := source.hlc.lastWall;
      hlc.lastLogical := source.hlc.lastLogical;
    }

    lemma TickValid(now: nat, x: Id, e: Entry, ks: seq<Id>)
      requires Valid() && ks == (if x in entries then keys else keys + [x])
      ensures var r := Tick(Value(), now);
        && (EntryPassed(e, r.clock) ==> AllPassed(entries[x := e], r.clock))
        && KeysOk(r.(entries := entries[x := e], keys := ks))
        && SeqOrder.Once(ks)
        && Passed(Now(r), r.clock) && (x in entries ==> EntryPassed(entries[x], r.clock))
    {
      var r := Tick(Value(), now);
      SendAdvances(hlc.Here(), now, peer, Now(r));
      AllLater(entries, hlc.Here(), r.clock);
    }

    method FracFor(x: Option<Id>) returns (k: Option<FracKeys.Key>)
      ensures k == FracOf(Value(), x)
    {
      k := if x.Some? && x.value in entries then Some(entries[x.value].position.value.frac) else None;
    }

    method SpotFor(left: Option<Id>, right: Option<Id>) returns (spot: Spot)
      ensures spot == SpotBetween(Value(), left, right)
    {
      var lo := FracFor(left);
      var hi := FracFor(right);
      var frac := FracKeys.SeqKeyBetween(lo, hi);
      spot := Spot(frac, peer);
    }

    method InsertBetween(x: Id, v: SeqModel.Value, left: Option<Id>, right: Option<Id>, nowMicros: nat)
      requires Valid()
      modifies this, hlc
      ensures Valid() && Value() == SeqModel.InsertBetween(old(Value()), x, v, left, right, nowMicros)
    {
      hide SpotBetween, SentFrom, Passed, AllPassed;
      if x in entries {
        return;
      }
      var spot := SpotFor(left, right);
      ghost var s0 := Now(Tick(Value(), nowMicros));
      TickValid(nowMicros, x, Entry(Reg(v, s0), Reg(spot, s0), Reg(false, s0)), keys + [x]);
      var s := hlc.Send(nowMicros);
      entries := entries[x := Entry(Reg(v, s), Reg(spot, s), Reg(false, s))];
      keys := keys + [x];
    }

    /** False only for an unknown element: a known one always takes the value. */
    method SetValue(x: Id, v: SeqModel.Value, nowMicros: nat) returns (took: bool)
      requires Valid()
      modifies this, hlc
      ensures Valid() && (Value(), took) == SeqModel.SetValue(old(Value()), x, v, nowMicros)
      ensures took == (x in old(entries)) && (took ==> entries[x].value.value == v)
    {
      hide SentFrom, Passed, AllPassed, Less;
      if x !in entries {
        return false;
      }
      SendPasses(nowMicros, x);
      var e := entries[x];
      TickValid(nowMicros, x, e.(value := Reg(v, Now(Tick(Value(), nowMicros)))), keys);
      var s := hlc.Send(nowMicros);
      took := Less(e.value.stamp, s);
      entries := entries[x := e.(value := SetReg(e.value, v, s))];
    }

    lemma SendPasses(now: nat, x: Id)
      requires Valid() && x in entries
      ensures var s := Now(Tick(Value(), now));
        Less(entries[x].value.stamp, s) && Less(entries[x].position.stamp, s) && Less(entries[x].deleted.stamp, s)
    {
      assert EntryPassed(entries[x], hlc.Here());
      SendAdvances(hlc.Here(), now, peer, entries[x].value.stamp);
      SendAdvances(hlc.Here(), now, peer, entries[x].position.stamp);
      SendAdvances(hlc.Here(), now, peer, entries[x].deleted.stamp);
    }

    method MoveBetween(x: Id, left: Option<Id>, right: Option<Id>, nowMicros: nat) returns (took: bool)
      requires Valid()
      modifies this, hlc
      ensures Valid() && (Value(), took) == SeqModel.MoveBetween(old(Value()), x, left, right, nowMicros)
      ensures took == (x in old(entries)) && (took ==> entries[x].position.value == SpotBetween(old(Value()), left, right))
    {
      hide SpotBetween, SentFrom, Passed, AllPassed, Less;
      if x !in entries {
        return false;
      }
      SendPasses(nowMicros, x);
      var spot := SpotFor(left, right);
      var e := entries[x];
      TickValid(nowMicros, x, e.(position := Reg(spot, Now(Tick(Value(), nowMicros)))), keys);
      var s := hlc.Send(nowMicros);
      entries := entries[x := e.(position := SetReg(e.position, spot, s))];
      took := true;
    }

    method Remove(x: Id, nowMicros: nat) returns (took: bool)
      requires Valid()
      modifies this, hlc
      ensures Valid() && (Value(), took) == SeqModel.Remove(old(Value()), x, nowMicros)
      ensures took == (x in old(entries)) && (took ==> entries[x].deleted.value)
    {
      hide SentFrom, Passed, AllPassed, Less;
      if x !in entries {
        return false;
      }
      SendPasses(nowMicros, x);
      var e := entries[x];
      TickValid(nowMicros, x, e.(deleted := Reg(true, Now(Tick(Value(), nowMicros)))), keys);
      var s := hlc.Send(nowMicros);
      took := Less(e.deleted.stamp, s);
      entries := entries[x := e.(deleted := SetReg(e.deleted, true, s))];
    }

    predicate Contains(x: Id)
      reads this
    {
      x in entries && !entries[x].deleted.value
    }

    /** The live elements, sorted by position; the sort is stable. */
    method Order() returns (order: seq<Id>)
      requires Valid()
      ensures order == SeqOrder.Order(Value())
    {
      order := [];
      for i := 0 to |keys|
        invariant order == SeqOrder.Ordered(entries, keys[..i])
      {
        assert keys[..i + 1][..i] == keys[..i];
        if keys[i] in entries && !entries[keys[i]].deleted.value {
          order := SeqOrder.PlaceIn(entries, order, keys[i]);
        }
      }
      assert keys[..|keys|] == keys;
    }

    method InsertBack(x: Id, v: SeqModel.Value, nowMicros: nat)
      requires Valid()
      modifies this, hlc
      ensures Valid() && Value() == SeqOrder.InsertBack(old(Value()), x, v, nowMicros)
    {
      hide SeqModel.InsertBetween, SeqOrder.Ordered;
      var order := Order();
      InsertBetween(x, v, if |order| > 0 then Some(order[|order| - 1]) else None, None, nowMicros);
    }

    method InsertFront(x: Id, v: SeqModel.Value, nowMicros: nat)
      requires Valid()
      modifies this, hlc
      ensures Valid() && Value() == SeqOrder.InsertFront(old(Value()), x, v, nowMicros)
    {
      hide SeqModel.InsertBetween, SeqOrder.Ordered;
      var order := Order();
      InsertBetween(x, v, None, if |order| > 0 then Some(order[0]) else None, nowMicros);
    }

    /** False, and nothing changes, if the anchor is not shown or the element is not known. */
    method MoveAfter(x: Id, anchor: Id, nowMicros: nat) returns (took: bool)
      requires Valid()
      modifies this, hlc
      ensures Valid() && (Value(), took) == SeqOrder.MoveAfter(old(Value()), x, anchor, nowMicros)
    {
      hide SeqModel.MoveBetween, SeqOrder.Ordered;
      var order := Order();
      if anchor !in order {
        return false;
      }
      var i := SeqOrder.Find(order, anchor);
      took := MoveBetween(x, Some(anchor), if i + 1 < |order| then Some(order[i + 1]) else None, nowMicros);
    }

    method MoveBefore(x: Id, anchor: Id, nowMicros: nat) returns (took: bool)
      requires Valid()
      modifies this, hlc
      ensures Valid() && (Value(), took) == SeqOrder.MoveBefore(old(Value()), x, anchor, nowMicros)
    {
      hide SeqModel.MoveBetween, SeqOrder.Ordered;
      var order := Order();
      if anchor !in order {
        return false;
      }
      var i := SeqOrder.Find(order, anchor);
      took := MoveBetween(x, if i > 0 then Some(order[i - 1]) else None, Some(anchor), nowMicros);
    }

    /** Hear every stamp of the other state, then take the newer of each register; whether anything changed. */
    method Merge(other: SeqCrdt, nowMicros: nat) returns (changed: bool)
      requires Valid() && other.Valid() && (other != this ==> other.hlc != hlc)
      modifies this, hlc
      ensures Valid() && Value() == SeqModel.Merge(old(Value()), old(other.Value()), nowMicros)
      ensures changed <==> exists x :: x in old(other.entries) && Alters(old(entries), old(other.entries), x)
    {
      hide Passed, AllPassed, ReceivedAt, Less, MergeEntry, Merging, Heard, SeqOrder.Once, Join, NewKeys;
      ghost var start, theirs := Value(), other.Value();
      var otherKeys, otherEntries := other.keys, other.entries;
      MergeValid(start, theirs, nowMicros);
      Hear(otherEntries, otherKeys, nowMicros);
      changed := false;
      MergingStart(start, theirs);
      var i := 0;
      while i < |otherKeys|
        invariant i <= |otherKeys| && Merging(start, theirs, i, entries, keys, changed)
        invariant hlc.Here() == Heard(start.clock, theirs.entries, theirs.keys, nowMicros)
      {
        var x := otherKeys[i];
        MergingNext(start, theirs, i, entries, keys, changed);
        var c := Take(x, otherEntries[x]);
        changed := c || changed;
        i := i + 1;
      }
      MergingDone(start, theirs, entries, keys, changed);
    }

    /** Merge one entry in; a new one is copied. */
    method Take(x: Id, e: Entry) returns (changed: bool)
      modifies this`entries, this`keys
      ensures entries == old(entries)[x := if x in old(entries) then MergeEntry(old(entries)[x], e) else e]
      ensures keys == if x in old(entries) then old(keys) else old(keys) + [x]
      ensures forall b: map<Id, Entry> :: x in b && b[x] == e ==> changed == Alters(old(entries), b, x)
    {
      hide Less;
      if x in entries {
        var mine := entries[x];
        var merged := MergeEntry(mine, e);
        changed := merged.value.value != mine.value.value;
        changed := merged.position.value != mine.position.value || changed;
        changed := merged.deleted.value != mine.deleted.value || changed;
        entries := entries[x := merged];
      } else {
        entries := entries[x := e];
        keys := keys + [x];
        changed := true;
      }
    }

    /** Advance the clock past every newest stamp, in entry order. */
    method Hear(others: map<Id, Entry>, order: seq<Id>, nowMicros: nat)
      requires (forall x :: x in order ==> x in others) && hlc.peer == peer
      modifies hlc
      ensures hlc.Here() == Heard(old(hlc.Here()), others, order, nowMicros)
    {
      hide ReceivedAt;
      ghost var start := hlc.Here();
      var i := 0;
      assert order[0..] == order;
      while i < |order|
        invariant i <= |order|
        invariant Heard(start, others, order, nowMicros) == Heard(hlc.Here(), others, order[i..], nowMicros)
      {
        ghost var rest := order[i..];
        assert rest[0] == order[i] && rest[1..] == order[i + 1..];
        hlc.Recv(MaxStamp(others[order[i]]), nowMicros);
        i := i + 1;
      }
      assert order[|order|..] == [];
    }
  }

  lemma MergeValid(r: Replica, other: Replica, now: nat)
    requires KeysOk(r) && KeysOk(other) && AllPassed(r.entries, r.clock)
    requires SeqOrder.Once(r.keys)
    requires SeqOrder.Once(other.keys)
    ensures var t := Merge(r, other, now);
      && KeysOk(t) && AllPassed(t.entries, t.clock) && SeqOrder.Once(t.keys)
  {
    hide Passed, Less, MergeEntry, EntryPassed, PositionLeq, Heard;
    var t := Merge(r, other, now);
    HeardPasses(r.clock, other.entries, other.keys, now);
    AllLater(r.entries, r.clock, t.clock);
    JoinPassed(r.entries, other.entries, t.clock);
    NewKeysAre(r.entries, other.keys);
    SeqOrder.NewKeysOnce(r.entries, other.keys);
    var more := NewKeys(r.entries, other.keys);
    SeqOrder.OnceJoined(r.keys, more);
  }
}
