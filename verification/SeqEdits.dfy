/** What each local edit of the sequence leaves behind, register by register, and which registers a merge keeps. */
module SeqEdits {
  import opened Basics
  import ByteOrder
  import opened Clock
  import FracKeys
  import opened SeqModel
  import opened SeqProofs

  predicate Present(r: Replica, x: Id) { x in r.entries && !r.entries[x].deleted.value }

  /** A stamp of the replica's own, newer than all it holds, at the later of its clock and the wall clock. */
  ghost predicate Fresh(r: Replica, m: Stamp, now: nat) {
    && m.peer == r.peer && m.wallTime == Max(now, r.clock.wall)
    && forall y :: y in r.entries ==>
         Less(r.entries[y].value.stamp, m) && Less(r.entries[y].position.stamp, m) && Less(r.entries[y].deleted.stamp, m)
  }

  /** The key of an element, and no bound where there is none. */
  function Bound(r: Replica, x: Option<Id>): Option<FracKeys.Key> {
    if x.Some? && x.value in r.entries then Some(r.entries[x.value].position.value.frac) else None
  }

  ghost predicate InOrder(lo: Option<FracKeys.Key>, hi: Option<FracKeys.Key>) {
    lo.None? || hi.None? || ByteOrder.Less(lo.value, hi.value)
  }

  /** Strictly between the keys of two elements. */
  ghost predicate LiesBetween(lo: Option<FracKeys.Key>, k: FracKeys.Key, hi: Option<FracKeys.Key>) {
    (lo.Some? ==> ByteOrder.Less(lo.value, k)) && (hi.Some? ==> ByteOrder.Less(k, hi.value))
  }

  /** All other elements are as they were, and the clock has passed the new stamp. */
  ghost predicate OnlyAt(r: Replica, t: Replica, x: Id, m: Stamp) {
    && t.peer == r.peer && t.clock == Position(m.wallTime, m.logical)
    && t.entries.Keys == r.entries.Keys + {x} && forall y :: y in r.entries && y != x ==> t.entries[y] == r.entries[y]
  }

  lemma TickFresh(r: Replica, now: nat) returns (m: Stamp)
    requires AllPassed(r.entries, r.clock)
    ensures m == Now(Tick(r, now)) && Fresh(r, m, now) && Tick(r, now).clock == Position(m.wallTime, m.logical)
  {
    m := Now(Tick(r, now));
    forall y | y in r.entries
      ensures Less(r.entries[y].value.stamp, m) && Less(r.entries[y].position.stamp, m) && Less(r.entries[y].deleted.stamp, m)
    {
      assert EntryPassed(r.entries[y], r.clock);
      SendAdvances(r.clock, now, r.peer, r.entries[y].value.stamp);
      SendAdvances(r.clock, now, r.peer, r.entries[y].position.stamp);
      SendAdvances(r.clock, now, r.peer, r.entries[y].deleted.stamp);
    }
  }

  // -- keys ---------------------------------------------------------------------------------------------

  /** A key as edits make them: bytes, not ending in zero, not empty. */
  predicate GoodKey(k: FracKeys.Key) { FracKeys.Proper(k) && k != [] }

  ghost predicate GoodKeys(m: map<Id, Entry>) { forall x :: x in m ==> GoodKey(m[x].position.value.frac) }

  lemma KeyIsSomething(lo: FracKeys.Key, hi: Option<FracKeys.Key>)
    ensures FracKeys.KeyBetween(lo, hi) != []
  {
  }

  /** Among good keys, the new key lies between the neighbours exactly when these are in order. */
  lemma SpotLies(r: Replica, left: Option<Id>, right: Option<Id>)
    requires GoodKeys(r.entries)
    ensures var spot, lo, hi := SpotBetween(r, left, right), Bound(r, left), Bound(r, right);
      spot.peer == r.peer && GoodKey(spot.frac) && (LiesBetween(lo, spot.frac, hi) <==> InOrder(lo, hi))
  {
    var lo, hi := FracKeys.OrEmpty(FracOf(r, left)), FracOf(r, right);
    KeyIsSomething(lo, hi);
    FracKeys.KeyIsBetween(lo, hi);
    if hi.Some? {
      assert FracKeys.Padded(lo, hi.value) ==> lo == hi.value;
      ByteOrder.NotLessSelf(lo);
    }
  }

  // -- one edit -----------------------------------------------------------------------------------------

  /** A new element is there, not deleted, with its value, under one fresh stamp. */
  ghost predicate Inserted(r: Replica, t: Replica, x: Id, v: Value, left: Option<Id>, right: Option<Id>, now: nat) {
    && x in t.entries && Present(t, x)
    && var e := t.entries[x];
       && Fresh(r, e.value.stamp, now) && e.position.stamp == e.deleted.stamp == e.value.stamp
       && OnlyAt(r, t, x, e.value.stamp) && t.keys == r.keys + [x]
       && e.value.value == v && e.position.value.peer == r.peer && GoodKey(e.position.value.frac)
       && (LiesBetween(Bound(r, left), e.position.value.frac, Bound(r, right)) <==> InOrder(Bound(r, left), Bound(r, right)))
  }

  lemma InsertLeaves(r: Replica, x: Id, v: Value, left: Option<Id>, right: Option<Id>, now: nat)
    requires AllPassed(r.entries, r.clock) && GoodKeys(r.entries)
    ensures var t := InsertBetween(r, x, v, left, right, now); if x in r.entries then t == r else Inserted(r, t, x, v, left, right, now)
  {
    hide SpotBetween, Less, SentFrom, LiesBetween, InOrder;
    if x !in r.entries {
      var m := TickFresh(r, now);
      SpotLies(r, left, right);
    }
  }

  /** Only the value register of the element is written. */
  ghost predicate Valued(r: Replica, t: Replica, x: Id, v: Value, now: nat)
    requires x in r.entries
  {
    && x in t.entries && Fresh(r, t.entries[x].value.stamp, now) && OnlyAt(r, t, x, t.entries[x].value.stamp) && t.keys == r.keys
    && t.entries[x].value.value == v && t.entries[x] == r.entries[x].(value := t.entries[x].value)
  }

  /** Only its position is written. */
  ghost predicate Moved(r: Replica, t: Replica, x: Id, left: Option<Id>, right: Option<Id>, now: nat)
    requires x in r.entries
  {
    && x in t.entries && Fresh(r, t.entries[x].position.stamp, now) && OnlyAt(r, t, x, t.entries[x].position.stamp) && t.keys == r.keys
    && t.entries[x] == r.entries[x].(position := t.entries[x].position)
    && var spot := t.entries[x].position.value;
       && spot.peer == r.peer && GoodKey(spot.frac)
       && (LiesBetween(Bound(r, left), spot.frac, Bound(r, right)) <==> InOrder(Bound(r, left), Bound(r, right)))
  }

  /** Only its deletion mark is written. */
  ghost predicate Removed(r: Replica, t: Replica, x: Id, now: nat)
    requires x in r.entries
  {
    && x in t.entries && Fresh(r, t.entries[x].deleted.stamp, now) && OnlyAt(r, t, x, t.entries[x].deleted.stamp) && t.keys == r.keys
    && t.entries[x].deleted.value && t.entries[x] == r.entries[x].(deleted := t.entries[x].deleted)
  }

  lemma SetLeaves(r: Replica, x: Id, v: Value, now: nat)
    requires AllPassed(r.entries, r.clock)
    ensures var (t, took) := SetValue(r, x, v, now); took == (x in r.entries) && if took then Valued(r, t, x, v, now) else t == r
  {
    hide Less, SentFrom;
    if x in r.entries {
      var m := TickFresh(r, now);
    }
  }

  lemma MoveLeaves(r: Replica, x: Id, left: Option<Id>, right: Option<Id>, now: nat)
    requires AllPassed(r.entries, r.clock) && GoodKeys(r.entries)
    ensures var (t, took) := MoveBetween(r, x, left, right, now); took == (x in r.entries) && if took then Moved(r, t, x, left, right, now) else t == r
  {
    hide SpotBetween, Less, SentFrom, LiesBetween, InOrder;
    if x in r.entries {
      var m := TickFresh(r, now);
      SpotLies(r, left, right);
    }
  }

  lemma RemoveLeaves(r: Replica, x: Id, now: nat)
    requires AllPassed(r.entries, r.clock)
    ensures var (t, took) := Remove(r, x, now); took == (x in r.entries) && if took then Removed(r, t, x, now) else t == r
  {
    hide Less, SentFrom;
    if x in r.entries {
      var m := TickFresh(r, now);
    }
  }

  // -- in every run ----------------------------------------------------------------------------------------

  ghost predicate AllGood(s: System) {
    (forall p :: p in s.replicas ==> GoodKeys(s.replicas[p].entries)) && forall r :: r in s.snapshots ==> GoodKeys(r.entries)
  }

  lemma JoinGood(a: map<Id, Entry>, b: map<Id, Entry>)
    requires GoodKeys(a) && GoodKeys(b)
    ensures GoodKeys(Join(a, b))
  {
    hide Less, GoodKey;
  }

  lemma StepGood(s: System, step: Step)
    requires Inv(s) && AllGood(s) && Allowed(s, step)
    ensures AllGood(Take(s, step))
  {
    hide Inv, InsertBetween, SetValue, MoveBetween, Remove, GoodKey, Join, Heard, Fresh, LiesBetween, InOrder, AllPassed;
    match step
    case Absorb(p, k, now) => JoinGood(s.replicas[p].entries, s.snapshots[k].entries);
    case Insert(p, x, v, l, r, now) =>
      PassedIn(s, p);
      InsertLeaves(s.replicas[p], x, v, l, r, now);
    case Write(p, x, v, now) =>
      PassedIn(s, p);
      SetLeaves(s.replicas[p], x, v, now);
    case Move(p, x, l, r, now) =>
      PassedIn(s, p);
      MovedGood(s.replicas[p], x, l, r, now);
    case Delete(p, x, now) =>
      PassedIn(s, p);
      RemovedGood(s.replicas[p], x, now);
    case _ =>
  }

  lemma MovedGood(r: Replica, x: Id, left: Option<Id>, right: Option<Id>, now: nat)
    requires GoodKeys(r.entries)
    ensures GoodKeys(MoveBetween(r, x, left, right, now).0.entries)
  {
    hide SpotBetween, Less, GoodKey;
    SpotLies(r, left, right);
  }

  lemma RemovedGood(r: Replica, x: Id, now: nat)
    requires GoodKeys(r.entries)
    ensures GoodKeys(Remove(r, x, now).0.entries)
  {
    hide Less, GoodKey;
  }

  lemma PassedIn(s: System, p: Peer)
    requires Inv(s) && p in s.replicas
    ensures AllPassed(s.replicas[p].entries, s.replicas[p].clock) && s.replicas[p].peer == p
  {
    assert ReplicaOk(s, p);
  }

  lemma {:induction false} ReachGood(steps: seq<Step>)
    ensures match Reach(steps) case None => true case Some(s) => AllGood(s)
    decreases |steps|
  {
    hide Inv, AllGood, Allowed, Take;
    if steps == [] {
      NoneGood();
    } else {
      var r, step := Reach(steps[..|steps| - 1]), steps[|steps| - 1];
      ReachGood(steps[..|steps| - 1]);
      ReachOk(steps[..|steps| - 1]);
      if r.Some? && Allowed(r.value, step) {
        StepGood(r.value, step);
      }
    }
  }

  lemma NoneGood()
    ensures AllGood(System(map[], []))
  {
  }

  /** In every run: an insert under an unknown id leaves the element present; a known one it leaves alone. */
  lemma InsertInEveryRun(steps: seq<Step>, p: Peer, x: Id, v: Value, left: Option<Id>, right: Option<Id>, now: nat)
    ensures match Reach(steps)
      case None => true
      case Some(s) => p in s.replicas ==>
        var r := s.replicas[p];
        var t := InsertBetween(r, x, v, left, right, now);
        if x in r.entries then t == r else Inserted(r, t, x, v, left, right, now)
  {
    hide Inv, AllPassed, GoodKeys, InsertBetween, Inserted;
    ReachOk(steps);
    ReachGood(steps);
    var r := Reach(steps);
    if r.Some? && p in r.value.replicas {
      PassedIn(r.value, p);
      InsertLeaves(r.value.replicas[p], x, v, left, right, now);
    }
  }

  /** In every run: a write, a move and a removal take exactly on known elements, and touch one register of one element. */
  lemma WritesInEveryRun(steps: seq<Step>, p: Peer, x: Id, v: Value, left: Option<Id>, right: Option<Id>, now: nat)
    ensures match Reach(steps)
      case None => true
      case Some(s) => p in s.replicas ==>
        var r := s.replicas[p];
        && (var (t, took) := SetValue(r, x, v, now); took == (x in r.entries) && if took then Valued(r, t, x, v, now) else t == r)
        && (var (t, took) := MoveBetween(r, x, left, right, now);
            took == (x in r.entries) && if took then Moved(r, t, x, left, right, now) else t == r)
        && (var (t, took) := Remove(r, x, now); took == (x in r.entries) && if took then Removed(r, t, x, now) else t == r)
  {
    hide Inv, AllPassed, GoodKeys, SetValue, MoveBetween, Remove, Valued, Moved, Removed;
    ReachOk(steps);
    ReachGood(steps);
    var r := Reach(steps);
    if r.Some? && p in r.value.replicas {
      PassedIn(r.value, p);
      SetLeaves(r.value.replicas[p], x, v, now);
      MoveLeaves(r.value.replicas[p], x, left, right, now);
      RemoveLeaves(r.value.replicas[p], x, now);
    }
  }

  // -- what a merge keeps -----------------------------------------------------------------------------------

  /** `c` is the newer of the two, and the first of two with one stamp. */
  ghost predicate Newest<T>(a: Reg<T>, b: Reg<T>, c: Reg<T>) {
    (c == a || c == b) && !Less(c.stamp, a.stamp) && !Less(c.stamp, b.stamp) && (a.stamp == b.stamp ==> c == a)
  }

  /** A merge holds what either side held, and of each register the newest; the clock then has passed it all. */
  lemma MergeKeepsNewest(r: Replica, other: Replica, now: nat)
    ensures var t := Merge(r, other, now);
      && t.entries.Keys == r.entries.Keys + other.entries.Keys && t.peer == r.peer
      && (forall x :: x in r.entries && x !in other.entries ==> t.entries[x] == r.entries[x])
      && (forall x :: x !in r.entries && x in other.entries ==> t.entries[x] == other.entries[x])
      && (forall x :: x in r.entries && x in other.entries ==>
            && Newest(r.entries[x].value, other.entries[x].value, t.entries[x].value)
            && Newest(r.entries[x].position, other.entries[x].position, t.entries[x].position)
            && Newest(r.entries[x].deleted, other.entries[x].deleted, t.entries[x].deleted))
    ensures KeysOk(other) && AllPassed(r.entries, r.clock) ==> AllPassed(Merge(r, other, now).entries, Merge(r, other, now).clock)
  {
    hide Less, Heard, Passed, EntryPassed, PositionLeq, Newest;
    var t := Merge(r, other, now);
    forall x | x in r.entries && x in other.entries
      ensures Newest(r.entries[x].value, other.entries[x].value, t.entries[x].value)
      ensures Newest(r.entries[x].position, other.entries[x].position, t.entries[x].position)
      ensures Newest(r.entries[x].deleted, other.entries[x].deleted, t.entries[x].deleted)
    {
      NewestIs(r.entries[x].value, other.entries[x].value);
      NewestIs(r.entries[x].position, other.entries[x].position);
      NewestIs(r.entries[x].deleted, other.entries[x].deleted);
    }
    HeardPasses(r.clock, other.entries, other.keys, now);
    if KeysOk(other) && AllPassed(r.entries, r.clock) {
      AllLater(r.entries, r.clock, t.clock);
      JoinPassed(r.entries, other.entries, t.clock);
    }
  }

  lemma NewestIs<T>(a: Reg<T>, b: Reg<T>)
    ensures Newest(a, b, MergeReg(a, b))
  {
    LessTotal(a.stamp, b.stamp);
    LessTotal(a.stamp, a.stamp);
    LessTotal(b.stamp, b.stamp);
  }
}
