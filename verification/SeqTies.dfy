/** Two elements moved to one place: a run after which replicas with equal registers show two orders. */
module SeqTies {
  import opened Basics
  import opened Clock
  import opened SeqModel
  import opened SeqProofs
  import opened SeqEdits
  import opened SeqOrder

  /** Two replicas insert one element each, at once, and merge each other. */
  function Meeting(x: Id, y: Id, v: Value): seq<SeqProofs.Step> {
    [Start(1), Start(2), Insert(1, x, v, None, None, 0), Insert(2, y, v, None, None, 0), Publish(1), Publish(2), Absorb(1, 1, 0), Absorb(2, 0, 0)]
  }

  /** Then the first moves both to the same place, and the second merges it. */
  function TieRun(x: Id, y: Id, v: Value): seq<SeqProofs.Step> {
    Meeting(x, y, v) + [Move(1, x, None, None, 0), Move(1, y, None, None, 0), Publish(1), Absorb(2, 2, 0)]
  }

  lemma ReachSnoc(steps: seq<SeqProofs.Step>, s: System, step: SeqProofs.Step)
    requires Reach(steps) == Some(s) && Allowed(s, step)
    ensures Reach(steps + [step]) == Some(Take(s, step))
  {
    assert (steps + [step])[..|steps|] == steps;
  }

  /** One element of each, in the order in which each replica saw them. */
  ghost predicate Met(s: System, x: Id, y: Id) {
    && s.replicas.Keys == {1, 2} && |s.snapshots| == 2
    && var (a, b) := (s.replicas[1], s.replicas[2]);
       && a.peer == 1 && b.peer == 2 && a.entries == b.entries && a.entries.Keys == {x, y}
       && a.keys == [x, y] && b.keys == [y, x] && Live(a.entries, x) && Live(a.entries, y)
  }

  lemma InsertFirst(peer: Peer, x: Id, v: Value)
    ensures var t := InsertBetween(NewReplica(peer), x, v, None, None, 0);
      t.peer == peer && t.keys == [x] && t.entries.Keys == {x} && Live(t.entries, x)
  {
    hide SpotBetween, SentFrom;
  }

  lemma MergeTwo(a: Replica, b: Replica, x: Id, y: Id)
    requires x != y && a.entries.Keys == {x} && b.entries.Keys == {y} && a.keys == [x] && b.keys == [y]
    ensures var t := Merge(a, b, 0);
      && t.peer == a.peer && t.keys == [x, y] && t.entries == map[x := a.entries[x], y := b.entries[y]]
  {
    hide Heard;
    NewKeysAre(a.entries, b.keys);
    assert b.keys[..0] == [];
    assert NewKeys(a.entries, b.keys) == [y];
  }

  /** Both replicas, and what each published, before they hear of each other. */
  function Apart(x: Id, y: Id, v: Value): System {
    var (a, b) := (InsertBetween(NewReplica(1), x, v, None, None, 0), InsertBetween(NewReplica(2), y, v, None, None, 0));
    System(map[1 := a, 2 := b], [a, b])
  }

  lemma MeetingInserts(x: Id, y: Id, v: Value)
    ensures Reach(Meeting(x, y, v)[..4]) == Some(Apart(x, y, v).(snapshots := []))
  {
    hide Reach, InsertBetween;
    var (a, b) := (InsertBetween(NewReplica(1), x, v, None, None, 0), InsertBetween(NewReplica(2), y, v, None, None, 0));
    var r := Meeting(x, y, v);
    var s1 := System(map[1 := NewReplica(1)], []);
    ReachNone();
    ReachSnoc([], System(map[], []), r[0]);
    assert [] + [r[0]] == r[..1];
    var s2 := System(map[1 := NewReplica(1), 2 := NewReplica(2)], []);
    ReachSnoc(r[..1], s1, r[1]);
    assert r[..1] + [r[1]] == r[..2];
    var s3 := System(map[1 := a, 2 := NewReplica(2)], []);
    ReachSnoc(r[..2], s2, r[2]);
    assert r[..2] + [r[2]] == r[..3] && s2.replicas[1 := a] == s3.replicas;
    var s4 := System(map[1 := a, 2 := b], []);
    ReachSnoc(r[..3], s3, r[3]);
    assert r[..3] + [r[3]] == r[..4] && s3.replicas[2 := b] == s4.replicas;
  }

  lemma MeetingOpens(x: Id, y: Id, v: Value)
    ensures Reach(Meeting(x, y, v)[..6]) == Some(Apart(x, y, v))
  {
    hide Reach, InsertBetween;
    var s := Apart(x, y, v);
    var (a, b, r) := (s.replicas[1], s.replicas[2], Meeting(x, y, v));
    MeetingInserts(x, y, v);
    ReachSnoc(r[..4], s.(snapshots := []), r[4]);
    assert r[..4] + [r[4]] == r[..5] && [] + [a] == [a];
    ReachSnoc(r[..5], s.(snapshots := [a]), r[5]);
    assert r[..5] + [r[5]] == r[..6] && [a] + [b] == [a, b];
  }

  lemma MeetingMeets(x: Id, y: Id, v: Value)
    requires x != y
    ensures Reach(Meeting(x, y, v)).Some? && Met(Reach(Meeting(x, y, v)).value, x, y)
  {
    hide Reach, InsertBetween, Merge;
    var r := Meeting(x, y, v);
    var s := Apart(x, y, v);
    var (a, b) := (s.replicas[1], s.replicas[2]);
    MeetingOpens(x, y, v);
    ReachSnoc(r[..6], s, r[6]);
    assert r[..6] + [r[6]] == r[..7];
    ReachSnoc(r[..7], Put(s, 1, Merge(a, b, 0)), r[7]);
    assert r[..7] + [r[7]] == r;
    InsertFirst(1, x, v);
    InsertFirst(2, y, v);
    MergeTwo(a, b, x, y);
    MergeTwo(b, a, y, x);
  }

  lemma ReachNone()
    ensures Reach([]) == Some(System(map[], []))
  {
  }

  /** After both moves the two elements have one position, under stamps newer than all before. */
  ghost predicate MovedBoth(a: Replica, t: Replica, x: Id, y: Id) {
    && t.peer == a.peer && t.keys == a.keys && t.entries.Keys == a.entries.Keys == {x, y}
    && (forall z :: z in a.entries ==>
          && t.entries[z] == a.entries[z].(position := t.entries[z].position) && Less(a.entries[z].position.stamp, t.entries[z].position.stamp))
    && t.entries[x].position.value == t.entries[y].position.value
  }

  lemma MovesTie(a: Replica, x: Id, y: Id)
    requires x != y && a.entries.Keys == {x, y} && AllPassed(a.entries, a.clock)
    ensures var u := MoveBetween(a, x, None, None, 0).0; MovedBoth(a, MoveBetween(u, y, None, None, 0).0, x, y)
  {
    hide Less, SentFrom;
    var m := TickFresh(a, 0);
    var u := MoveBetween(a, x, None, None, 0).0;
    MovePassed(a, x);
    var n := TickFresh(u, 0);
    assert x in a.entries && y in a.entries && y in u.entries;
  }

  lemma MovePassed(a: Replica, x: Id)
    requires AllPassed(a.entries, a.clock)
    ensures var u := MoveBetween(a, x, None, None, 0).0; AllPassed(u.entries, u.clock)
  {
    hide Less, Passed, SentFrom, SpotBetween;
    var u := MoveBetween(a, x, None, None, 0).0;
    if x in a.entries {
      var m := Now(Tick(a, 0));
      forall z | z in u.entries ensures EntryPassed(u.entries[z], u.clock) {
        assert EntryPassed(a.entries[z], a.clock);
        SendAdvances(a.clock, 0, a.peer, a.entries[z].value.stamp);
        SendAdvances(a.clock, 0, a.peer, a.entries[z].position.stamp);
        SendAdvances(a.clock, 0, a.peer, a.entries[z].deleted.stamp);
      }
    }
  }

  /** Merging what is newer everywhere, under the keys it has. */
  lemma MergeNewer(a: Replica, t: Replica, b: Replica, x: Id, y: Id)
    requires x != y && MovedBoth(a, t, x, y) && b.entries == a.entries && t.keys == [x, y]
    ensures var u := Merge(b, t, 0); u.entries == t.entries && u.keys == b.keys
  {
    hide Heard;
    NewKeysAre(b.entries, t.keys);
    assert x in t.entries && y in t.entries;
    NoNewKeys(NewKeys(b.entries, t.keys));
    forall z | z in t.entries ensures MergeEntry(b.entries[z], t.entries[z]) == t.entries[z] {
      assert z in a.entries;
    }
    assert Merge(b, t, 0).entries == t.entries;
  }

  lemma NoNewKeys(keys: seq<Id>)
    requires forall z :: z !in keys
    ensures keys == []
  {
    HasFirst(keys);
  }

  lemma PairOrder(m: map<Id, Entry>, x: Id, y: Id)
    requires x != y && Live(m, x) && Live(m, y) && SpotOf(m, x) == SpotOf(m, y)
    ensures Ordered(m, [x, y]) == [x, y]
  {
    hide SpotBefore;
    SpotTotal(SpotOf(m, x), SpotOf(m, y), SpotOf(m, x));
    assert [x, y][..1] == [x] && [x][..0] == [];
    assert Ordered(m, [x]) == [x];
    assert PlaceIn(m, [], y) == [y] && [x][1..] == [];
  }

  /** Equal registers, and two orders: each replica shows the tied elements as it first saw them. */
  lemma TiedMovesDiverge(x: Id, y: Id, v: Value)
    requires x != y
    ensures match Reach(TieRun(x, y, v))
      case None => false
      case Some(s) =>
        && 1 in s.replicas && 2 in s.replicas && s.replicas[1].entries == s.replicas[2].entries
        && Order(s.replicas[1]) == [x, y] && Order(s.replicas[2]) == [y, x]
  {
    hide Reach, MoveBetween, Merge, Meeting, MovedBoth, Ordered, Inv, AllPassed;
    MeetingMeets(x, y, v);
    var run := Meeting(x, y, v);
    var s := Reach(run).value;
    var (a, b) := (s.replicas[1], s.replicas[2]);
    ReachOk(run);
    PassedIn(s, 1);
    var u := MoveBetween(a, x, None, None, 0).0;
    var t := MoveBetween(u, y, None, None, 0).0;
    MovesTie(a, x, y);
    var s1 := Put(s, 1, u);
    ReachSnoc(run, s, Move(1, x, None, None, 0));
    var s2 := Put(s1, 1, t);
    var run1 := run + [Move(1, x, None, None, 0)];
    ReachSnoc(run1, s1, Move(1, y, None, None, 0));
    var s3 := s2.(snapshots := s2.snapshots + [t]);
    var run2 := run1 + [Move(1, y, None, None, 0)];
    ReachSnoc(run2, s2, Publish(1));
    var run3 := run2 + [Publish(1)];
    ReachSnoc(run3, s3, Absorb(2, 2, 0));
    assert run3 + [Absorb(2, 2, 0)] == TieRun(x, y, v);
    TiedOrders(a, t, b, x, y);
  }

  lemma TiedOrders(a: Replica, t: Replica, b: Replica, x: Id, y: Id)
    requires x != y && MovedBoth(a, t, x, y) && b.entries == a.entries && a.keys == [x, y] && b.keys == [y, x]
    requires Live(a.entries, x) && Live(a.entries, y)
    ensures var u := Merge(b, t, 0); u.entries == t.entries && Order(t) == [x, y] && Order(u) == [y, x]
  {
    hide Merge, Ordered, Less;
    MergeNewer(a, t, b, x, y);
    PairOrder(t.entries, x, y);
    PairOrder(t.entries, y, x);
  }
}
