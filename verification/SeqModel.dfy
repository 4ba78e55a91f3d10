/** The move-aware sequence: three last-writer registers per element, stamped by a hybrid clock. */
module SeqModel {
  import opened Basics
  import opened Clock
  import FracKeys

  type Id(==, !new)
  type Value(==, !new)

  datatype Spot = Spot(frac: FracKeys.Key, peer: Peer)
  datatype Reg<T> = Reg(value: T, stamp: Stamp)
  datatype Entry = Entry(value: Reg<Value>, position: Reg<Spot>, deleted: Reg<bool>)

  /** `keys` lists the elements in the order they were first seen. */
  datatype Replica = Replica(peer: Peer, clock: Position, entries: map<Id, Entry>, keys: seq<Id>)

  function NewReplica(peer: Peer): Replica { Replica(peer, Position(0, 0), map[], []) }

  /** Overwrite only with a strictly newer stamp. */
  function SetReg<T>(r: Reg<T>, v: T, s: Stamp): Reg<T> { if Less(r.stamp, s) then Reg(v, s) else r }

  function MergeReg<T>(a: Reg<T>, b: Reg<T>): Reg<T> { if Less(a.stamp, b.stamp) then b else a }

  function MergeEntry(a: Entry, b: Entry): Entry {
    Entry(MergeReg(a.value, b.value), MergeReg(a.position, b.position), MergeReg(a.deleted, b.deleted))
  }

  function FracOf(r: Replica, x: Option<Id>): Option<FracKeys.Key> {
    if x.Some? && x.value in r.entries then Some(r.entries[x.value].position.value.frac) else None
  }

  /** A position between two elements; an absent neighbour is no bound. */
  function SpotBetween(r: Replica, left: Option<Id>, right: Option<Id>): Spot {
    Spot(FracKeys.KeyBetween(FracKeys.OrEmpty(FracOf(r, left)), FracOf(r, right)), r.peer)
  }

  function Tick(r: Replica, now: nat): Replica { r.(clock := SentFrom(r.clock, now)) }

  function Now(r: Replica): Stamp { StampAt(r.clock, r.peer) }

  function InsertBetween(r: Replica, x: Id, v: Value, left: Option<Id>, right: Option<Id>, now: nat): Replica {
    if x in r.entries then r
    else
      var spot := SpotBetween(r, left, right);
      var r1 := Tick(r, now);
      var s := Now(r1);
      r1.(entries := r1.entries[x := Entry(Reg(v, s), Reg(spot, s), Reg(false, s))], keys := r1.keys + [x])
  }

  /** The new replica, and whether the write took. */
  function SetValue(r: Replica, x: Id, v: Value, now: nat): (Replica, bool) {
    if x !in r.entries then (r, false)
    else
      var r1 := Tick(r, now);
      var e := r1.entries[x];
      (r1.(entries := r1.entries[x := e.(value := SetReg(e.value, v, Now(r1)))]), Less(e.value.stamp, Now(r1)))
  }

  function MoveBetween(r: Replica, x: Id, left: Option<Id>, right: Option<Id>, now: nat): (Replica, bool) {
    if x !in r.entries then (r, false)
    else
      var spot := SpotBetween(r, left, right);
      var r1 := Tick(r, now);
      var e := r1.entries[x];
      (r1.(entries := r1.entries[x := e.(position := SetReg(e.position, spot, Now(r1)))]), true)
  }

  function Remove(r: Replica, x: Id, now: nat): (Replica, bool) {
    if x !in r.entries then (r, false)
    else
      var r1 := Tick(r, now);
      var e := r1.entries[x];
      (r1.(entries := r1.entries[x := e.(deleted := SetReg(e.deleted, true, Now(r1)))]), Less(e.deleted.stamp, Now(r1)))
  }

  /** A copy under another peer keeps the clock's position. */
  function Fork(r: Replica, peer: Peer): Replica { r.(peer := peer) }

  function MaxStamp(e: Entry): Stamp {
    var m := if Less(e.value.stamp, e.position.stamp) then e.position.stamp else e.value.stamp;
    if Less(m, e.deleted.stamp) then e.deleted.stamp else m
  }

  /** The clock after receiving the newest stamp of every listed entry. */
  function Heard(c: Position, entries: map<Id, Entry>, keys: seq<Id>, now: nat): Position
    decreases |keys|
  {
    if keys == [] then c
    else
      var c1 := if keys[0] in entries then ReceivedAt(c, MaxStamp(entries[keys[0]]), now) else c;
      Heard(c1, entries, keys[1..], now)
  }

  function JoinAt(a: map<Id, Entry>, b: map<Id, Entry>, x: Id): Entry
    requires x in a || x in b
  {
    if x !in a then b[x] else if x !in b then a[x] else MergeEntry(a[x], b[x])
  }

  /** Register by register, the newer of the two. */
  function Join(a: map<Id, Entry>, b: map<Id, Entry>): map<Id, Entry> {
    map x | x in a.Keys + b.Keys :: JoinAt(a, b, x)
  }

  function NewKeys(entries: map<Id, Entry>, keys: seq<Id>): seq<Id> {
    if keys == [] then []
    else NewKeys(entries, keys[..|keys| - 1]) + if keys[|keys| - 1] in entries then [] else [keys[|keys| - 1]]
  }

  function Merge(r: Replica, other: Replica, now: nat): Replica {
    r.(clock := Heard(r.clock, other.entries, other.keys, now), entries := Join(r.entries, other.entries),
       keys := r.keys + NewKeys(r.entries, other.keys))
  }
}
