/** The hybrid logical clock: stamps minted by one peer strictly increase, whatever the wall clock does. */
module Clock {
  import opened Basics

  type Peer = nat
  datatype Stamp = Stamp(wallTime: nat, logical: nat, peer: Peer)

  /** Where a clock stands. */
  datatype Position = Position(wall: nat, logical: nat)

  predicate Less(a: Stamp, b: Stamp) {
    a.wallTime < b.wallTime
    || (a.wallTime == b.wallTime && (a.logical < b.logical || (a.logical == b.logical && a.peer < b.peer)))
  }

  predicate Leq(a: Stamp, b: Stamp) { a == b || Less(a, b) }

  lemma LessTotal(a: Stamp, b: Stamp)
    ensures Less(a, b) || a == b || Less(b, a)
    ensures !(Less(a, b) && Less(b, a)) && !Less(a, a)
  {
  }

  /** The stamp was minted at or before the position. */
  predicate Passed(s: Stamp, c: Position) { s.wallTime < c.wall || (s.wallTime == c.wall && s.logical <= c.logical) }

  predicate PositionLeq(a: Position, b: Position) { a.wall < b.wall || (a.wall == b.wall && a.logical <= b.logical) }

  function SentFrom(c: Position, now: nat): Position {
    if now > c.wall then Position(now, 0) else Position(c.wall, c.logical + 1)
  }

  function ReceivedAt(c: Position, remote: Stamp, now: nat): Position {
    var wall := Max(Max(c.wall, remote.wallTime), now);
    if wall == c.wall && wall == remote.wallTime then Position(wall, Max(c.logical, remote.logical) + 1)
    else if wall == c.wall then Position(wall, c.logical + 1)
    else if wall == remote.wallTime then Position(wall, remote.logical + 1)
    else Position(wall, 0)
  }

  function StampAt(c: Position, peer: Peer): Stamp { Stamp(c.wall, c.logical, peer) }

  /** A sent stamp is newer than everything the clock has passed, whatever the wall clock says. */
  lemma SendAdvances(c: Position, now: nat, peer: Peer, s: Stamp)
    ensures PositionLeq(c, SentFrom(c, now)) && Passed(StampAt(SentFrom(c, now), peer), SentFrom(c, now))
    ensures Passed(s, c) ==> Less(s, StampAt(SentFrom(c, now), peer)) && Passed(s, SentFrom(c, now))
  {
  }

  /** Receiving passes the remote stamp and everything passed before. */
  lemma ReceiveAdvances(c: Position, remote: Stamp, now: nat, s: Stamp)
    ensures PositionLeq(c, ReceivedAt(c, remote, now)) && Passed(remote, ReceivedAt(c, remote, now))
    ensures Passed(s, c) ==> Passed(s, ReceivedAt(c, remote, now))
  {
  }

  datatype Event = Sent(now: nat) | Received(remote: Stamp, now: nat)

  function Ran(events: seq<Event>): Position {
    if events == [] then Position(0, 0)
    else
      var c := Ran(events[..|events| - 1]);
      match events[|events| - 1]
      case Sent(now) => SentFrom(c, now)
      case Received(remote, now) => ReceivedAt(c, remote, now)
  }

  predicate Showed(e: Event, wall: nat) { e.now == wall || (e.Received? && e.remote.wallTime == wall) }

  /** In every run the wall part is the latest wall time seen, its own or received, so it never runs ahead of all wall clocks. */
  lemma {:induction false} WallIsLatestSeen(events: seq<Event>)
    ensures var c := Ran(events);
      && (forall e, w: nat :: e in events && Showed(e, w) ==> w <= c.wall)
      && (c.wall == 0 || exists e :: e in events && Showed(e, c.wall))
    decreases |events|
  {
    if events != [] {
      var before, e := events[..|events| - 1], events[|events| - 1];
      WallIsLatestSeen(before);
      assert events == before + [e];
      var b, c := Ran(before), Ran(events);
      if c.wall != b.wall {
        assert Showed(e, c.wall);
      } else if c.wall != 0 {
        var f :| f in before && Showed(f, b.wall);
        assert f in events;
      }
    }
  }

  /** The count starts anew exactly when the wall part moves past all counts seen, and otherwise is the next one. */
  lemma CountsOn(c: Position, remote: Stamp, now: nat)
    ensures var d := SentFrom(c, now); d.logical == if d.wall > c.wall then 0 else c.logical + 1
    ensures var d := ReceivedAt(c, remote, now);
      && (d.logical == 0 <==> d.wall > c.wall && d.wall > remote.wallTime)
      && (d.logical > 0 ==> (d.wall == c.wall && d.logical == c.logical + 1) || (d.wall == remote.wallTime && d.logical == remote.logical + 1))
  {
  }

  class Hlc {
    const peer: Peer
    var lastWall: nat
    var lastLogical: nat

    ghost function Here(): Position
      reads this
    {
      Position(lastWall, lastLogical)
    }

    constructor (owner: Peer)
      ensures peer == owner && Here() == Position(0, 0)
    {
      peer, lastWall, lastLogical := owner, 0, 0;
    }

    method Send(nowMicros: nat) returns (s: Stamp)
      modifies this
      ensures Here() == SentFrom(old(Here()), nowMicros) && s == StampAt(Here(), peer)
      ensures forall t :: Passed(t, old(Here())) ==> Less(t, s)
    {
      if nowMicros > lastWall {
        lastWall := nowMicros;
        lastLogical := 0;
      } else {
        lastLogical := lastLogical + 1;
      }
      s := Stamp(lastWall, lastLogical, peer);
    }

    method Recv(remote: Stamp, nowMicros: nat)
      modifies this
      ensures Here() == ReceivedAt(old(Here()), remote, nowMicros)
      ensures Passed(remote, Here()) && forall t :: Passed(t, old(Here())) ==> Passed(t, Here())
    {
      var wall := Max(Max(lastWall, remote.wallTime), nowMicros);
      if wall == lastWall && wall == remote.wallTime {
        lastLogical := Max(lastLogical, remote.logical) + 1;
      } else if wall == lastWall {
        lastLogical := lastLogical + 1;
      } else if wall == remote.wallTime {
        lastLogical := remote.logical + 1;
      } else {
        lastLogical := 0;
      }
      lastWall := wall;
    }
  }
}
