/** What the passes of a run hand to the host, and when the host can follow the producer by folding it. */
module SyncHost {
  import opened Basics
  import Resync
  import opened SyncModel

  // -- what a run applies, and what it hands over -------------------------------------------------------

  /** What the last step of the run applied. */
  ghost function AppliedLast(sink: Sink, steps: seq<Step>): seq<Inbound>
    requires steps != []
  {
    var step := steps[|steps| - 1];
    match Reach(sink, steps[..|steps| - 1])
    case None => []
    case Some((d, _)) => if step.TickWith? then Applied(d.receiver, step.inbox) else []
  }

  /** What it returned to the host. */
  ghost function HandedLast(sink: Sink, steps: seq<Step>): seq<Inbound>
    requires steps != []
  {
    var step := steps[|steps| - 1];
    match Reach(sink, steps[..|steps| - 1])
    case None => []
    case Some((d, _)) =>
      if !step.TickWith? then []
      else match Progress(d, step.inbox, step.broken) case None => [] case Some(applied) => applied
  }

  ghost function AllApplied(sink: Sink, steps: seq<Step>): seq<Inbound>
    decreases |steps|
  {
    if steps == [] then [] else AllApplied(sink, steps[..|steps| - 1]) + AppliedLast(sink, steps)
  }

  ghost function AllHanded(sink: Sink, steps: seq<Step>): seq<Inbound>
    decreases |steps|
  {
    if steps == [] then [] else AllHanded(sink, steps[..|steps| - 1]) + HandedLast(sink, steps)
  }

  /** Some pass was broken off after it had read something that applies. */
  ghost predicate Loses(sink: Sink, steps: seq<Step>)
    decreases |steps|
  {
    steps != [] &&
      var step := steps[|steps| - 1];
      Loses(sink, steps[..|steps| - 1]) || (step.TickWith? && step.broken && AppliedLast(sink, steps) != [])
  }

  /** The host is handed all that was applied if and only if no pass was broken off after it had read something that applies. */
  lemma {:induction false} HandedIffNoneLost(sink: Sink, steps: seq<Step>)
    ensures AllHanded(sink, steps) == AllApplied(sink, steps) <==> !Loses(sink, steps)
    ensures |AllHanded(sink, steps)| <= |AllApplied(sink, steps)|
    ensures Loses(sink, steps) ==> |AllHanded(sink, steps)| < |AllApplied(sink, steps)|
    decreases |steps|
  {
    hide Reach, Applied;
    if steps != [] {
      HandedIffNoneLost(sink, steps[..|steps| - 1]);
    }
  }

  // -- the receiver and the frames it was shown -------------------------------------------------------------

  function FramesIn(inbox: seq<Inbound>): seq<Resync.Frame>
    decreases |inbox|
  {
    if inbox == [] then []
    else (if inbox[0].Received? then [inbox[0].frame] else []) + FramesIn(inbox[1..])
  }

  /** Every frame read in a run. */
  function Frames(steps: seq<Step>): seq<Resync.Frame>
    decreases |steps|
  {
    if steps == [] then []
    else
      var step := steps[|steps| - 1];
      Frames(steps[..|steps| - 1]) + if step.TickWith? then FramesIn(step.inbox) else []
  }

  function MovedAll(r: Resync.Receiver, inbox: seq<Inbound>): Resync.Receiver
    decreases |inbox|
  {
    if inbox == [] then r else MovedAll(Moved(r, inbox[0]), inbox[1..])
  }

  lemma {:induction false} HandleMoves(d: Driver, sink: Sink, inbox: seq<Inbound>, now: nat)
    ensures Handle(d, sink, inbox, now).receiver == MovedAll(d.receiver, inbox)
    decreases |inbox|
  {
    hide HandleOne, Moved;
    if inbox != [] {
      HandlesOne(d, sink, inbox[0], now);
      HandleMoves(HandleOne(d, sink, inbox[0], now), sink, inbox[1..], now);
    }
  }

  lemma TickMoves(d: Driver, sink: Sink, inbox: seq<Inbound>, broken: bool, now: nat)
    ensures Tick(d, sink, inbox, broken, now).receiver == MovedAll(d.receiver, inbox)
  {
    hide Reconnect, Drain, Handle, MovedAll, Adds, SameBooks;
    ReconnectSame(d, sink, now);
    var d1 := Reconnect(d, sink, now);
    DrainAdds(d1, sink, now);
    HandleMoves(Drain(d1, sink, now), sink, inbox, now);
  }

  /** A host that folds what it is given. */
  function ShowOne(v: Resync.View, m: Inbound): Resync.View { if m.Received? then Resync.Show(v, m.frame).0 else v }

  function ShowAll(v: Resync.View, ms: seq<Inbound>): Resync.View
    decreases |ms|
  {
    if ms == [] then v else ShowOne(ShowAll(v, ms[..|ms| - 1]), ms[|ms| - 1])
  }

  lemma ShowNext(v: Resync.View, ms: seq<Inbound>, m: Inbound)
    ensures ShowAll(v, ms + [m]) == ShowOne(ShowAll(v, ms), m)
  {
    assert (ms + [m])[..|ms|] == ms;
  }

  lemma TakeNext(frames: seq<Resync.Frame>, f: Resync.Frame)
    ensures Resync.TakeAll(frames + [f]) == Resync.Take(Resync.TakeAll(frames), f)
  {
    assert (frames + [f])[..|frames|] == frames;
  }

  lemma Rejoined<T>(a: seq<T>, b: seq<T>, c: seq<T>)
    ensures a + (b + c) == (a + b) + c && a + [] == a
  {
  }

  /** Folding what was applied keeps up with a replica that takes every frame. */
  ghost predicate Follows(frames: seq<Resync.Frame>, r: Resync.Receiver, applied: seq<Inbound>) {
    Resync.TakeAll(frames).receiver == r && Resync.TakeAll(frames).view == ShowAll(Resync.NEW_VIEW, applied)
  }

  lemma FollowsOne(frames: seq<Resync.Frame>, r: Resync.Receiver, applied: seq<Inbound>, m: Inbound)
    requires Follows(frames, r, applied)
    ensures Follows(frames + (if m.Received? then [m.frame] else []), Moved(r, m), applied + (if Folds(r, m) then [m] else []))
  {
    hide Resync.Show, Resync.Ingest;
    if m.Received? {
      TakeNext(frames, m.frame);
    } else {
      Rejoined(frames, [], []);
    }
    ShowNext(Resync.NEW_VIEW, applied, m);
    Rejoined(applied, [], []);
  }

  lemma {:induction false} FollowsPass(frames: seq<Resync.Frame>, r: Resync.Receiver, applied: seq<Inbound>, inbox: seq<Inbound>)
    requires Follows(frames, r, applied)
    ensures Follows(frames + FramesIn(inbox), MovedAll(r, inbox), applied + Applied(r, inbox))
    decreases |inbox|
  {
    hide Follows, Moved, Folds;
    Rejoined(frames, [], []);
    Rejoined(applied, [], []);
    if inbox != [] {
      var m := inbox[0];
      FollowsOne(frames, r, applied, m);
      var shown, folded := if m.Received? then [m.frame] else [], if Folds(r, m) then [m] else [];
      FollowsPass(frames + shown, Moved(r, m), applied + folded, inbox[1..]);
      Rejoined(frames, shown, FramesIn(inbox[1..]));
      Rejoined(applied, folded, Applied(Moved(r, m), inbox[1..]));
    }
  }

  lemma {:induction false} RunFollows(sink: Sink, steps: seq<Step>)
    ensures match Reach(sink, steps)
      case None => true
      case Some((d, _)) => Follows(Frames(steps), d.receiver, AllApplied(sink, steps))
    decreases |steps|
  {
    hide Follows, Applied, FramesIn, MovedAll, Tick;
    if steps == [] {
      StartFollows();
    } else {
      var r, step := Reach(sink, steps[..|steps| - 1]), steps[|steps| - 1];
      RunFollows(sink, steps[..|steps| - 1]);
      if r.Some? {
        var d := r.value.0;
        var frames, applied := Frames(steps[..|steps| - 1]), AllApplied(sink, steps[..|steps| - 1]);
        Rejoined(frames, [], []);
        Rejoined(applied, [], []);
        if step.TickWith? {
          FollowsPass(frames, d.receiver, applied, step.inbox);
          TickMoves(d, sink, step.inbox, step.broken, step.now);
        }
      }
    }
  }

  lemma StartFollows()
    ensures Follows([], IDLE.receiver, [])
  {
  }

  /**
   Fed truthful frames in any order and repetition, in every run of passes, sink failures and reconnects in
   which no pass was broken off after reading something that applies, a host that folds what the passes
   return shows the producer's graph at the epoch the driver acknowledges.
   */
  lemma HostFollows(log: Resync.Log, sink: Sink, steps: seq<Step>)
    requires forall i :: 0 <= i < |Frames(steps)| ==> Resync.Truthful(log, Frames(steps)[i])
    ensures match Reach(sink, steps)
      case None => true
      case Some((d, _)) =>
        var view := ShowAll(Resync.NEW_VIEW, AllHanded(sink, steps));
        && d.receiver.lastEpoch <= |log|
        && (!Loses(sink, steps) ==> view.graph == Resync.At(log, d.receiver.lastEpoch) && view.epoch == d.receiver.lastEpoch)
  {
    hide Reach, Loses, AllHanded, AllApplied, Frames, Resync.Truthful;
    RunFollows(sink, steps);
    HandedIffNoneLost(sink, steps);
    Resync.ResyncSafety(log, Frames(steps));
  }

  // -- a delta read before the read that fails -------------------------------------------------------------

  function Added(x: Resync.Id, p: Resync.Payload): Resync.Frame {
    Resync.Delta(0, 1, [Resync.NodeAdd(x, "t", Some(p))])
  }

  /** A delta arrives, the next read fails; after the reconnect the peer sends the delta again. */
  function BrokenRun(x: Resync.Id, p: Resync.Payload): seq<Step> {
    [TickWith([Received(Added(x, p))], true, 1), Reconnected, TickWith([Received(Added(x, p))], false, 2)]
  }

  lemma AddedIsTrue(x: Resync.Id, p: Resync.Payload)
    ensures var f := Added(x, p); Resync.Truthful([f.ops], f) && x in Resync.At([f.ops], 1).nodes
  {
    var f := Added(x, p);
    assert [f.ops][0..1] == [f.ops] && [f.ops][..1] == [f.ops] && [f.ops][..0] == [] && f.ops[..0] == [];
    assert Resync.Emitted([f.ops]) == [] + f.ops == f.ops;
    assert Resync.Fold(Resync.NO_GRAPH, f.ops) == Resync.ApplyOp(Resync.Fold(Resync.NO_GRAPH, []), f.ops[0]);
  }

  lemma HandleSingle(d: Driver, sink: Sink, m: Inbound, now: nat)
    ensures Handle(d, sink, [m], now) == HandleOne(d, sink, m, now)
    ensures Applied(d.receiver, [m]) == if Folds(d.receiver, m) then [m] else []
  {
    hide HandleOne, Folds, Moved;
    assert [m][1..] == [];
    Rejoined(if Folds(d.receiver, m) then [m] else [], [], []);
  }

  /** The pass that is broken off moves the receiver, and owes the peer an acknowledgement. */
  lemma BrokenPass(sink: Sink, f: Resync.Frame, now: nat)
    requires f.Delta? && f.baseEpoch == 0 && f.epoch == 1
    ensures Tick(IDLE, sink, [Received(f)], true, now) == IDLE.(receiver := Resync.Receiver(1, false), ackOwed := true)
    ensures Applied(IDLE.receiver, [Received(f)]) == [Received(f)]
  {
    HandleSingle(IDLE, sink, Received(f), now);
    assert Drain(Reconnect(IDLE, sink, now), sink, now) == IDLE;
  }

  /** The same delta after the reconnect is ignored, and the acknowledgement goes out. */
  lemma SecondPass(sink: Sink, f: Resync.Frame, d: Driver, now: nat)
    requires sink(0) && f.Delta? && f.baseEpoch == 0 && f.epoch == 1
    requires d == OnReconnect(IDLE.(receiver := Resync.Receiver(1, false), ackOwed := true))
    ensures Tick(d, sink, [Received(f)], false, now) == d.(replayPending := false, ackOwed := false, tries := 1, sent := [Ack(1)])
    ensures Applied(d.receiver, [Received(f)]) == []
  {
    HandleSingle(d.(replayPending := false), sink, Received(f), now);
    NothingPast(d.store.entries, 0, MaxKey(d.store.entries.Keys));
    assert Reconnect(d, sink, now) == d.(replayPending := false);
  }

  lemma HandedSnoc(sink: Sink, steps: seq<Step>, step: Step)
    ensures AllHanded(sink, steps + [step]) == AllHanded(sink, steps) + HandedLast(sink, steps + [step])
    ensures (steps + [step])[..|steps|] == steps
  {
    assert (steps + [step])[..|steps|] == steps;
  }

  /** The delta is acknowledged to the peer and never handed to the host, whose view stays empty. */
  lemma BrokenReadLoses(sink: Sink, x: Resync.Id, p: Resync.Payload)
    requires sink(0)
    ensures Resync.Truthful([Added(x, p).ops], Added(x, p)) && x in Resync.At([Added(x, p).ops], 1).nodes
    ensures match Reach(sink, BrokenRun(x, p))
      case None => false
      case Some((d, _)) =>
        d.receiver.lastEpoch == 1 && d.sent == [Ack(1)] && AllHanded(sink, BrokenRun(x, p)) == []
  {
    hide Resync.Truthful, Resync.At, Reach, Tick, Applied, Acks, AllHanded;
    var m := Received(Added(x, p));
    var first, second, third := TickWith([m], true, 1), Reconnected, TickWith([m], false, 2);
    AddedIsTrue(x, p);
    BrokenPass(sink, Added(x, p), 1);
    StartReach(sink);
    ReachSnoc(sink, [], first);
    HandedSnoc(sink, [], first);
    ReachSnoc(sink, [first], second);
    HandedSnoc(sink, [first], second);
    var d := OnReconnect(IDLE.(receiver := Resync.Receiver(1, false), ackOwed := true));
    SecondPass(sink, Added(x, p), d, 2);
    ReachSnoc(sink, [first, second], third);
    HandedSnoc(sink, [first, second], third);
    assert [] + [first] == [first] && [first] + [second] == [first, second];
    assert [first, second] + [third] == BrokenRun(x, p);
  }

  lemma StartReach(sink: Sink)
    ensures Reach(sink, []) == Some((IDLE, History([], 0, []))) && AllHanded(sink, []) == []
  {
  }
}
