/** Everything one pass of the driver sends, in order, whichever of its attempts fail. */
module SyncPasses {
  import opened Basics
  import Resync
  import opened SyncModel

  // -- what is offered ----------------------------------------------------------------------------------------

  /** What a pass answers to what comes in: a snapshot to each request, and a request to the first frame ahead. */
  function Answers(r: Resync.Receiver, inbox: seq<Inbound>): seq<Msg>
    decreases |inbox|
  {
    if inbox == [] then []
    else
      var m := inbox[0];
      (if m.Requested? then [Served(m.fromEpoch)]
       else if m.Received? && Resync.Ahead(r.lastEpoch, m.frame) && !r.resyncing then [Request(r.lastEpoch)]
       else []) + Answers(Moved(r, m), inbox[1..])
  }

  /** The receiver after what came in. */
  function After(r: Resync.Receiver, inbox: seq<Inbound>): Resync.Receiver
    decreases |inbox|
  {
    if inbox == [] then r else After(Moved(r, inbox[0]), inbox[1..])
  }

  /** Some frame that came in was applied. */
  predicate Heard(r: Resync.Receiver, inbox: seq<Inbound>)
    decreases |inbox|
  {
    inbox != [] && ((inbox[0].Received? && Resync.Follows(r.lastEpoch, inbox[0].frame)) || Heard(Moved(r, inbox[0]), inbox[1..]))
  }

  /** How many attempts are made when one stops at the first that fails. */
  function Tried(sink: Sink, tries: nat, n: nat): (k: nat)
    ensures k <= n
  {
    Min(n, Sendable(sink, tries, n) + 1)
  }

  /** Those of the messages whose own attempt succeeds. */
  function Went(sink: Sink, tries: nat, msgs: seq<Msg>): seq<Msg>
    decreases |msgs|
  {
    if msgs == [] then [] else (if sink(tries) then [msgs[0]] else []) + Went(sink, tries + 1, msgs[1..])
  }

  predicate AllGo(sink: Sink, tries: nat, n: nat) { forall i :: tries <= i < tries + n ==> sink(i) }

  // -- the parts of a pass --------------------------------------------------------------------------------------

  lemma {:induction false} ReplayPart(d: Driver, sink: Sink, frames: seq<(nat, Body)>, now: nat)
    requires !d.replayPending
    ensures var t, n := Replay(d, sink, frames, now), Sendable(sink, d.tries, |frames|);
      t == d.(sent := d.sent + AsData(frames[..n]), tries := d.tries + Tried(sink, d.tries, |frames|), replayPending := n < |frames|,
              stalledSince := if n < |frames| then Some(now) else d.stalledSince)
    decreases |frames|
  {
    hide AsData;
    AsDataNil(d.sent, frames);
    if frames != [] && sink(d.tries) {
      ReplayPart(TrySend(d, sink, Data(frames[0].0, frames[0].1)).0, sink, frames[1..], now);
      AsDataCons(d.sent, frames, Sendable(sink, d.tries + 1, |frames| - 1));
    }
  }

  /** What a drain leaves: the store aside, everything is known from the queue and the sink. */
  lemma {:induction false} DrainPart(d: Driver, sink: Sink, now: nat)
    requires d.stalledSince.None?
    ensures var t, n := Drain(d, sink, now), Sendable(sink, d.tries, |d.pending|);
      t == d.(store := t.store, sent := d.sent + AsData(d.pending[..n]), tries := d.tries + Tried(sink, d.tries, |d.pending|),
              pending := d.pending[Tried(sink, d.tries, |d.pending|)..], stalledSince := if n < |d.pending| then Some(now) else None)
    decreases |d.pending|
  {
    hide AsData, Drain, Sendable, Tried;
    AsDataNil(d.sent, d.pending);
    DrainOne(d, sink, now);
    OneAttempt(sink, d.tries, |d.pending|);
    if d.pending != [] && sink(d.tries) {
      var d2 := Drained(d, true);
      DrainPart(d2, sink, now);
      AsDataCons(d.sent, d.pending, Sendable(sink, d2.tries, |d2.pending|));
      Later(d.pending, Tried(sink, d2.tries, |d2.pending|));
    }
  }

  lemma OneAttempt(sink: Sink, tries: nat, n: nat)
    ensures n == 0 ==> Sendable(sink, tries, n) == 0 == Tried(sink, tries, n)
    ensures n > 0 && !sink(tries) ==> Sendable(sink, tries, n) == 0 && Tried(sink, tries, n) == 1
    ensures n > 0 && sink(tries) ==>
      Sendable(sink, tries, n) == 1 + Sendable(sink, tries + 1, n - 1) && Tried(sink, tries, n) == 1 + Tried(sink, tries + 1, n - 1)
  {
  }

  /** The driver after an attempt at the head of its queue. */
  function Drained(d: Driver, went: bool): Driver
    requires d.pending != []
  {
    var (epoch, body) := d.pending[0];
    d.(store := Put(d.store, epoch, body), pending := d.pending[1..], tries := d.tries + 1,
       sent := if went then d.sent + [Data(epoch, body)] else d.sent)
  }

  lemma DrainOne(d: Driver, sink: Sink, now: nat)
    requires d.stalledSince.None?
    ensures Drain(d, sink, now) ==
      if d.pending == [] then d
      else if sink(d.tries) then Drain(Drained(d, true), sink, now)
      else Drained(d, false).(stalledSince := Some(now))
  {
    hide TrySend, Drained, Put;
    if d.pending != [] {
      AttemptIs(d, sink);
    }
  }

  lemma AttemptIs(d: Driver, sink: Sink)
    requires d.pending != []
    ensures var (epoch, body) := d.pending[0];
      TrySend(d.(store := Put(d.store, epoch, body), pending := d.pending[1..]), sink, Data(epoch, body)) ==
      (Drained(d, sink(d.tries)), sink(d.tries))
  {
    hide Put;
  }

  lemma Later(frames: seq<(nat, Body)>, k: nat)
    requires k < |frames|
    ensures frames[1..][k..] == frames[k + 1..]
  {
  }

  lemma HandleOnePart(d: Driver, sink: Sink, m: Inbound, now: nat)
    ensures var (t, msgs) := (HandleOne(d, sink, m, now), Answers(d.receiver, [m]));
      && t.sent == d.sent + Went(sink, d.tries, msgs) && t.tries == d.tries + |msgs|
      && t.receiver == Moved(d.receiver, m) && t.ackOwed == (d.ackOwed || Heard(d.receiver, [m]))
      && t.stalledSince == if AllGo(sink, d.tries, |msgs|) then d.stalledSince else Some(now)
  {
    assert [m][1..] == [];
    assert Answers(Moved(d.receiver, m), []) == [];
  }

  lemma {:induction false} WentConcat(sink: Sink, tries: nat, a: seq<Msg>, b: seq<Msg>)
    ensures Went(sink, tries, a + b) == Went(sink, tries, a) + Went(sink, tries + |a|, b)
    decreases |a|
  {
    if a == [] {
      assert a + b == b;
    } else {
      assert (a + b)[1..] == a[1..] + b && (a + b)[0] == a[0];
      WentConcat(sink, tries + 1, a[1..], b);
      Regroup(if sink(tries) then [a[0]] else [], Went(sink, tries + 1, a[1..]), Went(sink, tries + |a|, b));
    }
  }

  lemma Regroup(a: seq<Msg>, b: seq<Msg>, c: seq<Msg>)
    ensures a + (b + c) == (a + b) + c
  {
  }

  lemma AnswersCons(r: Resync.Receiver, inbox: seq<Inbound>)
    requires inbox != []
    ensures Answers(r, inbox) == Answers(r, [inbox[0]]) + Answers(Moved(r, inbox[0]), inbox[1..])
    ensures Heard(r, inbox) <==> Heard(r, [inbox[0]]) || Heard(Moved(r, inbox[0]), inbox[1..])
  {
    assert [inbox[0]][1..] == [];
    assert Answers(Moved(r, inbox[0]), []) == [];
  }

  lemma {:induction false} HandlePart(d: Driver, sink: Sink, inbox: seq<Inbound>, now: nat)
    ensures var (t, msgs) := (Handle(d, sink, inbox, now), Answers(d.receiver, inbox));
      && t.sent == d.sent + Went(sink, d.tries, msgs) && t.tries == d.tries + |msgs|
      && t.receiver == After(d.receiver, inbox) && t.ackOwed == (d.ackOwed || Heard(d.receiver, inbox))
      && t.stalledSince == if AllGo(sink, d.tries, |msgs|) then d.stalledSince else Some(now)
    decreases |inbox|
  {
    hide HandleOne, Moved;
    if inbox != [] {
      var (a, b) := (Answers(d.receiver, [inbox[0]]), Answers(Moved(d.receiver, inbox[0]), inbox[1..]));
      HandleOnePart(d, sink, inbox[0], now);
      HandlePart(HandleOne(d, sink, inbox[0], now), sink, inbox[1..], now);
      AnswersCons(d.receiver, inbox);
      WentConcat(sink, d.tries, a, b);
      Regroup(d.sent, Went(sink, d.tries, a), Went(sink, d.tries + |a|, b));
      GoesOn(sink, d.tries, |a|, |b|);
    }
  }

  lemma GoesOn(sink: Sink, tries: nat, a: nat, b: nat)
    ensures AllGo(sink, tries, a + b) <==> AllGo(sink, tries, a) && AllGo(sink, tries + a, b)
  {
    if AllGo(sink, tries, a) && AllGo(sink, tries + a, b) {
      forall i | tries <= i < tries + (a + b) ensures sink(i) {
        assert i < tries + a || tries + a <= i;
      }
    }
  }

  // -- the whole pass ---------------------------------------------------------------------------------------------

  /** The frames a pass replays, and those it drains if the sink is up by then. */
  ghost function Owed(d: Driver): seq<(nat, Body)> {
    if d.replayPending then ScanAfter(d.store, Max(d.peerAckedThrough, d.ackedThrough)) else []
  }

  ghost function Queued(d: Driver, sink: Sink): seq<(nat, Body)> {
    if d.stalledSince.Some? || Sendable(sink, d.tries, |Owed(d)|) < |Owed(d)| then [] else d.pending
  }

  ghost function Attempts(d: Driver, sink: Sink): nat {
    var a := Tried(sink, d.tries, |Owed(d)|);
    a + Tried(sink, d.tries + a, |Queued(d, sink)|)
  }

  /** What a pass sends before it reads, and what it leaves queued, owed and stalled. */
  ghost predicate Out(d: Driver, t: Driver, sink: Sink, now: nat) {
    var (owed, queue) := (Owed(d), Queued(d, sink));
    var a := Tried(sink, d.tries, |owed|);
    var (n, m) := (Sendable(sink, d.tries, |owed|), Sendable(sink, d.tries + a, |queue|));
    && t.sent == (d.sent + AsData(owed[..n])) + AsData(queue[..m]) && t.tries == d.tries + Attempts(d, sink)
    && (d.replayPending ==> (t.replayPending <==> n < |owed|)) && (!d.replayPending ==> !t.replayPending)
    && t.pending == (if queue == [] then d.pending else queue[Tried(sink, d.tries + a, |queue|)..])
    && t.stalledSince == (if n < |owed| || m < |queue| then Some(now) else d.stalledSince)
    && t.receiver == d.receiver && t.ackOwed == d.ackOwed
  }

  lemma OutPart(d: Driver, sink: Sink, now: nat)
    ensures Out(d, Drain(Reconnect(d, sink, now), sink, now), sink, now)
  {
    hide ScanAfter, Replay, Drain, AsData, Sendable;
    var d0 := d.(replayPending := false);
    var d1 := Reconnect(d, sink, now);
    if d.replayPending {
      ReplayPart(d0, sink, Owed(d), now);
    } else {
      NothingOwed(d, sink);
    }
    if d1.stalledSince.None? {
      DrainPart(d1, sink, now);
    } else {
      StalledPart(d1, sink, now);
    }
  }

  lemma NothingOwed(d: Driver, sink: Sink)
    ensures d.sent + AsData([]) == d.sent && Sendable(sink, d.tries, 0) == 0 == Tried(sink, d.tries, 0) && AsData([]) == []
  {
  }

  lemma StalledPart(d: Driver, sink: Sink, now: nat)
    requires d.stalledSince.Some?
    ensures Drain(d, sink, now) == d && d.sent + AsData([]) == d.sent && Sendable(sink, d.tries, 0) == 0 == Tried(sink, d.tries, 0)
  {
  }

  /**
   A pass sends the frames it owes to a replay, oldest first and up to the first failure; then, if the sink is
   up, the queue in the same way, each frame leaving it with its attempt; then whatever answers of its own get through
   to what came in; and last, if anything was applied and no cursor went out since and the read did not fail, the cursor
   of the receiver. A failure is remembered as the time of the pass, but for the cursor's, which stays owed.
   */
  lemma PassSends(d: Driver, sink: Sink, inbox: seq<Inbound>, broken: bool, now: nat)
    ensures var t := Tick(d, sink, inbox, broken, now);
      var (mid, msgs) := (Drain(Reconnect(d, sink, now), sink, now), Answers(d.receiver, inbox));
      var (tries, r) := (d.tries + Attempts(d, sink), After(d.receiver, inbox));
      var due := !broken && (d.ackOwed || Heard(d.receiver, inbox));
      var acks := due && sink(tries + |msgs|);
      && Out(d, mid, sink, now)
      && t.sent == (mid.sent + Went(sink, tries, msgs)) + (if acks then [Ack(r.lastEpoch)] else [])
      && t.pending == mid.pending && t.replayPending == mid.replayPending && t.receiver == r
      && t.ackOwed == ((d.ackOwed || Heard(d.receiver, inbox)) && !acks)
      && t.stalledSince == (if AllGo(sink, tries, |msgs|) then mid.stalledSince else Some(now))
      && t.tries == tries + |msgs| + if due then 1 else 0
  {
    hide ScanAfter, Replay, Drain, AsData, Sendable, Handle, Reconnect, Went, Answers;
    var mid := Drain(Reconnect(d, sink, now), sink, now);
    OutPart(d, sink, now);
    OutGives(d, mid, sink, now);
    HandlePart(mid, sink, inbox, now);
    HandleKeeps(mid, sink, inbox, now);
  }

  lemma OutGives(d: Driver, t: Driver, sink: Sink, now: nat)
    requires Out(d, t, sink, now)
    ensures t.tries == d.tries + Attempts(d, sink) && t.receiver == d.receiver && t.ackOwed == d.ackOwed
  {
  }

  lemma HandleKeeps(d: Driver, sink: Sink, inbox: seq<Inbound>, now: nat)
    ensures var t := Handle(d, sink, inbox, now); t.pending == d.pending && t.replayPending == d.replayPending
    decreases |inbox|
  {
    hide HandleOne;
    if inbox != [] {
      HandlesOne(d, sink, inbox[0], now);
      HandleKeeps(HandleOne(d, sink, inbox[0], now), sink, inbox[1..], now);
    }
  }

  /** A pass over a sink that takes everything leaves nothing queued, nothing owed and nothing stalled. */
  lemma CleanPass(d: Driver, sink: Sink, inbox: seq<Inbound>, now: nat)
    requires d.stalledSince.None? && forall i :: sink(i)
    ensures var t := Tick(d, sink, inbox, false, now);
      var answers := Answers(d.receiver, inbox);
      var acks := if d.ackOwed || Heard(d.receiver, inbox) then [Ack(After(d.receiver, inbox).lastEpoch)] else [];
      && t.sent == ((d.sent + AsData(Owed(d))) + AsData(d.pending)) + answers + acks
      && t.pending == [] && !t.replayPending && !t.ackOwed && t.stalledSince.None?
  {
    hide ScanAfter, Tick, AsData, Answers, After, Heard, Went, Sendable, Drain, Reconnect;
    PassSends(d, sink, inbox, false, now);
    SendableAll(sink, d.tries, |Owed(d)|);
    var a := Tried(sink, d.tries, |Owed(d)|);
    SendableAll(sink, d.tries + a, |Queued(d, sink)|);
    WentAll(sink, d.tries + Attempts(d, sink), Answers(d.receiver, inbox));
    assert Owed(d)[..|Owed(d)|] == Owed(d) && d.pending[..|d.pending|] == d.pending;
  }

  lemma {:induction false} WentAll(sink: Sink, tries: nat, msgs: seq<Msg>)
    requires forall i :: sink(i)
    ensures Went(sink, tries, msgs) == msgs
    decreases |msgs|
  {
    if msgs != [] {
      WentAll(sink, tries + 1, msgs[1..]);
      assert [msgs[0]] + msgs[1..] == msgs;
    }
  }

  // -- acknowledgements ---------------------------------------------------------------------------------------------

  /** An acknowledgement past all received before drops from the store what it covers and no more; another changes nothing. */
  lemma AckForgets(sink: Sink, steps: seq<Step>, through: nat, now: nat)
    ensures match Reach(sink, steps)
      case None => true
      case Some((d, h)) =>
        var t := HandleOne(d, sink, Acked(through), now);
        forall p: (nat, Body) :: Retained(t, p) <==> Retained(d, p) && (p.0 > through || through == 0 || Covered(h, through))
  {
    hide Reach, Inv, Covered;
    ReachOk(sink, steps);
    var r := Reach(sink, steps);
    if r.Some? {
      AckedCursor(r.value.0, r.value.1);
      PastMeansUncovered(r.value.0, r.value.1, through);
    }
  }

  lemma AckedCursor(d: Driver, h: History)
    requires Inv(d, h)
    ensures d.ackedThrough == d.store.cursor == d.peerAckedThrough && AcksOk(d, h)
  {
  }
}
