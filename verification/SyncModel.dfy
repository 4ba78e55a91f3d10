/** The reliable-sync driver: append before send, retain on failure, replay after a reconnect. */
module SyncModel {
  import opened Basics
  import Resync

  type Body(==, !new)

  /** What the driver hands to its sink. */
  datatype Msg = Data(epoch: nat, body: Body) | Ack(through: nat) | Request(fromEpoch: nat) | Served(fromEpoch: nat)

  /** What its source hands back. */
  datatype Inbound = Acked(through: nat) | Requested(fromEpoch: nat) | Received(frame: Resync.Frame) | CrdtSync

  /** Which of the attempts to send succeed. */
  type Sink = nat -> bool

  datatype Store = Store(entries: map<nat, Body>, cursor: nat)

  datatype Driver = Driver(store: Store, ackedThrough: nat, pending: seq<(nat, Body)>, peerAckedThrough: nat,
    ackOwed: bool, replayPending: bool, stalledSince: Option<nat>, receiver: Resync.Receiver,
    tries: nat, sent: seq<Msg>)

  const IDLE := Driver(Store(map[], 0), 0, [], 0, false, false, None, Resync.Receiver(0, false), 0, [])

  // -- the store ------------------------------------------------------------------------------------

  function Put(s: Store, epoch: nat, body: Body): Store { s.(entries := s.entries[epoch := body]) }

  function DeleteThrough(s: Store, epoch: nat): Store {
    s.(entries := map e | e in s.entries && e > epoch :: s.entries[e])
  }

  ghost function MaxKey(keys: set<nat>): (m: nat)
    ensures forall e :: e in keys ==> e <= m
  {
    if keys == {} then 0
    else
      var e :| e in keys;
      assert keys == {e} + (keys - {e});
      Max(e, MaxKey(keys - {e}))
  }

  /** The entries after `cursor` up to `top`, ascending. */
  function Between(entries: map<nat, Body>, cursor: nat, top: nat): seq<(nat, Body)> {
    if top <= cursor then []
    else Between(entries, cursor, top - 1) + if top in entries then [(top, entries[top])] else []
  }

  ghost function ScanAfter(s: Store, cursor: nat): seq<(nat, Body)> { Between(s.entries, cursor, MaxKey(s.entries.Keys)) }

  /** Record an ack and forget what it covers; one that is not news changes nothing. */
  function AckThrough(d: Driver, epoch: nat): Driver {
    if epoch <= d.ackedThrough then d
    else
      var cursor := Max(d.store.cursor, epoch);
      var target := Max(Max(d.ackedThrough, epoch), cursor);
      d.(store := DeleteThrough(d.store.(cursor := cursor), target), ackedThrough := target)
  }

  // -- a pass --------------------------------------------------------------------------------------------

  function TrySend(d: Driver, sink: Sink, m: Msg): (Driver, bool) {
    (d.(tries := d.tries + 1, sent := if sink(d.tries) then d.sent + [m] else d.sent), sink(d.tries))
  }

  /** Replay oldest first; a failure stalls and leaves the replay owed. */
  function Replay(d: Driver, sink: Sink, frames: seq<(nat, Body)>, now: nat): Driver
    decreases |frames|
  {
    if frames == [] then d
    else
      var (d1, ok) := TrySend(d, sink, Data(frames[0].0, frames[0].1));
      if ok then Replay(d1, sink, frames[1..], now) else d1.(stalledSince := Some(now), replayPending := true)
  }

  ghost function Reconnect(d: Driver, sink: Sink, now: nat): Driver {
    if !d.replayPending then d
    else Replay(d.(replayPending := false), sink, ScanAfter(d.store, Max(d.peerAckedThrough, d.ackedThrough)), now)
  }

  /** Append before sending; a failure stalls, with the frame already in the store. */
  function Drain(d: Driver, sink: Sink, now: nat): Driver
    decreases |d.pending|
  {
    if d.stalledSince.Some? || d.pending == [] then d
    else
      var (epoch, body) := d.pending[0];
      var d1 := d.(store := Put(d.store, epoch, body), pending := d.pending[1..]);
      var (d2, ok) := TrySend(d1, sink, Data(epoch, body));
      if ok then Drain(d2, sink, now) else d2.(stalledSince := Some(now))
  }

  function SendOrStall(d: Driver, sink: Sink, m: Msg, now: nat): Driver {
    var (d1, ok) := TrySend(d, sink, m);
    if ok then d1 else d1.(stalledSince := Some(now))
  }

  function HandleOne(d: Driver, sink: Sink, m: Inbound, now: nat): Driver {
    match m
    case Acked(through) => AckThrough(d.(peerAckedThrough := Max(d.peerAckedThrough, through)), through)
    case Requested(fromEpoch) => SendOrStall(d, sink, Served(fromEpoch), now)
    case CrdtSync => d
    case Received(frame) =>
      var (receiver, action) := Resync.Ingest(d.receiver, frame);
      var d1 := d.(receiver := receiver);
      match action
      case Apply => d1.(ackOwed := true)
      case RequestSnapshot(fromEpoch) => SendOrStall(d1, sink, Request(fromEpoch), now)
      case Ignore => d1
  }

  function Handle(d: Driver, sink: Sink, inbox: seq<Inbound>, now: nat): Driver
    decreases |inbox|
  {
    if inbox == [] then d else Handle(HandleOne(d, sink, inbox[0], now), sink, inbox[1..], now)
  }

  /** Advertise the receiver's cursor until it is sent. */
  function Advertise(d: Driver, sink: Sink): Driver {
    if !d.ackOwed then d
    else
      var (d1, ok) := TrySend(d, sink, Ack(d.receiver.lastEpoch));
      if ok then d1.(ackOwed := false) else d1
  }

  /** A pass reads `inbox`, and then finds its source exhausted, or is `broken` off by a read that fails. */
  ghost function Tick(d: Driver, sink: Sink, inbox: seq<Inbound>, broken: bool, now: nat): Driver {
    var t := Handle(Drain(Reconnect(d, sink, now), sink, now), sink, inbox, now);
    if broken then t else Advertise(t, sink)
  }

  function Moved(r: Resync.Receiver, m: Inbound): Resync.Receiver { if m.Received? then Resync.Ingest(r, m.frame).0 else r }

  predicate Folds(r: Resync.Receiver, m: Inbound) { m.CrdtSync? || (m.Received? && Resync.Ingest(r, m.frame).1.Apply?) }

  /** What the receiver applies of what comes in: this the host has to fold. */
  function Applied(r: Resync.Receiver, inbox: seq<Inbound>): seq<Inbound>
    decreases |inbox|
  {
    if inbox == [] then []
    else (if Folds(r, inbox[0]) then [inbox[0]] else []) + Applied(Moved(r, inbox[0]), inbox[1..])
  }

  /** What a pass returns to the host: nothing when it is broken off. */
  function Progress(d: Driver, inbox: seq<Inbound>, broken: bool): Option<seq<Inbound>> {
    if broken then None else Some(Applied(d.receiver, inbox))
  }

  function OnReconnect(d: Driver): Driver { d.(replayPending := true, ackOwed := true, stalledSince := None) }

  // -- scanning ----------------------------------------------------------------------------------------------

  ghost predicate Ascending(frames: seq<(nat, Body)>) { forall i, j :: 0 <= i < j < |frames| ==> frames[i].0 < frames[j].0 }

  lemma {:induction false} BetweenIs(entries: map<nat, Body>, cursor: nat, top: nat)
    ensures var r := Between(entries, cursor, top);
      && Ascending(r)
      && (forall p :: p in r <==> p.0 in entries && cursor < p.0 <= top && entries[p.0] == p.1)
  {
    if top > cursor {
      BetweenIs(entries, cursor, top - 1);
      var r := Between(entries, cursor, top - 1);
      forall i | 0 <= i < |r| ensures r[i].0 < top {
        assert r[i] in r;
      }
    }
  }

  /** A scan lists exactly the entries past the cursor, in ascending epoch order. */
  lemma ScanIs(s: Store, cursor: nat)
    ensures Ascending(ScanAfter(s, cursor))
    ensures forall p :: p in ScanAfter(s, cursor) <==> p.0 in s.entries && cursor < p.0 && s.entries[p.0] == p.1
  {
    BetweenIs(s.entries, cursor, MaxKey(s.entries.Keys));
  }

  // -- what every run keeps -----------------------------------------------------------------------------------

  /** Everything enqueued, how much of it left the queue for the store, and the acks received, in order. */
  datatype History = History(queued: seq<(nat, Body)>, stored: nat, acks: seq<nat>)

  /** Some ack that was received covers the epoch. */
  ghost predicate Covered(h: History, epoch: nat) { exists i :: 0 <= i < |h.acks| && epoch <= h.acks[i] }

  ghost predicate Retained(d: Driver, p: (nat, Body)) { p.0 in d.store.entries && d.store.entries[p.0] == p.1 }

  ghost predicate Kept(d: Driver, h: History, p: (nat, Body)) { Retained(d, p) || Covered(h, p.0) }

  ghost predicate AllKept(d: Driver, h: History)
    requires h.stored <= |h.queued|
  {
    forall i :: 0 <= i < h.stored ==> Kept(d, h, h.queued[i])
  }

  /** Whatever the store holds was enqueued, and has left the queue. */
  ghost predicate Genuine(d: Driver, h: History)
    requires h.stored <= |h.queued|
  {
    forall e :: e in d.store.entries ==> exists i :: 0 <= i < h.stored && h.queued[i] == (e, d.store.entries[e])
  }

  /** The acknowledged epoch is the greatest ack received, and 0 before any. */
  ghost predicate AcksOk(d: Driver, h: History) {
    && (forall i :: 0 <= i < |h.acks| ==> h.acks[i] <= d.ackedThrough)
    && (d.ackedThrough > 0 ==> d.ackedThrough in h.acks)
    && d.ackedThrough == d.store.cursor == d.peerAckedThrough
  }

  ghost predicate Inv(d: Driver, h: History) {
    && Ascending(h.queued) && h.stored <= |h.queued| && d.pending == h.queued[h.stored..]
    && AllKept(d, h) && Genuine(d, h) && AcksOk(d, h)
  }

  /** Past the acknowledged epoch lies exactly what no ack covers, epoch 0 aside. */
  lemma PastMeansUncovered(d: Driver, h: History, e: nat)
    requires AcksOk(d, h)
    ensures e > d.ackedThrough <==> e > 0 && !Covered(h, e)
  {
    if d.ackedThrough > 0 {
      var i :| 0 <= i < |h.acks| && h.acks[i] == d.ackedThrough;
      assert e <= d.ackedThrough ==> e <= h.acks[i];
    }
  }

  /** Nothing outside the store, the queue and the acks matters to the invariant. */
  ghost predicate SameBooks(d: Driver, t: Driver) {
    t.store == d.store && t.ackedThrough == d.ackedThrough && t.pending == d.pending && t.peerAckedThrough == d.peerAckedThrough
  }

  lemma SameOk(d: Driver, t: Driver, h: History)
    requires Inv(d, h) && SameBooks(d, t)
    ensures Inv(t, h)
  {
    hide Ascending, Covered;
    forall i | 0 <= i < h.stored ensures Kept(t, h, h.queued[i]) {
      assert Kept(d, h, h.queued[i]);
    }
  }

  lemma {:induction false} ReplaySame(d: Driver, sink: Sink, frames: seq<(nat, Body)>, now: nat)
    ensures SameBooks(d, Replay(d, sink, frames, now)) && Replay(d, sink, frames, now).receiver == d.receiver
    decreases |frames|
  {
    if frames != [] {
      var (d1, ok) := TrySend(d, sink, Data(frames[0].0, frames[0].1));
      ReplaySame(d1, sink, frames[1..], now);
    }
  }

  lemma ReconnectSame(d: Driver, sink: Sink, now: nat)
    ensures SameBooks(d, Reconnect(d, sink, now)) && Reconnect(d, sink, now).receiver == d.receiver
  {
    if d.replayPending {
      ReplaySame(d.(replayPending := false), sink, ScanAfter(d.store, Max(d.peerAckedThrough, d.ackedThrough)), now);
    }
  }

  lemma AdvertiseSame(d: Driver, sink: Sink)
    ensures SameBooks(d, Advertise(d, sink))
  {
  }

  /** Moving the head of the queue into the store. */
  lemma AppendOk(d: Driver, h: History)
    requires Inv(d, h) && d.pending != []
    ensures var (epoch, body) := d.pending[0];
      Inv(d.(store := Put(d.store, epoch, body), pending := d.pending[1..]), h.(stored := h.stored + 1))
  {
    hide Covered;
    var (epoch, body) := d.pending[0];
    var t := d.(store := Put(d.store, epoch, body), pending := d.pending[1..]);
    var k := h.(stored := h.stored + 1);
    assert h.queued[h.stored] == (epoch, body);
    forall i | 0 <= i < k.stored ensures Kept(t, k, k.queued[i]) {
      SameAcks(h, k, k.queued[i].0);
      if i < h.stored {
        assert Kept(d, h, h.queued[i]) && h.queued[i].0 < epoch;
      }
    }
    forall e | e in t.store.entries ensures exists i :: 0 <= i < k.stored && k.queued[i] == (e, t.store.entries[e]) {
      if e == epoch {
        assert k.queued[h.stored] == (e, t.store.entries[e]);
      } else {
        var i :| 0 <= i < h.stored && h.queued[i] == (e, d.store.entries[e]);
        assert k.queued[i] == (e, t.store.entries[e]);
      }
    }
  }

  lemma SameAcks(h: History, k: History, e: nat)
    requires h.acks <= k.acks
    ensures Covered(h, e) ==> Covered(k, e)
    ensures h.acks == k.acks ==> (Covered(h, e) <==> Covered(k, e))
  {
    if Covered(h, e) {
      var i :| 0 <= i < |h.acks| && e <= h.acks[i];
      assert e <= k.acks[i];
    }
  }

  /** The queue's length tells how much has left it. */
  function Stored(h: History, t: Driver): History {
    if |t.pending| <= |h.queued| then h.(stored := |h.queued| - |t.pending|) else h
  }

  lemma QueueLength(d: Driver, h: History)
    requires Inv(d, h)
    ensures h.stored <= |h.queued| && |d.pending| == |h.queued| - h.stored && Stored(h, d) == h
  {
  }

  lemma StoredLater(h: History, t: Driver)
    requires |t.pending| <= |h.queued|
    ensures Stored(h.(stored := h.stored + 1), t) == Stored(h, t)
  {
  }

  lemma {:induction false} DrainShrinks(d: Driver, sink: Sink, now: nat)
    ensures |Drain(d, sink, now).pending| <= |d.pending|
    decreases |d.pending|
  {
    if d.stalledSince.None? && d.pending != [] {
      var (epoch, body) := d.pending[0];
      DrainShrinks(TrySend(d.(store := Put(d.store, epoch, body), pending := d.pending[1..]), sink, Data(epoch, body)).0, sink, now);
    }
  }

  lemma {:induction false} DrainOk(d: Driver, sink: Sink, h: History, now: nat)
    requires Inv(d, h)
    ensures Inv(Drain(d, sink, now), Stored(h, Drain(d, sink, now)))
    decreases |d.pending|
  {
    hide Inv, Stored, Put;
    QueueLength(d, h);
    DrainShrinks(d, sink, now);
    if d.stalledSince.None? && d.pending != [] {
      var (epoch, body) := d.pending[0];
      var d1 := d.(store := Put(d.store, epoch, body), pending := d.pending[1..]);
      var k := h.(stored := h.stored + 1);
      AppendOk(d, h);
      StoredLater(h, Drain(d, sink, now));
      var (d2, ok) := TrySend(d1, sink, Data(epoch, body));
      SameOk(d1, d2, k);
      if ok {
        DrainOk(d2, sink, k, now);
      } else {
        SameOk(d1, d2.(stalledSince := Some(now)), k);
        QueueLength(d2.(stalledSince := Some(now)), k);
      }
    }
  }

  /** The acks among what came in. */
  function Acks(inbox: seq<Inbound>): seq<nat> {
    if inbox == [] then [] else (if inbox[0].Acked? then [inbox[0].through] else []) + Acks(inbox[1..])
  }

  lemma AckOk(d: Driver, h: History, through: nat)
    requires Inv(d, h)
    ensures Inv(AckThrough(d.(peerAckedThrough := Max(d.peerAckedThrough, through)), through), h.(acks := h.acks + [through]))
  {
    hide Ascending, Covered;
    var t, k := AckThrough(d.(peerAckedThrough := Max(d.peerAckedThrough, through)), through), h.(acks := h.acks + [through]);
    forall i | 0 <= i < h.stored ensures Kept(t, k, k.queued[i]) {
      assert Kept(d, h, h.queued[i]);
      SameAcks(h, k, h.queued[i].0);
      NewAck(h, through, h.queued[i].0);
    }
    forall e | e in t.store.entries ensures exists i :: 0 <= i < h.stored && h.queued[i] == (e, t.store.entries[e]) {
      var i :| 0 <= i < h.stored && h.queued[i] == (e, d.store.entries[e]);
      assert h.queued[i] == (e, t.store.entries[e]);
    }
    assert k.acks[|h.acks|] == through;
  }

  lemma NewAck(h: History, through: nat, e: nat)
    ensures e <= through ==> Covered(h.(acks := h.acks + [through]), e)
  {
    assert (h.acks + [through])[|h.acks|] == through;
  }

  lemma {:induction false} HandleOk(d: Driver, sink: Sink, inbox: seq<Inbound>, h: History, now: nat)
    requires Inv(d, h)
    ensures Inv(Handle(d, sink, inbox, now), h.(acks := h.acks + Acks(inbox)))
    ensures Handle(d, sink, inbox, now).pending == d.pending
    decreases |inbox|
  {
    hide Inv, AckThrough;
    if inbox == [] {
      assert h.acks + Acks(inbox) == h.acks;
    } else {
      var m := inbox[0];
      var d1 := HandleOne(d, sink, m, now);
      HandlesOne(d, sink, m, now);
      if m.Acked? {
        AckOk(d, h, m.through);
        assert (h.acks + [m.through]) + Acks(inbox[1..]) == h.acks + Acks(inbox);
        HandleOk(d1, sink, inbox[1..], h.(acks := h.acks + [m.through]), now);
      } else {
        SameOk(d, d1, h);
        assert Acks(inbox) == Acks(inbox[1..]);
        HandleOk(d1, sink, inbox[1..], h, now);
      }
    }
  }

  lemma HandlesOne(d: Driver, sink: Sink, m: Inbound, now: nat)
    ensures HandleOne(d, sink, m, now).pending == d.pending && (!m.Acked? ==> SameBooks(d, HandleOne(d, sink, m, now)))
    ensures HandleOne(d, sink, m, now).replayPending == d.replayPending && Adds(d, HandleOne(d, sink, m, now), [])
    ensures HandleOne(d, sink, m, now).receiver == Moved(d.receiver, m)
  {
  }

  datatype Step = Enqueue(epoch: nat, body: Body) | TickWith(inbox: seq<Inbound>, broken: bool, now: nat) | Reconnected

  /** The host enqueues with increasing epochs. */
  predicate Allowed(h: History, step: Step) {
    step.Enqueue? ==> h.queued == [] || h.queued[|h.queued| - 1].0 < step.epoch
  }

  ghost function Next(d: Driver, sink: Sink, step: Step): Driver {
    match step
    case Enqueue(epoch, body) => d.(pending := d.pending + [(epoch, body)])
    case TickWith(inbox, broken, now) => Tick(d, sink, inbox, broken, now)
    case Reconnected => OnReconnect(d)
  }

  /** What each step adds to the history: its arguments, and what is left in the queue `t` holds after it. */
  function Remember(h: History, step: Step, t: Driver): History {
    match step
    case Enqueue(epoch, body) => h.(queued := h.queued + [(epoch, body)])
    case TickWith(inbox, _, _) => Stored(h.(acks := h.acks + Acks(inbox)), t)
    case Reconnected => h
  }

  lemma EnqueueOk(d: Driver, h: History, epoch: nat, body: Body)
    requires Inv(d, h) && (h.queued == [] || h.queued[|h.queued| - 1].0 < epoch)
    ensures Inv(d.(pending := d.pending + [(epoch, body)]), h.(queued := h.queued + [(epoch, body)]))
  {
    hide Covered;
    var t, k := d.(pending := d.pending + [(epoch, body)]), h.(queued := h.queued + [(epoch, body)]);
    forall i | 0 <= i < k.stored ensures Kept(t, k, k.queued[i]) {
      assert Kept(d, h, h.queued[i]);
      SameAcks(h, k, k.queued[i].0);
    }
    forall e | e in t.store.entries ensures exists i :: 0 <= i < k.stored && k.queued[i] == (e, t.store.entries[e]) {
      var i :| 0 <= i < h.stored && h.queued[i] == (e, d.store.entries[e]);
      assert k.queued[i] == h.queued[i];
    }
    assert k.queued[k.stored..] == h.queued[h.stored..] + [(epoch, body)];
  }

  lemma TickOk(d: Driver, sink: Sink, h: History, inbox: seq<Inbound>, broken: bool, now: nat)
    requires Inv(d, h)
    ensures var t := Tick(d, sink, inbox, broken, now); Inv(t, Stored(h.(acks := h.acks + Acks(inbox)), t))
  {
    hide Inv, ScanAfter, Replay, Drain, Handle, TrySend, Reconnect, Advertise, Acks;
    var d1 := Reconnect(d, sink, now);
    ReconnectSame(d, sink, now);
    SameOk(d, d1, h);
    DrainOk(d1, sink, h, now);
    var d2 := Drain(d1, sink, now);
    HandleOk(d2, sink, inbox, Stored(h, d2), now);
    var d3 := Handle(d2, sink, inbox, now);
    AdvertiseSame(d3, sink);
    SameOk(d3, Advertise(d3, sink), Stored(h, d2).(acks := h.acks + Acks(inbox)));
  }

  lemma StepOk(d: Driver, sink: Sink, h: History, step: Step)
    requires Inv(d, h) && Allowed(h, step)
    ensures Inv(Next(d, sink, step), Remember(h, step, Next(d, sink, step)))
  {
    hide Inv, Tick, Acks;
    match step
    case Enqueue(epoch, body) => EnqueueOk(d, h, epoch, body);
    case Reconnected => SameOk(d, OnReconnect(d), h);
    case TickWith(inbox, broken, now) => TickOk(d, sink, h, inbox, broken, now);
  }

  /** The driver and its history after a run over a sink, or None once an enqueue was out of order. */
  ghost function Reach(sink: Sink, steps: seq<Step>): Option<(Driver, History)>
    decreases |steps|
  {
    if steps == [] then Some((IDLE, History([], 0, [])))
    else
      var r := Reach(sink, steps[..|steps| - 1]);
      var step := steps[|steps| - 1];
      if r.Some? && Allowed(r.value.1, step) then
        var t := Next(r.value.0, sink, step);
        Some((t, Remember(r.value.1, step, t)))
      else None
  }

  lemma {:induction false} ReachOk(sink: Sink, steps: seq<Step>)
    ensures match Reach(sink, steps) case None => true case Some((d, h)) => Inv(d, h)
    decreases |steps|
  {
    hide Allowed, Next, Remember;
    if steps != [] {
      var r, step := Reach(sink, steps[..|steps| - 1]), steps[|steps| - 1];
      ReachOk(sink, steps[..|steps| - 1]);
      if r.Some? && Allowed(r.value.1, step) {
        StepOk(r.value.0, sink, r.value.1, step);
      }
    }
  }

  /** At every moment of every run each enqueued frame is pending, retained, or covered by a received ack. */
  lemma NothingIsLost(sink: Sink, steps: seq<Step>, i: nat)
    ensures match Reach(sink, steps)
      case None => true
      case Some((d, h)) => i < |h.queued| ==> h.queued[i] in d.pending || Retained(d, h.queued[i]) || Covered(h, h.queued[i].0)
  {
    hide Retained, Covered;
    ReachOk(sink, steps);
    var r := Reach(sink, steps);
    if r.Some? && i < |r.value.1.queued| {
      var (d, h) := r.value;
      if i >= h.stored {
        assert d.pending[i - h.stored] == h.queued[i];
      } else {
        assert Kept(d, h, h.queued[i]);
      }
    }
  }

  // -- what a pass sends --------------------------------------------------------------------------------------------

  function AsData(frames: seq<(nat, Body)>): (r: seq<Msg>)
    ensures |r| == |frames| && forall i :: 0 <= i < |r| ==> r[i] == Data(frames[i].0, frames[i].1)
  {
    seq(|frames|, i requires 0 <= i < |frames| => Data(frames[i].0, frames[i].1))
  }

  /** How many of the next `n` attempts to send succeed before one fails. */
  function Sendable(sink: Sink, tries: nat, n: nat): (k: nat)
    ensures k <= n
    decreases n
  {
    if n == 0 || !sink(tries) then 0 else 1 + Sendable(sink, tries + 1, n - 1)
  }

  lemma {:induction false} SendableAll(sink: Sink, tries: nat, n: nat)
    ensures Sendable(sink, tries, n) == n <==> forall i :: tries <= i < tries + n ==> sink(i)
    decreases n
  {
    if n > 0 && sink(tries) {
      SendableAll(sink, tries + 1, n - 1);
    }
  }

  lemma AsDataCons(sent: seq<Msg>, frames: seq<(nat, Body)>, k: nat)
    requires k < |frames|
    ensures (sent + [Data(frames[0].0, frames[0].1)]) + AsData(frames[1..][..k]) == sent + AsData(frames[..k + 1])
  {
  }

  lemma AsDataNil(sent: seq<Msg>, frames: seq<(nat, Body)>)
    ensures sent + AsData(frames[..0]) == sent
  {
  }

  /** A replay sends a prefix of its frames, up to the first failure, and stays owed exactly when there was one. */
  lemma {:induction false} ReplaySends(d: Driver, sink: Sink, frames: seq<(nat, Body)>, now: nat)
    requires !d.replayPending
    ensures var t, n := Replay(d, sink, frames, now), Sendable(sink, d.tries, |frames|);
      t.sent == d.sent + AsData(frames[..n]) && (t.replayPending <==> n < |frames|)
    decreases |frames|
  {
    hide AsData;
    AsDataNil(d.sent, frames);
    if frames != [] && sink(d.tries) {
      var m := Data(frames[0].0, frames[0].1);
      ReplaySends(TrySend(d, sink, m).0, sink, frames[1..], now);
      AsDataCons(d.sent, frames, Sendable(sink, d.tries + 1, |frames| - 1));
    }
  }

  /** What was sent since `d` is new, and its data messages are among `frames`. */
  ghost predicate Adds(d: Driver, t: Driver, frames: seq<(nat, Body)>) {
    && d.sent <= t.sent
    && forall k :: |d.sent| <= k < |t.sent| && t.sent[k].Data? ==> (t.sent[k].epoch, t.sent[k].body) in frames
  }

  lemma AddsTrans(d: Driver, t: Driver, u: Driver, frames: seq<(nat, Body)>, more: seq<(nat, Body)>)
    requires Adds(d, t, frames) && Adds(t, u, more) && (forall p :: p in more ==> p in frames)
    ensures Adds(d, u, frames)
  {
    forall k | |d.sent| <= k < |u.sent| && u.sent[k].Data? ensures (u.sent[k].epoch, u.sent[k].body) in frames {
      if k < |t.sent| {
        assert u.sent[k] == t.sent[k];
      }
    }
  }

  lemma {:induction false} DrainAdds(d: Driver, sink: Sink, now: nat)
    ensures Adds(d, Drain(d, sink, now), d.pending)
    ensures Drain(d, sink, now).replayPending == d.replayPending && Drain(d, sink, now).receiver == d.receiver
    decreases |d.pending|
  {
    if d.stalledSince.None? && d.pending != [] {
      var (epoch, body) := d.pending[0];
      var d1 := d.(store := Put(d.store, epoch, body), pending := d.pending[1..]);
      var (d2, ok) := TrySend(d1, sink, Data(epoch, body));
      assert d.pending[0] in d.pending;
      assert Adds(d, d2, d.pending);
      if ok {
        DrainAdds(d2, sink, now);
        AddsTrans(d, d2, Drain(d2, sink, now), d.pending, d2.pending);
      }
    }
  }

  lemma {:induction false} HandleAdds(d: Driver, sink: Sink, inbox: seq<Inbound>, now: nat)
    ensures Adds(d, Handle(d, sink, inbox, now), []) && Handle(d, sink, inbox, now).replayPending == d.replayPending
    decreases |inbox|
  {
    hide HandleOne;
    if inbox != [] {
      HandlesOne(d, sink, inbox[0], now);
      var d1 := HandleOne(d, sink, inbox[0], now);
      HandleAdds(d1, sink, inbox[1..], now);
      AddsTrans(d, d1, Handle(d1, sink, inbox[1..], now), [], []);
    }
  }

  lemma AfterReplay(d: Driver, sink: Sink, inbox: seq<Inbound>, broken: bool, now: nat)
    ensures var d1, t := Reconnect(d, sink, now), Tick(d, sink, inbox, broken, now);
      Adds(d1, t, d.pending) && t.replayPending == d1.replayPending
  {
    hide Replay, Drain, Handle, TrySend, Adds, Reconnect;
    var d1 := Reconnect(d, sink, now);
    ReconnectSame(d, sink, now);
    DrainAdds(d1, sink, now);
    var d2 := Drain(d1, sink, now);
    HandleAdds(d2, sink, inbox, now);
    var d3 := Handle(d2, sink, inbox, now);
    AddsTrans(d1, d2, d3, d.pending, []);
    AdvertiseAdds(d3, sink);
    AddsTrans(d1, d3, Advertise(d3, sink), d.pending, []);
  }

  lemma AdvertiseAdds(d: Driver, sink: Sink)
    ensures Adds(d, Advertise(d, sink), []) && Advertise(d, sink).replayPending == d.replayPending
  {
  }

  /**
   The pass after a reconnect first replays, in ascending epoch order and up to the first failure, exactly
   the retained frames past epoch 0 that no received ack covers; the replay stays owed exactly when a send
   failed; every other data message of the pass is a frame that was still queued. So nothing acknowledged is
   ever replayed.
   */
  lemma ReconnectReplays(sink: Sink, steps: seq<Step>, inbox: seq<Inbound>, broken: bool, now: nat)
    ensures match Reach(sink, steps)
      case None => true
      case Some((d, h)) =>
        var frames := ScanAfter(d.store, d.ackedThrough);
        var n := Sendable(sink, d.tries, |frames|);
        var t := Tick(d, sink, inbox, broken, now);
        && Ascending(frames)
        && (forall p :: p in frames <==> Retained(d, p) && !Covered(h, p.0) && p.0 > 0)
        && (d.replayPending ==>
              && d.sent + AsData(frames[..n]) <= t.sent && (t.replayPending <==> n < |frames|)
              && (forall k :: |d.sent| + n <= k < |t.sent| && t.sent[k].Data? ==> (t.sent[k].epoch, t.sent[k].body) in d.pending))
  {
    hide ScanAfter, Replay, Tick, Inv;
    ReachOk(sink, steps);
    var r := Reach(sink, steps);
    if r.Some? {
      var (d, h) := r.value;
      ReplayList(d, h);
      if d.replayPending {
        AcksEqual(d, h);
        ReplaySends(d.(replayPending := false), sink, ScanAfter(d.store, d.ackedThrough), now);
        AfterReplay(d, sink, inbox, broken, now);
      }
    }
  }

  lemma AcksEqual(d: Driver, h: History)
    requires Inv(d, h)
    ensures Max(d.peerAckedThrough, d.ackedThrough) == d.ackedThrough
  {
  }

  lemma ReplayList(d: Driver, h: History)
    requires Inv(d, h)
    ensures var frames := ScanAfter(d.store, d.ackedThrough);
      Ascending(frames) && forall p :: p in frames <==> Retained(d, p) && !Covered(h, p.0) && p.0 > 0
  {
    hide ScanAfter, Ascending, Covered;
    ScanIs(d.store, d.ackedThrough);
    forall p ensures p in ScanAfter(d.store, d.ackedThrough) <==> Retained(d, p) && !Covered(h, p.0) && p.0 > 0 {
      PastMeansUncovered(d, h, p.0);
    }
  }

  // -- epoch 0 ----------------------------------------------------------------------------------------------------

  /** A pass whose replay succeeds sends a retained frame that no ack covers if and only if its epoch is not 0. */
  lemma ReplayedIffPositive(sink: Sink, steps: seq<Step>, inbox: seq<Inbound>, broken: bool, now: nat, p: (nat, Body))
    ensures match Reach(sink, steps)
      case None => true
      case Some((d, h)) =>
        var frames, t := ScanAfter(d.store, d.ackedThrough), Tick(d, sink, inbox, broken, now);
        d.replayPending && (forall i :: d.tries <= i < d.tries + |frames| ==> sink(i)) && Retained(d, p) && !Covered(h, p.0) ==>
          (Data(p.0, p.1) in t.sent[Min(|d.sent|, |t.sent|)..] <==> p.0 > 0)
  {
    hide ScanAfter, Tick, Reach, Inv, Covered;
    ReconnectReplays(sink, steps, inbox, broken, now);
    ReachOk(sink, steps);
    var r := Reach(sink, steps);
    if r.Some? {
      var (d, h) := r.value;
      var frames, t := ScanAfter(d.store, d.ackedThrough), Tick(d, sink, inbox, broken, now);
      SendableAll(sink, d.tries, |frames|);
      if d.replayPending && (forall i :: d.tries <= i < d.tries + |frames| ==> sink(i)) && Retained(d, p) && !Covered(h, p.0) {
        NewData(d, t, frames, p);
        NotQueued(d, h, p);
      }
    }
  }

  /** Where a run of messages lies in what was sent. */
  lemma DataAt(d: Driver, t: Driver, frames: seq<(nat, Body)>, k: nat)
    requires d.sent + AsData(frames) <= t.sent && k < |t.sent| - |d.sent|
    ensures t.sent[|d.sent|..][k] == t.sent[|d.sent| + k]
    ensures k < |frames| ==> t.sent[|d.sent| + k] == Data(frames[k].0, frames[k].1)
  {
    assert k < |frames| ==> (d.sent + AsData(frames))[|d.sent| + k] == AsData(frames)[k];
  }

  lemma NewData(d: Driver, t: Driver, frames: seq<(nat, Body)>, p: (nat, Body))
    requires d.sent + AsData(frames) <= t.sent
    requires forall k :: |d.sent| + |frames| <= k < |t.sent| && t.sent[k].Data? ==> (t.sent[k].epoch, t.sent[k].body) in d.pending
    ensures p in frames ==> Data(p.0, p.1) in t.sent[|d.sent|..]
    ensures Data(p.0, p.1) in t.sent[|d.sent|..] ==> p in frames || p in d.pending
  {
    hide AsData;
    var more := t.sent[|d.sent|..];
    if p in frames {
      var i :| 0 <= i < |frames| && frames[i] == p;
      DataAt(d, t, frames, i);
      assert more[i] == Data(p.0, p.1);
    }
    if Data(p.0, p.1) in more {
      var k :| 0 <= k < |more| && more[k] == Data(p.0, p.1);
      DataAt(d, t, frames, k);
      assert k < |frames| ==> frames[k] == p;
    }
  }

  /** What the store holds is not queued any more. */
  lemma NotQueued(d: Driver, h: History, p: (nat, Body))
    requires Inv(d, h) && Retained(d, p)
    ensures p !in d.pending
  {
    hide AllKept, AcksOk;
    var i :| 0 <= i < h.stored && h.queued[i] == (p.0, d.store.entries[p.0]);
    forall j | 0 <= j < |d.pending| ensures d.pending[j] != p {
      assert d.pending[j] == h.queued[h.stored + j] && h.queued[i].0 < h.queued[h.stored + j].0;
    }
  }

  /** Enqueue a frame at epoch 0, fail to send it, reconnect, and let everything after that succeed. */
  function ZeroRun(body: Body): seq<Step> { [Enqueue(0, body), TickWith([], false, 1), Reconnected, TickWith([], false, 2)] }

  /**
   The frame at epoch 0 whose only send failed is never sent: no ack came, the store still holds it, and
   after the reconnect pass nothing is queued and no replay is owed.
   */
  lemma ZeroIsNeverReplayed(sink: Sink, body: Body)
    requires !sink(0) && forall k :: k > 0 ==> sink(k)
    ensures match Reach(sink, ZeroRun(body))
      case None => false
      case Some((d, h)) =>
        && h.acks == [] && Retained(d, (0, body)) && d.pending == [] && !d.replayPending && d.stalledSince.None?
        && d.sent == [Ack(0)]
  {
    hide ScanAfter, Reach, Tick;
    var d1 := IDLE.(pending := [(0, body)]);
    var d2 := IDLE.(store := Store(map[0 := body], 0), tries := 1, stalledSince := Some(1));
    ZeroTicks(sink, body, d1, d2);
    var run := ZeroRun(body);
    assert run[..3] == [Enqueue(0, body), TickWith([], false, 1), Reconnected];
    assert run[..2] == [Enqueue(0, body), TickWith([], false, 1)] && run[..3][..2] == run[..2];
    ZeroReach(sink, body, d1, d2);
    ReachSnoc(sink, run[..2], Reconnected);
    assert run[..2] + [Reconnected] == run[..3];
    ReachSnoc(sink, run[..3], TickWith([], false, 2));
    assert run[..3] + [TickWith([], false, 2)] == run;
  }

  lemma ReachSnoc(sink: Sink, steps: seq<Step>, step: Step)
    ensures match Reach(sink, steps)
      case None => true
      case Some((d, h)) =>
        Allowed(h, step) ==> Reach(sink, steps + [step]) == Some((Next(d, sink, step), Remember(h, step, Next(d, sink, step))))
  {
    assert (steps + [step])[..|steps|] == steps;
  }

  lemma ZeroReach(sink: Sink, body: Body, d1: Driver, d2: Driver)
    requires d1 == IDLE.(pending := [(0, body)])
    requires Tick(d1, sink, [], false, 1) == d2 && d2.pending == []
    ensures Reach(sink, [Enqueue(0, body), TickWith([], false, 1)]) == Some((d2, History([(0, body)], 1, [])))
  {
    hide Tick;
    ReachSnoc(sink, [], Enqueue(0, body));
    assert [] + [Enqueue(0, body)] == [Enqueue(0, body)] && [] + [(0, body)] == [(0, body)];
    assert Reach(sink, [Enqueue(0, body)]) == Some((d1, History([(0, body)], 0, [])));
    ReachSnoc(sink, [Enqueue(0, body)], TickWith([], false, 1));
    assert [Enqueue(0, body)] + [TickWith([], false, 1)] == [Enqueue(0, body), TickWith([], false, 1)];
    var h := History([(0, body)], 0, []);
    assert h.acks + Acks([]) == [];
    assert Remember(h, TickWith([], false, 1), d2) == History([(0, body)], 1, []);
  }

  lemma {:induction false} NothingPast(entries: map<nat, Body>, cursor: nat, top: nat)
    requires forall e :: e in entries ==> e <= cursor
    ensures Between(entries, cursor, top) == []
  {
    if top > cursor {
      NothingPast(entries, cursor, top - 1);
    }
  }

  lemma ZeroTicks(sink: Sink, body: Body, d1: Driver, d2: Driver)
    requires !sink(0) && forall k :: k > 0 ==> sink(k)
    requires d1 == IDLE.(pending := [(0, body)])
    requires d2 == IDLE.(store := Store(map[0 := body], 0), tries := 1, stalledSince := Some(1))
    ensures Tick(d1, sink, [], false, 1) == d2
    ensures var t := Tick(OnReconnect(d2), sink, [], false, 2);
      t == d2.(stalledSince := None, tries := 2, sent := [Ack(0)])
  {
    assert Put(d1.store, 0, body) == Store(map[0 := body], 0);
    NothingPast(d2.store.entries, 0, MaxKey(d2.store.entries.Keys));
    var r := OnReconnect(d2);
    assert Reconnect(r, sink, 2) == r.(replayPending := false);
  }
}
