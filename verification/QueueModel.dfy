/**
 * The leased work queue: competing workers claim pending items under a lease, acknowledge or fail
 * their own delivery, and expired leases are reaped. Clock values are arguments, as in the source.
 */
module QueueModel {
  import opened Basics

  type Value(==, !new)
  type Worker(==, !new)

  datatype Config = Config(visibilityTimeout: nat, maxDeliveries: nat)
  datatype Item = Item(id: nat, value: Value, attempts: nat)
  datatype Delivery = Delivery(id: nat, itemId: nat, value: Value, worker: Worker, attempt: nat, deadline: nat)
  datatype Reason = Nacked | Expired
  datatype Dead = Dead(itemId: nat, value: Value, attempts: nat, reason: Reason)

  datatype Queue = Queue(pending: seq<Item>, inFlight: map<nat, Delivery>, dead: seq<Dead>, nextItem: nat, nextDelivery: nat)

  const EMPTY := Queue([], map[], [], 0, 0)

  /** What the constructor demands of its configuration. */
  predicate ConfigOk(c: Config) { c.visibilityTimeout > 0 && c.maxDeliveries >= 1 }

  // -- operations ------------------------------------------------------------------------------------

  /** The new item's id, or None once ids are exhausted. */
  function Push(q: Queue, v: Value): (Queue, Option<nat>) {
    if q.nextItem >= MAX_SAFE then (q, None)
    else (q.(pending := q.pending + [Item(q.nextItem, v, 0)], nextItem := q.nextItem + 1), Some(q.nextItem))
  }

  function Lease(c: Config, q: Queue, w: Worker, now: nat): Delivery
    requires q.pending != []
  {
    var item := q.pending[0];
    Delivery(q.nextDelivery, item.id, item.value, w, item.attempts + 1, Min(MAX_SAFE, now + c.visibilityTimeout))
  }

  /** The oldest pending item leased to a worker, or None when there is none or ids are exhausted. */
  function Claim(c: Config, q: Queue, w: Worker, now: nat): (Queue, Option<Delivery>) {
    if q.pending == [] || q.nextDelivery >= MAX_SAFE then (q, None)
    else
      var d := Lease(c, q, w, now);
      (q.(pending := q.pending[1..], inFlight := q.inFlight[d.id := d], nextDelivery := q.nextDelivery + 1), Some(d))
  }

  predicate Holds(q: Queue, w: Worker, id: nat) { id in q.inFlight && q.inFlight[id].worker == w }

  function Ack(q: Queue, w: Worker, id: nat): (Queue, bool) {
    if Holds(q, w, id) then (q.(inFlight := q.inFlight - {id}), true) else (q, false)
  }

  function Retry(d: Delivery): Item { Item(d.itemId, d.value, d.attempt) }
  function Letter(d: Delivery, reason: Reason): Dead { Dead(d.itemId, d.value, d.attempt, reason) }

  /** A failed delivery goes to the tail, or to the dead letters at the limit. */
  function Fail(c: Config, q: Queue, id: nat, reason: Reason): Queue
    requires id in q.inFlight
  {
    var d := q.inFlight[id];
    var rest := q.(inFlight := q.inFlight - {id});
    if d.attempt < c.maxDeliveries then rest.(pending := q.pending + [Retry(d)])
    else rest.(dead := q.dead + [Letter(d, reason)])
  }

  function Nack(c: Config, q: Queue, w: Worker, id: nat): (Queue, bool) {
    if Holds(q, w, id) then (Fail(c, q, id, Nacked), true) else (q, false)
  }

  predicate Late(m: map<nat, Delivery>, now: nat, id: nat) { id in m && m[id].deadline < now }

  /** The ids below n whose lease ran out, in delivery order. */
  function Overdue(m: map<nat, Delivery>, now: nat, n: nat): (r: seq<nat>)
    ensures forall id: nat :: id in r <==> id < n && Late(m, now, id)
  {
    if n == 0 then [] else Overdue(m, now, n - 1) + if Late(m, now, n - 1) then [n - 1] else []
  }

  function FailAll(c: Config, q: Queue, ids: seq<nat>): Queue {
    if ids == [] then q
    else
      var q1 := FailAll(c, q, ids[..|ids| - 1]);
      var id := ids[|ids| - 1];
      if id in q1.inFlight then Fail(c, q1, id, Expired) else q1
  }

  function Reap(c: Config, q: Queue, now: nat): Queue { FailAll(c, q, Overdue(q.inFlight, now, q.nextDelivery)) }

  // -- what happened so far ----------------------------------------------------------------------------

  datatype Place = Waiting | Out(delivery: nat) | Buried | Done

  /** The values pushed, how often each was delivered, what last became of it, and the first deliveries in order. */
  datatype History = History(pushed: seq<Value>, count: seq<nat>, place: seq<Place>, firsts: seq<nat>)

  const NOTHING := History([], [], [], [])

  function Pushed(h: History, v: Value): History {
    History(h.pushed + [v], h.count + [0], h.place + [Waiting], h.firsts)
  }

  /** One more delivery of an item. */
  function Delivered(h: History, x: nat, id: nat): History
    requires x < |h.count| == |h.place|
  {
    History(h.pushed, h.count[x := h.count[x] + 1], h.place[x := Out(id)], if h.count[x] == 0 then h.firsts + [x] else h.firsts)
  }

  function Settled(h: History, x: nat, p: Place): History {
    if x < |h.place| then h.(place := h.place[x := p]) else h
  }

  function AfterFailure(c: Config, d: Delivery): Place { if d.attempt < c.maxDeliveries then Waiting else Buried }

  function FailedAll(c: Config, q: Queue, h: History, ids: seq<nat>): History {
    if ids == [] then h
    else
      var q1, h1 := FailAll(c, q, ids[..|ids| - 1]), FailedAll(c, q, h, ids[..|ids| - 1]);
      var id := ids[|ids| - 1];
      if id in q1.inFlight then Settled(h1, q1.inFlight[id].itemId, AfterFailure(c, q1.inFlight[id])) else h1
  }

  datatype Op = Add(v: Value) | Take(w: Worker, now: nat) | Confirm(w: Worker, id: nat) | Reject(w: Worker, id: nat) | Sweep(now: nat)

  function Next(c: Config, q: Queue, op: Op): Queue {
    match op
    case Add(v) => Push(q, v).0
    case Take(w, now) => Claim(c, q, w, now).0
    case Confirm(w, id) => Ack(q, w, id).0
    case Reject(w, id) => Nack(c, q, w, id).0
    case Sweep(now) => Reap(c, q, now)
  }

  /**
   What each operation adds to the history, from what it reported to its caller; a sweep reports only how
   many leases it ended, so which they were is read off the overdue ones before it.
   */
  function Record(c: Config, q: Queue, h: History, op: Op): History {
    match op
    case Add(v) => if Push(q, v).1.Some? then Pushed(h, v) else h
    case Take(w, now) =>
      var r := Claim(c, q, w, now).1;
      if r.Some? && r.value.itemId < |h.count| == |h.place| then Delivered(h, r.value.itemId, r.value.id) else h
    case Confirm(w, id) => if Ack(q, w, id).1 then Settled(h, q.inFlight[id].itemId, Done) else h
    case Reject(w, id) => if Nack(c, q, w, id).1 then Settled(h, q.inFlight[id].itemId, AfterFailure(c, q.inFlight[id])) else h
    case Sweep(now) => FailedAll(c, q, h, Overdue(q.inFlight, now, q.nextDelivery))
  }

  function Run(c: Config, ops: seq<Op>): (Queue, History) {
    if ops == [] then (EMPTY, NOTHING)
    else
      var (q, h) := Run(c, ops[..|ops| - 1]);
      var op := ops[|ops| - 1];
      (Next(c, q, op), Record(c, q, h, op))
  }

  // -- what every run keeps ----------------------------------------------------------------------------

  ghost predicate Shape(q: Queue, h: History) { |h.pushed| == |h.count| == |h.place| == q.nextItem }

  ghost predicate ItemOk(c: Config, h: History, x: Item) {
    && x.id < |h.pushed| == |h.count| == |h.place|
    && x.value == h.pushed[x.id] && x.attempts == h.count[x.id] < c.maxDeliveries && h.place[x.id] == Waiting
  }

  ghost predicate DeliveryOk(c: Config, n: nat, h: History, id: nat, d: Delivery) {
    && d.id == id < n && d.itemId < |h.pushed| == |h.count| == |h.place|
    && d.value == h.pushed[d.itemId] && 1 <= d.attempt == h.count[d.itemId] <= c.maxDeliveries
    && h.place[d.itemId] == Out(id)
  }

  ghost predicate DeadOk(c: Config, h: History, x: Dead) {
    && x.itemId < |h.pushed| == |h.count| == |h.place|
    && x.value == h.pushed[x.itemId] && x.attempts == h.count[x.itemId] == c.maxDeliveries && h.place[x.itemId] == Buried
  }

  ghost predicate ItemsOk(c: Config, q: Queue, h: History) { forall i :: 0 <= i < |q.pending| ==> ItemOk(c, h, q.pending[i]) }
  ghost predicate DeliveriesOk(c: Config, q: Queue, h: History) {
    forall id :: id in q.inFlight ==> DeliveryOk(c, q.nextDelivery, h, id, q.inFlight[id])
  }
  ghost predicate LettersOk(c: Config, q: Queue, h: History) { forall i :: 0 <= i < |q.dead| ==> DeadOk(c, h, q.dead[i]) }

  ghost predicate IsPending(q: Queue, x: nat) { exists i :: 0 <= i < |q.pending| && q.pending[i].id == x }
  ghost predicate IsLeased(q: Queue, x: nat) { exists id :: id in q.inFlight && q.inFlight[id].itemId == x }
  ghost predicate IsBuried(q: Queue, x: nat) { exists i :: 0 <= i < |q.dead| && q.dead[i].itemId == x }

  ghost predicate Found(c: Config, q: Queue, h: History, x: nat)
    requires x < |h.place| == |h.count|
  {
    match h.place[x]
    case Waiting => IsPending(q, x)
    case Out(id) => id in q.inFlight && q.inFlight[id].itemId == x
    case Buried => IsBuried(q, x)
    case Done => 1 <= h.count[x] <= c.maxDeliveries
  }

  ghost predicate AllFound(c: Config, q: Queue, h: History)
    requires Shape(q, h)
  {
    forall x :: 0 <= x < q.nextItem ==> Found(c, q, h, x)
  }

  ghost predicate Apart(p: seq<Item>) { forall i, j :: 0 <= i < j < |p| ==> p[i].id != p[j].id }
  ghost predicate LettersApart(p: seq<Dead>) { forall i, j :: 0 <= i < j < |p| ==> p[i].itemId != p[j].itemId }

  /** Items never yet delivered wait in push order. */
  ghost predicate FreshInOrder(p: seq<Item>) {
    forall i, j :: 0 <= i < j < |p| && p[i].attempts == 0 && p[j].attempts == 0 ==> p[i].id < p[j].id
  }

  /** The items delivered at least once are the first ones pushed, and were first delivered in that order. */
  ghost predicate FirstsInOrder(h: History) {
    && |h.firsts| <= |h.count|
    && (forall i :: 0 <= i < |h.firsts| ==> h.firsts[i] == i && h.count[i] >= 1)
    && (forall x :: |h.firsts| <= x < |h.count| ==> h.count[x] == 0)
  }

  ghost predicate Inv(c: Config, q: Queue, h: History) {
    && Shape(q, h) && ItemsOk(c, q, h) && DeliveriesOk(c, q, h) && LettersOk(c, q, h) && AllFound(c, q, h)
    && Apart(q.pending) && LettersApart(q.dead) && FreshInOrder(q.pending) && FirstsInOrder(h)
  }

  // -- pushing ---------------------------------------------------------------------------------------------

  lemma PushOk(c: Config, q: Queue, h: History, v: Value)
    requires ConfigOk(c) && Inv(c, q, h)
    ensures Inv(c, Next(c, q, Add(v)), Record(c, q, h, Add(v)))
  {
    if q.nextItem < MAX_SAFE {
      PushKeeps(c, q, h, v);
    }
  }

  lemma PushKeeps(c: Config, q: Queue, h: History, v: Value)
    requires ConfigOk(c) && Inv(c, q, h) && q.nextItem < MAX_SAFE
    ensures Inv(c, Push(q, v).0, Pushed(h, v))
  {
    var t, k := Push(q, v).0, Pushed(h, v);
    forall i | 0 <= i < |t.pending| ensures ItemOk(c, k, t.pending[i]) {
      if i < |q.pending| {
        assert ItemOk(c, h, q.pending[i]);
      }
    }
    forall id | id in t.inFlight ensures DeliveryOk(c, t.nextDelivery, k, id, t.inFlight[id]) {
      assert DeliveryOk(c, q.nextDelivery, h, id, q.inFlight[id]);
    }
    forall i | 0 <= i < |t.dead| ensures DeadOk(c, k, t.dead[i]) {
      assert DeadOk(c, h, q.dead[i]);
    }
    forall i | 0 <= i < |q.pending| ensures q.pending[i].id < q.nextItem {
      assert ItemOk(c, h, q.pending[i]);
    }
    forall x | 0 <= x < t.nextItem ensures Found(c, t, k, x) {
      if x < q.nextItem {
        assert Found(c, q, h, x);
        StillPending(q, t, x);
      } else {
        assert t.pending[|q.pending|].id == x;
      }
    }
  }

  lemma StillPending(q: Queue, t: Queue, x: nat)
    requires q.pending <= t.pending
    ensures IsPending(q, x) ==> IsPending(t, x)
  {
    if IsPending(q, x) {
      var i :| 0 <= i < |q.pending| && q.pending[i].id == x;
      assert t.pending[i].id == x;
    }
  }

  // -- claiming ------------------------------------------------------------------------------------------------

  /** A fresh head is the first item never delivered. */
  lemma FreshHead(c: Config, q: Queue, h: History)
    requires Inv(c, q, h) && q.pending != [] && q.pending[0].attempts == 0
    ensures q.pending[0].id == |h.firsts|
  {
    var x := |h.firsts|;
    var first := q.pending[0];
    assert ItemOk(c, h, first);
    assert x <= first.id;
    assert h.count[x] == 0;
    NeverDeliveredWaits(c, q, h, x);
    var i :| 0 <= i < |q.pending| && q.pending[i].id == x;
    assert ItemOk(c, h, q.pending[i]);
  }

  lemma NeverDeliveredWaits(c: Config, q: Queue, h: History, x: nat)
    requires Inv(c, q, h) && x < q.nextItem && h.count[x] == 0 && c.maxDeliveries >= 1
    ensures IsPending(q, x)
  {
    assert Found(c, q, h, x);
    LetterCount(c, q, h, x);
    LeasedCount(c, q, h, x);
  }

  lemma LeasedCount(c: Config, q: Queue, h: History, x: nat)
    requires DeliveriesOk(c, q, h) && x < |h.count|
    ensures forall id :: id in q.inFlight && q.inFlight[id].itemId == x ==> 1 <= h.count[x] <= c.maxDeliveries
  {
    forall id | id in q.inFlight && q.inFlight[id].itemId == x ensures 1 <= h.count[x] <= c.maxDeliveries {
      assert DeliveryOk(c, q.nextDelivery, h, id, q.inFlight[id]);
    }
  }

  lemma LetterCount(c: Config, q: Queue, h: History, x: nat)
    requires LettersOk(c, q, h) && x < |h.count|
    ensures IsBuried(q, x) ==> h.count[x] == c.maxDeliveries
  {
    if IsBuried(q, x) {
      var i :| 0 <= i < |q.dead| && q.dead[i].itemId == x;
      assert DeadOk(c, h, q.dead[i]);
    }
  }

  lemma ClaimOk(c: Config, q: Queue, h: History, w: Worker, now: nat)
    requires ConfigOk(c) && Inv(c, q, h)
    ensures Inv(c, Next(c, q, Take(w, now)), Record(c, q, h, Take(w, now)))
  {
    if q.pending != [] && q.nextDelivery < MAX_SAFE {
      assert ItemOk(c, h, q.pending[0]);
      ClaimEntries(c, q, h, w, now);
      ClaimPlaces(c, q, h, w, now);
      ClaimOrder(c, q, h, w, now);
    }
  }

  lemma ClaimEntries(c: Config, q: Queue, h: History, w: Worker, now: nat)
    requires Inv(c, q, h) && q.pending != [] && q.nextDelivery < MAX_SAFE && ItemOk(c, h, q.pending[0])
    ensures var t, k := Claim(c, q, w, now).0, Delivered(h, q.pending[0].id, q.nextDelivery);
            ItemsOk(c, t, k) && DeliveriesOk(c, t, k) && LettersOk(c, t, k)
  {
    var t, k := Claim(c, q, w, now).0, Delivered(h, q.pending[0].id, q.nextDelivery);
    forall i | 0 <= i < |t.pending| ensures ItemOk(c, k, t.pending[i]) {
      var j := i + 1;
      assert ItemOk(c, h, q.pending[j]) && q.pending[0].id != q.pending[j].id;
    }
    forall id | id in t.inFlight ensures DeliveryOk(c, t.nextDelivery, k, id, t.inFlight[id]) {
      if id != q.nextDelivery {
        assert DeliveryOk(c, q.nextDelivery, h, id, q.inFlight[id]);
      }
    }
    forall i | 0 <= i < |t.dead| ensures DeadOk(c, k, t.dead[i]) {
      assert DeadOk(c, h, q.dead[i]);
    }
  }

  lemma ClaimPlaces(c: Config, q: Queue, h: History, w: Worker, now: nat)
    requires Inv(c, q, h) && q.pending != [] && q.nextDelivery < MAX_SAFE && ItemOk(c, h, q.pending[0])
    ensures AllFound(c, Claim(c, q, w, now).0, Delivered(h, q.pending[0].id, q.nextDelivery))
  {
    var t, k := Claim(c, q, w, now).0, Delivered(h, q.pending[0].id, q.nextDelivery);
    forall x | 0 <= x < t.nextItem ensures Found(c, t, k, x) {
      assert Found(c, q, h, x);
      if x != q.pending[0].id {
        PendingBehind(q, t, x);
        if h.place[x].Out? {
          assert DeliveryOk(c, q.nextDelivery, h, h.place[x].delivery, q.inFlight[h.place[x].delivery]);
        }
      }
    }
  }

  lemma PendingBehind(q: Queue, t: Queue, x: nat)
    requires q.pending != [] && q.pending[0].id != x && t.pending == q.pending[1..]
    ensures IsPending(q, x) ==> IsPending(t, x)
  {
    if IsPending(q, x) {
      var i :| 0 <= i < |q.pending| && q.pending[i].id == x;
      assert t.pending[i - 1] == q.pending[i];
    }
  }

  lemma ClaimOrder(c: Config, q: Queue, h: History, w: Worker, now: nat)
    requires Inv(c, q, h) && q.pending != [] && q.nextDelivery < MAX_SAFE && ItemOk(c, h, q.pending[0])
    ensures var t, k := Claim(c, q, w, now).0, Delivered(h, q.pending[0].id, q.nextDelivery);
            Apart(t.pending) && FreshInOrder(t.pending) && FirstsInOrder(k)
  {
    if q.pending[0].attempts == 0 {
      FreshHead(c, q, h);
    }
    var t := Claim(c, q, w, now).0;
    forall i, j | 0 <= i < j < |t.pending| ensures t.pending[i].id != t.pending[j].id {
      var a, b := i + 1, j + 1;
      assert q.pending[a].id != q.pending[b].id;
    }
    forall i, j | 0 <= i < j < |t.pending| && t.pending[i].attempts == 0 && t.pending[j].attempts == 0
      ensures t.pending[i].id < t.pending[j].id
    {
      var a, b := i + 1, j + 1;
      assert q.pending[a].attempts == 0 && q.pending[b].attempts == 0;
    }
  }

  // -- settling a delivery -----------------------------------------------------------------------------------------

  lemma AckOk(c: Config, q: Queue, h: History, w: Worker, id: nat)
    requires Inv(c, q, h)
    ensures Inv(c, Next(c, q, Confirm(w, id)), Record(c, q, h, Confirm(w, id)))
  {
    if Holds(q, w, id) {
      assert DeliveryOk(c, q.nextDelivery, h, id, q.inFlight[id]);
      OthersStay(c, q, h, q.(inFlight := q.inFlight - {id}), id, Done);
    }
  }

  /** Taking one delivery out and appending to the tails leaves everything else as it was. */
  lemma OthersStay(c: Config, q: Queue, h: History, t: Queue, id: nat, p: Place)
    requires Inv(c, q, h) && id in q.inFlight && q.inFlight[id].itemId < q.nextItem && h.place[q.inFlight[id].itemId] == Out(id)
    requires t.inFlight == q.inFlight - {id} && t.nextItem == q.nextItem && t.nextDelivery == q.nextDelivery
    requires q.pending <= t.pending && q.dead <= t.dead
    ensures var k := Settled(h, q.inFlight[id].itemId, p);
            && Shape(t, k) && DeliveriesOk(c, t, k) && FirstsInOrder(k)
            && (forall i :: 0 <= i < |q.pending| ==> ItemOk(c, k, t.pending[i]))
            && (forall i :: 0 <= i < |q.dead| ==> DeadOk(c, k, t.dead[i]))
            && (forall x :: 0 <= x < t.nextItem && x != q.inFlight[id].itemId ==> Found(c, t, k, x))
  {
    var y := q.inFlight[id].itemId;
    var k := Settled(h, y, p);
    forall other | other in t.inFlight ensures DeliveryOk(c, t.nextDelivery, k, other, t.inFlight[other]) {
      assert DeliveryOk(c, q.nextDelivery, h, other, q.inFlight[other]);
    }
    forall i | 0 <= i < |q.pending| ensures ItemOk(c, k, t.pending[i]) {
      assert ItemOk(c, h, q.pending[i]);
    }
    forall i | 0 <= i < |q.dead| ensures DeadOk(c, k, t.dead[i]) {
      assert DeadOk(c, h, q.dead[i]);
    }
    forall x | 0 <= x < t.nextItem && x != y ensures Found(c, t, k, x) {
      assert Found(c, q, h, x);
      StillPending(q, t, x);
      StillBuried(q, t, x);
    }
  }

  lemma StillBuried(q: Queue, t: Queue, x: nat)
    requires q.dead <= t.dead
    ensures IsBuried(q, x) ==> IsBuried(t, x)
  {
    if IsBuried(q, x) {
      var i :| 0 <= i < |q.dead| && q.dead[i].itemId == x;
      assert t.dead[i].itemId == x;
    }
  }

  /** A failed delivery's item is retried while attempts remain, and buried with exactly the limit otherwise. */
  lemma FailOk(c: Config, q: Queue, h: History, id: nat, reason: Reason)
    requires Inv(c, q, h) && id in q.inFlight
    ensures Inv(c, Fail(c, q, id, reason), Settled(h, q.inFlight[id].itemId, AfterFailure(c, q.inFlight[id])))
  {
    var d, t := q.inFlight[id], Fail(c, q, id, reason);
    var k := Settled(h, d.itemId, AfterFailure(c, d));
    assert DeliveryOk(c, q.nextDelivery, h, id, d);
    OthersStay(c, q, h, t, id, AfterFailure(c, d));
    forall i | 0 <= i < |q.pending| ensures q.pending[i].id != d.itemId {
      assert ItemOk(c, h, q.pending[i]);
    }
    forall i | 0 <= i < |q.dead| ensures q.dead[i].itemId != d.itemId {
      assert DeadOk(c, h, q.dead[i]);
    }
    if d.attempt < c.maxDeliveries {
      assert t.pending[|q.pending|].id == d.itemId;
      assert ItemOk(c, k, t.pending[|q.pending|]);
      FreshBeforeRetry(q.pending, Retry(d));
    } else {
      assert t.dead[|q.dead|].itemId == d.itemId;
      assert DeadOk(c, k, t.dead[|q.dead|]);
    }
  }

  lemma FreshBeforeRetry(p: seq<Item>, x: Item)
    requires FreshInOrder(p) && x.attempts > 0
    ensures FreshInOrder(p + [x])
  {
    var r := p + [x];
    forall i, j | 0 <= i < j < |r| && r[i].attempts == 0 && r[j].attempts == 0 ensures r[i].id < r[j].id {
      assert r[i] == p[i] && r[j] == p[j];
    }
  }

  lemma NackOk(c: Config, q: Queue, h: History, w: Worker, id: nat)
    requires Inv(c, q, h)
    ensures Inv(c, Next(c, q, Reject(w, id)), Record(c, q, h, Reject(w, id)))
  {
    hide Inv;
    if Holds(q, w, id) {
      FailOk(c, q, h, id, Nacked);
    }
  }

  lemma {:induction false} FailAllOk(c: Config, q: Queue, h: History, ids: seq<nat>)
    requires Inv(c, q, h)
    ensures Inv(c, FailAll(c, q, ids), FailedAll(c, q, h, ids))
  {
    hide Inv;
    if ids != [] {
      var less := ids[..|ids| - 1];
      FailAllOk(c, q, h, less);
      var q1, id := FailAll(c, q, less), ids[|ids| - 1];
      if id in q1.inFlight {
        FailOk(c, q1, FailedAll(c, q, h, less), id, Expired);
      }
    }
  }

  // -- every run -------------------------------------------------------------------------------------------------

  lemma StepOk(c: Config, q: Queue, h: History, op: Op)
    requires ConfigOk(c) && Inv(c, q, h)
    ensures Inv(c, Next(c, q, op), Record(c, q, h, op))
  {
    hide Inv;
    match op
    case Add(v) => PushOk(c, q, h, v);
    case Take(w, now) => ClaimOk(c, q, h, w, now);
    case Confirm(w, id) => AckOk(c, q, h, w, id);
    case Reject(w, id) => NackOk(c, q, h, w, id);
    case Sweep(now) => FailAllOk(c, q, h, Overdue(q.inFlight, now, q.nextDelivery));
  }

  lemma {:induction false} EveryRun(c: Config, ops: seq<Op>)
    requires ConfigOk(c)
    ensures Inv(c, Run(c, ops).0, Run(c, ops).1)
  {
    if ops != [] {
      EveryRun(c, ops[..|ops| - 1]);
      var (q, h) := Run(c, ops[..|ops| - 1]);
      StepOk(c, q, h, ops[|ops| - 1]);
    }
  }

  /** Each pushed item is in exactly one of the four places, and once in it. */
  lemma Conservation(c: Config, ops: seq<Op>, x: nat)
    requires ConfigOk(c) && x < |Run(c, ops).1.pushed|
    ensures var (q, h) := Run(c, ops);
            && Shape(q, h) && Apart(q.pending) && LettersApart(q.dead)
            && (h.place[x] == Waiting <==> IsPending(q, x)) && (h.place[x].Out? <==> IsLeased(q, x))
            && (h.place[x] == Buried <==> IsBuried(q, x))
            && (IsPending(q, x) || IsLeased(q, x) || IsBuried(q, x) || h.place[x] == Done)
  {
    EveryRun(c, ops);
    var (q, h) := Run(c, ops);
    assert Found(c, q, h, x);
    InOnePlace(c, q, h, x);
  }

  lemma InOnePlace(c: Config, q: Queue, h: History, x: nat)
    requires Inv(c, q, h) && x < q.nextItem
    ensures (IsPending(q, x) ==> h.place[x] == Waiting) && (IsLeased(q, x) ==> h.place[x].Out?) && (IsBuried(q, x) ==> h.place[x] == Buried)
  {
    if IsPending(q, x) {
      var i :| 0 <= i < |q.pending| && q.pending[i].id == x;
      assert ItemOk(c, h, q.pending[i]);
    }
    if IsLeased(q, x) {
      var id :| id in q.inFlight && q.inFlight[id].itemId == x;
      assert DeliveryOk(c, q.nextDelivery, h, id, q.inFlight[id]);
    }
    if IsBuried(q, x) {
      var i :| 0 <= i < |q.dead| && q.dead[i].itemId == x;
      assert DeadOk(c, h, q.dead[i]);
    }
  }

  /** Two live deliveries never carry the same item. */
  lemma OneLiveDelivery(c: Config, ops: seq<Op>, a: nat, b: nat)
    requires ConfigOk(c)
    ensures var q := Run(c, ops).0;
            a in q.inFlight && b in q.inFlight && q.inFlight[a].itemId == q.inFlight[b].itemId ==> a == b
  {
    EveryRun(c, ops);
    var (q, h) := Run(c, ops);
    if a in q.inFlight && b in q.inFlight {
      assert DeliveryOk(c, q.nextDelivery, h, a, q.inFlight[a]) && DeliveryOk(c, q.nextDelivery, h, b, q.inFlight[b]);
    }
  }

  /** No item is delivered more often than allowed, and every dead letter used up all its deliveries. */
  lemma DeliveriesBounded(c: Config, ops: seq<Op>)
    requires ConfigOk(c)
    ensures var (q, h) := Run(c, ops);
            && (forall x :: 0 <= x < |h.count| ==> h.count[x] <= c.maxDeliveries)
            && (forall i :: 0 <= i < |q.dead| ==> q.dead[i].attempts == c.maxDeliveries && DeadOk(c, h, q.dead[i]))
  {
    EveryRun(c, ops);
    var (q, h) := Run(c, ops);
    forall x | 0 <= x < |h.count| ensures h.count[x] <= c.maxDeliveries {
      assert Found(c, q, h, x);
      LetterCount(c, q, h, x);
      PendingCount(c, q, h, x);
      LeasedCount(c, q, h, x);
    }
    forall i | 0 <= i < |q.dead| ensures q.dead[i].attempts == c.maxDeliveries && DeadOk(c, h, q.dead[i]) {
      assert DeadOk(c, h, q.dead[i]);
    }
  }

  lemma PendingCount(c: Config, q: Queue, h: History, x: nat)
    requires ItemsOk(c, q, h) && x < |h.count|
    ensures IsPending(q, x) ==> h.count[x] < c.maxDeliveries
  {
    if IsPending(q, x) {
      var i :| 0 <= i < |q.pending| && q.pending[i].id == x;
      assert ItemOk(c, h, q.pending[i]);
    }
  }

  /** First deliveries follow push order: the k-th item to be delivered at all is the k-th pushed. */
  lemma FirstDeliveriesInPushOrder(c: Config, ops: seq<Op>)
    requires ConfigOk(c)
    ensures var h := Run(c, ops).1; h.firsts == seq(|h.firsts|, i => i) && FirstsInOrder(h)
  {
    EveryRun(c, ops);
  }

  // -- leases -----------------------------------------------------------------------------------------------------

  /** Delivery ids that were handed out and are no longer live. */
  ghost predicate Spent(q: Queue, id: nat) { id < q.nextDelivery && id !in q.inFlight }

  lemma {:induction false} FailAllShrinks(c: Config, q: Queue, ids: seq<nat>)
    ensures var t := FailAll(c, q, ids); t.nextDelivery == q.nextDelivery && t.nextItem == q.nextItem
    ensures forall id :: id in FailAll(c, q, ids).inFlight <==> id in q.inFlight && id !in ids
    ensures forall id :: id in FailAll(c, q, ids).inFlight ==> FailAll(c, q, ids).inFlight[id] == q.inFlight[id]
  {
    if ids != [] {
      FailAllShrinks(c, q, ids[..|ids| - 1]);
      assert ids == ids[..|ids| - 1] + [ids[|ids| - 1]];
    }
  }

  lemma SpentOnce(c: Config, q: Queue, op: Op, id: nat)
    requires Spent(q, id)
    ensures Spent(Next(c, q, op), id)
  {
    if op.Sweep? {
      FailAllShrinks(c, q, Overdue(q.inFlight, op.now, q.nextDelivery));
    }
  }

  /** A settled or expired delivery can never be acknowledged or failed again, whatever happens in between. */
  lemma {:induction false} SpentForGood(c: Config, q: Queue, ops: seq<Op>, id: nat, w: Worker)
    requires Spent(q, id)
    ensures var t := After(c, q, ops); Spent(t, id) && Ack(t, w, id) == (t, false) && Nack(c, t, w, id) == (t, false)
  {
    if ops != [] {
      SpentForGood(c, q, ops[..|ops| - 1], id, w);
      SpentOnce(c, After(c, q, ops[..|ops| - 1]), ops[|ops| - 1], id);
    }
  }

  function After(c: Config, q: Queue, ops: seq<Op>): Queue {
    if ops == [] then q else Next(c, After(c, q, ops[..|ops| - 1]), ops[|ops| - 1])
  }

  // -- reaping -----------------------------------------------------------------------------------------------------

  ghost predicate Ascending(s: seq<nat>) { forall i, j :: 0 <= i < j < |s| ==> s[i] < s[j] }

  lemma {:induction false} OverdueAscends(m: map<nat, Delivery>, now: nat, n: nat)
    ensures Ascending(Overdue(m, now, n))
  {
    if n > 0 {
      OverdueAscends(m, now, n - 1);
      var r := Overdue(m, now, n - 1);
      forall i | 0 <= i < |r| ensures r[i] < n - 1 {
        assert r[i] in r;
      }
    }
  }

  /** The items retried and the letters written when these deliveries fail one after the other. */
  function Retried(c: Config, m: map<nat, Delivery>, ids: seq<nat>): seq<Item>
    requires forall id :: id in ids ==> id in m
  {
    if ids == [] then []
    else
      var d := m[ids[|ids| - 1]];
      Retried(c, m, ids[..|ids| - 1]) + if d.attempt < c.maxDeliveries then [Retry(d)] else []
  }

  function Letters(c: Config, m: map<nat, Delivery>, ids: seq<nat>): seq<Dead>
    requires forall id :: id in ids ==> id in m
  {
    if ids == [] then []
    else
      var d := m[ids[|ids| - 1]];
      Letters(c, m, ids[..|ids| - 1]) + if d.attempt < c.maxDeliveries then [] else [Letter(d, Expired)]
  }

  lemma FailAllNone(c: Config, q: Queue)
    ensures FailAll(c, q, []) == q
  {
  }

  lemma FailAllSnoc(c: Config, q: Queue, ids: seq<nat>, i: nat)
    requires i < |ids|
    ensures var q1 := FailAll(c, q, ids[..i]);
            FailAll(c, q, ids[..i + 1]) == if ids[i] in q1.inFlight then Fail(c, q1, ids[i], Expired) else q1
  {
    assert ids[..i + 1][..i] == ids[..i];
  }

  lemma AscendingPrefix(ids: seq<nat>)
    requires Ascending(ids) && ids != []
    ensures var less := ids[..|ids| - 1];
            Ascending(less) && ids[|ids| - 1] !in less && forall id :: id in less ==> id in ids
  {
    var less := ids[..|ids| - 1];
    assert forall i :: 0 <= i < |less| ==> less[i] == ids[i];
  }

  lemma FailExact(c: Config, q: Queue, id: nat, reason: Reason)
    requires id in q.inFlight
    ensures var t, d := Fail(c, q, id, reason), q.inFlight[id];
            && t.pending == q.pending + (if d.attempt < c.maxDeliveries then [Retry(d)] else [])
            && t.dead == q.dead + if d.attempt < c.maxDeliveries then [] else [Letter(d, reason)]
  {
  }

  lemma {:induction false} FailAllExact(c: Config, q: Queue, ids: seq<nat>)
    requires Ascending(ids) && forall id :: id in ids ==> id in q.inFlight
    ensures var t := FailAll(c, q, ids);
            t.pending == q.pending + Retried(c, q.inFlight, ids) && t.dead == q.dead + Letters(c, q.inFlight, ids)
  {
    if ids != [] {
      var less, id := ids[..|ids| - 1], ids[|ids| - 1];
      AscendingPrefix(ids);
      FailAllExact(c, q, less);
      FailAllShrinks(c, q, less);
      FailExact(c, FailAll(c, q, less), id, Expired);
    }
  }

  /**
   * Reaping ends exactly the leases whose deadline passed, in delivery order: it leaves every other
   * lease alone, retries below the limit, and buries the rest as expired.
   */
  lemma ReapExact(c: Config, q: Queue, now: nat)
    requires forall id :: id in q.inFlight ==> id < q.nextDelivery
    ensures var t, late := Reap(c, q, now), Overdue(q.inFlight, now, q.nextDelivery);
            && Ascending(late) && (forall id: nat :: id in late <==> Late(q.inFlight, now, id))
            && t.inFlight == (map id | id in q.inFlight && now <= q.inFlight[id].deadline :: q.inFlight[id])
            && t.pending == q.pending + Retried(c, q.inFlight, late) && t.dead == q.dead + Letters(c, q.inFlight, late)
            && t.nextItem == q.nextItem && t.nextDelivery == q.nextDelivery
  {
    var late := Overdue(q.inFlight, now, q.nextDelivery);
    OverdueAscends(q.inFlight, now, q.nextDelivery);
    FailAllShrinks(c, q, late);
    FailAllExact(c, q, late);
  }
}
