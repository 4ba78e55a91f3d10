/** What the work queue answers, told from its earlier answers alone: who holds what, and who waits in which order. */
module QueueAnswers {
  import opened Basics
  import opened QueueModel

  /** One delivery as it was handed out: to whom, of which item, and when. */
  datatype Handed = Handed(worker: Worker, item: nat, at: nat)

  /** The deliveries handed out so far, by id, and the items waiting, longest first. */
  datatype Ledger = Ledger(handed: seq<Handed>, line: seq<nat>)

  const UNUSED := Ledger([], [])

  /** The delivery is the one its item was last given in, and was not settled since. */
  predicate Running(h: History, l: Ledger, id: nat) {
    id < |l.handed| && l.handed[id].item < |h.place| == |h.count| && h.place[l.handed[id].item] == Out(id)
  }

  /** A lease runs for the timeout from its claim, and no longer than clocks do. */
  predicate RanOut(c: Config, h: History, l: Ledger, now: nat, id: nat) {
    Running(h, l, id) && (l.handed[id].at + c.visibilityTimeout < now || MAX_SAFE < now)
  }

  /** The first `n` deliveries whose leases ran out, in the order they were handed out. */
  function Lapsed(c: Config, h: History, l: Ledger, now: nat, n: nat): seq<nat> {
    if n == 0 then [] else Lapsed(c, h, l, now, n - 1) + if RanOut(c, h, l, now, n - 1) then [n - 1] else []
  }

  /** The items of these deliveries that may be delivered once more. */
  function Again(c: Config, h: History, l: Ledger, ids: seq<nat>): seq<nat> {
    if ids == [] then []
    else
      var id := ids[|ids| - 1];
      Again(c, h, l, ids[..|ids| - 1]) +
      if Running(h, l, id) && h.count[l.handed[id].item] < c.maxDeliveries then [l.handed[id].item] else []
  }

  function Without(line: seq<nat>, x: nat): seq<nat> {
    if line == [] then [] else if line[0] == x then line[1..] else [line[0]] + Without(line[1..], x)
  }

  /** What an answer adds to the ledger. */
  function Noted(c: Config, q: Queue, h: History, l: Ledger, op: Op): Ledger {
    match op
    case Add(v) =>
      var r := Push(q, v).1;
      if r.Some? then l.(line := l.line + [r.value]) else l
    case Take(w, now) =>
      var r := Claim(c, q, w, now).1;
      if r.Some? then Ledger(l.handed + [Handed(w, r.value.itemId, now)], Without(l.line, r.value.itemId)) else l
    case Confirm(w, id) => l
    case Reject(w, id) => if Nack(c, q, w, id).1 then l.(line := l.line + Again(c, h, l, [id])) else l
    case Sweep(now) => l.(line := l.line + Again(c, h, l, Lapsed(c, h, l, now, |l.handed|)))
  }

  function Kept(c: Config, ops: seq<Op>): Ledger {
    if ops == [] then UNUSED
    else
      var (q, h) := Run(c, ops[..|ops| - 1]);
      Noted(c, q, h, Kept(c, ops[..|ops| - 1]), ops[|ops| - 1])
  }

  // -- the queue holds what its answers said ---------------------------------------------------------------------

  ghost predicate LeaseOk(c: Config, l: Ledger, id: nat, d: Delivery) {
    && id < |l.handed| && d.worker == l.handed[id].worker && d.itemId == l.handed[id].item
    && d.deadline == Min(MAX_SAFE, l.handed[id].at + c.visibilityTimeout)
  }

  ghost predicate LeasesOk(c: Config, q: Queue, l: Ledger) { forall id :: id in q.inFlight ==> LeaseOk(c, l, id, q.inFlight[id]) }

  ghost predicate LineOk(q: Queue, l: Ledger) {
    |l.line| == |q.pending| && forall i :: 0 <= i < |l.line| ==> l.line[i] == q.pending[i].id
  }

  ghost predicate Agrees(c: Config, q: Queue, l: Ledger) { |l.handed| == q.nextDelivery && LeasesOk(c, q, l) && LineOk(q, l) }

  /** A delivery is in flight exactly when it is running. */
  lemma RunningIs(c: Config, q: Queue, h: History, l: Ledger, id: nat)
    requires Inv(c, q, h) && Agrees(c, q, l)
    ensures Running(h, l, id) <==> id in q.inFlight
    ensures id in q.inFlight ==> LeaseOk(c, l, id, q.inFlight[id]) && DeliveryOk(c, q.nextDelivery, h, id, q.inFlight[id])
  {
    if Running(h, l, id) {
      assert Found(c, q, h, l.handed[id].item);
    }
    if id in q.inFlight {
      assert LeaseOk(c, l, id, q.inFlight[id]) && DeliveryOk(c, q.nextDelivery, h, id, q.inFlight[id]);
    }
  }

  lemma {:induction false} LapsedIs(c: Config, q: Queue, h: History, l: Ledger, now: nat, n: nat)
    requires Inv(c, q, h) && Agrees(c, q, l)
    ensures Lapsed(c, h, l, now, n) == Overdue(q.inFlight, now, n)
  {
    hide Inv, Agrees, Running;
    if n > 0 {
      LapsedIs(c, q, h, l, now, n - 1);
      RunningIs(c, q, h, l, n - 1);
    }
  }

  lemma {:induction false} AgainIs(c: Config, q: Queue, h: History, l: Ledger, ids: seq<nat>)
    requires Inv(c, q, h) && Agrees(c, q, l) && forall id :: id in ids ==> id in q.inFlight
    ensures var r, s := Retried(c, q.inFlight, ids), Again(c, h, l, ids);
      |r| == |s| && forall i :: 0 <= i < |r| ==> r[i].id == s[i]
  {
    hide Inv, Agrees, Running;
    if ids != [] {
      var less := ids[..|ids| - 1];
      assert forall id :: id in less ==> id in ids;
      AgainIs(c, q, h, l, less);
      RunningIs(c, q, h, l, ids[|ids| - 1]);
    }
  }

  lemma NotedOk(c: Config, q: Queue, h: History, l: Ledger, op: Op)
    requires ConfigOk(c) && Inv(c, q, h) && Agrees(c, q, l)
    ensures Agrees(c, Next(c, q, op), Noted(c, q, h, l, op))
  {
    hide Inv, Reap, Overdue, Again, Lapsed;
    match op
    case Add(v) =>
    case Take(w, now) =>
    case Confirm(w, id) =>
    case Reject(w, id) =>
      if Holds(q, w, id) {
        AgainIs(c, q, h, l, [id]);
        RetriedOne(c, q.inFlight, id);
      }
    case Sweep(now) => SweepNoted(c, q, h, l, now);
  }

  lemma RetriedOne(c: Config, m: map<nat, Delivery>, id: nat)
    requires id in m
    ensures Retried(c, m, [id]) == if m[id].attempt < c.maxDeliveries then [Retry(m[id])] else []
  {
    assert [id][..0] == [];
  }

  lemma SweepNoted(c: Config, q: Queue, h: History, l: Ledger, now: nat)
    requires ConfigOk(c) && Inv(c, q, h) && Agrees(c, q, l)
    ensures Agrees(c, Next(c, q, Sweep(now)), Noted(c, q, h, l, Sweep(now)))
  {
    hide Inv, Reap, Again, Retried, LineOk;
    BelowNext(c, q, h);
    ReapExact(c, q, now);
    var late := Overdue(q.inFlight, now, q.nextDelivery);
    LapsedIs(c, q, h, l, now, q.nextDelivery);
    AgainIs(c, q, h, l, late);
    LineGrows(q, l, Reap(c, q, now), Retried(c, q.inFlight, late), Again(c, h, l, late));
  }

  lemma BelowNext(c: Config, q: Queue, h: History)
    requires Inv(c, q, h)
    ensures forall id :: id in q.inFlight ==> id < q.nextDelivery
  {
    forall id | id in q.inFlight ensures id < q.nextDelivery {
      assert DeliveryOk(c, q.nextDelivery, h, id, q.inFlight[id]);
    }
  }

  lemma LineGrows(q: Queue, l: Ledger, t: Queue, items: seq<Item>, ids: seq<nat>)
    requires LineOk(q, l) && t.pending == q.pending + items && |items| == |ids| && forall i :: 0 <= i < |ids| ==> items[i].id == ids[i]
    ensures LineOk(t, l.(line := l.line + ids))
  {
  }

  lemma {:induction false} LedgerOk(c: Config, ops: seq<Op>)
    requires ConfigOk(c)
    ensures Inv(c, Run(c, ops).0, Run(c, ops).1) && Agrees(c, Run(c, ops).0, Kept(c, ops))
  {
    hide Inv, Agrees, Next, Record, Noted;
    EveryRun(c, ops);
    if ops == [] {
      UnusedOk(c);
    } else {
      var before := ops[..|ops| - 1];
      LedgerOk(c, before);
      NotedOk(c, Run(c, before).0, Run(c, before).1, Kept(c, before), ops[|ops| - 1]);
    }
  }

  lemma UnusedOk(c: Config)
    ensures Agrees(c, EMPTY, UNUSED)
  {
  }

  // -- the answers -------------------------------------------------------------------------------------------------

  /** A push is refused only once the ids are used up, and its answer is how many were pushed before. */
  lemma PushAnswers(c: Config, ops: seq<Op>, v: Value)
    requires ConfigOk(c)
    ensures var (q, h) := Run(c, ops);
      Push(q, v).1 == if |h.pushed| < MAX_SAFE then Some(|h.pushed|) else None
  {
    EveryRun(c, ops);
  }

  /**
   A claim is answered exactly when an item waits and delivery ids are left. It gives the item that has waited
   longest to the worker who asked, with its value as it was pushed, as one more delivery of it, under the next
   delivery id, on a lease that runs out when the timeout has passed.
   */
  lemma ClaimAnswers(c: Config, ops: seq<Op>, w: Worker, now: nat)
    requires ConfigOk(c)
    ensures var ((q, h), l) := (Run(c, ops), Kept(c, ops));
      match Claim(c, q, w, now).1
      case None => l.line == [] || |l.handed| >= MAX_SAFE
      case Some(d) =>
        && l.line != [] && |l.handed| < MAX_SAFE && d.itemId == l.line[0] < |h.pushed| == |h.count|
        && d.worker == w && d.id == |l.handed| && d.value == h.pushed[d.itemId] && d.attempt == h.count[d.itemId] + 1
        && forall later :: Late(Claim(c, q, w, now).0.inFlight, later, d.id) <==> now + c.visibilityTimeout < later || MAX_SAFE < later
  {
    LedgerOk(c, ops);
    var (q, h) := Run(c, ops);
    if q.pending != [] {
      assert ItemOk(c, h, q.pending[0]);
    }
  }

  /** Only the worker a delivery was handed to can settle it, and only while it runs. */
  lemma SettlingAnswers(c: Config, ops: seq<Op>, w: Worker, id: nat)
    requires ConfigOk(c)
    ensures var ((q, h), l) := (Run(c, ops), Kept(c, ops));
      && (Ack(q, w, id).1 <==> Running(h, l, id) && l.handed[id].worker == w)
      && (Nack(c, q, w, id).1 <==> Running(h, l, id) && l.handed[id].worker == w)
      && (!Ack(q, w, id).1 ==> Ack(q, w, id).0 == q && Nack(c, q, w, id).0 == q)
  {
    hide Inv, Agrees;
    LedgerOk(c, ops);
    var ((q, h), l) := (Run(c, ops), Kept(c, ops));
    RunningIs(c, q, h, l, id);
  }

  /** The queue after an acknowledgement, and after a failure, of a delivery of item `x`. */
  ghost predicate SettledSo(c: Config, q: Queue, h: History, x: nat, id: nat, acked: Queue, failed: Queue) {
    && acked == q.(inFlight := q.inFlight - {id}) && failed == acked.(pending := failed.pending, dead := failed.dead)
    && x < |h.pushed| == |h.count|
    && if h.count[x] < c.maxDeliveries then
         failed.dead == q.dead && failed.pending == q.pending + [Item(x, h.pushed[x], h.count[x])]
       else failed.pending == q.pending && failed.dead == q.dead + [Dead(x, h.pushed[x], h.count[x], Nacked)]
  }

  /**
   An acknowledged delivery leaves for good. A failed one sends its item to the end of the line while it may be
   delivered again; otherwise one dead letter is added, which says what was pushed, how often it was delivered, and why
   it failed.
   */
  lemma SettlingDoes(c: Config, ops: seq<Op>, w: Worker, id: nat)
    requires ConfigOk(c) && Ack(Run(c, ops).0, w, id).1
    ensures var ((q, h), l) := (Run(c, ops), Kept(c, ops));
      Running(h, l, id) && SettledSo(c, q, h, l.handed[id].item, id, Ack(q, w, id).0, Nack(c, q, w, id).0)
  {
    hide Inv, Agrees;
    LedgerOk(c, ops);
    var ((q, h), l) := (Run(c, ops), Kept(c, ops));
    RunningIs(c, q, h, l, id);
  }

  /** A sweep ends exactly the deliveries whose leases ran out, in the order they were handed out. */
  lemma SweepEnds(c: Config, ops: seq<Op>, now: nat)
    requires ConfigOk(c)
    ensures var ((q, h), l) := (Run(c, ops), Kept(c, ops));
      var late := Overdue(q.inFlight, now, q.nextDelivery);
      && Ascending(late) && (forall id: nat :: id in late <==> RanOut(c, h, l, now, id))
      && late == Lapsed(c, h, l, now, |l.handed|)
  {
    hide Inv, Agrees, Running;
    LedgerOk(c, ops);
    var ((q, h), l) := (Run(c, ops), Kept(c, ops));
    OverdueAscends(q.inFlight, now, q.nextDelivery);
    LapsedIs(c, q, h, l, now, q.nextDelivery);
    AgreesNext(c, q, l);
    forall id: nat ensures id in Overdue(q.inFlight, now, q.nextDelivery) <==> RanOut(c, h, l, now, id) {
      RunningIs(c, q, h, l, id);
      BelowNext(c, q, h);
    }
  }

  lemma AgreesNext(c: Config, q: Queue, l: Ledger)
    requires Agrees(c, q, l)
    ensures |l.handed| == q.nextDelivery
  {
  }
}
