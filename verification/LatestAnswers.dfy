/** What the latest-value core answers, told from its earlier answers alone: what was accepted, what is out, what was confirmed. */
module LatestAnswers {
  import opened Basics
  import opened LatestModel

  /** The generation last raised to, and per key the envelope handed out and not heard of since. */
  datatype Desk = Desk(generation: nat, out: map<Key, Envelope>)

  /** What an answer changes on the desk. */
  function Noted(s: Core, d: Desk, op: Op): Desk {
    match op
    case Want(_, _, _) => d
    case Take(k, generation) =>
      var r := Claim(s, k, generation).1;
      if r.Handed? then d.(out := d.out[k := r.envelope]) else d
    case Confirm(k, generation, epoch) => if Ack(s, k, generation, epoch).1.Advanced? then d.(out := d.out - {k}) else d
    case GiveUp(k, generation, epoch) =>
      var r := Fail(s, k, generation, epoch).1;
      if r.Requeued? || r.Superseded? then d.(out := d.out - {k}) else d
    case Renew(generation) => if Reconnect(s, generation).1.Raised? then Desk(generation, map[]) else d
  }

  function Kept(generation: nat, ops: seq<Op>): Desk {
    if ops == [] then Desk(generation, map[])
    else Noted(Run(generation, ops[..|ops| - 1]).0, Kept(generation, ops[..|ops| - 1]), ops[|ops| - 1])
  }

  /** The revision of a key last accepted. */
  function Newest(h: History, k: Key): Option<Revision> {
    var a := AcceptedAt(h, k);
    if a == [] then None else Some(a[|a| - 1])
  }

  /** The epoch of a key last confirmed. */
  function Confirmed(h: History, k: Key): Option<nat> { if k in h.confirmed then Some(h.confirmed[k].epoch) else None }

  predicate IsOut(d: Desk, k: Key, epoch: nat) { k in d.out && d.out[k].epoch == epoch }

  /** Something newer was accepted than what is out. */
  predicate Outdated(h: History, d: Desk, k: Key)
    requires k in d.out
  {
    Newest(h, k).Some? && Newest(h, k).value.epoch > d.out[k].epoch
  }

  function OutCurrent(h: History, d: Desk): set<Key> { set k | k in d.out && !Outdated(h, d, k) }
  function OutDated(h: History, d: Desk): set<Key> { set k | k in d.out && Outdated(h, d, k) }

  // -- the core holds what its answers said ------------------------------------------------------------------------

  ghost predicate Agrees(s: Core, d: Desk) {
    && s.generation == d.generation
    && (forall k :: k in d.out <==> EntryOf(s, k).inflight.Some?)
    && (forall k :: k in d.out ==> d.out[k] == EntryOf(s, k).inflight.value)
  }

  lemma NotedOk(s: Core, h: History, d: Desk, op: Op)
    requires Inv(s, h) && Agrees(s, d)
    ensures Agrees(Next(s, op), Noted(s, d, op))
  {
    hide Inv;
    match op
    case Confirm(k, generation, epoch) =>
      if k in s.entries {
        EntryAt(s, h, k);
      }
    case _ =>
  }

  lemma {:induction false} DeskOk(generation: nat, ops: seq<Op>)
    ensures var (s, h) := Run(generation, ops); Inv(s, h) && Agrees(s, Kept(generation, ops))
  {
    hide Inv, Next, Record, Noted;
    EveryRun(generation, ops);
    if ops != [] {
      var before := ops[..|ops| - 1];
      DeskOk(generation, before);
      NotedOk(Run(generation, before).0, Run(generation, before).1, Kept(generation, before), ops[|ops| - 1]);
    }
  }

  /** What an entry holds, in terms of the answers. */
  lemma EntrySays(s: Core, h: History, d: Desk, k: Key)
    requires Inv(s, h) && Agrees(s, d)
    ensures var e := EntryOf(s, k);
      && (k in s.entries <==> Newest(h, k).Some?)
      && e.durable == Confirmed(h, k) && e.inflight == (if k in d.out then Some(d.out[k]) else None)
      && (Newest(h, k).Some? ==> NewestKept(e, Newest(h, k).value) && Ordered(e))
  {
    assert k in s.entries.Keys <==> k in h.accepted.Keys;
    if k in s.entries {
      assert EntryOk(s.generation, k, s.entries[k], h);
    } else {
      assert k !in h.confirmed.Keys;
    }
  }

  // -- the answers --------------------------------------------------------------------------------------------------

  /**
   A revision at or below the confirmed epoch is durable already; of the others, an older one than the newest
   accepted is stale, one of the same epoch is the same or in conflict by its value, and a newer one is accepted.
   */
  function Wanted(h: History, k: Key, epoch: nat, v: Value): Upserted {
    var confirmed, newest := Confirmed(h, k), Newest(h, k);
    if confirmed.Some? && epoch <= confirmed.value then AlreadyDurable
    else if newest.None? || epoch > newest.value.epoch then Accepted
    else if epoch < newest.value.epoch then StaleEpoch
    else if v == newest.value.value then Same
    else EpochConflict
  }

  lemma UpsertAnswers(generation: nat, ops: seq<Op>, k: Key, epoch: nat, v: Value)
    ensures var (s, h) := Run(generation, ops); Upsert(s, k, epoch, v).1 == Wanted(h, k, epoch, v)
  {
    hide Inv;
    DeskOk(generation, ops);
    var (s, h) := Run(generation, ops);
    EntrySays(s, h, Kept(generation, ops), k);
  }

  /** Under the current generation: busy while something is out, empty if all that was accepted is confirmed. */
  function Asked(h: History, d: Desk, k: Key, generation: nat): Claimed {
    var newest := Newest(h, k);
    if generation != d.generation then ClaimStale(d.generation)
    else if k in d.out then Busy
    else if newest.None? || Confirmed(h, k) == Some(newest.value.epoch) then Empty
    else Handed(Envelope(generation, k, newest.value.epoch, newest.value.value))
  }

  lemma ClaimAnswers(generation: nat, ops: seq<Op>, k: Key, g: nat)
    ensures var (s, h) := Run(generation, ops); Claim(s, k, g).1 == Asked(h, Kept(generation, ops), k, g)
  {
    hide Inv;
    DeskOk(generation, ops);
    var (s, h) := Run(generation, ops);
    EntrySays(s, h, Kept(generation, ops), k);
  }

  /** Exactly the epoch that is out advances the durable one; one at or below the confirmed epoch moves nothing. */
  function Reported(h: History, d: Desk, k: Key, generation: nat, epoch: nat): Acked {
    var confirmed := Confirmed(h, k);
    if generation != d.generation then AckStale(d.generation)
    else if IsOut(d, k, epoch) then Advanced(epoch)
    else if confirmed.Some? && epoch <= confirmed.value then Unmoved(confirmed.value)
    else AckUnknown
  }

  lemma AckAnswers(generation: nat, ops: seq<Op>, k: Key, g: nat, epoch: nat)
    ensures var (s, h) := Run(generation, ops); Ack(s, k, g, epoch).1 == Reported(h, Kept(generation, ops), k, g, epoch)
  {
    hide Inv;
    DeskOk(generation, ops);
    var (s, h) := Run(generation, ops);
    EntrySays(s, h, Kept(generation, ops), k);
  }

  /** Giving up what is out is answered by whether something newer was accepted meanwhile. */
  function Dropped(h: History, d: Desk, k: Key, generation: nat, epoch: nat): Failed {
    if generation != d.generation then FailStale(d.generation)
    else if !IsOut(d, k, epoch) then FailUnknown
    else if Outdated(h, d, k) then Superseded
    else Requeued
  }

  lemma FailAnswers(generation: nat, ops: seq<Op>, k: Key, g: nat, epoch: nat)
    ensures var (s, h) := Run(generation, ops); Fail(s, k, g, epoch).1 == Dropped(h, Kept(generation, ops), k, g, epoch)
  {
    hide Inv;
    DeskOk(generation, ops);
    var (s, h) := Run(generation, ops);
    EntrySays(s, h, Kept(generation, ops), k);
  }

  /** A newer generation counts what was out: what goes out again, and what something newer replaced. */
  function Resumed(h: History, d: Desk, generation: nat): Reconnected {
    if generation < d.generation then ReconnectStale(d.generation)
    else if generation == d.generation then Current(generation)
    else Raised(generation, |OutCurrent(h, d)|, |OutDated(h, d)|)
  }

  lemma ReconnectAnswers(generation: nat, ops: seq<Op>, g: nat)
    ensures var (s, h) := Run(generation, ops); Reconnect(s, g).1 == Resumed(h, Kept(generation, ops), g)
  {
    hide Inv, Agrees, EntryOf;
    DeskOk(generation, ops);
    var ((s, h), d) := (Run(generation, ops), Kept(generation, ops));
    SameGeneration(s, d);
    ListedIn(s, h);
    Requeues(s.entries, s.order);
    Supersedes(s.entries, s.order);
    forall k
      ensures k in OutCurrent(h, d) <==> k in Going(s.entries, s.order, false)
      ensures k in OutDated(h, d) <==> k in Going(s.entries, s.order, true)
    {
      OutSays(s, h, d, k);
    }
    assert OutCurrent(h, d) == Going(s.entries, s.order, false);
    assert OutDated(h, d) == Going(s.entries, s.order, true);
  }

  lemma SameGeneration(s: Core, d: Desk)
    requires Agrees(s, d)
    ensures s.generation == d.generation
  {
  }

  lemma ListedIn(s: Core, h: History)
    requires Inv(s, h)
    ensures forall i, j :: 0 <= i < j < |s.order| ==> s.order[i] != s.order[j]
  {
  }

  /** The keys with something in flight, by whether something newer is desired. */
  function Going(m: map<Key, Entry>, keys: seq<Key>, newer: bool): set<Key> {
    set k | k in keys && k in m && m[k].inflight.Some? && NewerDesired(m[k]) == newer
  }

  lemma OutSays(s: Core, h: History, d: Desk, k: Key)
    requires Inv(s, h) && Agrees(s, d)
    ensures k in OutCurrent(h, d) <==> k in Going(s.entries, s.order, false)
    ensures k in OutDated(h, d) <==> k in Going(s.entries, s.order, true)
  {
    hide Inv;
    EntrySays(s, h, d, k);
    ListedAll(s, h, k);
  }

  lemma ListedAll(s: Core, h: History, k: Key)
    requires Inv(s, h)
    ensures k in s.order <==> k in s.entries
  {
  }

  lemma {:induction false} Requeues(m: map<Key, Entry>, keys: seq<Key>)
    requires forall i, j :: 0 <= i < j < |keys| ==> keys[i] != keys[j]
    ensures CountRequeued(m, keys) == |Going(m, keys, false)|
  {
    if keys != [] {
      Requeues(m, keys[..|keys| - 1]);
      GoingSnoc(m, keys, false);
    }
  }

  lemma {:induction false} Supersedes(m: map<Key, Entry>, keys: seq<Key>)
    requires forall i, j :: 0 <= i < j < |keys| ==> keys[i] != keys[j]
    ensures CountSuperseded(m, keys) == |Going(m, keys, true)|
  {
    if keys != [] {
      Supersedes(m, keys[..|keys| - 1]);
      GoingSnoc(m, keys, true);
    }
  }

  lemma GoingSnoc(m: map<Key, Entry>, keys: seq<Key>, newer: bool)
    requires keys != [] && forall i, j :: 0 <= i < j < |keys| ==> keys[i] != keys[j]
    ensures var k := keys[|keys| - 1];
      |Going(m, keys, newer)| ==
      |Going(m, keys[..|keys| - 1], newer)| + if k in m && m[k].inflight.Some? && NewerDesired(m[k]) == newer then 1 else 0
  {
    var less, k := keys[..|keys| - 1], keys[|keys| - 1];
    assert keys == less + [k] && k !in less;
    var a, b := Going(m, less, newer), Going(m, keys, newer);
    assert b == if k in m && m[k].inflight.Some? && NewerDesired(m[k]) == newer then a + {k} else a;
  }

  // -- the order of a snapshot ------------------------------------------------------------------------------------

  /** The keys in the order in which a revision of theirs was first accepted. */
  function FirstAccepted(generation: nat, ops: seq<Op>): seq<Key> {
    if ops == [] then []
    else
      var (seen, op) := (FirstAccepted(generation, ops[..|ops| - 1]), ops[|ops| - 1]);
      if op.Want? && op.k !in seen && Upsert(Run(generation, ops[..|ops| - 1]).0, op.k, op.epoch, op.v).1.Accepted? then seen + [op.k]
      else seen
  }

  /** A snapshot lists the keys in that order. */
  lemma {:induction false} ListedAsAccepted(generation: nat, ops: seq<Op>)
    ensures Run(generation, ops).0.order == FirstAccepted(generation, ops)
  {
    hide Inv;
    if ops != [] {
      var before := ops[..|ops| - 1];
      ListedAsAccepted(generation, before);
      EveryRun(generation, before);
      var (s, h) := Run(generation, before);
      OrderGrows(s, h, ops[|ops| - 1]);
    }
  }

  lemma OrderGrows(s: Core, h: History, op: Op)
    requires Inv(s, h)
    ensures Next(s, op).order ==
      s.order + if op.Want? && op.k !in s.order && Upsert(s, op.k, op.epoch, op.v).1.Accepted? then [op.k] else []
  {
    hide EntriesOk, HandedOk, ConfirmedOk;
    if op.Want? {
      NotFresh(s, h, op.k, op.epoch, op.v);
    }
  }
}
