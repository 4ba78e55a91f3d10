/**
 * Latest-value durable delivery: per key, the newest desired revision, the one in flight to the
 * sink under the current generation, and the epoch known durable.
 */
module LatestModel {
  import opened Basics

  type Key(==, !new)
  type Value(==, !new)

  datatype Revision = Revision(epoch: nat, value: Value)
  datatype Envelope = Envelope(generation: nat, key: Key, epoch: nat, value: Value)
  datatype Entry = Entry(desired: Option<Revision>, inflight: Option<Envelope>, durable: Option<nat>)

  /** `order` lists the keys as they were first seen; a snapshot shows generation, order and entries. */
  datatype Core = Core(generation: nat, order: seq<Key>, entries: map<Key, Entry>, version: nat)

  const BLANK := Entry(None, None, None)

  function New(generation: nat): Core { Core(generation, [], map[], 0) }

  datatype Upserted = Accepted | Same | AlreadyDurable | StaleEpoch | EpochConflict
  datatype Claimed = Handed(envelope: Envelope) | Empty | Busy | ClaimStale(current: nat)
  datatype Acked = Advanced(through: nat) | Unmoved(through: nat) | AckUnknown | AckStale(current: nat)
  datatype Failed = Requeued | Superseded | FailUnknown | FailStale(current: nat)
  datatype Reconnected = Raised(generation: nat, requeued: nat, superseded: nat) | Current(generation: nat) | ReconnectStale(current: nat)

  // -- operations ----------------------------------------------------------------------------------------

  function EntryOf(s: Core, k: Key): Entry { if k in s.entries then s.entries[k] else BLANK }

  function WithEntry(s: Core, k: Key, e: Entry): Core {
    s.(order := if k in s.entries then s.order else s.order + [k], entries := s.entries[k := e])
  }

  function Changed(s: Core): Core { s.(version := s.version + 1) }

  /** The revisions still held, desired first. */
  function Retained(e: Entry): seq<Revision> {
    (if e.desired.Some? then [e.desired.value] else []) + if e.inflight.Some? then [Sent(e.inflight.value)] else []
  }

  function Sent(m: Envelope): Revision { Revision(m.epoch, m.value) }

  function Newer(a: int, b: int): int { if a < b then b else a }

  /** The newest retained epoch, or -1. */
  function NewestEpoch(e: Entry): int {
    Newer(if e.desired.Some? then e.desired.value.epoch else -1, if e.inflight.Some? then e.inflight.value.epoch else -1)
  }

  function Upsert(s: Core, k: Key, epoch: nat, v: Value): (Core, Upserted) {
    var e := EntryOf(s, k);
    var seen := WithEntry(s, k, e);
    if e.durable.Some? && epoch <= e.durable.value then (seen, AlreadyDurable)
    else if epoch < NewestEpoch(e) then (seen, StaleEpoch)
    else if epoch == NewestEpoch(e) then
      var current := if e.desired.Some? && e.desired.value.epoch == epoch then e.desired.value.value else e.inflight.value.value;
      (seen, if current == v then Same else EpochConflict)
    else (Changed(WithEntry(s, k, e.(desired := Some(Revision(epoch, v))))), Accepted)
  }

  function Claim(s: Core, k: Key, generation: nat): (Core, Claimed) {
    var e := EntryOf(s, k);
    if generation != s.generation then (s, ClaimStale(s.generation))
    else if e.inflight.Some? then (s, Busy)
    else if e.desired.None? then (s, Empty)
    else
      var m := Envelope(s.generation, k, e.desired.value.epoch, e.desired.value.value);
      (Changed(WithEntry(s, k, Entry(None, Some(m), e.durable))), Handed(m))
  }

  predicate InFlight(e: Entry, epoch: nat) { e.inflight.Some? && e.inflight.value.epoch == epoch }

  function Ack(s: Core, k: Key, generation: nat, epoch: nat): (Core, Acked) {
    var e := EntryOf(s, k);
    if generation != s.generation then (s, AckStale(s.generation))
    else if !InFlight(e, epoch) then
      (s, if e.durable.Some? && epoch <= e.durable.value then Unmoved(e.durable.value) else AckUnknown)
    else if e.durable.None? || epoch > e.durable.value then
      (Changed(WithEntry(s, k, Entry(e.desired, None, Some(epoch)))), Advanced(epoch))
    else (Changed(WithEntry(s, k, Entry(e.desired, None, e.durable))), Unmoved(e.durable.value))
  }

  /** Gives the flight up: a newer desired revision supersedes it, and otherwise it is desired again. */
  function Returned(e: Entry): Entry {
    if e.inflight.None? then e
    else if NewerDesired(e) then e.(inflight := None)
    else Entry(Some(Sent(e.inflight.value)), None, e.durable)
  }

  predicate NewerDesired(e: Entry)
    requires e.inflight.Some?
  {
    e.desired.Some? && e.desired.value.epoch > e.inflight.value.epoch
  }

  function Fail(s: Core, k: Key, generation: nat, epoch: nat): (Core, Failed) {
    var e := EntryOf(s, k);
    if generation != s.generation then (s, FailStale(s.generation))
    else if !InFlight(e, epoch) then (s, FailUnknown)
    else (Changed(WithEntry(s, k, Returned(e))), if NewerDesired(e) then Superseded else Requeued)
  }

  function CountRequeued(m: map<Key, Entry>, keys: seq<Key>): nat {
    if keys == [] then 0
    else
      var k := keys[|keys| - 1];
      CountRequeued(m, keys[..|keys| - 1]) + if k in m && m[k].inflight.Some? && !NewerDesired(m[k]) then 1 else 0
  }

  function CountSuperseded(m: map<Key, Entry>, keys: seq<Key>): nat {
    if keys == [] then 0
    else
      var k := keys[|keys| - 1];
      CountSuperseded(m, keys[..|keys| - 1]) + if k in m && m[k].inflight.Some? && NewerDesired(m[k]) then 1 else 0
  }

  function Reconnect(s: Core, generation: nat): (Core, Reconnected) {
    if generation < s.generation then (s, ReconnectStale(s.generation))
    else if generation == s.generation then (s, Current(generation))
    else
      (Changed(s.(generation := generation, entries := map k | k in s.entries :: Returned(s.entries[k]))),
       Raised(generation, CountRequeued(s.entries, s.order), CountSuperseded(s.entries, s.order)))
  }

  datatype Op =
    | Want(k: Key, epoch: nat, v: Value)
    | Take(k: Key, generation: nat)
    | Confirm(k: Key, generation: nat, epoch: nat)
    | GiveUp(k: Key, generation: nat, epoch: nat)
    | Renew(generation: nat)

  function Next(s: Core, op: Op): Core {
    match op
    case Want(k, epoch, v) => Upsert(s, k, epoch, v).0
    case Take(k, generation) => Claim(s, k, generation).0
    case Confirm(k, generation, epoch) => Ack(s, k, generation, epoch).0
    case GiveUp(k, generation, epoch) => Fail(s, k, generation, epoch).0
    case Renew(generation) => Reconnect(s, generation).0
  }

  // -- what happened so far --------------------------------------------------------------------------------

  /** The revisions accepted per key in order, every envelope handed out, and per key the last one confirmed. */
  datatype History = History(accepted: map<Key, seq<Revision>>, handed: set<Envelope>, confirmed: map<Key, Envelope>)

  const NOTHING := History(map[], {}, map[])

  function AcceptedAt(h: History, k: Key): seq<Revision> { if k in h.accepted then h.accepted[k] else [] }

  /** What each operation adds to the history, from what it reported to its caller. */
  function Record(s: Core, h: History, op: Op): History {
    match op
    case Want(k, epoch, v) =>
      if Upsert(s, k, epoch, v).1.Accepted? then h.(accepted := h.accepted[k := AcceptedAt(h, k) + [Revision(epoch, v)]]) else h
    case Take(k, generation) =>
      var r := Claim(s, k, generation).1;
      if r.Handed? then h.(handed := h.handed + {r.envelope}) else h
    case Confirm(k, generation, epoch) =>
      if Ack(s, k, generation, epoch).1.Advanced? && EntryOf(s, k).inflight.Some?
      then h.(confirmed := h.confirmed[k := EntryOf(s, k).inflight.value]) else h
    case GiveUp(_, _, _) => h
    case Renew(_) => h
  }

  function Run(generation: nat, ops: seq<Op>): (Core, History) {
    if ops == [] then (New(generation), NOTHING)
    else
      var (s, h) := Run(generation, ops[..|ops| - 1]);
      (Next(s, ops[|ops| - 1]), Record(s, h, ops[|ops| - 1]))
  }

  // -- what every run keeps ----------------------------------------------------------------------------------

  /** desired > inflight > durable, where present. */
  ghost predicate Ordered(e: Entry) {
    && (e.desired.Some? && e.inflight.Some? ==> e.desired.value.epoch > e.inflight.value.epoch)
    && (e.inflight.Some? && e.durable.Some? ==> e.inflight.value.epoch > e.durable.value)
    && (e.desired.Some? && e.durable.Some? ==> e.desired.value.epoch > e.durable.value)
  }

  ghost predicate Ascending(a: seq<Revision>) { forall i, j :: 0 <= i < j < |a| ==> a[i].epoch < a[j].epoch }

  /** The newest accepted revision is desired, in flight, or durable; its value is kept until durable. */
  ghost predicate NewestKept(e: Entry, newest: Revision) {
    if e.desired.Some? then e.desired.value == newest
    else if e.inflight.Some? then Sent(e.inflight.value) == newest
    else e.durable == Some(newest.epoch)
  }

  ghost predicate FlightOk(generation: nat, k: Key, e: Entry, h: History) {
    e.inflight.Some? ==> e.inflight.value.generation == generation && e.inflight.value.key == k && e.inflight.value in h.handed
  }

  ghost predicate DurableOk(k: Key, e: Entry, h: History) {
    if e.durable.Some? then k in h.confirmed && h.confirmed[k].epoch == e.durable.value else k !in h.confirmed
  }

  ghost predicate EntryOk(generation: nat, k: Key, e: Entry, h: History) {
    && k in h.accepted && h.accepted[k] != [] && Ascending(h.accepted[k])
    && Ordered(e) && FlightOk(generation, k, e, h) && DurableOk(k, e, h) && NewestKept(e, h.accepted[k][|h.accepted[k]| - 1])
  }

  ghost predicate EnvelopeOk(generation: nat, m: Envelope, h: History) {
    m.generation <= generation && m.key in h.accepted && Revision(m.epoch, m.value) in h.accepted[m.key]
  }

  ghost predicate EntriesOk(s: Core, h: History) { forall k :: k in s.entries ==> EntryOk(s.generation, k, s.entries[k], h) }
  ghost predicate HandedOk(s: Core, h: History) { forall m :: m in h.handed ==> EnvelopeOk(s.generation, m, h) }
  ghost predicate ConfirmedOk(h: History) { forall k :: k in h.confirmed ==> h.confirmed[k].key == k && h.confirmed[k] in h.handed }
  ghost predicate Listed(s: Core) {
    && (forall k :: k in s.order <==> k in s.entries)
    && (forall i, j :: 0 <= i < j < |s.order| ==> s.order[i] != s.order[j])
  }

  ghost predicate Inv(s: Core, h: History) {
    && s.entries.Keys == h.accepted.Keys && h.confirmed.Keys <= s.entries.Keys
    && Listed(s) && EntriesOk(s, h) && HandedOk(s, h) && ConfirmedOk(h)
  }

  /** The history of every other key is unchanged, and this key's only grew. */
  ghost predicate OthersSame(h: History, h1: History, k: Key) {
    && h1.accepted.Keys == h.accepted.Keys + {k}
    && (forall x :: x in h.accepted && x != k ==> h1.accepted[x] == h.accepted[x])
    && (forall x :: x != k ==> (x in h1.confirmed <==> x in h.confirmed))
    && (forall x :: x in h.confirmed && x != k && x in h1.confirmed ==> h1.confirmed[x] == h.confirmed[x])
    && (forall r :: r in AcceptedAt(h, k) ==> r in AcceptedAt(h1, k))
    && (k in h1.confirmed ==> h1.confirmed[k].key == k && h1.confirmed[k] in h1.handed)
  }

  ghost predicate HandsOnly(s: Core, h: History, h1: History) {
    h.handed <= h1.handed && forall m :: m in h1.handed && m !in h.handed ==> EnvelopeOk(s.generation, m, h1)
  }

  /** With every other entry and the history of every other key unchanged, only one entry needs checking. */
  lemma OneEntry(s: Core, h: History, k: Key, e: Entry, h1: History)
    requires Inv(s, h) && EntryOk(s.generation, k, e, h1) && OthersSame(h, h1, k) && HandsOnly(s, h, h1)
    ensures Inv(Changed(WithEntry(s, k, e)), h1)
  {
    hide EntryOk, EnvelopeOk;
    var t := Changed(WithEntry(s, k, e));
    forall x | x in t.entries ensures EntryOk(t.generation, x, t.entries[x], h1) {
      if x != k {
        assert x in h.accepted.Keys;
        EntrySame(s.generation, x, s.entries[x], h, h1, k);
      }
    }
    forall m | m in h1.handed ensures EnvelopeOk(t.generation, m, h1) {
      if m in h.handed {
        EnvelopeSame(s.generation, m, h, h1, k);
      }
    }
    ListedStill(s, k, e);
    OneEntryKeys(s, h, k, e, h1);
  }

  lemma OneEntryKeys(s: Core, h: History, k: Key, e: Entry, h1: History)
    requires s.entries.Keys == h.accepted.Keys && h.confirmed.Keys <= s.entries.Keys && ConfirmedOk(h)
    requires OthersSame(h, h1, k) && h.handed <= h1.handed
    ensures var t := WithEntry(s, k, e);
            t.entries.Keys == h1.accepted.Keys && h1.confirmed.Keys <= t.entries.Keys && ConfirmedOk(h1)
  {
    hide Listed, EntryOk;
    forall x | x in h1.confirmed ensures x in WithEntry(s, k, e).entries && h1.confirmed[x].key == x && h1.confirmed[x] in h1.handed {
      if x != k {
        assert x in h.confirmed && x in h.confirmed.Keys;
      }
    }
  }

  lemma EntrySame(generation: nat, x: Key, e: Entry, h: History, h1: History, k: Key)
    requires EntryOk(generation, x, e, h) && x != k && OthersSame(h, h1, k) && h.handed <= h1.handed
    ensures EntryOk(generation, x, e, h1)
  {
    assert x in h.accepted.Keys + {k};
    assert x in h1.accepted;
  }

  lemma EnvelopeSame(generation: nat, m: Envelope, h: History, h1: History, k: Key)
    requires EnvelopeOk(generation, m, h) && OthersSame(h, h1, k)
    ensures EnvelopeOk(generation, m, h1)
  {
    assert m.key in h.accepted.Keys + {k};
    assert m.key in h1.accepted;
    assert h.accepted[m.key] == AcceptedAt(h, m.key);
  }

  lemma ListedStill(s: Core, k: Key, e: Entry)
    requires Listed(s)
    ensures Listed(WithEntry(s, k, e))
  {
    var t := WithEntry(s, k, e);
    forall x ensures x in t.order <==> x in t.entries {
      assert x in s.order <==> x in s.entries;
    }
  }

  lemma EntryAt(s: Core, h: History, k: Key)
    requires Inv(s, h) && k in s.entries
    ensures EntryOk(s.generation, k, s.entries[k], h)
  {
  }

  lemma UpsertOk(s: Core, h: History, k: Key, epoch: nat, v: Value)
    requires Inv(s, h)
    ensures Inv(Next(s, Want(k, epoch, v)), Record(s, h, Want(k, epoch, v)))
  {
    hide EntryOk;
    var e, r := EntryOf(s, k), Upsert(s, k, epoch, v);
    if r.1.Accepted? {
      AcceptedEntry(s, h, k, epoch, v);
      OneEntry(s, h, k, e.(desired := Some(Revision(epoch, v))), h.(accepted := h.accepted[k := AcceptedAt(h, k) + [Revision(epoch, v)]]));
    } else {
      NotFresh(s, h, k, epoch, v);
      assert s.entries[k := e] == s.entries;
    }
  }

  lemma NotFresh(s: Core, h: History, k: Key, epoch: nat, v: Value)
    ensures !Upsert(s, k, epoch, v).1.Accepted? ==> k in s.entries
  {
  }

  lemma AcceptedEntry(s: Core, h: History, k: Key, epoch: nat, v: Value)
    requires Inv(s, h) && Upsert(s, k, epoch, v).1.Accepted?
    ensures EntryOk(s.generation, k, EntryOf(s, k).(desired := Some(Revision(epoch, v))),
                    h.(accepted := h.accepted[k := AcceptedAt(h, k) + [Revision(epoch, v)]]))
  {
    NewerThanAll(s, h, k, epoch);
    if k in s.entries {
      EntryAt(s, h, k);
    } else {
      assert k !in h.confirmed.Keys;
      assert k !in h.accepted.Keys;
    }
  }

  /** An accepted epoch is newer than every epoch accepted before for its key. */
  lemma NewerThanAll(s: Core, h: History, k: Key, epoch: nat)
    requires Inv(s, h)
    requires var e := EntryOf(s, k); (e.durable.None? || epoch > e.durable.value) && epoch > NewestEpoch(e)
    ensures forall i :: 0 <= i < |AcceptedAt(h, k)| ==> AcceptedAt(h, k)[i].epoch < epoch
  {
    var a := AcceptedAt(h, k);
    if k in s.entries {
      assert EntryOk(s.generation, k, s.entries[k], h);
      forall i | 0 <= i < |a| ensures a[i].epoch < epoch {
        assert a[i].epoch <= a[|a| - 1].epoch;
      }
    }
  }

  lemma ClaimOk(s: Core, h: History, k: Key, generation: nat)
    requires Inv(s, h)
    ensures Inv(Next(s, Take(k, generation)), Record(s, h, Take(k, generation)))
  {
    hide Inv;
    var e, r := EntryOf(s, k), Claim(s, k, generation).1;
    if r.Handed? {
      EntryAt(s, h, k);
      var h1 := h.(handed := h.handed + {r.envelope});
      assert EntryOk(s.generation, k, Entry(None, Some(r.envelope), e.durable), h1);
      assert HandsOnly(s, h, h1) by {
        var a := h.accepted[k];
        assert a[|a| - 1] in a;
      }
      SameHistory(s, h, h1, k);
      OneEntry(s, h, k, Entry(None, Some(r.envelope), e.durable), h1);
    }
  }

  lemma SameHistory(s: Core, h: History, h1: History, k: Key)
    requires Inv(s, h) && k in s.entries && h1.accepted == h.accepted && h1.confirmed == h.confirmed && h.handed <= h1.handed
    ensures OthersSame(h, h1, k)
  {
    hide EntryOk, Listed, HandedOk;
    assert k in s.entries.Keys;
  }

  lemma AckOk(s: Core, h: History, k: Key, generation: nat, epoch: nat)
    requires Inv(s, h)
    ensures Inv(Next(s, Confirm(k, generation, epoch)), Record(s, h, Confirm(k, generation, epoch)))
  {
    hide Inv;
    var e := EntryOf(s, k);
    if generation == s.generation && InFlight(e, epoch) {
      EntryAt(s, h, k);
      var h1 := h.(confirmed := h.confirmed[k := e.inflight.value]);
      assert EntryOk(s.generation, k, Entry(e.desired, None, Some(epoch)), h1);
      assert OthersSame(h, h1, k) by {
        assert h.accepted.Keys == h.accepted.Keys + {k};
      }
      OneEntry(s, h, k, Entry(e.desired, None, Some(epoch)), h1);
    }
  }

  lemma FailOk(s: Core, h: History, k: Key, generation: nat, epoch: nat)
    requires Inv(s, h)
    ensures Inv(Next(s, GiveUp(k, generation, epoch)), Record(s, h, GiveUp(k, generation, epoch)))
  {
    var e := EntryOf(s, k);
    if generation == s.generation && InFlight(e, epoch) {
      assert EntryOk(s.generation, k, e, h);
      OneEntry(s, h, k, Returned(e), h);
    }
  }

  lemma ReconnectOk(s: Core, h: History, generation: nat)
    requires Inv(s, h)
    ensures Inv(Next(s, Renew(generation)), h)
  {
    var t := Next(s, Renew(generation));
    if generation > s.generation {
      forall k | k in t.entries ensures EntryOk(t.generation, k, t.entries[k], h) {
        assert EntryOk(s.generation, k, s.entries[k], h);
      }
      forall m | m in h.handed ensures EnvelopeOk(t.generation, m, h) {
        assert EnvelopeOk(s.generation, m, h);
      }
      assert t.entries.Keys == s.entries.Keys;
    }
  }

  lemma StepOk(s: Core, h: History, op: Op)
    requires Inv(s, h)
    ensures Inv(Next(s, op), Record(s, h, op))
  {
    hide Inv;
    match op
    case Want(k, epoch, v) => UpsertOk(s, h, k, epoch, v);
    case Take(k, generation) => ClaimOk(s, h, k, generation);
    case Confirm(k, generation, epoch) => AckOk(s, h, k, generation, epoch);
    case GiveUp(k, generation, epoch) => FailOk(s, h, k, generation, epoch);
    case Renew(generation) => ReconnectOk(s, h, generation);
  }

  lemma {:induction false} EveryRun(generation: nat, ops: seq<Op>)
    ensures Inv(Run(generation, ops).0, Run(generation, ops).1)
  {
    if ops != [] {
      EveryRun(generation, ops[..|ops| - 1]);
      var (s, h) := Run(generation, ops[..|ops| - 1]);
      StepOk(s, h, ops[|ops| - 1]);
    }
  }

  // -- what a caller sees ------------------------------------------------------------------------------------------

  /** In every run the newest accepted revision of a key is desired, in flight, or durable, and the three epochs are ordered. */
  lemma NewestIntentSurvives(generation: nat, ops: seq<Op>, k: Key)
    ensures var (s, h) := Run(generation, ops);
            && (k in s.entries <==> k in h.accepted)
            && (k in h.accepted ==>
                  && h.accepted[k] != [] && Ascending(h.accepted[k]) && Ordered(s.entries[k])
                  && NewestKept(s.entries[k], h.accepted[k][|h.accepted[k]| - 1])
                  && FlightOk(s.generation, k, s.entries[k], h))
  {
    EveryRun(generation, ops);
    var (s, h) := Run(generation, ops);
    if k in s.entries {
      assert EntryOk(s.generation, k, s.entries[k], h);
    }
    assert k in s.entries.Keys <==> k in h.accepted.Keys;
  }

  /** A claim always hands out the newest accepted revision, so a sink never sees an older one later. */
  lemma ClaimHandsNewest(generation: nat, ops: seq<Op>, k: Key, g: nat)
    ensures var (s, h) := Run(generation, ops);
            var r := Claim(s, k, g).1;
            r.Handed? ==>
              && g == s.generation && AcceptedAt(h, k) != []
              && r.envelope == var a := AcceptedAt(h, k)[|AcceptedAt(h, k)| - 1]; Envelope(g, k, a.epoch, a.value)
  {
    EveryRun(generation, ops);
    var (s, h) := Run(generation, ops);
    if k in s.entries {
      assert EntryOk(s.generation, k, s.entries[k], h);
    }
  }

  function DurableOf(s: Core, k: Key): Option<nat> { EntryOf(s, k).durable }

  /** The durable epoch moves only forward, and only when the current generation confirms what it was handed. */
  lemma DurableOnlyByCurrentClaim(generation: nat, ops: seq<Op>, op: Op, k: Key)
    ensures var (s, h) := Run(generation, ops);
            var was, now := DurableOf(s, k), DurableOf(Next(s, op), k);
            now != was ==>
              && op.Confirm? && op.k == k && op.generation == s.generation && now == Some(op.epoch)
              && (was.None? || was.value < op.epoch)
              && EntryOf(s, k).inflight.Some? && EntryOf(s, k).inflight.value in h.handed
              && EntryOf(s, k).inflight.value.generation == s.generation && EntryOf(s, k).inflight.value.epoch == op.epoch
  {
    hide Inv;
    EveryRun(generation, ops);
    var (s, h) := Run(generation, ops);
    if k in s.entries {
      EntryAt(s, h, k);
    }
  }

  /** Along any run, a durable epoch once reached is never lost or lowered. */
  lemma {:induction false} DurableNeverFallsBack(generation: nat, ops: seq<Op>, more: seq<Op>, k: Key)
    ensures var was, now := DurableOf(Run(generation, ops).0, k), DurableOf(Run(generation, ops + more).0, k);
            was.Some? ==> now.Some? && was.value <= now.value
  {
    if more == [] {
      assert ops + more == ops;
    } else {
      var less := more[..|more| - 1];
      DurableNeverFallsBack(generation, ops, less, k);
      assert (ops + more)[..|ops + more| - 1] == ops + less;
      DurableOnlyByCurrentClaim(generation, ops + less, more[|more| - 1], k);
    }
  }

  /** The version counts snapshot changes: it moves, by one, exactly when the snapshot does. */
  lemma VersionCountsChanges(s: Core, op: Op)
    ensures var t := Next(s, op);
            var same := t.generation == s.generation && t.order == s.order && t.entries == s.entries;
            t.version == s.version + if same then 0 else 1
  {
    if !op.Renew? {
      var t, e := Next(s, op), EntryOf(s, op.k);
      assert op.k in s.entries ==> s.entries[op.k := e] == s.entries;
      assert s.entries == t.entries ==> EntryOf(t, op.k) == e;
    }
  }

  /** Messages of an earlier generation change nothing. */
  lemma StaleGenerationIgnored(s: Core, op: Op)
    requires !op.Want? && op.generation < s.generation
    ensures Next(s, op) == s
  {
  }

  /** After a reconnect nothing is in flight, and every newest revision not yet durable can be claimed at once. */
  lemma ReconnectResends(generation: nat, ops: seq<Op>, g: nat, k: Key)
    requires g > Run(generation, ops).0.generation
    ensures var (s, h) := Run(generation, ops);
            var t := Reconnect(s, g).0;
            && EntryOf(t, k).inflight.None?
            && (k in h.accepted && h.accepted[k] != [] ==>
                  var a := h.accepted[k][|h.accepted[k]| - 1];
                  if DurableOf(s, k) == Some(a.epoch) then Claim(t, k, g).1 == Empty
                  else Claim(t, k, g).1 == Handed(Envelope(g, k, a.epoch, a.value)))
  {
    EveryRun(generation, ops);
    var (s, h) := Run(generation, ops);
    if k in s.entries {
      assert EntryOk(s.generation, k, s.entries[k], h);
    }
    assert k in s.entries.Keys <==> k in h.accepted.Keys;
  }

  /** The keys with a revision in flight. */
  function Flying(m: map<Key, Entry>, keys: seq<Key>): set<Key> { set k | k in keys && k in m && m[k].inflight.Some? }

  lemma PutTwice(s: Core, k: Key, e: Entry, f: Entry)
    ensures WithEntry(WithEntry(s, k, e), k, f) == WithEntry(s, k, f)
  {
  }

  /** The entries of `now` are those of `before`, returned for the keys already walked. */
  ghost predicate ReturnedFor(before: map<Key, Entry>, now: map<Key, Entry>, walked: seq<Key>) {
    && now.Keys == before.Keys
    && forall k :: k in before && k in now ==> now[k] == if k in walked then Returned(before[k]) else before[k]
  }

  lemma WalkOne(before: map<Key, Entry>, now: map<Key, Entry>, walked: seq<Key>, k: Key)
    requires ReturnedFor(before, now, walked) && k in before && k !in walked
    ensures k in now && now[k] == before[k] && ReturnedFor(before, now[k := Returned(now[k])], walked + [k])
    ensures now[k].inflight.None? ==> now[k := Returned(now[k])] == now
  {
    assert k in now.Keys;
  }

  lemma WalkCounts(m: map<Key, Entry>, order: seq<Key>, i: nat)
    requires i < |order| && order[i] in m
    ensures order[..i + 1] == order[..i] + [order[i]]
    ensures CountRequeued(m, order[..i + 1]) == CountRequeued(m, order[..i]) + if m[order[i]].inflight.Some? && !NewerDesired(m[order[i]]) then 1 else 0
    ensures CountSuperseded(m, order[..i + 1]) == CountSuperseded(m, order[..i]) + if m[order[i]].inflight.Some? && NewerDesired(m[order[i]]) then 1 else 0
  {
    assert order[..i + 1][..i] == order[..i];
  }

  lemma ListedAt(s: Core, i: nat)
    requires Listed(s) && i < |s.order|
    ensures s.order[i] in s.entries && s.order[i] !in s.order[..i]
  {
  }

  lemma ReturnedListed(s: Core, t: Core)
    requires Listed(s) && t.order == s.order && ReturnedFor(s.entries, t.entries, s.order)
    ensures Listed(t)
  {
    assert forall k :: k in t.entries <==> k in t.entries.Keys;
  }

  lemma NoneWalked(m: map<Key, Entry>)
    ensures ReturnedFor(m, m, []) && CountRequeued(m, []) == 0 == CountSuperseded(m, [])
  {
  }

  lemma WalkedAll(s: Core, now: map<Key, Entry>)
    requires Listed(s) && ReturnedFor(s.entries, now, s.order)
    ensures now == map k | k in s.entries :: Returned(s.entries[k])
  {
    assert forall k :: k in now <==> k in now.Keys;
  }

  /** The two counts a reconnect reports cover exactly the entries that were in flight. */
  lemma {:induction false} CountsCoverFlights(m: map<Key, Entry>, keys: seq<Key>)
    requires forall i, j :: 0 <= i < j < |keys| ==> keys[i] != keys[j]
    ensures CountRequeued(m, keys) + CountSuperseded(m, keys) == |Flying(m, keys)|
  {
    if keys != [] {
      var less, last := keys[..|keys| - 1], keys[|keys| - 1];
      CountsCoverFlights(m, less);
      FlyingSnoc(m, less, last);
      assert keys == less + [last];
    }
  }

  lemma FlyingSnoc(m: map<Key, Entry>, less: seq<Key>, last: Key)
    requires last !in less
    ensures |Flying(m, less + [last])| == |Flying(m, less)| + if last in m && m[last].inflight.Some? then 1 else 0
  {
    var a, b := Flying(m, less), Flying(m, less + [last]);
    assert b == if last in m && m[last].inflight.Some? then a + {last} else a;
  }
}
