/** Whole runs of the sequence: no local write is lost, stamps name one value, merging is a join. */
module SeqProofs {
  import opened Basics
  import opened Clock
  import opened SeqModel

  // -- the join ----------------------------------------------------------------------------------

  /** The same stamp never carries two values. */
  ghost predicate Agree<T>(a: Reg<T>, b: Reg<T>) { a.stamp == b.stamp ==> a == b }

  ghost predicate EntriesAgree(a: Entry, b: Entry) {
    Agree(a.value, b.value) && Agree(a.position, b.position) && Agree(a.deleted, b.deleted)
  }

  ghost predicate Consistent(a: map<Id, Entry>, b: map<Id, Entry>) {
    forall x :: x in a && x in b ==> EntriesAgree(a[x], b[x])
  }

  lemma MergeRegCommutes<T>(a: Reg<T>, b: Reg<T>)
    requires Agree(a, b)
    ensures MergeReg(a, b) == MergeReg(b, a)
  {
    LessTotal(a.stamp, b.stamp);
  }

  lemma MergeRegAssociates<T>(a: Reg<T>, b: Reg<T>, c: Reg<T>)
    ensures MergeReg(MergeReg(a, b), c) == MergeReg(a, MergeReg(b, c))
  {
  }

  /** On states whose stamps agree, merging is commutative, associative and idempotent. */
  lemma JoinCommutes(a: map<Id, Entry>, b: map<Id, Entry>)
    requires Consistent(a, b)
    ensures Join(a, b) == Join(b, a)
  {
    hide Less;
    forall x | x in Join(a, b) ensures Join(a, b)[x] == Join(b, a)[x] {
      if x in a && x in b {
        assert EntriesAgree(a[x], b[x]);
        MergeRegCommutes(a[x].value, b[x].value);
        MergeRegCommutes(a[x].position, b[x].position);
        MergeRegCommutes(a[x].deleted, b[x].deleted);
      }
    }
  }

  lemma JoinAssociates(a: map<Id, Entry>, b: map<Id, Entry>, c: map<Id, Entry>)
    ensures Join(Join(a, b), c) == Join(a, Join(b, c))
  {
    hide Less;
    var l, r := Join(Join(a, b), c), Join(a, Join(b, c));
    forall x | x in l ensures l[x] == r[x] {
      if x in a && x in b && x in c {
        MergeRegAssociates(a[x].value, b[x].value, c[x].value);
        MergeRegAssociates(a[x].position, b[x].position, c[x].position);
        MergeRegAssociates(a[x].deleted, b[x].deleted, c[x].deleted);
      }
    }
  }

  lemma JoinIdempotent(a: map<Id, Entry>)
    ensures Join(a, a) == a
  {
  }

  // -- stamps behind the clock -----------------------------------------------------------------------

  predicate EntryPassed(e: Entry, c: Position) {
    Passed(e.value.stamp, c) && Passed(e.position.stamp, c) && Passed(e.deleted.stamp, c)
  }

  /** A replica's clock has passed everything it holds. */
  ghost predicate AllPassed(entries: map<Id, Entry>, c: Position) { forall x :: x in entries ==> EntryPassed(entries[x], c) }

  lemma PassedLater(s: Stamp, c: Position, d: Position)
    requires Passed(s, c) && PositionLeq(c, d)
    ensures Passed(s, d)
  {
  }

  lemma AllLater(entries: map<Id, Entry>, c: Position, d: Position)
    requires AllPassed(entries, c) && PositionLeq(c, d)
    ensures AllPassed(entries, d)
  {
  }

  lemma PositionTrans(a: Position, b: Position, c: Position)
    requires PositionLeq(a, b) && PositionLeq(b, c)
    ensures PositionLeq(a, c)
  {
  }

  lemma MaxPassed(e: Entry, c: Position)
    requires Passed(MaxStamp(e), c)
    ensures EntryPassed(e, c)
  {
  }

  /** Receiving every newest stamp passes every stamp. */
  lemma {:induction false} HeardPasses(c: Position, entries: map<Id, Entry>, keys: seq<Id>, now: nat)
    ensures var d := Heard(c, entries, keys, now);
      PositionLeq(c, d) && forall x :: x in keys && x in entries ==> EntryPassed(entries[x], d)
    decreases |keys|
  {
    hide Passed, MaxStamp, ReceivedAt, EntryPassed, PositionLeq;
    PositionLeqSelf(c);
    if keys != [] {
      var x, rest := keys[0], keys[1..];
      assert keys == [x] + rest;
      var c1 := if x in entries then ReceivedAt(c, MaxStamp(entries[x]), now) else c;
      HeardPasses(c1, entries, rest, now);
      var d := Heard(c1, entries, rest, now);
      if x in entries {
        ReceiveAdvances(c, MaxStamp(entries[x]), now, MaxStamp(entries[x]));
        PassedLater(MaxStamp(entries[x]), c1, d);
        MaxPassed(entries[x], d);
      }
      PositionTrans(c, c1, d);
    }
  }

  lemma PositionLeqSelf(c: Position)
    ensures PositionLeq(c, c)
  {
  }

  // -- a system of replicas -----------------------------------------------------------------------------

  /** Replicas by peer, and states that were handed out for merging. */
  datatype System = System(replicas: map<Peer, Replica>, snapshots: seq<Replica>)

  datatype Step =
    | Start(peer: Peer)
    | Insert(peer: Peer, x: Id, v: Value, left: Option<Id>, right: Option<Id>, now: nat)
    | Write(peer: Peer, x: Id, v: Value, now: nat)
    | Move(peer: Peer, x: Id, left: Option<Id>, right: Option<Id>, now: nat)
    | Delete(peer: Peer, x: Id, now: nat)
    | Split(peer: Peer, child: Peer)
    | Publish(peer: Peer)
    | Absorb(peer: Peer, snapshot: nat, now: nat)

  predicate Allowed(s: System, step: Step) {
    match step
    case Start(p) => p !in s.replicas
    case Split(p, q) => p in s.replicas && q !in s.replicas
    case Absorb(p, k, _) => p in s.replicas && k < |s.snapshots|
    case _ => step.peer in s.replicas
  }

  function Put(s: System, p: Peer, r: Replica): System { s.(replicas := s.replicas[p := r]) }

  function Take(s: System, step: Step): System
    requires Allowed(s, step)
  {
    match step
    case Start(p) => Put(s, p, NewReplica(p))
    case Insert(p, x, v, l, r, now) => Put(s, p, InsertBetween(s.replicas[p], x, v, l, r, now))
    case Write(p, x, v, now) => Put(s, p, SetValue(s.replicas[p], x, v, now).0)
    case Move(p, x, l, r, now) => Put(s, p, MoveBetween(s.replicas[p], x, l, r, now).0)
    case Delete(p, x, now) => Put(s, p, Remove(s.replicas[p], x, now).0)
    case Split(p, q) => Put(s, q, Fork(s.replicas[p], q))
    case Publish(p) => s.(snapshots := s.snapshots + [s.replicas[p]])
    case Absorb(p, k, now) => Put(s, p, Merge(s.replicas[p], s.snapshots[k], now))
  }

  // -- what every run keeps ---------------------------------------------------------------------------------

  ghost predicate State(s: System, m: map<Id, Entry>) {
    (exists p :: p in s.replicas && s.replicas[p].entries == m) || exists r :: r in s.snapshots && r.entries == m
  }

  /** The clock of the peer a stamp names has passed it. */
  predicate Bounded(s: System, x: Stamp) { x.peer in s.replicas && Passed(x, s.replicas[x.peer].clock) }

  predicate EntryBounded(s: System, e: Entry) {
    Bounded(s, e.value.stamp) && Bounded(s, e.position.stamp) && Bounded(s, e.deleted.stamp)
  }

  ghost predicate AllBounded(s: System, m: map<Id, Entry>) { forall x :: x in m ==> EntryBounded(s, m[x]) }

  ghost predicate KeysOk(r: Replica) { forall x :: x in r.keys <==> x in r.entries }

  ghost predicate ReplicaOk(s: System, p: Peer)
    requires p in s.replicas
  {
    s.replicas[p].peer == p && KeysOk(s.replicas[p]) && AllPassed(s.replicas[p].entries, s.replicas[p].clock)
  }

  ghost predicate Inv(s: System) {
    && (forall p :: p in s.replicas ==> ReplicaOk(s, p))
    && (forall r :: r in s.snapshots ==> KeysOk(r))
    && (forall m :: State(s, m) ==> AllBounded(s, m))
    && (forall m, n :: State(s, m) && State(s, n) ==> Consistent(m, n))
  }

  lemma BoundedLater(s: System, p: Peer, r: Replica, m: map<Id, Entry>)
    requires AllBounded(s, m) && (p in s.replicas ==> PositionLeq(s.replicas[p].clock, r.clock))
    ensures AllBounded(Put(s, p, r), m)
  {
    forall x | x in m ensures EntryBounded(Put(s, p, r), m[x]) {
      assert EntryBounded(s, m[x]);
    }
  }

  /** Replacing or adding one replica. */
  lemma PutOk(s: System, p: Peer, r: Replica)
    requires Inv(s) && (p in s.replicas ==> PositionLeq(s.replicas[p].clock, r.clock))
    requires r.peer == p && KeysOk(r) && AllPassed(r.entries, r.clock) && AllBounded(Put(s, p, r), r.entries)
    requires (forall m :: State(s, m) ==> Consistent(r.entries, m) && Consistent(m, r.entries)) && Consistent(r.entries, r.entries)
    ensures Inv(Put(s, p, r))
  {
    hide AllPassed, AllBounded, Consistent, KeysOk, PositionLeq;
    var t := Put(s, p, r);
    forall q | q in t.replicas ensures ReplicaOk(t, q) {
      if q != p {
        assert ReplicaOk(s, q);
      }
    }
    forall m ensures State(t, m) ==> m == r.entries || State(s, m) {
      if State(t, m) {
        StateOf(s, p, r, m);
      }
    }
    forall m | State(t, m) ensures AllBounded(t, m) {
      if State(s, m) {
        BoundedLater(s, p, r, m);
      }
    }
  }

  lemma StateOf(s: System, p: Peer, r: Replica, m: map<Id, Entry>)
    requires State(Put(s, p, r), m)
    ensures m == r.entries || State(s, m)
  {
    var t := Put(s, p, r);
    if q :| q in t.replicas && t.replicas[q].entries == m && q != p {
      assert q in s.replicas && s.replicas[q].entries == m;
    }
  }

  lemma IsState(s: System, p: Peer)
    requires p in s.replicas
    ensures State(s, s.replicas[p].entries)
  {
  }

  // -- local writes ---------------------------------------------------------------------------------------------

  /** A stamp minted by `p` now is beyond everything in the system. */
  ghost predicate Minted(s: System, p: Peer, x: Stamp) {
    p in s.replicas && x.peer == p && forall y :: Bounded(s, y) && y.peer == p ==> Less(y, x)
  }

  lemma MintIsNew(s: System, p: Peer, now: nat)
    requires p in s.replicas && s.replicas[p].peer == p
    ensures Minted(s, p, Now(Tick(s.replicas[p], now)))
    ensures PositionLeq(s.replicas[p].clock, SentFrom(s.replicas[p].clock, now))
    ensures Passed(Now(Tick(s.replicas[p], now)), SentFrom(s.replicas[p].clock, now))
  {
    var c := s.replicas[p].clock;
    var m := Now(Tick(s.replicas[p], now));
    SendAdvances(c, now, p, m);
    forall y | Bounded(s, y) && y.peer == p ensures Less(y, m) {
      SendAdvances(c, now, p, y);
    }
  }

  lemma MintedAgrees<T>(s: System, p: Peer, a: Reg<T>, b: Reg<T>)
    requires Minted(s, p, a.stamp) && Bounded(s, b.stamp)
    ensures Agree(a, b) && Agree(b, a)
  {
    LessTotal(b.stamp, a.stamp);
  }

  /** An entry with some registers freshly minted and the others as before. */
  ghost predicate Rewritten(s: System, p: Peer, before: map<Id, Entry>, x: Id, e: Entry, m: Stamp) {
    && RegRewritten(if x in before then Some(before[x].value) else None, e.value, m)
    && RegRewritten(if x in before then Some(before[x].position) else None, e.position, m)
    && RegRewritten(if x in before then Some(before[x].deleted) else None, e.deleted, m)
  }

  ghost predicate RegRewritten<T>(was: Option<Reg<T>>, r: Reg<T>, m: Stamp) { was == Some(r) || r.stamp == m }

  lemma RewrittenAgrees(s: System, p: Peer, x: Id, e: Entry, m: Stamp, b: Entry)
    requires Inv(s) && Minted(s, p, m) && Rewritten(s, p, s.replicas[p].entries, x, e, m) && EntryBounded(s, b)
    requires x in s.replicas[p].entries ==> EntriesAgree(s.replicas[p].entries[x], b) && EntriesAgree(b, s.replicas[p].entries[x])
    ensures EntriesAgree(e, b) && EntriesAgree(b, e)
  {
    hide Inv, Bounded, Minted;
    if e.value.stamp == m { MintedAgrees(s, p, e.value, b.value); }
    if e.position.stamp == m { MintedAgrees(s, p, e.position, b.position); }
    if e.deleted.stamp == m { MintedAgrees(s, p, e.deleted, b.deleted); }
  }

  /** One local write: the clock ticks and one entry changes. */
  lemma WriteOk(s: System, p: Peer, x: Id, e: Entry, now: nat, keys: seq<Id>)
    requires Inv(s) && p in s.replicas
    requires var r := s.replicas[p]; Rewritten(s, p, r.entries, x, e, Now(Tick(r, now)))
    requires forall k :: k in keys <==> k in s.replicas[p].entries || k == x
    ensures var r := s.replicas[p];
      Inv(Put(s, p, Tick(r, now).(entries := r.entries[x := e], keys := keys)))
  {
    hide Passed, Less, SentFrom, PositionLeq, EntriesAgree, Minted, Bounded, Rewritten;
    var r := s.replicas[p];
    var m := Now(Tick(r, now));
    var t := Tick(r, now).(entries := r.entries[x := e], keys := keys);
    assert ReplicaOk(s, p);
    MintIsNew(s, p, now);
    IsState(s, p);
    AllLater(r.entries, r.clock, t.clock);
    RewrittenPassed(s, p, x, e, m, t.clock);
    forall n | State(s, n) ensures Consistent(t.entries, n) && Consistent(n, t.entries) {
      forall y | y in t.entries && y in n ensures EntriesAgree(t.entries[y], n[y]) && EntriesAgree(n[y], t.entries[y]) {
        if y == x {
          assert AllBounded(s, n);
          assert x in r.entries ==> Consistent(r.entries, n) && Consistent(n, r.entries);
          RewrittenAgrees(s, p, x, e, m, n[x]);
        } else {
          assert Consistent(r.entries, n) && Consistent(n, r.entries);
        }
      }
    }
    SelfConsistent(t.entries);
    assert AllBounded(s, r.entries);
    BoundedLater(s, p, t, r.entries);
    RewrittenBounded(Put(s, p, t), s, p, x, e, m);
    PutOk(s, p, t);
  }

  lemma SelfConsistent(m: map<Id, Entry>)
    ensures Consistent(m, m)
  {
  }

  lemma RewrittenPassed(s: System, p: Peer, x: Id, e: Entry, m: Stamp, c: Position)
    requires p in s.replicas && Rewritten(s, p, s.replicas[p].entries, x, e, m) && Passed(m, c) && AllPassed(s.replicas[p].entries, c)
    ensures EntryPassed(e, c)
  {
    hide Passed;
  }

  lemma RewrittenBounded(t: System, s: System, p: Peer, x: Id, e: Entry, m: Stamp)
    requires p in s.replicas && Rewritten(s, p, s.replicas[p].entries, x, e, m) && AllBounded(t, s.replicas[p].entries)
    requires m.peer == p && p in t.replicas && Passed(m, t.replicas[p].clock)
    ensures EntryBounded(t, e)
  {
    hide Passed;
  }

  // -- merging and forking -----------------------------------------------------------------------------------------

  lemma JoinConsistent(a: map<Id, Entry>, b: map<Id, Entry>, n: map<Id, Entry>)
    requires Consistent(a, n) && Consistent(b, n) && Consistent(n, a) && Consistent(n, b)
    ensures Consistent(Join(a, b), n) && Consistent(n, Join(a, b))
  {
    hide Less;
    forall x | x in Join(a, b) && x in n ensures EntriesAgree(Join(a, b)[x], n[x]) && EntriesAgree(n[x], Join(a, b)[x]) {
      if x in a { assert EntriesAgree(a[x], n[x]) && EntriesAgree(n[x], a[x]); }
      if x in b { assert EntriesAgree(b[x], n[x]) && EntriesAgree(n[x], b[x]); }
    }
  }

  lemma JoinBounded(s: System, a: map<Id, Entry>, b: map<Id, Entry>)
    requires AllBounded(s, a) && AllBounded(s, b)
    ensures AllBounded(s, Join(a, b))
  {
    hide Less, Bounded;
    forall x | x in Join(a, b) ensures EntryBounded(s, Join(a, b)[x]) {
      assert x in a ==> EntryBounded(s, a[x]);
      assert x in b ==> EntryBounded(s, b[x]);
    }
  }

  lemma JoinPassed(a: map<Id, Entry>, b: map<Id, Entry>, c: Position)
    requires AllPassed(a, c) && AllPassed(b, c)
    ensures AllPassed(Join(a, b), c)
  {
    hide Less, Passed;
    forall x | x in Join(a, b) ensures EntryPassed(Join(a, b)[x], c) {
      assert x in a ==> EntryPassed(a[x], c);
      assert x in b ==> EntryPassed(b[x], c);
    }
  }

  lemma {:induction false} NewKeysAre(entries: map<Id, Entry>, keys: seq<Id>)
    ensures forall x :: x in NewKeys(entries, keys) <==> x in keys && x !in entries
  {
    if keys != [] {
      NewKeysAre(entries, keys[..|keys| - 1]);
      assert keys == keys[..|keys| - 1] + [keys[|keys| - 1]];
    }
  }

  lemma MergeOk(s: System, p: Peer, other: Replica, now: nat)
    requires Inv(s) && p in s.replicas && other in s.snapshots
    ensures Inv(Put(s, p, Merge(s.replicas[p], other, now)))
  {
    hide Passed, PositionLeq, EntryPassed, Heard, Bounded, EntryBounded, EntriesAgree, MergeEntry;
    var r := s.replicas[p];
    var t := Merge(r, other, now);
    assert ReplicaOk(s, p) && KeysOk(other);
    IsState(s, p);
    assert State(s, other.entries);
    HeardPasses(r.clock, other.entries, other.keys, now);
    AllLater(r.entries, r.clock, t.clock);
    JoinPassed(r.entries, other.entries, t.clock);
    NewKeysAre(r.entries, other.keys);
    forall n | State(s, n) ensures Consistent(t.entries, n) && Consistent(n, t.entries) {
      JoinConsistent(r.entries, other.entries, n);
    }
    SelfConsistent(t.entries);
    BoundedLater(s, p, t, r.entries);
    BoundedLater(s, p, t, other.entries);
    JoinBounded(Put(s, p, t), r.entries, other.entries);
    PutOk(s, p, t);
  }

  lemma ForkOk(s: System, p: Peer, q: Peer)
    requires Inv(s) && p in s.replicas && q !in s.replicas
    ensures Inv(Put(s, q, Fork(s.replicas[p], q)))
  {
    hide Passed, AllPassed, AllBounded, Consistent;
    assert ReplicaOk(s, p);
    IsState(s, p);
    BoundedLater(s, q, Fork(s.replicas[p], q), s.replicas[p].entries);
    PutOk(s, q, Fork(s.replicas[p], q));
  }

  lemma PublishOk(s: System, p: Peer)
    requires Inv(s) && p in s.replicas
    ensures Inv(s.(snapshots := s.snapshots + [s.replicas[p]]))
  {
    hide Passed, AllPassed, Consistent, EntryBounded;
    var t := s.(snapshots := s.snapshots + [s.replicas[p]]);
    IsState(s, p);
    assert ReplicaOk(s, p);
    forall q | q in t.replicas ensures ReplicaOk(t, q) {
      assert ReplicaOk(s, q);
    }
    forall m ensures State(t, m) ==> State(s, m) {
    }
    forall m | State(t, m) ensures AllBounded(t, m) {
      assert AllBounded(s, m);
      forall x | x in m ensures EntryBounded(t, m[x]) {
        SameBounds(s, t, m[x]);
      }
    }
  }

  lemma SameBounds(s: System, t: System, e: Entry)
    requires EntryBounded(s, e) && t.replicas == s.replicas
    ensures EntryBounded(t, e)
  {
  }

  lemma StartOk(s: System, p: Peer)
    requires Inv(s) && p !in s.replicas
    ensures Inv(Put(s, p, NewReplica(p)))
  {
    PutOk(s, p, NewReplica(p));
  }

  lemma NewEntryRewrites(s: System, p: Peer, x: Id, e: Entry, m: Stamp)
    requires p in s.replicas && e.value.stamp == m && e.position.stamp == m && e.deleted.stamp == m
    ensures Rewritten(s, p, s.replicas[p].entries, x, e, m)
  {
  }

  lemma LocalOk(s: System, step: Step)
    requires Inv(s) && Allowed(s, step) && (step.Insert? || step.Write? || step.Move? || step.Delete?)
    ensures Inv(Take(s, step))
  {
    hide Inv, SpotBetween, Less, SentFrom;
    var p, now := step.peer, step.now;
    var r := s.replicas[p];
    KeysOf(s, p);
    if step.Insert? {
      if step.x !in r.entries {
        var m := Now(Tick(r, now));
        var e := Entry(Reg(step.v, m), Reg(SpotBetween(r, step.left, step.right), m), Reg(false, m));
        NewEntryRewrites(s, p, step.x, e, m);
        WriteOk(s, p, step.x, e, now, r.keys + [step.x]);
      } else {
        SamePut(s, p);
      }
    } else if step.x in r.entries {
      WriteOk(s, p, step.x, Take(s, step).replicas[p].entries[step.x], now, r.keys);
    } else {
      SamePut(s, p);
    }
  }

  lemma KeysOf(s: System, p: Peer)
    requires Inv(s) && p in s.replicas
    ensures KeysOk(s.replicas[p])
  {
    assert ReplicaOk(s, p);
  }

  lemma SamePut(s: System, p: Peer)
    requires p in s.replicas
    ensures Put(s, p, s.replicas[p]) == s
  {
  }

  lemma StepOk(s: System, step: Step)
    requires Inv(s) && Allowed(s, step)
    ensures Inv(Take(s, step))
  {
    hide Inv, Merge, InsertBetween, SetValue, MoveBetween, Remove;
    match step
    case Start(p) => StartOk(s, p);
    case Split(p, q) => ForkOk(s, p, q);
    case Publish(p) => PublishOk(s, p);
    case Absorb(p, k, now) => MergeOk(s, p, s.snapshots[k], now);
    case _ => LocalOk(s, step);
  }

  lemma EmptyOk()
    ensures Inv(System(map[], []))
  {
  }

  /** The system after a run, or None once a step was not allowed. */
  ghost function Reach(steps: seq<Step>): Option<System>
    decreases |steps|
  {
    if steps == [] then Some(System(map[], []))
    else
      var r := Reach(steps[..|steps| - 1]);
      var step := steps[|steps| - 1];
      if r.Some? && Allowed(r.value, step) then Some(Take(r.value, step)) else None
  }

  lemma {:induction false} ReachOk(steps: seq<Step>)
    ensures match Reach(steps) case None => true case Some(s) => Inv(s)
    decreases |steps|
  {
    hide Inv, Allowed, Take;
    if steps == [] {
      EmptyOk();
    } else {
      var r, step := Reach(steps[..|steps| - 1]), steps[|steps| - 1];
      ReachOk(steps[..|steps| - 1]);
      if r.Some? && Allowed(r.value, step) {
        StepOk(r.value, step);
      }
    }
  }

  // -- results ----------------------------------------------------------------------------------------------------------

  /** A clock that has passed a replica's entries never loses its own write, whatever the wall clock says. */
  lemma WritesTake(r: Replica, x: Id, v: Value, left: Option<Id>, right: Option<Id>, now: nat)
    requires AllPassed(r.entries, r.clock) && x in r.entries
    ensures SetValue(r, x, v, now).1 && SetValue(r, x, v, now).0.entries[x].value.value == v
    ensures MoveBetween(r, x, left, right, now).0.entries[x].position.value == SpotBetween(r, left, right)
    ensures Remove(r, x, now).1 && Remove(r, x, now).0.entries[x].deleted.value
  {
    hide SpotBetween;
    var e := r.entries[x];
    assert EntryPassed(e, r.clock);
    SendAdvances(r.clock, now, r.peer, e.value.stamp);
    SendAdvances(r.clock, now, r.peer, e.position.stamp);
    SendAdvances(r.clock, now, r.peer, e.deleted.stamp);
  }

  /** In every run no local write, move or removal of a present element is dropped. */
  lemma NoLocalWriteIsDropped(steps: seq<Step>, p: Peer, x: Id, v: Value, left: Option<Id>, right: Option<Id>, now: nat)
    ensures match Reach(steps)
      case None => true
      case Some(s) => p in s.replicas && x in s.replicas[p].entries ==>
        var r := s.replicas[p];
        && SetValue(r, x, v, now).1 && SetValue(r, x, v, now).0.entries[x].value.value == v
        && MoveBetween(r, x, left, right, now).0.entries[x].position.value == SpotBetween(r, left, right)
        && Remove(r, x, now).1 && Remove(r, x, now).0.entries[x].deleted.value
  {
    hide SpotBetween, SetValue, MoveBetween, Remove;
    ReachOk(steps);
    var r := Reach(steps);
    if r.Some? && p in r.value.replicas && x in r.value.replicas[p].entries {
      assert ReplicaOk(r.value, p);
      WritesTake(r.value.replicas[p], x, v, left, right, now);
    }
  }

  /** In every run equal stamps on a register mean equal values, at any two replicas. */
  lemma StampsNameValues(steps: seq<Step>, p: Peer, q: Peer)
    ensures match Reach(steps)
      case None => true
      case Some(s) => p in s.replicas && q in s.replicas ==> Consistent(s.replicas[p].entries, s.replicas[q].entries)
  {
    ReachOk(steps);
    var r := Reach(steps);
    if r.Some? && p in r.value.replicas && q in r.value.replicas {
      IsState(r.value, p);
      IsState(r.value, q);
    }
  }

  /** In every run, two replicas that merge each other end with the same registers. */
  lemma MutualMergeAgrees(steps: seq<Step>, p: Peer, q: Peer, now: nat, later: nat)
    ensures match Reach(steps)
      case None => true
      case Some(s) => p in s.replicas && q in s.replicas ==>
        Merge(s.replicas[p], s.replicas[q], now).entries == Merge(s.replicas[q], s.replicas[p], later).entries
  {
    hide Consistent, Join, Heard, NewKeys;
    StampsNameValues(steps, p, q);
    ReachOk(steps);
    var r := Reach(steps);
    if r.Some? && p in r.value.replicas && q in r.value.replicas {
      JoinCommutes(r.value.replicas[p].entries, r.value.replicas[q].entries);
    }
  }
}
