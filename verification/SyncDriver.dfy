/** The store, the outbox and the driver changed in place, one pass at a time. */
module SyncDriver {
  import opened Basics
  import Resync
  import opened SyncModel

  // -- one ascending listing ----------------------------------------------------------------------

  lemma {:induction false} AscendingUnique(a: seq<(nat, Body)>, b: seq<(nat, Body)>)
    requires Ascending(a) && Ascending(b) && forall p :: p in a <==> p in b
    ensures a == b
    decreases |a|
  {
    if a == [] {
      Headless(b);
    } else {
      assert a[0] in b;
      SameHead(a, b);
      SameTails(a, b);
      AscendingUnique(a[1..], b[1..]);
      assert a == [a[0]] + a[1..] && b == [b[0]] + b[1..];
    }
  }

  lemma Headless(b: seq<(nat, Body)>)
    ensures b != [] ==> b[0] in b
  {
  }

  lemma SameHead(a: seq<(nat, Body)>, b: seq<(nat, Body)>)
    requires a != [] && b != [] && Ascending(a) && Ascending(b) && a[0] in b && b[0] in a
    ensures a[0] == b[0]
  {
    var i :| 0 <= i < |b| && b[i] == a[0];
    var j :| 0 <= j < |a| && a[j] == b[0];
  }

  lemma TailIs(a: seq<(nat, Body)>)
    requires a != [] && Ascending(a)
    ensures Ascending(a[1..]) && forall p :: p in a[1..] <==> p in a && p != a[0]
  {
    forall p | p in a[1..] ensures p != a[0] {
      var i :| 0 <= i < |a[1..]| && a[1..][i] == p;
      assert a[0].0 < a[i + 1].0;
    }
  }

  lemma SameTails(a: seq<(nat, Body)>, b: seq<(nat, Body)>)
    requires a != [] && b != [] && a[0] == b[0] && Ascending(a) && Ascending(b) && forall p :: p in a <==> p in b
    ensures Ascending(a[1..]) && Ascending(b[1..]) && forall p :: p in a[1..] <==> p in b[1..]
  {
    TailIs(a);
    TailIs(b);
  }

  /** The listing so far: every key past the cursor that is not in `rest`, all below those in it. */
  ghost predicate Listing(entries: map<nat, Body>, cursor: nat, rest: set<nat>, out: seq<(nat, Body)>) {
    && (forall e :: e in rest ==> e in entries && e > cursor)
    && (forall p :: p in out <==> p.0 in entries && p.0 > cursor && p.0 !in rest && entries[p.0] == p.1)
    && Ascending(out) && (forall p, e :: p in out && e in rest ==> p.0 < e)
  }

  lemma ListNext(entries: map<nat, Body>, cursor: nat, rest: set<nat>, out: seq<(nat, Body)>, e: nat)
    requires Listing(entries, cursor, rest, out) && e in rest && forall q :: q in rest ==> e <= q
    ensures e in entries && Listing(entries, cursor, rest - {e}, out + [(e, entries[e])])
  {
    var more := out + [(e, entries[e])];
    assert forall p :: p in more <==> p in out || p == (e, entries[e]);
    assert Ascending(more) by {
      forall i | 0 <= i < |out| ensures out[i].0 < e {
        assert out[i] in out;
      }
    }
  }

  lemma ListDone(s: Store, cursor: nat, out: seq<(nat, Body)>)
    requires Listing(s.entries, cursor, {}, out)
    ensures out == ScanAfter(s, cursor)
  {
    hide ScanAfter;
    ScanIs(s, cursor);
    AscendingUnique(out, ScanAfter(s, cursor));
  }

  class InMemoryStore {
    var entries: map<nat, Body>
    var cursor: nat

    ghost function Value(): Store
      reads this
    {
      Store(entries, cursor)
    }

    constructor ()
      ensures Value() == Store(map[], 0)
    {
      entries, cursor := map[], 0;
    }

    method Put(epoch: nat, body: Body)
      modifies this
      ensures Value() == SyncModel.Put(old(Value()), epoch, body)
    {
      entries := entries[epoch := body];
    }

    method DeleteThrough(epoch: nat)
      modifies this
      ensures Value() == SyncModel.DeleteThrough(old(Value()), epoch)
    {
      ghost var was := entries;
      var keys := entries.Keys;
      while keys != {}
        invariant keys <= was.Keys && cursor == old(cursor)
        invariant forall e :: e in entries <==> e in was && (e > epoch || e in keys)
        invariant forall e :: e in entries ==> entries[e] == was[e]
        decreases |keys|
      {
        var key :| key in keys;
        if key <= epoch {
          entries := entries - {key};
        }
        keys := keys - {key};
      }
    }

    /** The entries past the cursor, oldest first. */
    method ScanAfter(after: nat) returns (out: seq<(nat, Body)>)
      ensures out == SyncModel.ScanAfter(Value(), after)
    {
      hide Listing;
      out := [];
      var rest: set<nat> := set e: nat | e in entries && e > after;
      Listed(Value(), after, rest);
      while rest != {}
        invariant Listing(entries, after, rest, out)
        decreases |rest|
      {
        ghost var least := LeastOf(rest);
        var e :| e in rest && forall q :: q in rest ==> e <= q;
        ListNext(entries, after, rest, out, e);
        out := out + [(e, entries[e])];
        rest := rest - {e};
      }
      ListDone(Value(), after, out);
    }

    method SaveCursor(epoch: nat)
      modifies this`cursor
      ensures cursor == Max(old(cursor), epoch)
    {
      cursor := if cursor < epoch then epoch else cursor;
    }
  }

  lemma Listed(s: Store, after: nat, rest: set<nat>)
    requires rest == set e | e in s.entries && e > after
    ensures Listing(s.entries, after, rest, [])
  {
  }

  class Outbox {
    const store: InMemoryStore
    var ackedThrough: nat

    constructor ()
      ensures fresh(store) && store.Value() == Store(map[], 0) && ackedThrough == 0
    {
      store := new InMemoryStore();
      ackedThrough := 0;
    }

    method Append(epoch: nat, body: Body)
      modifies store
      ensures store.Value() == Put(old(store.Value()), epoch, body)
    {
      store.Put(epoch, body);
    }

    method AckThrough(epoch: nat)
      modifies this, store
      ensures if epoch <= old(ackedThrough) then store.Value() == old(store.Value()) && ackedThrough == old(ackedThrough)
        else var cursor := Max(old(store.cursor), epoch);
          var target := Max(Max(old(ackedThrough), epoch), cursor);
          ackedThrough == target && store.Value() == DeleteThrough(old(store.Value()).(cursor := cursor), target)
    {
      if epoch <= ackedThrough {
        return;
      }
      store.SaveCursor(epoch);
      var target := Max(Max(ackedThrough, epoch), store.cursor);
      store.DeleteThrough(target);
      ackedThrough := target;
    }

    method ReplayFrom(cursor: nat) returns (frames: seq<(nat, Body)>)
      ensures frames == ScanAfter(store.Value(), Max(cursor, ackedThrough))
    {
      frames := store.ScanAfter(Max(cursor, ackedThrough));
    }
  }

  lemma Rejoin(a: seq<Inbound>, b: seq<Inbound>, c: seq<Inbound>)
    ensures a + (b + c) == (a + b) + c
    ensures a + [] == a
  {
  }

  class SyncDriver {
    const sink: Sink
    const outbox: Outbox
    const coordinator: Resync.ResyncCoordinator
    var pending: seq<(nat, Body)>
    var peerAckedThrough: nat
    var ackOwed: bool
    var replayPending: bool
    var stalledSince: Option<nat>
    var tries: nat
    var sent: seq<Msg>

    ghost function Value(): Driver
      reads this, outbox, outbox.store, coordinator
    {
      Driver(outbox.store.Value(), outbox.ackedThrough, pending, peerAckedThrough, ackOwed, replayPending, stalledSince,
             coordinator.Value(), tries, sent)
    }

    constructor (s: Sink)
      ensures sink == s && Value() == IDLE && fresh(outbox) && fresh(outbox.store) && fresh(coordinator)
    {
      sink := s;
      outbox := new Outbox();
      coordinator := new Resync.ResyncCoordinator(0);
      pending, peerAckedThrough, ackOwed, replayPending, stalledSince, tries, sent := [], 0, false, false, None, 0, [];
    }

    method Enqueue(epoch: nat, body: Body)
      modifies this
      ensures Value() == Next(old(Value()), sink, Step.Enqueue(epoch, body))
    {
      pending := pending + [(epoch, body)];
    }

    method Reconnected()
      modifies this
      ensures Value() == OnReconnect(old(Value()))
    {
      replayPending, ackOwed, stalledSince := true, true, None;
    }

    method TrySend(m: Msg) returns (ok: bool)
      modifies this`tries, this`sent
      ensures (Value(), ok) == SyncModel.TrySend(old(Value()), sink, m)
    {
      ok := sink(tries);
      if ok {
        sent := sent + [m];
      }
      tries := tries + 1;
    }

    /**
     One pass: replay what is owed, drain, handle what came in, advertise the cursor. A failing read breaks it
     off: None stands for the error the host sees.
     */
    method Tick(inbox: seq<Inbound>, broken: bool, now: nat) returns (progress: Option<seq<Inbound>>)
      modifies this, outbox, outbox.store, coordinator
      ensures Value() == SyncModel.Tick(old(Value()), sink, inbox, broken, now)
      ensures progress == Progress(old(Value()), inbox, broken)
    {
      hide SyncModel.Reconnect, SyncModel.Drain, SyncModel.Handle, SyncModel.TrySend, SyncModel.Applied;
      ReconnectSame(Value(), sink, now);
      Replay(now);
      DrainAdds(Value(), sink, now);
      DrainPending(now);
      var applied := Receive(inbox, now);
      if broken {
        return None;
      }
      if ackOwed {
        var ok := TrySend(Ack(coordinator.lastEpoch));
        if ok {
          ackOwed := false;
        }
      }
      progress := Some(applied);
    }

    method Replay(now: nat)
      modifies this
      ensures Value() == Reconnect(old(Value()), sink, now)
    {
      hide SyncModel.TrySend, ScanAfter;
      if !replayPending {
        return;
      }
      replayPending := false;
      var frames := outbox.ReplayFrom(peerAckedThrough);
      ghost var start := Value();
      var i := 0;
      assert frames[0..] == frames;
      while i < |frames|
        invariant i <= |frames| && SyncModel.Replay(start, sink, frames, now) == SyncModel.Replay(Value(), sink, frames[i..], now)
      {
        ghost var rest := frames[i..];
        assert rest[0] == frames[i] && rest[1..] == frames[i + 1..];
        var ok := TrySend(Data(frames[i].0, frames[i].1));
        if !ok {
          stalledSince := Some(now);
          replayPending := true;
          return;
        }
        i := i + 1;
      }
      assert frames[|frames|..] == [];
    }

    method DrainPending(now: nat)
      modifies this, outbox.store
      ensures Value() == Drain(old(Value()), sink, now)
    {
      hide SyncModel.TrySend;
      ghost var start := Value();
      while stalledSince.None? && pending != []
        invariant Drain(start, sink, now) == Drain(Value(), sink, now)
        decreases |pending|, stalledSince.None?
      {
        var (epoch, body) := pending[0];
        ghost var before := Value();
        outbox.Append(epoch, body);
        pending := pending[1..];
        assert Value() == before.(store := Put(before.store, epoch, body), pending := before.pending[1..]);
        var ok := TrySend(Data(epoch, body));
        if !ok {
          stalledSince := Some(now);
          return;
        }
      }
    }

    /** Handle what came in, in order, and list what has to be folded. */
    method Receive(inbox: seq<Inbound>, now: nat) returns (applied: seq<Inbound>)
      modifies this, outbox, outbox.store, coordinator
      ensures Value() == Handle(old(Value()), sink, inbox, now)
      ensures applied == Applied(old(Value()).receiver, inbox)
    {
      hide HandleOne;
      ghost var start := Value();
      applied := [];
      var i := 0;
      assert inbox[0..] == inbox;
      while i < |inbox|
        invariant i <= |inbox| && Handle(start, sink, inbox, now) == Handle(Value(), sink, inbox[i..], now)
        invariant Applied(start.receiver, inbox) == applied + Applied(Value().receiver, inbox[i..])
      {
        ghost var rest, sofar := inbox[i..], applied;
        assert rest[0] == inbox[i] && rest[1..] == inbox[i + 1..];
        HandlesOne(Value(), sink, inbox[i], now);
        var folds := ReceiveOne(inbox[i], now);
        if folds {
          applied := applied + [inbox[i]];
        }
        i := i + 1;
        Rejoin(sofar, if folds then [rest[0]] else [], Applied(Value().receiver, inbox[i..]));
      }
      assert applied + [] == applied;
    }

    method ReceiveOne(m: Inbound, now: nat) returns (folds: bool)
      modifies this, outbox, outbox.store, coordinator
      ensures Value() == HandleOne(old(Value()), sink, m, now)
      ensures folds == Folds(old(Value()).receiver, m)
    {
      hide SyncModel.TrySend, SyncModel.DeleteThrough;
      folds := false;
      match m {
        case Acked(through) =>
          if through > peerAckedThrough {
            peerAckedThrough := through;
          }
          outbox.AckThrough(through);
        case Requested(fromEpoch) => SendOr(Served(fromEpoch), now);
        case CrdtSync => folds := true;
        case Received(frame) => folds := ReceiveFrame(frame, now);
      }
    }

    method ReceiveFrame(frame: Resync.Frame, now: nat) returns (folds: bool)
      modifies this, coordinator
      ensures Value() == HandleOne(old(Value()), sink, Received(frame), now)
      ensures folds == Folds(old(Value()).receiver, Received(frame))
    {
      hide SyncModel.TrySend;
      var action;
      match frame {
        case Snapshot(at, nodes, edges) => action := coordinator.IngestSnapshot(at);
        case Delta(base, epoch, ops) => action := coordinator.IngestDelta(base, epoch);
      }
      folds := action.Apply?;
      match action {
        case Apply => ackOwed := true;
        case RequestSnapshot(fromEpoch) => SendOr(Request(fromEpoch), now);
        case Ignore =>
      }
    }

    method SendOr(m: Msg, now: nat)
      modifies this
      ensures Value() == SendOrStall(old(Value()), sink, m, now)
    {
      var ok := TrySend(m);
      if !ok {
        stalledSince := Some(now);
      }
    }
  }
}
