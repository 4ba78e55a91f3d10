/** Latest-value durable delivery as an object that its operations update in place. */
module LatestDurable {
  import opened Basics
  import opened LatestModel

  class LatestDurableProjectionCore {
    var generation: nat
    var order: seq<Key>
    var entries: map<Key, Entry>
    var version: nat

    ghost function State(): Core
      reads this
    {
      Core(generation, order, entries, version)
    }

    /** Every key is listed once, in the order first seen. */
    ghost predicate Valid()
      reads this
    {
      Listed(State())
    }

    constructor (generation: nat)
      ensures Valid() && State() == New(generation)
    {
      this.generation, order, entries, version := generation, [], map[], 0;
    }

    method Put(key: Key, entry: Entry)
      requires Valid()
      modifies this
      ensures Valid() && State() == WithEntry(old(State()), key, entry)
    {
      ListedStill(State(), key, entry);
      if key !in entries {
        order := order + [key];
      }
      entries := entries[key := entry];
    }

    method UpsertDesired(key: Key, epoch: nat, value: Value) returns (r: Upserted)
      requires Valid()
      modifies this
      ensures Valid() && (State(), r) == Upsert(old(State()), key, epoch, value)
    {
      var entry := if key in entries then entries[key] else BLANK;
      Put(key, entry);
      if entry.durable.Some? && epoch <= entry.durable.value {
        return AlreadyDurable;
      }
      var retained := Retained(entry);
      var newest: int := -1;
      for i := 0 to |retained|
        invariant newest == (if i == 0 then -1 else if i == 1 then retained[0].epoch else NewestEpoch(entry))
      {
        if retained[i].epoch > newest {
          newest := retained[i].epoch;
        }
      }
      if epoch < newest {
        return StaleEpoch;
      }
      if epoch == newest {
        var current := if retained[0].epoch == epoch then retained[0] else retained[1];
        return if current.value == value then Same else EpochConflict;
      }
      PutTwice(old(State()), key, entry, entry.(desired := Some(Revision(epoch, value))));
      Put(key, entry.(desired := Some(Revision(epoch, value))));
      version := version + 1;
      r := Accepted;
    }

    method Claim(key: Key, generation: nat) returns (r: Claimed)
      requires Valid()
      modifies this
      ensures Valid() && (State(), r) == LatestModel.Claim(old(State()), key, generation)
    {
      if generation != this.generation {
        return ClaimStale(this.generation);
      }
      if key !in entries || entries[key].desired.None? {
        return if key in entries && entries[key].inflight.Some? then Busy else Empty;
      }
      var entry := entries[key];
      if entry.inflight.Some? {
        return Busy;
      }
      var envelope := Envelope(this.generation, key, entry.desired.value.epoch, entry.desired.value.value);
      Put(key, entry.(desired := None, inflight := Some(envelope)));
      version := version + 1;
      r := Handed(envelope);
    }

    method AckApplied(key: Key, generation: nat, epoch: nat) returns (r: Acked)
      requires Valid()
      modifies this
      ensures Valid() && (State(), r) == Ack(old(State()), key, generation, epoch)
    {
      if generation != this.generation {
        return AckStale(this.generation);
      }
      if key !in entries || entries[key].inflight.None? || entries[key].inflight.value.epoch != epoch {
        if key in entries && entries[key].durable.Some? && epoch <= entries[key].durable.value {
          return Unmoved(entries[key].durable.value);
        }
        return AckUnknown;
      }
      var entry := entries[key].(inflight := None);
      if entry.durable.None? || epoch > entry.durable.value {
        Put(key, entry.(durable := Some(epoch)));
        r := Advanced(epoch);
      } else {
        Put(key, entry);
        r := Unmoved(entry.durable.value);
      }
      version := version + 1;
    }

    method FailRetryable(key: Key, generation: nat, epoch: nat) returns (r: Failed)
      requires Valid()
      modifies this
      ensures Valid() && (State(), r) == Fail(old(State()), key, generation, epoch)
    {
      if generation != this.generation {
        return FailStale(this.generation);
      }
      if key !in entries || entries[key].inflight.None? || entries[key].inflight.value.epoch != epoch {
        return FailUnknown;
      }
      var failed := entries[key].inflight.value;
      var entry := entries[key].(inflight := None);
      if entry.desired.Some? && entry.desired.value.epoch > failed.epoch {
        Put(key, entry);
        r := Superseded;
      } else {
        Put(key, entry.(desired := Some(Revision(failed.epoch, failed.value))));
        r := Requeued;
      }
      version := version + 1;
    }

    /** Walks the entries in order, giving back whatever was in flight under the old generation. */
    method Reconnect(newGeneration: nat) returns (r: Reconnected)
      requires Valid()
      modifies this
      ensures Valid() && (State(), r) == LatestModel.Reconnect(old(State()), newGeneration)
    {
      hide Listed, ReturnedFor, CountRequeued, CountSuperseded;
      if newGeneration < generation {
        return ReconnectStale(generation);
      }
      if newGeneration == generation {
        return Current(generation);
      }
      ghost var before := entries;
      var requeued, superseded := 0, 0;
      NoneWalked(before);
      for i := 0 to |order|
        invariant order == old(order) && generation == old(generation) && version == old(version)
        invariant requeued == CountRequeued(before, order[..i]) && superseded == CountSuperseded(before, order[..i])
        invariant ReturnedFor(before, entries, order[..i])
      {
        var key := order[i];
        ListedAt(old(State()), i);
        WalkCounts(before, order, i);
        WalkOne(before, entries, order[..i], key);
        var entry := entries[key];
        if entry.inflight.Some? {
          var inflight := entry.inflight.value;
          if entry.desired.Some? && entry.desired.value.epoch > inflight.epoch {
            superseded := superseded + 1;
          } else {
            entry := entry.(desired := Some(Revision(inflight.epoch, inflight.value)));
            requeued := requeued + 1;
          }
          entries := entries[key := entry.(inflight := None)];
        }
      }
      assert order[..|order|] == order;
      WalkedAll(old(State()), entries);
      generation := newGeneration;
      version := version + 1;
      ReturnedListed(old(State()), State());
      r := Raised(newGeneration, requeued, superseded);
    }
  }
}
