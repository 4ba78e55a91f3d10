/** The work queue as an object that its operations update in place. */
module WorkQueue {
  import opened Basics
  import opened QueueModel

  class WorkQueueCore {
    const config: Config
    var pending: seq<Item>
    var inFlight: map<nat, Delivery>
    var deadLetters: seq<Dead>
    var nextItemId: nat
    var nextDeliveryId: nat

    ghost function State(): Queue
      reads this
    {
      Queue(pending, inFlight, deadLetters, nextItemId, nextDeliveryId)
    }

    /** Live deliveries sit under their own id, below the next one. */
    ghost predicate Valid()
      reads this
    {
      ConfigOk(config) && forall id :: id in inFlight ==> inFlight[id].id == id < nextDeliveryId
    }

    constructor (config: Config)
      requires ConfigOk(config)
      ensures Valid() && State() == EMPTY && this.config == config
    {
      this.config := config;
      pending, inFlight, deadLetters, nextItemId, nextDeliveryId := [], map[], [], 0, 0;
    }

    /** None stands for the range error once item ids are exhausted. */
    method Push(value: Value) returns (r: Option<nat>)
      requires Valid()
      modifies this
      ensures Valid() && (State(), r) == QueueModel.Push(old(State()), value)
    {
      if nextItemId >= MAX_SAFE {
        return None;
      }
      var itemId := nextItemId;
      nextItemId := nextItemId + 1;
      pending := pending + [Item(itemId, value, 0)];
      r := Some(itemId);
    }

    /** None stands for an empty queue, and for the range error once delivery ids are exhausted. */
    method Claim(worker: Worker, now: nat) returns (r: Option<Delivery>)
      requires Valid()
      modifies this
      ensures Valid() && (State(), r) == QueueModel.Claim(config, old(State()), worker, now)
    {
      if |pending| == 0 || nextDeliveryId >= MAX_SAFE {
        return None;
      }
      var item := pending[0];
      pending := pending[1..];
      var deliveryId := nextDeliveryId;
      nextDeliveryId := nextDeliveryId + 1;
      var deadline := now + config.visibilityTimeout;
      if deadline > MAX_SAFE {
        deadline := MAX_SAFE;
      }
      var delivery := Delivery(deliveryId, item.id, item.value, worker, item.attempts + 1, deadline);
      inFlight := inFlight[deliveryId := delivery];
      r := Some(delivery);
    }

    method Ack(worker: Worker, deliveryId: nat) returns (r: bool)
      requires Valid()
      modifies this
      ensures Valid() && (State(), r) == QueueModel.Ack(old(State()), worker, deliveryId)
    {
      if deliveryId !in inFlight || inFlight[deliveryId].worker != worker {
        return false;
      }
      inFlight := inFlight - {deliveryId};
      r := true;
    }

    method FailDelivery(delivery: Delivery, reason: Reason)
      modifies this
      ensures pending == old(pending) + if delivery.attempt < config.maxDeliveries then [Retry(delivery)] else []
      ensures deadLetters == old(deadLetters) + if delivery.attempt < config.maxDeliveries then [] else [Letter(delivery, reason)]
      ensures inFlight == old(inFlight) && nextItemId == old(nextItemId) && nextDeliveryId == old(nextDeliveryId)
    {
      if delivery.attempt < config.maxDeliveries {
        pending := pending + [Item(delivery.itemId, delivery.value, delivery.attempt)];
      } else {
        deadLetters := deadLetters + [Dead(delivery.itemId, delivery.value, delivery.attempt, reason)];
      }
    }

    method Nack(worker: Worker, deliveryId: nat) returns (r: bool)
      requires Valid()
      modifies this
      ensures Valid() && (State(), r) == QueueModel.Nack(config, old(State()), worker, deliveryId)
    {
      if deliveryId !in inFlight || inFlight[deliveryId].worker != worker {
        return false;
      }
      var delivery := inFlight[deliveryId];
      inFlight := inFlight - {deliveryId};
      FailDelivery(delivery, Nacked);
      assert State() == Fail(config, old(State()), deliveryId, Nacked);
      r := true;
    }

    /** The leases past their deadline, in delivery order. */
    method ExpiredIds(now: nat) returns (expired: seq<nat>)
      requires Valid()
      ensures expired == Overdue(inFlight, now, nextDeliveryId)
      ensures Ascending(expired) && forall id :: id in expired ==> id in inFlight
    {
      expired := [];
      for id := 0 to nextDeliveryId
        invariant expired == Overdue(inFlight, now, id)
      {
        if id in inFlight && inFlight[id].deadline < now {
          expired := expired + [id];
        }
      }
      OverdueAscends(inFlight, now, nextDeliveryId);
    }

    /** Expired leases fail one by one in delivery order; the result is how many there were. */
    method ReapExpired(now: nat) returns (n: nat)
      requires Valid()
      modifies this
      ensures Valid() && State() == Reap(config, old(State()), now)
      ensures n == |Overdue(old(inFlight), now, old(nextDeliveryId))|
    {
      hide Overdue, FailAll;
      var expired := ExpiredIds(now);
      ghost var start := State();
      FailAllNone(config, start);
      for i := 0 to |expired|
        invariant Valid() && State() == FailAll(config, start, expired[..i])
        invariant forall j :: i <= j < |expired| ==> expired[j] in inFlight
      {
        FailAllSnoc(config, start, expired, i);
        var delivery := inFlight[expired[i]];
        inFlight := inFlight - {expired[i]};
        FailDelivery(delivery, Expired);
        assert forall j :: i < j < |expired| ==> expired[i] < expired[j];
      }
      assert expired[..|expired|] == expired;
      n := |expired|;
    }
  }
}
