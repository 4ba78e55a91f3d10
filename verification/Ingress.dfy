/** The keyed admission plane: scopes, the flush loop and the bounded receipt log changed in place. */
module Ingress {
  import opened Basics
  import Answers = IngressAnswers
  import opened IngressModel

  type Key(==, !new)

  datatype Outcome = Accepted(through: nat, conflated: bool) | Dropped(reason: Reason) | Failure
  datatype Receipt = Receipt(offset: nat, key: Key, generation: nat, sequence: Option<nat>, outcome: Outcome)

  /** The newest `n` of `s`. */
  function Newest<T>(s: seq<T>, n: nat): (r: seq<T>)
    ensures |r| <= n && |r| <= |s| && r == s[|s| - |r|..] && (|s| > n ==> |r| == n) && (|s| <= n ==> r == s)
  {
    if |s| > n then s[|s| - n..] else s
  }

  predicate Admitted(d: Decision) { d.Buffered? || d.Delivered? }

  /** What the receipt of a decision says; a buffered envelope gets none. */
  function Noted(d: Decision): Option<Outcome> {
    match d
    case Refuse(reason) => Some(Dropped(reason))
    case Blocked => Some(Dropped(Backpressure))
    case Buffered(_) => None
    case Delivered(through, conflated, _) => Some(Accepted(through, conflated))
  }

  /** The log with one more receipt, if there is one, kept within its capacity. */
  function Receipted(log: seq<Receipt>, offset: nat, key: Key, generation: nat, sequence: Option<nat>, outcome: Option<Outcome>,
      capacity: nat): seq<Receipt> {
    if outcome.None? then log else Newest(log + [Receipt(offset, key, generation, sequence, outcome.value)], capacity)
  }

  /** The scope of an envelope never falls back: it is of the envelope's generation, or was of a newer one. */
  lemma DecideFence(p: Policy, now: nat, s: Scope, generation: nat, sequence: nat, stampedAt: nat, payload: V)
    ensures s.generation == generation ==> Decide(p, now, s, generation, sequence, stampedAt, payload).0.generation == generation
  {
    hide Flush;
    FlushGeneration(p, MergeInto(p, s, payload, stampedAt).(through := Some(sequence), lifecycle := Live, errors := 0));
    FlushGeneration(p, MergeInto(p, Drop(s), payload, stampedAt).(through := Some(sequence), lifecycle := Live, errors := 0));
  }

  lemma {:induction false} FlushGeneration(p: Policy, s: Scope)
    ensures Flush(p, s).generation == s.generation
    decreases |s.pending|
  {
    var next := NextExpected(s);
    if next in s.pending {
      var item := s.pending[next];
      Smaller(s.pending, next);
      FlushGeneration(p, MergeInto(p, s.(pending := s.pending - {next}), item.payload, item.stampedAt).(through := Some(next)));
    }
  }

  class IngressCore {
    const policy: Policy
    const receiptCapacity: nat
    var scopes: map<Key, Scope>
    var receipts: seq<Receipt>
    var nextReceiptOffset: nat
    var observedNow: nat

    /** The log keeps the newest receipts, numbered without gaps. */
    ghost predicate Valid()
      reads this
    {
      && 0 < receiptCapacity && |receipts| <= receiptCapacity && |receipts| <= nextReceiptOffset
      && (forall i :: 0 <= i < |receipts| ==> receipts[i].offset == nextReceiptOffset - |receipts| + i)
    }

    constructor (rules: Policy, capacity: nat)
      requires 0 < capacity
      ensures Valid() && policy == rules && receiptCapacity == capacity && scopes == map[] && receipts == [] && observedNow == 0
    {
      policy, receiptCapacity := rules, capacity;
      scopes, receipts, nextReceiptOffset, observedNow := map[], [], 0, 0;
    }

    /** Refused, as null, when conflation would bound nothing or no receipt could be kept. */
    static method Make(rules: Policy, conflates: bool, capacity: nat) returns (core: IngressCore?)
      ensures core == null <==> (rules.overflow == Conflate && !conflates) || capacity == 0
      ensures core != null ==> fresh(core) && core.Valid() && core.policy == rules && core.scopes == map[]
    {
      if (rules.overflow == Conflate && !conflates) || capacity == 0 {
        return null;
      }
      core := new IngressCore(rules, capacity);
    }

    method PushReceipt(key: Key, generation: nat, sequence: Option<nat>, outcome: Outcome)
      requires Valid()
      modifies this`receipts, this`nextReceiptOffset
      ensures Valid() && nextReceiptOffset == old(nextReceiptOffset) + 1
      ensures receipts == Receipted(old(receipts), old(nextReceiptOffset), key, generation, sequence, Some(outcome), receiptCapacity)
    {
      receipts := receipts + [Receipt(nextReceiptOffset, key, generation, sequence, outcome)];
      nextReceiptOffset := nextReceiptOffset + 1;
      ghost var all := receipts;
      while |receipts| > receiptCapacity
        invariant |receipts| <= |all| && receipts == all[|all| - |receipts|..]
        invariant |receipts| >= receiptCapacity || receipts == all
        invariant nextReceiptOffset == old(nextReceiptOffset) + 1
        decreases |receipts|
      {
        receipts := receipts[1..];
      }
    }

    // -- lifecycle -----------------------------------------------------------------------------

    method Open(key: Key, generation: nat)
      modifies this`scopes
      ensures scopes == old(scopes)[key := if key in old(scopes) then IngressModel.Open(old(scopes)[key], generation) else NewScope(generation)]
    {
      if key !in scopes {
        scopes := scopes[key := NewScope(generation)];
        return;
      }
      var scope := scopes[key];
      if scope.lifecycle == Closed {
        scope := NewScope(generation);
      } else {
        scope := scope.(lifecycle := LiveOrOpening(scope));
        if generation > scope.generation {
          scope := scope.(generation := generation, through := None, pending := map[]);
        }
      }
      scopes := scopes[key := scope];
    }

    /** The replay a reconnect needs, unless there was nothing to suspend. */
    method Suspend(key: Key) returns (replay: Option<(nat, nat)>)
      modifies this`scopes
      ensures scopes == if key in old(scopes) then old(scopes)[key := IngressModel.Suspend(old(scopes)[key])] else old(scopes)
      ensures replay.Some? <==> key in old(scopes) && !old(scopes)[key].lifecycle.Suspended? && !old(scopes)[key].lifecycle.Closed?
      ensures replay.Some? ==> replay.value == (old(scopes)[key].generation, NextExpected(old(scopes)[key]))
    {
      replay := None;
      if key in scopes {
        var scope := scopes[key];
        if scope.lifecycle != Suspended && scope.lifecycle != Closed {
          scope := scope.(lifecycle := Suspended);
          replay := Some((scope.generation, NextExpected(scope)));
        }
        scopes := scopes[key := scope];
      }
    }

    method Reconnect(key: Key, generation: nat) returns (replay: (nat, nat))
      modifies this`scopes
      ensures var base := if key in old(scopes) then old(scopes)[key] else NewScope(generation);
        var s := IngressModel.Reconnect(base, generation);
        scopes == old(scopes)[key := s] && replay == (s.generation, NextExpected(s))
    {
      var scope := if key in scopes then scopes[key] else NewScope(generation);
      if generation > scope.generation {
        scope := scope.(generation := generation, through := None, pending := map[], window := None, depth := 0);
      }
      scope := scope.(lifecycle := LiveOrOpening(scope), errors := 0);
      scopes := scopes[key := scope];
      replay := (scope.generation, NextExpected(scope));
    }

    method Close(key: Key)
      modifies this`scopes
      ensures scopes == if key in old(scopes) then old(scopes)[key := IngressModel.Close(old(scopes)[key])] else old(scopes)
    {
      if key in scopes {
        var scope := scopes[key];
        if scope.lifecycle != Closed {
          scope := scope.(lifecycle := Closed, pending := map[], window := None, depth := 0, errors := 0);
        }
        scopes := scopes[key := scope];
      }
    }

    method Tick(now: nat)
      modifies this`observedNow
      ensures observedNow == now
    {
      observedNow := now;
    }

    method Fail(key: Key)
      requires Valid()
      modifies this
      ensures Valid() && observedNow == old(observedNow)
      ensures var s := IngressModel.Fail(if key in old(scopes) then old(scopes)[key] else NewScope(0));
        && scopes == old(scopes)[key := s]
        && receipts == Receipted(old(receipts), old(nextReceiptOffset), key, s.generation, None, Some(Failure), receiptCapacity)
    {
      hide Receipted;
      var scope := if key in scopes then scopes[key] else NewScope(0);
      scope := scope.(errors := scope.errors + 1);
      scopes := scopes[key := scope];
      PushReceipt(key, scope.generation, None, Failure);
    }

    /** An egress: what was coalesced, and the watermark stays. */
    method Drain(key: Key) returns (drained: Option<V>)
      modifies this`scopes
      ensures key !in old(scopes) ==> drained == None && scopes == old(scopes)
      ensures key in old(scopes) ==>
        var (s, v) := IngressModel.Drain(old(scopes)[key]); scopes == old(scopes)[key := s] && drained == v
    {
      drained := None;
      if key in scopes {
        var scope := scopes[key];
        if scope.window.Some? {
          drained := scope.window;
          scope := scope.(window := None, depth := 0);
        }
        scopes := scopes[key := scope];
      }
    }

    // -- admission -------------------------------------------------------------------------------

    /** The rules of admission; a refused envelope never makes a scope, and all but a buffered one leave a receipt. */
    method Admit(key: Key, generation: nat, sequence: nat, stampedAt: nat, payload: V) returns (admission: Answers.Admission)
      requires Valid()
      modifies this
      ensures Valid() && observedNow == old(observedNow)
      ensures var base := if key in old(scopes) then old(scopes)[key] else NewScope(generation);
        var (s, d) := Decide(policy, observedNow, base, generation, sequence, stampedAt, payload);
        && admission == Answers.Told(d)
        && scopes == (if key in old(scopes) || Admitted(d) then old(scopes)[key := s] else old(scopes))
        && receipts == Receipted(old(receipts), old(nextReceiptOffset), key, s.generation, Some(sequence), Noted(d), receiptCapacity)
        && nextReceiptOffset == old(nextReceiptOffset) + if d.Buffered? then 0 else 1
    {
      hide Decide, Place, Deliver, Flush;
      var scope := if key in scopes then scopes[key] else NewScope(generation);
      var decision;
      DecideFence(policy, observedNow, scope, generation, sequence, stampedAt, payload);
      scope, decision := DecideOn(scope, generation, sequence, stampedAt, payload);
      var fence := scope.generation;
      if key in scopes || Admitted(decision) {
        scopes := scopes[key := scope];
      } else {
        fence := generation;
      }
      match decision {
        case Refuse(reason) => PushReceipt(key, fence, Some(sequence), Dropped(reason));
        case Blocked => PushReceipt(key, fence, Some(sequence), Dropped(Backpressure));
        case Buffered(_) =>
        case Delivered(through, conflated, _) => PushReceipt(key, fence, Some(sequence), Accepted(through, conflated));
      }
      admission := Answers.Told(decision);
    }

    method DecideOn(before: Scope, generation: nat, sequence: nat, stampedAt: nat, payload: V) returns (scope: Scope, d: Decision)
      ensures (scope, d) == Decide(policy, observedNow, before, generation, sequence, stampedAt, payload)
    {
      hide Deliver;
      scope := before;
      if scope.lifecycle == Closed {
        return scope, Refuse(ScopeClosed);
      }
      if generation < scope.generation {
        return scope, Refuse(StaleGeneration);
      }
      if observedNow > stampedAt + policy.freshnessHorizon {
        return scope, Refuse(Expired);
      }
      var handoff: Option<(nat, nat)> := None;
      if generation > scope.generation {
        handoff := Some((scope.generation, generation));
        scope := scope.(generation := generation, through := None, pending := map[], window := None, depth := 0);
      }
      var expected := NextExpected(scope);
      if sequence < expected {
        return scope, Refuse(DuplicateSequence);
      }
      if sequence > expected {
        if sequence in scope.pending {
          return scope, Refuse(DuplicateBuffered);
        }
        if |scope.pending| >= policy.reorderWindow {
          return scope, Refuse(ReorderWindowOverflow);
        }
        scope := scope.(pending := scope.pending[sequence := Item(payload, stampedAt)]);
        return scope, Buffered(expected);
      }
      if scope.depth >= policy.highWater {
        match policy.overflow {
          case Block => return scope, Blocked;
          case DropNewest => return scope, Refuse(Backpressure);
          case DropOldest => scope := scope.(window := None, depth := 0);
          case Conflate =>
          case Spill =>
        }
      }
      var conflated;
      scope, conflated := DeliverOn(scope, sequence, stampedAt, payload);
      d := Delivered(scope.through.value, conflated, handoff);
    }

    /** Merge the envelope, then every buffered successor it unblocks, in sequence order. */
    method DeliverOn(before: Scope, sequence: nat, stampedAt: nat, payload: V) returns (scope: Scope, conflated: bool)
      ensures scope == Deliver(policy, before, sequence, stampedAt, payload) && scope.through.Some?
      ensures conflated == Coalesces(before, sequence)
    {
      hide MergeInto;
      MergeFills(before, payload, stampedAt);
      conflated := before.window.Some?;
      scope := MergeInto(policy, before, payload, stampedAt).(through := Some(sequence), lifecycle := Live, errors := 0);
      ghost var start := scope;
      var flushed := 0;
      while NextExpected(scope) in scope.pending
        invariant scope.through.Some? && scope.window.Some?
        invariant Flush(policy, start) == Flush(policy, scope)
        invariant conflated == (before.window.Some? || flushed > 0) && (flushed > 0 <==> scope != start)
        invariant scope == start || sequence + 1 in before.pending
        decreases |scope.pending|
      {
        var next := NextExpected(scope);
        var item := scope.pending[next];
        Smaller(scope.pending, next);
        MergeFills(scope.(pending := scope.pending - {next}), item.payload, item.stampedAt);
        scope := MergeInto(policy, scope.(pending := scope.pending - {next}), item.payload, item.stampedAt).(through := Some(next));
        conflated := true;
        flushed := flushed + 1;
      }
    }

    lemma MergeFills(s: Scope, v: V, at: nat)
      ensures var t := MergeInto(policy, s, v, at); t.window.Some? && t == s.(window := t.window, depth := s.depth + 1, stampedAt := t.stampedAt)
    {
    }
  }
}
