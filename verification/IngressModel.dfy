/** One ingress scope: fences, dedupe, a bounded reorder buffer and a coalescing window. */
module IngressModel {
  import opened Basics

  type V(==, !new)

  datatype Overflow = Block | DropNewest | DropOldest | Conflate | Spill
  datatype Lifecycle = Opening | Live | Suspended | Closed

  datatype Policy = Policy(freshnessHorizon: nat, reorderWindow: nat, highWater: nat, overflow: Overflow, merge: (V, V) -> V)

  datatype Item = Item(payload: V, stampedAt: nat)

  datatype Scope = Scope(lifecycle: Lifecycle, generation: nat, through: Option<nat>, stampedAt: nat,
    pending: map<nat, Item>, window: Option<V>, depth: nat, errors: nat)

  datatype Reason = ScopeClosed | StaleGeneration | Expired | DuplicateSequence | DuplicateBuffered | ReorderWindowOverflow | Backpressure

  datatype Decision =
    | Refuse(reason: Reason)
    | Blocked
    | Buffered(gapFrom: nat)
    | Delivered(through: nat, conflated: bool, handoff: Option<(nat, nat)>)

  function NewScope(generation: nat): Scope { Scope(Opening, generation, None, 0, map[], None, 0, 0) }

  function NextExpected(s: Scope): nat { if s.through.None? then 0 else s.through.value + 1 }

  function LiveOrOpening(s: Scope): Lifecycle { if s.through.None? then Opening else Live }

  /** A new incarnation of the producer: nothing of the old one is kept. */
  function Handoff(s: Scope, generation: nat): Scope {
    s.(generation := generation, through := None, pending := map[], window := None, depth := 0)
  }

  function MergeInto(p: Policy, s: Scope, payload: V, stampedAt: nat): Scope {
    var value := if s.window.None? then payload else p.merge(s.window.value, payload);
    s.(window := Some(value), depth := s.depth + 1, stampedAt := Max(s.stampedAt, stampedAt))
  }

  function Flush(p: Policy, s: Scope): (t: Scope)
    ensures s.through.Some? ==> t.through.Some?
    decreases |s.pending|
  {
    var next := NextExpected(s);
    if next !in s.pending then s
    else
      var item := s.pending[next];
      var s1 := MergeInto(p, s.(pending := s.pending - {next}), item.payload, item.stampedAt);
      Smaller(s.pending, next);
      Flush(p, s1.(through := Some(next)))
  }

  lemma Smaller(m: map<nat, Item>, k: nat)
    requires k in m
    ensures |m - {k}| < |m|
  {
    assert (m - {k}).Keys == m.Keys - {k};
    assert |m.Keys - {k}| == |m.Keys| - 1;
  }

  /** In order: coalesce it, then everything buffered behind it. */
  function Deliver(p: Policy, s: Scope, sequence: nat, stampedAt: nat, payload: V): Scope {
    Flush(p, MergeInto(p, s, payload, stampedAt).(through := Some(sequence), lifecycle := Live, errors := 0))
  }

  /** Whether any of the merges of a delivery met an existing window. */
  predicate Coalesces(s: Scope, sequence: nat) { s.window.Some? || sequence + 1 in s.pending }

  function Drop(s: Scope): Scope { s.(window := None, depth := 0) }

  /** An envelope past the fences, whose generation is the scope's. */
  function Place(p: Policy, s: Scope, sequence: nat, stampedAt: nat, payload: V, handoff: Option<(nat, nat)>): (Scope, Decision) {
    var expected := NextExpected(s);
    if sequence < expected then (s, Refuse(DuplicateSequence))
    else if sequence > expected then
      if sequence in s.pending then (s, Refuse(DuplicateBuffered))
      else if |s.pending| >= p.reorderWindow then (s, Refuse(ReorderWindowOverflow))
      else (s.(pending := s.pending[sequence := Item(payload, stampedAt)]), Buffered(expected))
    else if s.depth >= p.highWater && p.overflow == Block then (s, Blocked)
    else if s.depth >= p.highWater && p.overflow == DropNewest then (s, Refuse(Backpressure))
    else
      var s1 := if s.depth >= p.highWater && p.overflow == DropOldest then Drop(s) else s;
      var t := Deliver(p, s1, sequence, stampedAt, payload);
      (t, Delivered(t.through.value, Coalesces(s1, sequence), handoff))
  }

  /** The admission rules, in order: closed, stale generation, expired, handoff, then placing. */
  function Decide(p: Policy, now: nat, s: Scope, generation: nat, sequence: nat, stampedAt: nat, payload: V): (Scope, Decision) {
    if s.lifecycle == Closed then (s, Refuse(ScopeClosed))
    else if generation < s.generation then (s, Refuse(StaleGeneration))
    else if now > stampedAt + p.freshnessHorizon then (s, Refuse(Expired))
    else if generation > s.generation then
      Place(p, Handoff(s, generation), sequence, stampedAt, payload, Some((s.generation, generation)))
    else Place(p, s, sequence, stampedAt, payload, None)
  }

  // -- lifecycle ---------------------------------------------------------------------------------

  /** Reopening keeps the watermark, except for a closed scope or a higher generation. */
  function Open(s: Scope, generation: nat): Scope {
    if s.lifecycle == Closed then NewScope(generation)
    else
      var s1 := s.(lifecycle := LiveOrOpening(s));
      if generation > s1.generation then s1.(generation := generation, through := None, pending := map[]) else s1
  }

  function Suspend(s: Scope): Scope {
    if s.lifecycle == Suspended || s.lifecycle == Closed then s else s.(lifecycle := Suspended)
  }

  function Reconnect(s: Scope, generation: nat): Scope {
    var s1 := if generation > s.generation then Handoff(s, generation) else s;
    s1.(lifecycle := LiveOrOpening(s1), errors := 0)
  }

  function Close(s: Scope): Scope {
    if s.lifecycle == Closed then s
    else s.(lifecycle := Closed, pending := map[], window := None, depth := 0, errors := 0)
  }

  /** An egress: the watermark stays. */
  function Drain(s: Scope): (Scope, Option<V>) {
    if s.window.None? then (s, None) else (Drop(s), s.window)
  }

  function Fail(s: Scope): Scope { s.(errors := s.errors + 1) }
}
