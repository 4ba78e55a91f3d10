/** What each answer of an admission tells the producer, in terms of what has been delivered, taken and drained. */
module IngressAnswers {
  import opened Basics
  import opened Folding
  import opened IngressModel
  import opened IngressProofs

  /** What the producer is told. */
  datatype Admission =
    | Accepted(through: nat)
    | Conflated(through: nat)
    | Buffering(gapFrom: nat)
    | GenerationHandoff(older: nat, newer: nat)
    | Dropped(reason: Reason)
    | Blocking

  /** A handoff outranks coalescing. */
  function Told(d: Decision): Admission {
    match d
    case Refuse(reason) => Dropped(reason)
    case Blocked => Blocking
    case Buffered(gapFrom) => Buffering(gapFrom)
    case Delivered(through, conflated, handoff) =>
      if handoff.Some? then GenerationHandoff(handoff.value.0, handoff.value.1)
      else if conflated then Conflated(through)
      else Accepted(through)
  }

  // -- the fences ---------------------------------------------------------------------------------------

  /** Neither closed, nor of an older generation, nor expired. */
  predicate Passes(p: Policy, now: nat, s: Scope, generation: nat, at: nat) {
    s.lifecycle != Closed && s.generation <= generation && now <= at + p.freshnessHorizon
  }

  lemma FenceAnswers(p: Policy, now: nat, s: Scope, generation: nat, sequence: nat, at: nat, v: V)
    ensures var (t, d) := Decide(p, now, s, generation, sequence, at, v);
      && (d == Refuse(ScopeClosed) <==> s.lifecycle == Closed)
      && (d == Refuse(StaleGeneration) <==> s.lifecycle != Closed && generation < s.generation)
      && (d == Refuse(Expired) <==> s.lifecycle != Closed && generation >= s.generation && now > at + p.freshnessHorizon)
      && (!Passes(p, now, s, generation, at) ==> t == s)
  {
    hide Deliver;
  }

  // -- an envelope past the fences ---------------------------------------------------------------------------

  lemma {:induction false} FlushGrows(p: Policy, s: Scope, h: History)
    ensures h.log <= FlushHistory(s, h, p).log && h.win <= FlushHistory(s, h, p).win
    ensures |FlushHistory(s, h, p).log| - |h.log| == |FlushHistory(s, h, p).win| - |h.win|
    ensures NextExpected(s) !in s.pending ==> FlushHistory(s, h, p) == h
    ensures NextExpected(s) in s.pending ==> |FlushHistory(s, h, p).log| > |h.log|
    decreases |s.pending|
  {
    var next := NextExpected(s);
    if next in s.pending {
      var item := s.pending[next];
      Smaller(s.pending, next);
      FlushGrows(p, MergeInto(p, s.(pending := s.pending - {next}), item.payload, item.stampedAt).(through := Some(next)), Extend(h, item.payload));
    }
  }

  /** A delivery puts at least one payload in the window, and coalesces exactly when it then holds two or more. */
  lemma DeliverAnswers(p: Policy, o: Producer, s: Scope, h: History, sequence: nat, at: nat)
    requires Describes(p, o, s, h) && sequence == NextExpected(s)
    ensures var v := o(s.generation, sequence);
      var t, j := Deliver(p, s, sequence, at, v), DeliverHistory(p, s, h, sequence, at, v);
      && t.through == Some(|j.log| - 1) && |j.log| > |h.log| && h.log <= j.log
      && (Coalesces(s, sequence) <==> |j.win| >= 2)
  {
    hide Flush, FlushHistory;
    var v := o(s.generation, sequence);
    var s1 := MergeInto(p, s, v, at).(through := Some(sequence), lifecycle := Live, errors := 0);
    FlushGrows(p, s1, Extend(h, v));
    DeliverOk(p, o, s, h, sequence, at);
    assert NextExpected(s1) == sequence + 1 && s1.pending == s.pending;
  }

  /**
   What the answer to an envelope past the fences says, `j` being what went before it in its generation
   and `k` what there is after it.
   */
  ghost predicate Tells(p: Policy, d: Decision, sequence: nat, handoff: Option<(nat, nat)>, j: History, k: History) {
    var full := |j.win| >= p.highWater;
    && (d == Refuse(DuplicateSequence) <==> sequence < |j.log|)
    && (d == Refuse(DuplicateBuffered) <==> sequence > |j.log| && sequence in j.taken)
    && (d == Refuse(ReorderWindowOverflow) <==> sequence > |j.log| && sequence !in j.taken && Ahead(j) >= p.reorderWindow)
    && (d.Buffered? <==> sequence > |j.log| && sequence !in j.taken && Ahead(j) < p.reorderWindow)
    && (d.Buffered? ==> d.gapFrom == |k.log| == |j.log| && k.taken == j.taken + {sequence} && k.win == j.win)
    && (d == Blocked <==> sequence == |j.log| && full && p.overflow == Block)
    && (d == Refuse(Backpressure) <==> sequence == |j.log| && full && p.overflow == DropNewest)
    && (d.Delivered? <==> sequence == |j.log| && !(full && (p.overflow == Block || p.overflow == DropNewest)))
    && (d.Delivered? ==>
          && d.through == |k.log| - 1 && d.through >= sequence && j.log <= k.log && d.handoff == handoff
          && (d.conflated <==> |k.win| >= 2)
          && |k.win| == |k.log| - |j.log| + (if full && p.overflow == DropOldest then 0 else |j.win|))
    && (!d.Buffered? && !d.Delivered? ==> k == j)
  }

  /** The sequences that wait past the first gap. */
  ghost function Gapped(h: History): set<nat> { set k | k in h.taken && k > |h.log| }

  ghost function Ahead(h: History): nat { |Gapped(h)| }

  lemma WaitingCount(p: Policy, o: Producer, s: Scope, h: History)
    requires Describes(p, o, s, h)
    ensures |s.pending| == Ahead(h) && NextExpected(s) == |h.log| && s.depth == |h.win|
    ensures forall k :: k > |h.log| ==> (k in s.pending <==> k in h.taken)
  {
    assert s.pending.Keys == Gapped(h);
    assert |s.pending| == |s.pending.Keys|;
  }

  lemma PlaceTells(p: Policy, o: Producer, s: Scope, h: History, sequence: nat, at: nat, handoff: Option<(nat, nat)>)
    requires Describes(p, o, s, h)
    ensures var v := o(s.generation, sequence);
      var d, k := Place(p, s, sequence, at, v, handoff).1, PlaceHistory(p, s, h, sequence, at, v);
      Tells(p, d, sequence, handoff, h, k)
    ensures var (t, d) := Place(p, s, sequence, at, o(s.generation, sequence), handoff);
      && (!d.Buffered? && !d.Delivered? ==> t == s)
      && (d.Buffered? ==> t == s.(pending := s.pending[sequence := Item(o(s.generation, sequence), at)]))
  {
    hide Deliver, DeliverHistory, Describes, Coalesces;
    WaitingCount(p, o, s, h);
    if sequence == NextExpected(s) {
      DeliverAnswers(p, o, s, h, sequence, at);
      DeliverSizes(p, s, h, sequence, at, o(s.generation, sequence));
      EvictOk(p, o, s, h);
      DeliverAnswers(p, o, Drop(s), Evict(h), sequence, at);
      DeliverSizes(p, Drop(s), Evict(h), sequence, at, o(s.generation, sequence));
    }
  }

  lemma DeliverSizes(p: Policy, s: Scope, h: History, sequence: nat, at: nat, v: V)
    ensures var j := DeliverHistory(p, s, h, sequence, at, v); |j.win| - |h.win| == |j.log| - |h.log|
  {
    hide Flush, FlushHistory;
    FlushGrows(p, MergeInto(p, s, v, at).(through := Some(sequence), lifecycle := Live, errors := 0), Extend(h, v));
  }

  // -- in every run ---------------------------------------------------------------------------------------------

  /** What went before in the generation of an envelope: nothing, if it is a newer one. */
  function Before(s: Scope, h: History, generation: nat): History { if generation > s.generation then FRESH else h }

  /** A new incarnation: nothing is kept but lifecycle, stamp and errors. */
  predicate Reset(s: Scope, t: Scope, generation: nat) {
    && t.generation == generation && t.through.None? && t.pending == map[] && t.window.None? && t.depth == 0
    && t.lifecycle == s.lifecycle && t.stampedAt == s.stampedAt && t.errors == s.errors
  }

  /**
   In every run, an envelope that passes the fences is answered by what its generation has delivered, taken
   and not yet drained, and by that alone; one that is not admitted changes nothing in its scope, but that a
   newer generation takes over.
   */
  lemma AnswersInEveryRun(p: Policy, o: Producer, first: nat, events: seq<(nat, Event)>, now: nat, generation: nat, sequence: nat, at: nat)
    ensures var (s, h) := Life(p, o, first, events);
      var (t, d) := Decide(p, now, s, generation, sequence, at, o(generation, sequence));
      var k := Remembers(p, o, now, s, h, Arrive(generation, sequence, at));
      && (Passes(p, now, s, generation, at) ==>
            && Tells(p, d, sequence, if generation > s.generation then Some((s.generation, generation)) else None, Before(s, h, generation), k)
            && (!d.Buffered? && !d.Delivered? ==> if generation > s.generation then Reset(s, t, generation) else t == s))
      && (!Passes(p, now, s, generation, at) ==> t == s && d.Refuse? && k == h)
  {
    hide Life, Describes, Place, PlaceHistory, Tells;
    EveryRun(p, o, first, events);
    var (s, h) := Life(p, o, first, events);
    if Passes(p, now, s, generation, at) {
      if generation > s.generation {
        FreshOk(p, o, Handoff(s, generation));
        PlaceTells(p, o, Handoff(s, generation), FRESH, sequence, at, Some((s.generation, generation)));
      } else {
        PlaceTells(p, o, s, h, sequence, at, None);
      }
    }
  }

  /** After a drain, what was blocked is delivered when the producer sends it again. */
  lemma RetryAfterDrain(p: Policy, now: nat, s: Scope, generation: nat, sequence: nat, at: nat, v: V)
    requires p.highWater > 0
    ensures var (t, d) := Decide(p, now, s, generation, sequence, at, v);
      d == Blocked && t.window.Some? ==> Decide(p, now, Drain(t).0, generation, sequence, at, v).1.Delivered?
  {
    hide Deliver;
  }

  // -- closing, suspending and resuming -----------------------------------------------------------------------------

  /** Whether the last close came after every opening and reconnect. */
  predicate ClosedBy(events: seq<(nat, Event)>)
    decreases |events|
  {
    events != [] &&
      match events[|events| - 1].1
      case CloseIt => true
      case OpenAt(_) => false
      case ReconnectAt(_) => false
      case _ => ClosedBy(events[..|events| - 1])
  }

  /** Failures since the last delivery, reconnect, close or opening of a closed scope. */
  function Streak(p: Policy, o: Producer, first: nat, events: seq<(nat, Event)>): nat
    decreases |events|
  {
    if events == [] then 0
    else
      var before := events[..|events| - 1];
      var s := Life(p, o, first, before).0;
      var (now, e) := events[|events| - 1];
      match e
      case FailIt => Streak(p, o, first, before) + 1
      case ReconnectAt(_) => 0
      case CloseIt => if ClosedBy(before) then Streak(p, o, first, before) else 0
      case OpenAt(_) => if ClosedBy(before) then 0 else Streak(p, o, first, before)
      case Arrive(g, k, at) =>
        if Decide(p, now, s, g, k, at, o(g, k)).1.Delivered? then 0 else Streak(p, o, first, before)
      case _ => Streak(p, o, first, before)
  }

  /** In every run a scope is closed exactly when the last close came after every opening, and its errors are the streak of failures. */
  lemma {:induction false} StatusInEveryRun(p: Policy, o: Producer, first: nat, events: seq<(nat, Event)>)
    ensures var s := Life(p, o, first, events).0;
      (s.lifecycle == Closed <==> ClosedBy(events)) && s.errors == Streak(p, o, first, events)
    decreases |events|
  {
    hide Decide;
    if events != [] {
      var before := events[..|events| - 1];
      StatusInEveryRun(p, o, first, before);
      var s := Life(p, o, first, before).0;
      var (now, e) := events[|events| - 1];
      if e.Arrive? {
        DecideStatus(p, now, s, e.generation, e.sequence, e.at, o(e.generation, e.sequence));
      }
    }
  }

  lemma DecideStatus(p: Policy, now: nat, s: Scope, generation: nat, sequence: nat, at: nat, v: V)
    ensures var (t, d) := Decide(p, now, s, generation, sequence, at, v);
      && (t.lifecycle == Closed <==> s.lifecycle == Closed) && t.errors == if d.Delivered? then 0 else s.errors
  {
    hide Flush;
    var s1 := if generation > s.generation then Handoff(s, generation) else s;
    FlushStatus(p, MergeInto(p, s1, v, at).(through := Some(sequence), lifecycle := Live, errors := 0));
    FlushStatus(p, MergeInto(p, Drop(s1), v, at).(through := Some(sequence), lifecycle := Live, errors := 0));
  }

  lemma {:induction false} FlushStatus(p: Policy, s: Scope)
    ensures Flush(p, s).lifecycle == s.lifecycle && Flush(p, s).errors == s.errors
    decreases |s.pending|
  {
    var next := NextExpected(s);
    if next in s.pending {
      var item := s.pending[next];
      Smaller(s.pending, next);
      FlushStatus(p, MergeInto(p, s.(pending := s.pending - {next}), item.payload, item.stampedAt).(through := Some(next)));
    }
  }
}
