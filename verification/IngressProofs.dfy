/** Under any arrival order a scope delivers each sequence once, in order, and its window is the fold of what it delivered. */
module IngressProofs {
  import opened Basics
  import opened Folding
  import opened IngressModel

  // -- what a scope has been through ---------------------------------------------------------------------

  /**
   The current generation so far: `log` was delivered in order, `taken` are the sequences accepted or
   buffered, `win` is in the window, `drained` are the values the drains returned and `parts` what went
   into each of them; `kept` says nothing was evicted, closed away or left over from an older generation.
   */
  datatype History = History(log: seq<V>, taken: set<nat>, win: seq<V>, parts: seq<seq<V>>, drained: seq<V>, kept: bool)

  const FRESH := History([], {}, [], [], [], true)

  /** The producer: the same generation and sequence always carry the same payload. */
  type Producer = (nat, nat) -> V

  ghost predicate Ordered(o: Producer, s: Scope, h: History) {
    && NextExpected(s) == |h.log|
    && (forall i :: 0 <= i < |h.log| ==> i in h.taken && h.log[i] == o(s.generation, i))
    && |h.log| !in h.taken
  }

  ghost predicate Waiting(o: Producer, s: Scope, h: History) {
    && (forall k :: k in s.pending <==> k in h.taken && k > |h.log|)
    && (forall k :: k in s.pending ==> s.pending[k].payload == o(s.generation, k))
  }

  ghost predicate Windowed(p: Policy, s: Scope, h: History) {
    && s.depth == |h.win|
    && s.window == (if h.win == [] then None else Some(FoldL(p.merge, h.win)))
    && (forall i :: 0 <= i < |h.parts| ==> h.parts[i] != [])
    && h.drained == Folds(p.merge, h.parts)
    && (h.kept ==> Flatten(h.parts) + h.win == h.log)
  }

  ghost predicate Describes(p: Policy, o: Producer, s: Scope, h: History) {
    && Ordered(o, s, h) && Waiting(o, s, h) && Windowed(p, s, h)
    && |s.pending| <= p.reorderWindow
  }

  // -- delivering -------------------------------------------------------------------------------------------

  /** One more payload in the log and the window. */
  function Extend(h: History, v: V): History { h.(log := h.log + [v], win := h.win + [v], taken := h.taken + {|h.log|}) }

  lemma ExtendWindow(p: Policy, s: Scope, h: History, v: V, at: nat)
    requires Windowed(p, s, h)
    ensures Windowed(p, MergeInto(p, s, v, at), Extend(h, v))
  {
    if h.win != [] {
      FoldSnoc(p.merge, h.win, v);
    }
    assert Flatten(h.parts) + (h.win + [v]) == (Flatten(h.parts) + h.win) + [v];
  }

  /** Between the delivery of an envelope and the end of the flush the next sequence may be buffered. */
  ghost predicate Flushing(o: Producer, s: Scope, h: History) {
    && NextExpected(s) == |h.log|
    && (forall i :: 0 <= i < |h.log| ==> i in h.taken && h.log[i] == o(s.generation, i))
    && (forall k :: k in s.pending <==> k in h.taken && k >= |h.log|)
    && (forall k :: k in s.pending ==> s.pending[k].payload == o(s.generation, k))
  }

  function FlushHistory(s: Scope, h: History, p: Policy): History
    decreases |s.pending|
  {
    var next := NextExpected(s);
    if next !in s.pending then h
    else
      var item := s.pending[next];
      Smaller(s.pending, next);
      FlushHistory(MergeInto(p, s.(pending := s.pending - {next}), item.payload, item.stampedAt).(through := Some(next)),
        Extend(h, item.payload), p)
  }

  lemma MergeParts(p: Policy, s: Scope, v: V, at: nat)
    ensures var t := MergeInto(p, s, v, at); t == s.(window := t.window, depth := t.depth, stampedAt := t.stampedAt)
  {
  }

  lemma {:induction false} FlushOk(p: Policy, o: Producer, s: Scope, h: History)
    requires Flushing(o, s, h) && Windowed(p, s, h)
    ensures var t, j := Flush(p, s), FlushHistory(s, h, p);
      && Ordered(o, t, j) && Waiting(o, t, j) && Windowed(p, t, j)
      && t.generation == s.generation && |t.pending| <= |s.pending| && j.taken == h.taken && j.parts == h.parts
    decreases |s.pending|
  {
    hide Windowed, MergeInto, Flushing, Ordered, Waiting;
    var next := NextExpected(s);
    if next in s.pending {
      var item := s.pending[next];
      Smaller(s.pending, next);
      FlushStep(p, o, s, h);
      FlushOk(p, o, MergeInto(p, s.(pending := s.pending - {next}), item.payload, item.stampedAt).(through := Some(next)), Extend(h, item.payload));
    } else {
      FlushDone(o, s, h);
    }
  }

  lemma FlushDone(o: Producer, s: Scope, h: History)
    requires Flushing(o, s, h) && NextExpected(s) !in s.pending
    ensures Ordered(o, s, h) && Waiting(o, s, h)
  {
  }

  /** The next buffered payload joins the log and the window. */
  lemma FlushStep(p: Policy, o: Producer, s: Scope, h: History)
    requires Flushing(o, s, h) && Windowed(p, s, h) && NextExpected(s) in s.pending
    ensures var next := NextExpected(s);
      var item := s.pending[next];
      var s2 := MergeInto(p, s.(pending := s.pending - {next}), item.payload, item.stampedAt).(through := Some(next));
      && Flushing(o, s2, Extend(h, item.payload)) && Windowed(p, s2, Extend(h, item.payload))
      && Extend(h, item.payload).taken == h.taken && s2.generation == s.generation && s2.pending == s.pending - {next}
  {
    hide Windowed, MergeInto;
    var next := NextExpected(s);
    var item := s.pending[next];
    var s1 := s.(pending := s.pending - {next});
    var s2 := MergeInto(p, s1, item.payload, item.stampedAt).(through := Some(next));
    MergeParts(p, s1, item.payload, item.stampedAt);
    WindowSame(p, s, s1, h);
    ExtendWindow(p, s1, h, item.payload, item.stampedAt);
    WindowSame(p, MergeInto(p, s1, item.payload, item.stampedAt), s2, Extend(h, item.payload));
    assert h.taken + {next} == h.taken;
  }

  lemma WindowSame(p: Policy, s: Scope, t: Scope, h: History)
    requires Windowed(p, s, h) && t.window == s.window && t.depth == s.depth
    ensures Windowed(p, t, h)
  {
  }

  /** The history of an in-order delivery. */
  function DeliverHistory(p: Policy, s: Scope, h: History, sequence: nat, at: nat, v: V): History {
    FlushHistory(MergeInto(p, s, v, at).(through := Some(sequence), lifecycle := Live, errors := 0), Extend(h, v), p)
  }

  lemma DeliverOk(p: Policy, o: Producer, s: Scope, h: History, sequence: nat, at: nat)
    requires Describes(p, o, s, h) && sequence == NextExpected(s)
    ensures var v := o(s.generation, sequence);
      var t, j := Deliver(p, s, sequence, at, v), DeliverHistory(p, s, h, sequence, at, v);
      Describes(p, o, t, j) && t.generation == s.generation && j.taken == h.taken + {sequence} && j.parts == h.parts
  {
    hide Windowed;
    var v := o(s.generation, sequence);
    var s1 := MergeInto(p, s, v, at);
    var s2 := s1.(through := Some(sequence), lifecycle := Live, errors := 0);
    ExtendWindow(p, s, h, v, at);
    WindowSame(p, s1, s2, Extend(h, v));
    FlushOk(p, o, s2, Extend(h, v));
  }

  // -- admission ------------------------------------------------------------------------------------------------

  /** Eviction empties the window for good. */
  function Evict(h: History): History { h.(win := [], kept := false) }

  /** Follows the branches of the admission; PlaceOk ties what it takes to the decision returned. */
  function PlaceHistory(p: Policy, s: Scope, h: History, sequence: nat, at: nat, v: V): History {
    var expected := NextExpected(s);
    if sequence < expected then h
    else if sequence > expected then
      if sequence in s.pending || |s.pending| >= p.reorderWindow then h else h.(taken := h.taken + {sequence})
    else if s.depth >= p.highWater && (p.overflow == Block || p.overflow == DropNewest) then h
    else if s.depth >= p.highWater && p.overflow == DropOldest then DeliverHistory(p, Drop(s), Evict(h), sequence, at, v)
    else DeliverHistory(p, s, h, sequence, at, v)
  }

  lemma EvictOk(p: Policy, o: Producer, s: Scope, h: History)
    requires Describes(p, o, s, h)
    ensures Describes(p, o, Drop(s), Evict(h))
  {
  }

  lemma PlaceOk(p: Policy, o: Producer, s: Scope, h: History, sequence: nat, at: nat, handoff: Option<(nat, nat)>)
    requires Describes(p, o, s, h)
    ensures var v := o(s.generation, sequence);
      var ((t, d), j) := (Place(p, s, sequence, at, v, handoff), PlaceHistory(p, s, h, sequence, at, v));
      && Describes(p, o, t, j) && t.generation == s.generation
      && j.taken == (if d.Buffered? || d.Delivered? then h.taken + {sequence} else h.taken)
  {
    hide Windowed, Deliver, DeliverHistory;
    var v := o(s.generation, sequence);
    if sequence > NextExpected(s) && sequence !in s.pending && |s.pending| < p.reorderWindow {
      var t := s.(pending := s.pending[sequence := Item(v, at)]);
      WindowSame(p, s, t, h);
      TakenWindow(p, t, h, h.taken + {sequence});
    } else if sequence == NextExpected(s) {
      EvictOk(p, o, s, h);
      DeliverOk(p, o, Drop(s), Evict(h), sequence, at);
      DeliverOk(p, o, s, h, sequence, at);
    }
  }

  lemma TakenWindow(p: Policy, s: Scope, h: History, taken: set<nat>)
    requires Windowed(p, s, h)
    ensures Windowed(p, s, h.(taken := taken))
  {
  }

  // -- every event of a scope's life ---------------------------------------------------------------------------------

  datatype Event =
    | Arrive(generation: nat, sequence: nat, at: nat)
    | OpenAt(generation: nat)
    | ReconnectAt(generation: nat)
    | SuspendIt
    | CloseIt
    | DrainIt
    | FailIt

  function After(p: Policy, o: Producer, now: nat, s: Scope, e: Event): Scope {
    match e
    case Arrive(g, k, at) => Decide(p, now, s, g, k, at, o(g, k)).0
    case OpenAt(g) => Open(s, g)
    case ReconnectAt(g) => Reconnect(s, g)
    case SuspendIt => Suspend(s)
    case CloseIt => Close(s)
    case DrainIt => Drain(s).0
    case FailIt => Fail(s)
  }

  function Below(n: nat): (r: set<nat>)
    ensures forall i :: i in r <==> 0 <= i < n
  {
    if n == 0 then {} else Below(n - 1) + {n - 1}
  }

  /** What a drain returned. */
  function Returned(h: History, value: Option<V>): History {
    if value.None? then h else h.(win := [], parts := h.parts + [h.win], drained := h.drained + [value.value])
  }

  function Remembers(p: Policy, o: Producer, now: nat, s: Scope, h: History, e: Event): History {
    match e
    case Arrive(g, k, at) =>
      if s.lifecycle == Closed || g < s.generation || now > at + p.freshnessHorizon then h
      else if g > s.generation then PlaceHistory(p, Handoff(s, g), FRESH, k, at, o(g, k))
      else PlaceHistory(p, s, h, k, at, o(g, k))
    case OpenAt(g) =>
      if s.lifecycle == Closed then FRESH
      else if g > s.generation then History([], {}, h.win, [], [], h.win == [])
      else h
    case ReconnectAt(g) => if g > s.generation then FRESH else h
    case SuspendIt => h
    case CloseIt => if s.lifecycle == Closed then h else h.(taken := Below(|h.log|), win := [], kept := false)
    case DrainIt => Returned(h, Drain(s).1)
    case FailIt => h
  }

  lemma FreshOk(p: Policy, o: Producer, s: Scope)
    requires s.through.None? && s.pending == map[] && s.window.None? && s.depth == 0
    ensures Describes(p, o, s, FRESH)
  {
  }

  lemma DrainOk(p: Policy, o: Producer, s: Scope, h: History)
    requires Describes(p, o, s, h) && s.window.Some?
    ensures Describes(p, o, Drop(s), h.(win := [], parts := h.parts + [h.win], drained := h.drained + [s.window.value]))
  {
    var parts := h.parts + [h.win];
    assert parts[..|parts| - 1] == h.parts;
    assert Flatten(parts) + [] == Flatten(h.parts) + h.win;
  }

  lemma StepOk(p: Policy, o: Producer, now: nat, s: Scope, h: History, e: Event)
    requires Describes(p, o, s, h)
    ensures Describes(p, o, After(p, o, now, s, e), Remembers(p, o, now, s, h, e))
  {
    hide Place, PlaceHistory, Describes;
    match e
    case Arrive(g, k, at) =>
      if s.lifecycle != Closed && g >= s.generation && now <= at + p.freshnessHorizon {
        if g > s.generation {
          FreshOk(p, o, Handoff(s, g));
          PlaceOk(p, o, Handoff(s, g), FRESH, k, at, Some((s.generation, g)));
        } else {
          PlaceOk(p, o, s, h, k, at, None);
        }
      }
    case OpenAt(g) => OpenOk(p, o, s, h, g);
    case ReconnectAt(g) =>
      if g > s.generation {
        FreshOk(p, o, Reconnect(s, g));
      } else {
        SameScopeOk(p, o, s, Reconnect(s, g), h);
      }
    case SuspendIt => SameScopeOk(p, o, s, Suspend(s), h);
    case CloseIt => CloseOk(p, o, s, h);
    case DrainIt =>
      if s.window.Some? {
        DrainOk(p, o, s, h);
      }
    case FailIt => SameScopeOk(p, o, s, Fail(s), h);
  }

  /** Lifecycle, errors and stamps do not matter to what was delivered. */
  lemma SameScopeOk(p: Policy, o: Producer, s: Scope, t: Scope, h: History)
    requires Describes(p, o, s, h) && t == s.(lifecycle := t.lifecycle, errors := t.errors)
    ensures Describes(p, o, t, h)
  {
  }

  lemma OpenOk(p: Policy, o: Producer, s: Scope, h: History, g: nat)
    requires Describes(p, o, s, h)
    ensures Describes(p, o, Open(s, g),
      if s.lifecycle == Closed then FRESH else if g > s.generation then History([], {}, h.win, [], [], h.win == []) else h)
  {
  }

  lemma CloseOk(p: Policy, o: Producer, s: Scope, h: History)
    requires Describes(p, o, s, h)
    ensures Describes(p, o, Close(s), if s.lifecycle == Closed then h else h.(taken := Below(|h.log|), win := [], kept := false))
  {
  }

  /** A scope and its history after a list of events, each with the logical time it happened at. */
  function Life(p: Policy, o: Producer, generation: nat, events: seq<(nat, Event)>): (Scope, History)
    decreases |events|
  {
    if events == [] then (NewScope(generation), FRESH)
    else
      var (s, h) := Life(p, o, generation, events[..|events| - 1]);
      var (now, e) := events[|events| - 1];
      (After(p, o, now, s, e), Remembers(p, o, now, s, h, e))
  }

  /**
   In every run: the watermark is the number of payloads delivered, in sequence order, each once;
   exactly the accepted sequences past the first gap wait; the window is the left fold of what was
   delivered since it was last empty; the reorder buffer stays within its bound.
   */
  lemma {:induction false} EveryRun(p: Policy, o: Producer, generation: nat, events: seq<(nat, Event)>)
    ensures var (s, h) := Life(p, o, generation, events); Describes(p, o, s, h)
    decreases |events|
  {
    hide Describes, After, Remembers;
    if events == [] {
      FreshOk(p, o, NewScope(generation));
    } else {
      EveryRun(p, o, generation, events[..|events| - 1]);
      var (s, h) := Life(p, o, generation, events[..|events| - 1]);
      var (now, e) := events[|events| - 1];
      StepOk(p, o, now, s, h, e);
    }
  }

  // -- order does not matter -----------------------------------------------------------------------------------------------

  /** The first sequence not taken is the length of the log, whichever way it was filled. */
  lemma GapUnique(o: Producer, s: Scope, h: History, t: Scope, j: History)
    requires Ordered(o, s, h) && Ordered(o, t, j) && h.taken == j.taken && s.generation == t.generation
    ensures h.log == j.log
  {
    assert |h.log| == |j.log|;
  }

  /** Two scopes of one generation that took the same sequences hold the same watermark and buffer, and delivered the same. */
  lemma SameTakenSameScope(p: Policy, o: Producer, s: Scope, h: History, t: Scope, j: History)
    requires Describes(p, o, s, h) && Describes(p, o, t, j) && h.taken == j.taken && s.generation == t.generation
    ensures s.through == t.through && s.pending.Keys == t.pending.Keys && h.log == j.log
    ensures forall k :: k in s.pending ==> s.pending[k].payload == t.pending[k].payload
  {
    GapUnique(o, s, h, t, j);
  }

  /** A scope that drained nothing and lost nothing shows the fold of all it delivered. */
  lemma UndrainedWindow(p: Policy, o: Producer, s: Scope, h: History)
    requires Describes(p, o, s, h) && h.kept && h.drained == []
    ensures s.window == if h.log == [] then None else Some(FoldL(p.merge, h.log))
  {
    assert Flatten(h.parts) + h.win == h.win;
  }

  /** What the scope has given out, then what it still holds. */
  function GivenOut(s: Scope, h: History): seq<V> { h.drained + if s.window.None? then [] else [s.window.value] }

  function Total(p: Policy, values: seq<V>): Option<V> { if values == [] then None else Some(FoldL(p.merge, values)) }

  /** With an associative merge the values the drains returned and the window fold to the fold of all that was delivered. */
  lemma DrainsFoldToTotal(p: Policy, o: Producer, s: Scope, h: History)
    requires Describes(p, o, s, h) && h.kept && Associative(p.merge)
    ensures Total(p, GivenOut(s, h)) == Total(p, h.log)
  {
    var parts := h.parts + if h.win == [] then [] else [h.win];
    if h.win == [] {
      assert parts == h.parts && Flatten(h.parts) == h.log && GivenOut(s, h) == h.drained;
    } else {
      assert parts[..|h.parts|] == h.parts;
      assert Flatten(parts) == h.log;
      assert GivenOut(s, h) == Folds(p.merge, parts);
    }
    if parts != [] {
      FoldOfFolds(p.merge, parts);
    }
  }

  // -- one generation --------------------------------------------------------------------------------------------------

  /** A run of one generation: no envelope, opening or reconnect of a newer one, no envelope of an older one, no close. */
  ghost predicate OneGeneration(generation: nat, events: seq<(nat, Event)>) {
    forall i :: 0 <= i < |events| ==> WithinGeneration(generation, events[i].1)
  }

  predicate WithinGeneration(generation: nat, e: Event) {
    match e
    case Arrive(g, _, _) => g == generation
    case OpenAt(g) => g <= generation
    case ReconnectAt(g) => g <= generation
    case CloseIt => false
    case _ => true
  }

  function Sequences(events: seq<(nat, Event)>): set<nat> {
    set i | 0 <= i < |events| && events[i].1.Arrive? :: events[i].1.sequence
  }

  /** An arrival that is fresh and, unless it is a duplicate, finds room. */
  predicate HasRoom(p: Policy, now: nat, s: Scope, e: Event) {
    e.Arrive? ==>
      && now <= e.at + p.freshnessHorizon
      && (e.sequence > NextExpected(s) && e.sequence !in s.pending ==> |s.pending| < p.reorderWindow)
      && (e.sequence == NextExpected(s) ==> s.depth < p.highWater || p.overflow == Conflate || p.overflow == Spill)
  }

  ghost predicate Roomy(p: Policy, o: Producer, generation: nat, events: seq<(nat, Event)>)
    decreases |events|
  {
    if events == [] then true
    else
      var before := events[..|events| - 1];
      var (now, e) := events[|events| - 1];
      Roomy(p, o, generation, before) && HasRoom(p, now, Life(p, o, generation, before).0, e)
  }

  /** Nothing was lost, and the scope still is of the generation. */
  ghost predicate Lossless(generation: nat, s: Scope, h: History) { h.kept && s.generation == generation && s.lifecycle != Closed }

  /** With room for every arrival, what was taken is what arrived, and nothing is lost, however drains are interleaved. */
  lemma {:induction false} RoomyTakesAll(p: Policy, o: Producer, generation: nat, events: seq<(nat, Event)>)
    requires OneGeneration(generation, events) && Roomy(p, o, generation, events)
    ensures var (s, h) := Life(p, o, generation, events); h.taken == Sequences(events) && Lossless(generation, s, h)
    decreases |events|
  {
    hide Describes, After, Remembers, HasRoom, Sequences;
    if events == [] {
      NoSequences();
    } else {
      var n := |events| - 1;
      var before := events[..n];
      assert WithinGeneration(generation, events[n].1);
      assert OneGeneration(generation, before);
      RoomyTakesAll(p, o, generation, before);
      EveryRun(p, o, generation, before);
      var (s, h) := Life(p, o, generation, before);
      var (now, e) := events[n];
      SequencesSnoc(before, events[n]);
      assert events == before + [events[n]];
      RoomyStep(p, o, generation, s, h, e, now);
    }
  }

  lemma NoSequences()
    ensures Sequences([]) == {}
  {
  }

  lemma SequencesSnoc(events: seq<(nat, Event)>, e: (nat, Event))
    ensures Sequences(events + [e]) == Sequences(events) + if e.1.Arrive? then {e.1.sequence} else {}
  {
    var all := events + [e];
    assert all[|events|] == e;
    forall k | k in Sequences(events) ensures k in Sequences(all) {
      var i :| 0 <= i < |events| && events[i].1.Arrive? && events[i].1.sequence == k;
      assert all[i] == events[i];
    }
  }

  lemma RoomyStep(p: Policy, o: Producer, generation: nat, s: Scope, h: History, e: Event, now: nat)
    requires Describes(p, o, s, h) && Lossless(generation, s, h) && WithinGeneration(generation, e) && HasRoom(p, now, s, e)
    ensures var t, j := After(p, o, now, s, e), Remembers(p, o, now, s, h, e);
      j.taken == h.taken + (if e.Arrive? then {e.sequence} else {}) && Lossless(generation, t, j)
  {
    hide Describes, Decide, PlaceHistory;
    if e.Arrive? {
      ArrivalTaken(p, o, s, h, e, now);
    }
  }

  lemma ArrivalTaken(p: Policy, o: Producer, s: Scope, h: History, e: Event, now: nat)
    requires Describes(p, o, s, h) && e.Arrive? && Lossless(e.generation, s, h) && HasRoom(p, now, s, e)
    ensures var t, j := After(p, o, now, s, e), Remembers(p, o, now, s, h, e);
      j.taken == h.taken + {e.sequence} && Lossless(e.generation, t, j)
  {
    hide Deliver, DeliverHistory, Windowed;
    PlaceOk(p, o, s, h, e.sequence, e.at, None);
    var v := o(e.generation, e.sequence);
    if e.sequence == NextExpected(s) {
      DeliverOk(p, o, s, h, e.sequence, e.at);
      DeliverKeeps(p, s, h, e.sequence, e.at, v);
    }
  }

  lemma DeliverKeeps(p: Policy, s: Scope, h: History, sequence: nat, at: nat, v: V)
    ensures DeliverHistory(p, s, h, sequence, at, v).kept == h.kept
    ensures Deliver(p, s, sequence, at, v).lifecycle == Live
  {
    FlushKeeps(p, MergeInto(p, s, v, at).(through := Some(sequence), lifecycle := Live, errors := 0), Extend(h, v));
  }

  lemma {:induction false} FlushKeeps(p: Policy, s: Scope, h: History)
    ensures FlushHistory(s, h, p).kept == h.kept && Flush(p, s).lifecycle == s.lifecycle
    decreases |s.pending|
  {
    var next := NextExpected(s);
    if next in s.pending {
      var item := s.pending[next];
      Smaller(s.pending, next);
      FlushKeeps(p, MergeInto(p, s.(pending := s.pending - {next}), item.payload, item.stampedAt).(through := Some(next)), Extend(h, item.payload));
    }
  }

  /**
   Convergence under reordering: any two runs in which the same sequences arrive, in any order, with any
   duplicates and under any two drain schedules, end with the same watermark and the same sequences
   waiting. If neither drained a value they show the same window; under an associative merge the values
   returned and the window fold to the same total anyway.
   */
  lemma ArrivalOrderDoesNotMatter(p: Policy, o: Producer, generation: nat, a: seq<(nat, Event)>, b: seq<(nat, Event)>)
    requires OneGeneration(generation, a) && OneGeneration(generation, b) && Roomy(p, o, generation, a) && Roomy(p, o, generation, b)
    requires Sequences(a) == Sequences(b)
    ensures var ((s, h), (t, j)) := (Life(p, o, generation, a), Life(p, o, generation, b));
      && s.through == t.through && s.pending.Keys == t.pending.Keys
      && (forall k :: k in s.pending ==> s.pending[k].payload == t.pending[k].payload)
      && (h.drained == [] && j.drained == [] ==> s.window == t.window)
      && (Associative(p.merge) ==> Total(p, GivenOut(s, h)) == Total(p, GivenOut(t, j)))
  {
    hide Life, Roomy, Describes, OneGeneration, Total, GivenOut;
    RoomyTakesAll(p, o, generation, a);
    RoomyTakesAll(p, o, generation, b);
    EveryRun(p, o, generation, a);
    EveryRun(p, o, generation, b);
    var (s, h) := Life(p, o, generation, a);
    var (t, j) := Life(p, o, generation, b);
    SameTakenSameScope(p, o, s, h, t, j);
    if h.drained == [] && j.drained == [] {
      UndrainedWindow(p, o, s, h);
      UndrainedWindow(p, o, t, j);
    }
    if Associative(p.merge) {
      DrainsFoldToTotal(p, o, s, h);
      DrainsFoldToTotal(p, o, t, j);
    }
  }
}
