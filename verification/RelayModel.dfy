/** The conflating relay: whatever the drain schedule and the framing, the egress folds to the same total. */
module RelayModel {
  import opened Basics
  import opened Folding

  datatype Overflow = Block | DropNewest | DropOldest | Conflate | Spill
  datatype Limits = Limits(highWater: nat, overflow: Overflow)
  datatype Outcome = Accepted | Conflated | Dropped | Blocked

  /**
   How operations merge, which values the cell that holds the head takes for equal and then does not
   store, and the value that marks an empty window.
   */
  datatype Policy<!V> = Policy(merge: (V, V) -> V, same: (V, V) -> bool, nil: V)

  /** The window so far: its merged value, the marker when empty, and how many operations went into it. */
  datatype Relay<V> = Relay(head: V, pending: nat)

  function Empty<V>(c: Policy<V>): Relay<V> { Relay(c.nil, 0) }

  /** A write to the head: an equal value is not stored. */
  function Store<V>(c: Policy<V>, head: V, value: V): V { if c.same(head, value) then head else value }

  function MergeIn<V(==)>(c: Policy<V>, head: V, op: V): V { if head == c.nil then op else c.merge(head, op) }

  /** One operation under the limits in force now. */
  function Ingress<V(==)>(c: Policy<V>, r: Relay<V>, op: V, limits: Limits): (Relay<V>, Outcome) {
    if r.pending >= limits.highWater && limits.overflow == Block then (r, Blocked)
    else if r.pending >= limits.highWater && limits.overflow == DropNewest then (r, Dropped)
    else if r.pending >= limits.highWater && limits.overflow == DropOldest then (Relay(Store(c, r.head, op), 1), Dropped)
    else
      (Relay(Store(c, r.head, MergeIn(c, r.head, op)), r.pending + 1), if r.pending == 0 then Accepted else Conflated)
  }

  /** What it returns is None for the marker: a window that holds it stays as it is. */
  function Drain<V(==)>(c: Policy<V>, r: Relay<V>): (Relay<V>, Option<V>) {
    if r.head == c.nil then (r, None) else (Relay(Store(c, r.head, c.nil), 0), Some(r.head))
  }

  // -- runs -------------------------------------------------------------------------------------------

  /** The limits are read at each operation: they may be retuned in between. */
  datatype Event<V> = Op(op: V, limits: Limits) | Pull

  /** What went in and came out: drained windows with the operations each folds, and the current window's. */
  datatype Trace<V> = Trace(accepted: seq<V>, parts: seq<seq<V>>, win: seq<V>, out: seq<V>, evicted: bool)

  function NoTrace<V>(): Trace<V> { Trace([], [], [], [], false) }

  function After<V(==)>(c: Policy<V>, r: Relay<V>, e: Event<V>): Relay<V> {
    match e
    case Op(op, limits) => Ingress(c, r, op, limits).0
    case Pull => Drain(c, r).0
  }

  /** Recorded from what each call returned; under DropOldest the outcome Dropped is about the window, not the operation. */
  function Traced<V(==)>(c: Policy<V>, r: Relay<V>, t: Trace<V>, e: Event<V>): Trace<V> {
    match e
    case Op(op, limits) =>
      (match Ingress(c, r, op, limits).1
       case Accepted => t.(accepted := t.accepted + [op], win := t.win + [op])
       case Conflated => t.(accepted := t.accepted + [op], win := t.win + [op])
       case Dropped =>
         if limits.overflow == DropOldest then Trace(t.accepted + [op], t.parts, [op], t.out, t.evicted || t.win != []) else t
       case Blocked => t)
    case Pull =>
      (match Drain(c, r).1
       case None => t
       case Some(value) => t.(parts := t.parts + [t.win], win := [], out := t.out + [value]))
  }

  function Play<V(==)>(c: Policy<V>, events: seq<Event<V>>): (Relay<V>, Trace<V>)
    decreases |events|
  {
    if events == [] then (Empty(c), NoTrace())
    else
      var (r, t) := Play(c, events[..|events| - 1]);
      (After(c, r, events[|events| - 1]), Traced(c, r, t, events[|events| - 1]))
  }

  // -- when the head is the fold of its window -----------------------------------------------------------

  /** The marker is equal to itself only. */
  ghost predicate Marks<V(!new)>(c: Policy<V>) { forall x :: (c.same(c.nil, x) <==> x == c.nil) && (c.same(x, c.nil) <==> x == c.nil) }

  ghost predicate Explains<V>(c: Policy<V>, r: Relay<V>, t: Trace<V>) {
    && r.pending == |t.win|
    && (if t.win == [] then r.head == c.nil else r.head == FoldL(c.merge, t.win) && r.head != c.nil)
    && (forall i :: 0 <= i < |t.parts| ==> t.parts[i] != []) && t.out == Folds(c.merge, t.parts)
    && (!t.evicted ==> Flatten(t.parts) + t.win == t.accepted)
  }

  /** What an operation would put in the head, if it is not refused. */
  function Next<V(==)>(c: Policy<V>, r: Relay<V>, op: V, limits: Limits): V {
    if r.pending >= limits.highWater && limits.overflow == DropOldest then op else MergeIn(c, r.head, op)
  }

  predicate Refused<V>(r: Relay<V>, limits: Limits) {
    r.pending >= limits.highWater && (limits.overflow == Block || limits.overflow == DropNewest)
  }

  /** The value to store is not the marker, and the cell does not take another one for it: a caller can tell before the call. */
  predicate Storable<V(==)>(c: Policy<V>, r: Relay<V>, e: Event<V>) {
    match e
    case Pull => true
    case Op(op, limits) =>
      Refused(r, limits) ||
      var next := Next(c, r, op, limits);
      next != c.nil && (c.same(r.head, next) ==> next == r.head)
  }

  lemma MergedExplains<V>(c: Policy<V>, r: Relay<V>, t: Trace<V>, op: V)
    requires Explains(c, r, t)
    ensures var s := Relay(MergeIn(c, r.head, op), r.pending + 1);
      Explains(c, s, t.(accepted := t.accepted + [op], win := t.win + [op])) <==> s.head != c.nil
    ensures FoldL(c.merge, t.win + [op]) == MergeIn(c, r.head, op)
  {
    if t.win != [] {
      FoldSnoc(c.merge, t.win, op);
    }
    assert Flatten(t.parts) + (t.win + [op]) == (Flatten(t.parts) + t.win) + [op];
  }

  lemma EvictedExplains<V>(c: Policy<V>, r: Relay<V>, t: Trace<V>, op: V)
    requires Explains(c, r, t)
    ensures Explains(c, Relay(op, 1), Trace(t.accepted + [op], t.parts, [op], t.out, t.evicted || t.win != [])) <==> op != c.nil
  {
    if t.win == [] {
      assert Flatten(t.parts) + t.win == Flatten(t.parts);
    }
  }

  lemma PulledExplains<V>(c: Policy<V>, r: Relay<V>, t: Trace<V>)
    requires Explains(c, r, t) && r.head != c.nil
    ensures Explains(c, Empty(c), t.(parts := t.parts + [t.win], win := [], out := t.out + [r.head]))
  {
    var parts := t.parts + [t.win];
    assert parts[..|parts| - 1] == t.parts;
    assert Flatten(parts) + [] == Flatten(t.parts) + t.win;
  }

  /**
   A call leaves the head the fold of its window, and the history's account of it right, exactly when it
   is refused, a drain, or stores a value that is neither the marker nor taken for another one.
   */
  lemma StepExplains<V(!new)>(c: Policy<V>, r: Relay<V>, t: Trace<V>, e: Event<V>)
    requires Marks(c) && Explains(c, r, t)
    ensures Explains(c, After(c, r, e), Traced(c, r, t, e)) <==> Storable(c, r, e)
  {
    hide Explains, MergeIn;
    match e
    case Op(op, limits) =>
      MergedExplains(c, r, t, op);
      EvictedExplains(c, r, t, op);
      if !Refused(r, limits) {
        var next := Next(c, r, op, limits);
        var u := Traced(c, r, t, e);
        var s := After(c, r, e);
        WindowFold(c, s, u, next);
      }
    case Pull =>
      if r.head != c.nil {
        PulledExplains(c, r, t);
      }
  }

  lemma WindowFold<V>(c: Policy<V>, s: Relay<V>, u: Trace<V>, next: V)
    requires u.win != [] && FoldL(c.merge, u.win) == next
    ensures Explains(c, s, u) ==> s.head == next && next != c.nil
    ensures Explains(c, s.(head := next), u) && s.head == next ==> Explains(c, s, u)
  {
  }

  /** Every call of the run stores what it should. */
  ghost predicate AllStored<V>(c: Policy<V>, events: seq<Event<V>>)
    decreases |events|
  {
    if events == [] then true
    else
      var before := events[..|events| - 1];
      AllStored(c, before) && Storable(c, Play(c, before).0, events[|events| - 1])
  }

  lemma {:induction false} PlayExplains<V(!new)>(c: Policy<V>, events: seq<Event<V>>)
    requires Marks(c) && AllStored(c, events)
    ensures var (r, t) := Play(c, events); Explains(c, r, t)
    decreases |events|
  {
    hide Explains, After, Traced, Storable, Marks;
    if events == [] {
      EmptyExplains(c);
    } else {
      PlayExplains(c, events[..|events| - 1]);
      var (r, t) := Play(c, events[..|events| - 1]);
      StepExplains(c, r, t, events[|events| - 1]);
    }
  }

  lemma EmptyExplains<V>(c: Policy<V>)
    ensures Explains(c, Empty(c), NoTrace())
  {
  }

  /** Values among which the cell tells any two apart, and that neither are the marker nor merge to it. */
  ghost predicate Plain<V(!new)>(c: Policy<V>, P: iset<V>) {
    && c.nil !in P && (forall a, b :: a in P && b in P ==> c.merge(a, b) in P)
    && (forall a, b :: a in P && b in P && c.same(a, b) ==> a == b)
  }

  ghost predicate Uses<V>(events: seq<Event<V>>, P: iset<V>) {
    forall i :: 0 <= i < |events| && events[i].Op? ==> events[i].op in P
  }

  /** On such values every call of every run stores what it should. */
  lemma {:induction false} PlainStored<V(!new)>(c: Policy<V>, events: seq<Event<V>>, P: iset<V>)
    requires Marks(c) && Plain(c, P) && Uses(events, P)
    ensures AllStored(c, events) && var r := Play(c, events).0; r.head == c.nil || r.head in P
    decreases |events|
  {
    if events != [] {
      var before, e := events[..|events| - 1], events[|events| - 1];
      PlainStored(c, before, P);
      PlainStep(c, Play(c, before).0, e, P);
    }
  }

  lemma PlainStep<V(!new)>(c: Policy<V>, r: Relay<V>, e: Event<V>, P: iset<V>)
    requires Marks(c) && Plain(c, P) && (e.Op? ==> e.op in P) && (r.head == c.nil || r.head in P)
    ensures Storable(c, r, e) && var s := After(c, r, e); s.head == c.nil || s.head in P
  {
  }

  // -- egress ------------------------------------------------------------------------------------------------

  /** What a consumer that pulls everything folds: the drained values, then the head. */
  function Egress<V(==)>(c: Policy<V>, r: Relay<V>, t: Trace<V>): seq<V> { t.out + if r.head == c.nil then [] else [r.head] }

  /** The drained windows and the head fold to the fold of every accepted operation, for any schedule of drains. */
  lemma EgressIsFlatFold<V(!new)>(c: Policy<V>, events: seq<Event<V>>)
    requires Associative(c.merge) && Marks(c) && AllStored(c, events)
    ensures var (r, t) := Play(c, events);
      !t.evicted && t.accepted != [] ==> Egress(c, r, t) != [] && FoldL(c.merge, Egress(c, r, t)) == FoldL(c.merge, t.accepted)
  {
    hide Play, AllStored, Marks;
    PlayExplains(c, events);
    var (r, t) := Play(c, events);
    if !t.evicted && t.accepted != [] {
      ExplainedEgress(c, r, t);
    }
  }

  lemma ExplainedEgress<V(!new)>(c: Policy<V>, r: Relay<V>, t: Trace<V>)
    requires Associative(c.merge) && Explains(c, r, t) && !t.evicted && t.accepted != []
    ensures Egress(c, r, t) != [] && FoldL(c.merge, Egress(c, r, t)) == FoldL(c.merge, t.accepted)
  {
    var parts := t.parts + if t.win == [] then [] else [t.win];
    if t.win == [] {
      assert parts == t.parts && Egress(c, r, t) == t.out;
      assert Flatten(parts) == t.accepted;
    } else {
      assert parts[..|t.parts|] == t.parts;
      assert Folds(c.merge, parts) == Folds(c.merge, t.parts) + [FoldL(c.merge, t.win)];
      assert Flatten(parts) == t.accepted;
    }
    FoldOfFolds(c.merge, parts);
  }

  /** Two schedules that accept the same operations and evict none fold to the same total. */
  lemma ScheduleDoesNotMatter<V(!new)>(c: Policy<V>, a: seq<Event<V>>, b: seq<Event<V>>)
    requires Associative(c.merge) && Marks(c) && AllStored(c, a) && AllStored(c, b)
    ensures var ((r, t), (s, u)) := (Play(c, a), Play(c, b));
      !t.evicted && !u.evicted && t.accepted == u.accepted && t.accepted != [] ==>
        && Egress(c, r, t) != [] && Egress(c, s, u) != []
        && FoldL(c.merge, Egress(c, r, t)) == FoldL(c.merge, Egress(c, s, u))
  {
    hide Play, Egress, AllStored, Marks;
    EgressIsFlatFold(c, a);
    EgressIsFlatFold(c, b);
  }

  predicate Lossless<V>(events: seq<Event<V>>) {
    forall i :: 0 <= i < |events| ==> events[i].Op? ==> events[i].limits.overflow in {Conflate, Spill, Block}
  }

  function Offered<V>(events: seq<Event<V>>): seq<V> {
    if events == [] then []
    else Offered(events[..|events| - 1]) + if events[|events| - 1].Op? then [events[|events| - 1].op] else []
  }

  /**
   Conflate, Spill and Block never evict, and without Block every offered operation is accepted; if each
   call stored what it should, the drained windows and the current one are the accepted operations, in order.
   */
  lemma LosslessKeeps<V(!new)>(c: Policy<V>, events: seq<Event<V>>)
    requires Marks(c) && Lossless(events)
    ensures var (r, t) := Play(c, events);
      && !t.evicted
      && ((forall i :: 0 <= i < |events| && events[i].Op? ==> events[i].limits.overflow != Block) ==> t.accepted == Offered(events))
      && (AllStored(c, events) ==>
            && Flatten(t.parts) + t.win == t.accepted
            && (forall i :: 0 <= i < |t.parts| ==> t.parts[i] != []) && t.out == Folds(c.merge, t.parts)
            && r.head == if t.win == [] then c.nil else FoldL(c.merge, t.win))
  {
    hide AllStored, Marks;
    LosslessAccepts(c, events);
    if AllStored(c, events) {
      PlayExplains(c, events);
    }
  }

  lemma {:induction false} LosslessAccepts<V(!new)>(c: Policy<V>, events: seq<Event<V>>)
    requires Lossless(events)
    ensures !Play(c, events).1.evicted
    ensures (forall i :: 0 <= i < |events| && events[i].Op? ==> events[i].limits.overflow != Block) ==>
      Play(c, events).1.accepted == Offered(events)
    decreases |events|
  {
    if events != [] {
      LosslessAccepts(c, events[..|events| - 1]);
      assert events[|events| - 1].Op? ==> events[|events| - 1].limits.overflow in {Conflate, Spill, Block};
    }
  }

  // -- when a call does not store what it should --------------------------------------------------------------

  const ROOMY := Limits(16, Conflate)

  /** Two operations drained together, and one by one. */
  function Together<V>(x: V, y: V): seq<Event<V>> { [Op(x, ROOMY), Op(y, ROOMY), Pull] }
  function Apart<V>(x: V, y: V): seq<Event<V>> { [Op(x, ROOMY), Pull, Op(y, ROOMY), Pull] }

  lemma PlaySnoc<V>(c: Policy<V>, events: seq<Event<V>>, e: Event<V>)
    ensures Play(c, events + [e]) == (var (r, t) := Play(c, events); (After(c, r, e), Traced(c, r, t, e)))
  {
    assert (events + [e])[..|events|] == events;
  }

  lemma PlayTogether<V(!new)>(c: Policy<V>, x: V, y: V)
    requires Marks(c) && x != c.nil
    ensures var (r, t) := Play(c, Together(x, y));
      var head := Store(c, x, c.merge(x, y));
      t.accepted == [x, y] && !t.evicted && Egress(c, r, t) == (if head == c.nil then [] else [head])
      && (head == c.nil ==> r == Relay(c.nil, 2))
  {
    hide Play;
    PlayOne(c, x);
    PlaySnoc(c, [Op(x, ROOMY)], Op(y, ROOMY));
    PlaySnoc(c, [Op(x, ROOMY)] + [Op(y, ROOMY)], Pull);
    assert [Op(x, ROOMY)] + [Op(y, ROOMY)] + [Pull] == Together(x, y);
    assert [x] + [y] == [x, y];
  }

  lemma PlayOne<V(!new)>(c: Policy<V>, x: V)
    requires Marks(c) && x != c.nil
    ensures Play(c, [Op(x, ROOMY)]) == (Relay(x, 1), Trace([x], [], [x], [], false))
  {
    PlaySnoc(c, [], Op(x, ROOMY));
    assert [] + [Op(x, ROOMY)] == [Op(x, ROOMY)] && [] + [x] == [x];
  }

  lemma PlayApart<V(!new)>(c: Policy<V>, x: V, y: V)
    requires Marks(c) && x != c.nil
    ensures var (r, t) := Play(c, Apart(x, y));
      t.accepted == [x, y] && !t.evicted && Egress(c, r, t) == (if y == c.nil then [x] else [x, y])
  {
    hide Play;
    PlayOne(c, x);
    PlaySnoc(c, [Op(x, ROOMY)], Pull);
    PlaySnoc(c, [Op(x, ROOMY)] + [Pull], Op(y, ROOMY));
    PlaySnoc(c, [Op(x, ROOMY)] + [Pull] + [Op(y, ROOMY)], Pull);
    assert [Op(x, ROOMY)] + [Pull] + [Op(y, ROOMY)] + [Pull] == Apart(x, y);
    assert [x] + [y] == [x, y] && [] + [x] == [x];
  }

  /**
   Two lossless schedules of any two operations end with the same total exactly when the second one's
   merge is stored: is not the marker, and is not taken for a different value.
   */
  lemma DrainMattersIff<V(!new)>(c: Policy<V>, x: V, y: V)
    requires Marks(c) && x != c.nil && y != c.nil
    ensures var ((r, t), (s, u)) := (Play(c, Together(x, y)), Play(c, Apart(x, y)));
      && t.accepted == u.accepted == [x, y] && !t.evicted && !u.evicted && Egress(c, s, u) == [x, y]
      && (Egress(c, r, t) == [FoldL(c.merge, [x, y])] <==>
            c.merge(x, y) != c.nil && (c.same(x, c.merge(x, y)) ==> c.merge(x, y) == x))
  {
    hide Play, Egress;
    PlayTogether(c, x, y);
    PlayApart(c, x, y);
    assert [x, y][..1] == [x];
  }

  /** Sets under union, None for null: the cell compares own keys, of which a set has none, so takes any two for equal. */
  const SET_UNION: Policy<Option<set<nat>>> :=
    Policy((a: Option<set<nat>>, b: Option<set<nat>>) => if a.Some? && b.Some? then Some(a.value + b.value) else b,
           (a: Option<set<nat>>, b: Option<set<nat>>) => a.Some? == b.Some?, None)

  /** Drained together, {1} and {2} come out as {1}; drained one by one they fold to {1, 2}. */
  lemma UnionIsDropped()
    ensures var ((r, t), (s, u)) := (Play(SET_UNION, Together(Some({1}), Some({2}))), Play(SET_UNION, Apart(Some({1}), Some({2}))));
      && t.accepted == u.accepted && !t.evicted && !u.evicted
      && Egress(SET_UNION, r, t) == [Some({1})] && FoldL(SET_UNION.merge, Egress(SET_UNION, s, u)) == Some({1, 2})
  {
    hide Play, Egress;
    PlayTogether(SET_UNION, Some({1}), Some({2}));
    PlayApart(SET_UNION, Some({1}), Some({2}));
    assert [Some({1}), Some({2})][..1] == [Some({1})];
    assert 2 in {1, 2} && {1} + {2} == {1, 2};
  }

  /** Numbers and null, the last one kept. */
  const KEEP_LATEST: Policy<Option<nat>> :=
    Policy((_: Option<nat>, b: Option<nat>) => b, (a: Option<nat>, b: Option<nat>) => a == b, None)

  /** 1 and null, drained together, come out as nothing, and the window never drains; with a drain between, 1 comes out. */
  lemma NullIsLost()
    ensures var ((r, t), (s, u)) := (Play(KEEP_LATEST, Together(Some(1), None)), Play(KEEP_LATEST, Apart(Some(1), None)));
      && t.accepted == u.accepted && !t.evicted && !u.evicted
      && Egress(KEEP_LATEST, r, t) == [] && r.pending == 2 && Egress(KEEP_LATEST, s, u) == [Some(1)]
  {
    hide Play, Egress;
    PlayTogether(KEEP_LATEST, Some(1), None);
    PlayApart(KEEP_LATEST, Some(1), None);
  }

  // -- framing ------------------------------------------------------------------------------------------------

  /** A poll hands over at most `size` of what is buffered, oldest first. */
  function Poll<V>(buf: seq<V>, size: nat): (seq<V>, seq<V>) {
    var n := if size < |buf| then size else |buf|;
    (buf[..n], buf[n..])
  }

  datatype Wire<V> = Send(op: V) | Receive

  /** What was received and what is still in flight, for frames of at most `size`. */
  function Carry<V>(events: seq<Wire<V>>, size: nat): (seq<V>, seq<V>)
    decreases |events|
  {
    if events == [] then ([], [])
    else
      var (got, buf) := Carry(events[..|events| - 1], size);
      match events[|events| - 1]
      case Send(op) => (got, buf + [op])
      case Receive => (got + Poll(buf, size).0, Poll(buf, size).1)
  }

  function SentOver<V>(events: seq<Wire<V>>): seq<V> {
    if events == [] then []
    else SentOver(events[..|events| - 1]) + if events[|events| - 1].Send? then [events[|events| - 1].op] else []
  }

  lemma PollKeeps<V>(got: seq<V>, buf: seq<V>, size: nat)
    ensures got + Poll(buf, size).0 + Poll(buf, size).1 == got + buf
  {
  }

  lemma SendKeeps<V>(got: seq<V>, buf: seq<V>, op: V)
    ensures got + (buf + [op]) == got + buf + [op]
  {
  }

  /** Frames of any size hand over the same stream: received and in flight together are what was sent, in order. */
  lemma {:induction false} FramesPreserveOrder<V>(events: seq<Wire<V>>, size: nat)
    ensures Carry(events, size).0 + Carry(events, size).1 == SentOver(events)
    decreases |events|
  {
    hide Poll;
    if events == [] {
      var none: seq<V> := [];
      assert none + none == none;
    } else {
      var before := events[..|events| - 1];
      FramesPreserveOrder(before, size);
      var (got, buf) := Carry(before, size);
      match events[|events| - 1]
      case Send(op) => SendKeeps(got, buf, op);
      case Receive =>
        PollKeeps(got, buf, size);
        assert got + buf + [] == got + buf;
    }
  }

  /**
   A link: what one relay's egress folds to is what a second relay folds to after taking it as
   operations, whatever the frames between them and both drain schedules.
   */
  lemma LinkConverges<V(!new)>(c: Policy<V>, a: seq<Event<V>>, b: seq<Event<V>>)
    requires Associative(c.merge) && Marks(c) && AllStored(c, a) && AllStored(c, b)
    ensures var ((r, t), (s, u)) := (Play(c, a), Play(c, b));
      !t.evicted && !u.evicted && t.accepted != [] && u.accepted == Egress(c, r, t) ==>
        Egress(c, s, u) != [] && FoldL(c.merge, Egress(c, s, u)) == FoldL(c.merge, t.accepted)
  {
    hide Play, Egress, AllStored, Marks;
    EgressIsFlatFold(c, a);
    EgressIsFlatFold(c, b);
  }
}
