/** What the relay answers in every run, told from its earlier answers alone, and how far its window grows. */
module RelayAnswers {
  import opened Basics
  import opened Folding
  import opened RelayModel

  // -- answers -----------------------------------------------------------------------------------------------

  /** The count is that of the operations taken since the window was last drained or evicted. */
  lemma {:induction false} PendingIsWindow<V>(c: Policy<V>, events: seq<Event<V>>)
    ensures Play(c, events).0.pending == |Play(c, events).1.win|
    decreases |events|
  {
    if events != [] {
      PendingIsWindow(c, events[..|events| - 1]);
    }
  }

  predicate Full<V>(t: Trace<V>, limits: Limits) { |t.win| >= limits.highWater }

  /**
   The outcome of the next operation. With a full window it is blocked under Block, and dropped, or taken in
   place of the window, under the two dropping policies; otherwise it is accepted into an empty window and
   conflated into another. An operation that is blocked or dropped as the newest changes nothing.
   */
  lemma OutcomeInEveryRun<V>(c: Policy<V>, events: seq<Event<V>>, op: V, limits: Limits)
    ensures var ((r, t), (s, outcome)) := (Play(c, events), Ingress(c, Play(c, events).0, op, limits));
      && (outcome == Blocked <==> Full(t, limits) && limits.overflow == Block)
      && (outcome == Dropped <==> Full(t, limits) && (limits.overflow == DropNewest || limits.overflow == DropOldest))
      && (outcome == Accepted ==> t.win == []) && (outcome == Conflated ==> t.win != [])
      && (outcome == Blocked || (outcome == Dropped && limits.overflow == DropNewest) ==> s == r)
      && s.pending == (if outcome == Dropped && limits.overflow == DropOldest then 1
                       else if outcome == Accepted || outcome == Conflated then |t.win| + 1 else |t.win|)
  {
    PendingIsWindow(c, events);
  }

  /** When each call stored what it should, a drain hands over the fold of everything since the last, if there was anything. */
  lemma DrainInEveryRun<V(!new)>(c: Policy<V>, events: seq<Event<V>>)
    requires Marks(c) && AllStored(c, events)
    ensures var ((r, t), (s, window)) := (Play(c, events), Drain(c, Play(c, events).0));
      && window == (if t.win == [] then None else Some(FoldL(c.merge, t.win))) && s == Empty(c)
  {
    hide Play, AllStored;
    PlayExplains(c, events);
    var (r, t) := Play(c, events);
    ExplainedWindow(c, r, t);
  }

  lemma ExplainedWindow<V>(c: Policy<V>, r: Relay<V>, t: Trace<V>)
    requires Explains(c, r, t)
    ensures r.pending == |t.win| && (if t.win == [] then r.head == c.nil else r.head == FoldL(c.merge, t.win) && r.head != c.nil)
  {
  }

  // -- bounds ---------------------------------------------------------------------------------------------------

  /** Every operation is offered under a bounding policy with at most this high-water mark. */
  ghost predicate Bounding<V>(events: seq<Event<V>>, most: nat) {
    forall i :: 0 <= i < |events| && events[i].Op? ==>
      events[i].limits.highWater <= most && events[i].limits.overflow in {Block, DropNewest, DropOldest}
  }

  /** Under the bounding policies no window holds more operations than the mark, or one. */
  lemma {:induction false} WindowIsBounded<V>(c: Policy<V>, events: seq<Event<V>>, most: nat)
    requires Bounding(events, most)
    ensures |Play(c, events).1.win| <= Max(most, 1)
    decreases |events|
  {
    PendingIsWindow(c, events);
    if events != [] {
      WindowIsBounded(c, events[..|events| - 1], most);
      PendingIsWindow(c, events[..|events| - 1]);
    }
  }

  // -- frames -------------------------------------------------------------------------------------------------------

  /** A poll hands over a full frame, or all that is buffered. */
  lemma FrameSizes<V>(buf: seq<V>, size: nat)
    ensures var (frame, rest) := Poll(buf, size); frame + rest == buf && |frame| == Min(size, |buf|)
  {
  }
}
