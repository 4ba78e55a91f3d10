/** The paged durable tail: reconstruction is the flat fold, replay is absorbed, and when a page may still grow. */
module SpillModel {
  import opened Basics
  import opened Folding

  type V(==, !new)
  type Merge = (V, V) -> V

  datatype Mode = CompactOnWrite | AppendCompact
  datatype Page = Page(id: nat, summary: V, bytes: nat)

  /** `acked` pages from the front are acknowledged; `openFill` windows went into the last page. */
  datatype Tail = Tail(mode: Mode, pageSize: nat, pages: seq<Page>, openFill: nat, nextId: nat, acked: nat)

  function NewTail(mode: Mode, pageSize: nat): Tail { Tail(mode, if pageSize == 0 then 1 else pageSize, [], 0, 0, 0) }

  function PushPage(t: Tail, window: V, bytes: nat): Tail {
    t.(pages := t.pages + [Page(t.nextId, window, bytes)], nextId := t.nextId + 1)
  }

  /** Whether the next window goes into the last page. */
  predicate Merges(t: Tail) { t.mode == CompactOnWrite && t.openFill < t.pageSize && t.pages != [] }

  function Spill(m: Merge, t: Tail, window: V, bytes: nat): Tail {
    if Merges(t) then
      var last := t.pages[|t.pages| - 1];
      t.(pages := t.pages[|t.pages| - 1 := last.(summary := m(last.summary, window), bytes := last.bytes + bytes)],
         openFill := t.openFill + 1)
    else if t.mode == AppendCompact then PushPage(t, window, bytes)
    else PushPage(t, window, bytes).(openFill := 1)
  }

  function AckThrough(t: Tail, id: nat): Tail
    decreases |t.pages| - t.acked
  {
    if t.acked < |t.pages| && t.pages[t.acked].id <= id then AckThrough(t.(acked := t.acked + 1), id) else t
  }

  function Reclaim(t: Tail): Tail { if 0 < t.acked <= |t.pages| then t.(pages := t.pages[t.acked..], acked := 0) else t }

  function Summaries(pages: seq<Page>): (r: seq<V>)
    ensures |r| == |pages| && forall i :: 0 <= i < |r| ==> r[i] == pages[i].summary
  {
    seq(|pages|, i requires 0 <= i < |pages| => pages[i].summary)
  }

  function PendingPages(t: Tail): seq<Page>
    requires t.acked <= |t.pages|
  {
    t.pages[t.acked..]
  }

  function FoldPages(m: Merge, t: Tail, s0: V): V { FoldFrom(m, s0, Summaries(t.pages)) }

  function Reconstruct(m: Merge, t: Tail, s0: V, hot: Option<V>): V {
    var cold := FoldPages(m, t, s0);
    if hot.None? then cold else m(cold, hot.value)
  }

  function ReplayUnacked(m: Merge, t: Tail, downstream: V): V
    requires t.acked <= |t.pages|
  {
    FoldFrom(m, downstream, Summaries(PendingPages(t)))
  }

  // -- spilling only -----------------------------------------------------------------------------------

  /** The tail after windows were spilled and pages acknowledged, nothing reclaimed. */
  datatype Step = Window(w: V, bytes: nat) | Ack(id: nat)

  function Take(m: Merge, t: Tail, step: Step): Tail {
    match step
    case Window(w, bytes) => Spill(m, t, w, bytes)
    case Ack(id) => AckThrough(t, id)
  }

  function Play(m: Merge, mode: Mode, pageSize: nat, steps: seq<Step>): Tail {
    if steps == [] then NewTail(mode, pageSize)
    else Take(m, Play(m, mode, pageSize, steps[..|steps| - 1]), steps[|steps| - 1])
  }

  function Windows(steps: seq<Step>): seq<V> {
    if steps == [] then []
    else Windows(steps[..|steps| - 1]) + if steps[|steps| - 1].Window? then [steps[|steps| - 1].w] else []
  }

  lemma {:induction false} AckKeepsPages(t: Tail, id: nat)
    requires t.acked <= |t.pages|
    ensures var u := AckThrough(t, id); u == t.(acked := u.acked) && t.acked <= u.acked <= |t.pages|
    decreases |t.pages| - t.acked
  {
    if t.acked < |t.pages| && t.pages[t.acked].id <= id {
      AckKeepsPages(t.(acked := t.acked + 1), id);
    }
  }

  lemma FoldSnocFrom(m: Merge, s0: V, s: seq<V>, v: V)
    ensures FoldFrom(m, s0, s + [v]) == m(FoldFrom(m, s0, s), v)
  {
    assert (s + [v])[..|s|] == s;
  }

  /** One more window, in either layout, adds it to the fold of the pages. */
  lemma SpillFolds(m: Merge, t: Tail, w: V, bytes: nat, s0: V)
    requires Associative(m)
    ensures FoldPages(m, Spill(m, t, w, bytes), s0) == m(FoldPages(m, t, s0), w)
  {
    var u := Spill(m, t, w, bytes);
    if Merges(t) {
      var n := |t.pages| - 1;
      var last := t.pages[n].summary;
      assert Summaries(u.pages) == Summaries(t.pages[..n]) + [m(last, w)];
      assert Summaries(t.pages) == Summaries(t.pages[..n]) + [last];
      FoldSnocFrom(m, s0, Summaries(t.pages[..n]), m(last, w));
      FoldSnocFrom(m, s0, Summaries(t.pages[..n]), last);
    } else {
      assert Summaries(u.pages) == Summaries(t.pages) + [w];
      FoldSnocFrom(m, s0, Summaries(t.pages), w);
    }
  }

  lemma {:induction false} PlayBounds(m: Merge, mode: Mode, pageSize: nat, steps: seq<Step>)
    ensures var t := Play(m, mode, pageSize, steps); t.acked <= |t.pages|
  {
    if steps != [] {
      var before := Play(m, mode, pageSize, steps[..|steps| - 1]);
      PlayBounds(m, mode, pageSize, steps[..|steps| - 1]);
      match steps[|steps| - 1]
      case Window(w, bytes) =>
      case Ack(id) => AckKeepsPages(before, id);
    }
  }

  /** Before any reclaim the pages fold to the flat fold of every spilled window, in either layout. */
  lemma {:induction false} PagesAreFlatFold(m: Merge, mode: Mode, pageSize: nat, steps: seq<Step>, s0: V)
    requires Associative(m)
    ensures FoldPages(m, Play(m, mode, pageSize, steps), s0) == FoldFrom(m, s0, Windows(steps))
    decreases |steps|
  {
    hide FoldPages, Spill, AckThrough;
    if steps == [] {
      NoPages(m, mode, pageSize, s0);
    } else {
      var before := Play(m, mode, pageSize, steps[..|steps| - 1]);
      PagesAreFlatFold(m, mode, pageSize, steps[..|steps| - 1], s0);
      match steps[|steps| - 1]
      case Window(w, bytes) =>
        SpillFolds(m, before, w, bytes, s0);
        FoldSnocFrom(m, s0, Windows(steps[..|steps| - 1]), w);
      case Ack(id) =>
        PlayBounds(m, mode, pageSize, steps[..|steps| - 1]);
        AckKeepsPages(before, id);
        SamePages(m, before, AckThrough(before, id), s0);
        assert Windows(steps) == Windows(steps[..|steps| - 1]);
    }
  }

  lemma SamePages(m: Merge, t: Tail, u: Tail, s0: V)
    requires t.pages == u.pages
    ensures FoldPages(m, t, s0) == FoldPages(m, u, s0)
  {
  }

  lemma NoPages(m: Merge, mode: Mode, pageSize: nat, s0: V)
    ensures FoldPages(m, NewTail(mode, pageSize), s0) == s0
  {
  }

  /** Reconstruction is the flat fold of every operation: the windows partition them and the hot head is the rest. */
  lemma ReconstructIsFlatFold(m: Merge, mode: Mode, pageSize: nat, steps: seq<Step>, s0: V, parts: seq<seq<V>>, hot: seq<V>)
    requires Associative(m) && (forall i :: 0 <= i < |parts| ==> parts[i] != []) && Windows(steps) == Folds(m, parts)
    ensures var head := if hot == [] then None else Some(FoldL(m, hot));
      Reconstruct(m, Play(m, mode, pageSize, steps), s0, head) == FoldFrom(m, s0, Flatten(parts) + hot)
  {
    PagesAreFlatFold(m, mode, pageSize, steps, s0);
    FoldFromParts(m, s0, parts);
    FoldFromConcat(m, s0, Flatten(parts), hot);
    if hot != [] {
      FoldFromIs(m, FoldFrom(m, s0, Flatten(parts)), hot);
    }
  }

  lemma {:induction false} FoldFromParts(m: Merge, s0: V, parts: seq<seq<V>>)
    requires Associative(m) && forall i :: 0 <= i < |parts| ==> parts[i] != []
    ensures FoldFrom(m, s0, Folds(m, parts)) == FoldFrom(m, s0, Flatten(parts))
    decreases |parts|
  {
    if parts != [] {
      var n := |parts| - 1;
      FoldFromParts(m, s0, parts[..n]);
      FoldSnocFrom(m, s0, Folds(m, parts[..n]), FoldL(m, parts[n]));
      FoldFromConcat(m, s0, Flatten(parts[..n]), parts[n]);
      FoldFromIs(m, FoldFrom(m, s0, Flatten(parts[..n])), parts[n]);
    }
  }

  // -- replay ---------------------------------------------------------------------------------------------

  ghost predicate Absorbs(m: Merge) { forall a, b :: m(m(a, b), b) == m(a, b) }

  /** Delivering a stretch twice is delivering it once. */
  lemma TwiceIsOnce(m: Merge, d: V, s: seq<V>)
    requires Associative(m) && Absorbs(m)
    ensures FoldFrom(m, FoldFrom(m, d, s), s) == FoldFrom(m, d, s)
  {
    if s != [] {
      FoldFromIs(m, d, s);
      FoldFromIs(m, FoldFrom(m, d, s), s);
    }
  }

  // -- what the ack cursor may cover ---------------------------------------------------------------------------

  /** The last page is acknowledged and still takes windows. */
  predicate OpenPageAcked(t: Tail) { Merges(t) && t.acked == |t.pages| }

  /**
   A spilled window reaches the pages still to be delivered exactly when the open page is not
   acknowledged yet; otherwise nothing is left to deliver and the window is in none of it.
   */
  lemma SpillReachesEgress(m: Merge, t: Tail, w: V, bytes: nat, d: V)
    requires Associative(m) && t.acked <= |t.pages|
    ensures var u := Spill(m, t, w, bytes);
      && u.acked == t.acked <= |u.pages|
      && (!OpenPageAcked(t) ==> ReplayUnacked(m, u, d) == m(ReplayUnacked(m, t, d), w))
      && (OpenPageAcked(t) ==> PendingPages(u) == [] && ReplayUnacked(m, u, d) == d)
  {
    var u := Spill(m, t, w, bytes);
    if Merges(t) {
      var n := |t.pages| - 1;
      if t.acked <= n {
        PendingGrows(m, t, w, bytes, d);
      } else {
        assert PendingPages(u) == [];
      }
    } else {
      assert Summaries(PendingPages(u)) == Summaries(PendingPages(t)) + [w];
      FoldSnocFrom(m, d, Summaries(PendingPages(t)), w);
    }
  }

  lemma PendingGrows(m: Merge, t: Tail, w: V, bytes: nat, d: V)
    requires Associative(m) && Merges(t) && t.acked < |t.pages|
    ensures var u := Spill(m, t, w, bytes);
      && u.acked <= |u.pages| && ReplayUnacked(m, u, d) == m(ReplayUnacked(m, t, d), w)
  {
    var u := Spill(m, t, w, bytes);
    var n := |t.pages| - 1;
    var last := t.pages[n].summary;
    var front := Summaries(t.pages[t.acked..n]);
    assert Summaries(PendingPages(u)) == front + [m(last, w)];
    assert Summaries(PendingPages(t)) == front + [last];
    FoldSnocFrom(m, d, front, m(last, w));
    FoldSnocFrom(m, d, front, last);
  }

  // -- runs of spilling, delivering, acknowledging, reclaiming and replaying -----------------------------------------------------

  /**
   A tail and what its downstream holds. The last delivery, from the ack cursor on, found the downstream at
   `base`; of what it handed over, `handed` is not acknowledged yet.
   */
  datatype Link = Link(t: Tail, downstream: V, base: V, handed: seq<V>)

  /**
   Deliver hands over the first `n` unacknowledged pages as they are now: less than all of them if it is cut
   short. Clear reclaims the acknowledged ones.
   */
  datatype Move = Push(w: V, bytes: nat) | Deliver(n: nat) | Settle(id: nat) | Clear

  function PendingSums(t: Tail): seq<V>
    requires t.acked <= |t.pages|
  {
    Summaries(PendingPages(t))
  }

  /** Only pages of the last delivery are acknowledged, and as they were delivered. */
  predicate Permitted(l: Link, e: Move)
    requires l.t.acked <= |l.t.pages|
  {
    match e
    case Push(_, _) => true
    case Deliver(n) => n <= |PendingPages(l.t)|
    case Settle(id) =>
      AckKeepsPages(l.t, id);
      var j := AckThrough(l.t, id).acked - l.t.acked;
      j <= |l.handed| && l.handed[..j] == PendingSums(l.t)[..j]
    case Clear => true
  }

  function Made(m: Merge, l: Link, e: Move): Link
    requires l.t.acked <= |l.t.pages| && Permitted(l, e)
  {
    match e
    case Push(w, bytes) => l.(t := Spill(m, l.t, w, bytes))
    case Deliver(n) =>
      var sums := PendingSums(l.t)[..n];
      Link(l.t, FoldFrom(m, l.downstream, sums), l.downstream, sums)
    case Settle(id) =>
      AckKeepsPages(l.t, id);
      var t := AckThrough(l.t, id);
      var j := t.acked - l.t.acked;
      Link(t, l.downstream, FoldFrom(m, l.base, l.handed[..j]), l.handed[j..])
    case Clear => l.(t := Reclaim(l.t))
  }

  /** The link after a run, or None once a move was not permitted or a window went into an acknowledged page. */
  ghost function Reach(m: Merge, mode: Mode, pageSize: nat, s0: V, moves: seq<Move>): (r: Option<Link>)
    ensures r.Some? ==> r.value.t.acked <= |r.value.t.pages|
    decreases |moves|
  {
    if moves == [] then Some(Link(NewTail(mode, pageSize), s0, s0, []))
    else
      var e := moves[|moves| - 1];
      match Reach(m, mode, pageSize, s0, moves[..|moves| - 1])
      case None => None
      case Some(l) =>
        if Permitted(l, e) && !(e.Push? && OpenPageAcked(l.t)) then
          AckedWithin(m, l, e);
          Some(Made(m, l, e))
        else None
  }

  lemma AckedWithin(m: Merge, l: Link, e: Move)
    requires l.t.acked <= |l.t.pages| && Permitted(l, e)
    ensures var u := Made(m, l, e).t; u.acked <= |u.pages|
  {
    if e.Settle? {
      AckKeepsPages(l.t, e.id);
    }
  }

  function Pushed(moves: seq<Move>): seq<V> {
    if moves == [] then []
    else Pushed(moves[..|moves| - 1]) + if moves[|moves| - 1].Push? then [moves[|moves| - 1].w] else []
  }

  ghost predicate Extends(m: Merge, b: V, c: V) { b == c || exists r :: c == m(b, r) }

  /** What was handed over, page by page, the last of which may have grown since. */
  ghost predicate Grown(m: Merge, handed: seq<V>, sums: seq<V>) {
    && |handed| <= |sums|
    && (forall i :: 0 <= i < |handed| - 1 ==> handed[i] == sums[i])
    && (handed != [] ==> Extends(m, handed[|handed| - 1], sums[|handed| - 1]))
  }

  /** Everything comes after what was handed over as if that had not been. */
  lemma GrownAbsorbs(m: Merge, x: V, handed: seq<V>, sums: seq<V>)
    requires Associative(m) && Absorbs(m) && Grown(m, handed, sums)
    ensures FoldFrom(m, FoldFrom(m, x, handed), sums) == FoldFrom(m, x, sums)
  {
    if handed != [] {
      var n := |handed|;
      var front, rest := sums[..n], sums[n..];
      assert sums == front + rest;
      FoldFromConcat(m, FoldFrom(m, x, handed), front, rest);
      FoldFromConcat(m, x, front, rest);
      FoldFromIs(m, x, handed);
      FoldFromIs(m, x, front);
      FoldFromIs(m, FoldFrom(m, x, handed), front);
      GrownFold(m, handed, front);
      var b := FoldL(m, handed);
      assert m(m(x, b), b) == m(x, b);
      if FoldL(m, front) != b {
        var r :| FoldL(m, front) == m(b, r);
        assert m(m(x, b), m(b, r)) == m(m(m(x, b), b), r) == m(m(x, b), r) == m(x, m(b, r));
      }
    }
  }

  lemma GrownFold(m: Merge, handed: seq<V>, front: seq<V>)
    requires Associative(m) && Grown(m, handed, front) && |handed| == |front| > 0
    ensures Extends(m, FoldL(m, handed), FoldL(m, front))
  {
    var n := |handed| - 1;
    assert handed[..n] == front[..n];
    if handed[n] != front[n] {
      var r :| front[n] == m(handed[n], r);
      if n > 0 {
        assert FoldL(m, front) == m(FoldL(m, front[..n]), m(handed[n], r)) == m(m(FoldL(m, front[..n]), handed[n]), r);
      }
      assert FoldL(m, front) == m(FoldL(m, handed), r);
    }
  }

  ghost predicate Current(m: Merge, s0: V, l: Link, windows: seq<V>)
    requires l.t.acked <= |l.t.pages|
  {
    && l.downstream == FoldFrom(m, l.base, l.handed)
    && FoldFrom(m, l.base, PendingSums(l.t)) == FoldFrom(m, s0, windows)
    && Grown(m, l.handed, PendingSums(l.t))
  }

  lemma CurrentReplays(m: Merge, s0: V, l: Link, windows: seq<V>)
    requires Associative(m) && Absorbs(m) && l.t.acked <= |l.t.pages| && Current(m, s0, l, windows)
    ensures ReplayUnacked(m, l.t, l.downstream) == FoldFrom(m, s0, windows)
  {
    GrownAbsorbs(m, l.base, l.handed, PendingSums(l.t));
  }

  lemma PushCurrent(m: Merge, s0: V, l: Link, windows: seq<V>, w: V, bytes: nat)
    requires Associative(m) && l.t.acked <= |l.t.pages| && Current(m, s0, l, windows) && !OpenPageAcked(l.t)
    ensures Current(m, s0, Made(m, l, Push(w, bytes)), windows + [w])
  {
    SpillReachesEgress(m, l.t, w, bytes, l.base);
    FoldSnocFrom(m, s0, windows, w);
    var a, b := PendingSums(l.t), PendingSums(Spill(m, l.t, w, bytes));
    var n := |l.handed| - 1;
    if Merges(l.t) && n == |a| - 1 && n >= 0 {
      assert b[n] == m(a[n], w);
      assert Extends(m, l.handed[n], b[n]) by {
        if l.handed[n] != a[n] {
          var r :| a[n] == m(l.handed[n], r);
          assert b[n] == m(l.handed[n], m(r, w));
        }
      }
    }
  }

  lemma DeliverCurrent(m: Merge, s0: V, l: Link, windows: seq<V>, n: nat)
    requires Associative(m) && Absorbs(m) && l.t.acked <= |l.t.pages| && Current(m, s0, l, windows) && n <= |PendingPages(l.t)|
    ensures Current(m, s0, Made(m, l, Deliver(n)), windows)
  {
    CurrentReplays(m, s0, l, windows);
  }

  lemma SettleCurrent(m: Merge, s0: V, l: Link, windows: seq<V>, id: nat)
    requires l.t.acked <= |l.t.pages| && Current(m, s0, l, windows) && Permitted(l, Settle(id))
    ensures var l1 := Made(m, l, Settle(id)); l1.t.acked <= |l1.t.pages| && Current(m, s0, l1, windows)
  {
    hide AckThrough, FoldFrom, Grown;
    AckKeepsPages(l.t, id);
    var l1 := Made(m, l, Settle(id));
    var j := l1.t.acked - l.t.acked;
    var a, b := PendingSums(l.t), PendingSums(l1.t);
    assert b == a[j..];
    assert l.handed == l.handed[..j] + l.handed[j..] && a == l.handed[..j] + b;
    FoldFromConcat(m, l.base, l.handed[..j], l.handed[j..]);
    FoldFromConcat(m, l.base, l.handed[..j], b);
    GrownRest(m, l.handed, a, j);
  }

  lemma GrownRest(m: Merge, handed: seq<V>, sums: seq<V>, j: nat)
    requires Grown(m, handed, sums) && j <= |handed|
    ensures Grown(m, handed[j..], sums[j..])
  {
    hide Extends;
  }

  lemma {:induction false} RunCurrent(m: Merge, mode: Mode, pageSize: nat, s0: V, moves: seq<Move>)
    requires Associative(m) && Absorbs(m)
    ensures match Reach(m, mode, pageSize, s0, moves) case None => true case Some(l) => Current(m, s0, l, Pushed(moves))
    decreases |moves|
  {
    hide Current, Permitted, Made, Spill, AckThrough;
    if moves == [] {
      FreshCurrent(m, mode, pageSize, s0);
    } else {
      var before, e := moves[..|moves| - 1], moves[|moves| - 1];
      RunCurrent(m, mode, pageSize, s0, before);
      if Reach(m, mode, pageSize, s0, moves).Some? {
        var l := Reach(m, mode, pageSize, s0, before).value;
        RunStep(m, s0, l, Pushed(before), e);
      }
    }
  }

  lemma RunStep(m: Merge, s0: V, l: Link, windows: seq<V>, e: Move)
    requires Associative(m) && Absorbs(m) && l.t.acked <= |l.t.pages| && Current(m, s0, l, windows)
    requires Permitted(l, e) && !(e.Push? && OpenPageAcked(l.t))
    ensures var l1 := Made(m, l, e);
      l1.t.acked <= |l1.t.pages| && Current(m, s0, l1, windows + if e.Push? then [e.w] else [])
  {
    hide Current, Spill, AckThrough;
    AckedWithin(m, l, e);
    match e
    case Push(w, bytes) => PushCurrent(m, s0, l, windows, w, bytes);
    case Deliver(n) =>
      DeliverCurrent(m, s0, l, windows, n);
      assert windows + [] == windows;
    case Settle(id) =>
      SettleCurrent(m, s0, l, windows, id);
      assert windows + [] == windows;
    case Clear =>
      ClearCurrent(m, s0, l, windows);
      assert windows + [] == windows;
  }

  /** What was reclaimed was acknowledged, so nothing that is still to be delivered is gone. */
  lemma ClearCurrent(m: Merge, s0: V, l: Link, windows: seq<V>)
    requires l.t.acked <= |l.t.pages| && Current(m, s0, l, windows)
    ensures Reclaim(l.t).acked <= |Reclaim(l.t).pages| && Current(m, s0, Made(m, l, Clear), windows)
  {
    assert PendingPages(Reclaim(l.t)) == PendingPages(l.t);
  }

  lemma FreshCurrent(m: Merge, mode: Mode, pageSize: nat, s0: V)
    ensures Current(m, s0, Link(NewTail(mode, pageSize), s0, s0, []), [])
  {
  }

  /**
   Crash replay: however spills, deliveries cut short anywhere, acknowledgements of what was delivered, and
   reclaims alternate, an open page delivered and then compacted into included, delivering every page from the ack
   cursor on brings the downstream to the flat fold of every spilled window, as long as no window goes into
   a page already acknowledged.
   */
  lemma ReplayConverges(m: Merge, mode: Mode, pageSize: nat, s0: V, moves: seq<Move>)
    requires Associative(m) && Absorbs(m)
    ensures match Reach(m, mode, pageSize, s0, moves)
      case None => true
      case Some(l) => ReplayUnacked(m, l.t, l.downstream) == FoldFrom(m, s0, Pushed(moves))
  {
    hide Current, Reach;
    RunCurrent(m, mode, pageSize, s0, moves);
    var r := Reach(m, mode, pageSize, s0, moves);
    if r.Some? {
      CurrentReplays(m, s0, r.value, Pushed(moves));
    }
  }

  /** A window, its page delivered and acknowledged while it is open. */
  function Opened(v: V, bytes: nat): seq<Move> { [Push(v, bytes), Deliver(1), Settle(0)] }

  /** The next window then reaches no downstream: a run that gets there, and what it loses. */
  lemma AckedOpenPageLoses(m: Merge, pageSize: nat, s0: V, v: V, w: V, bytes: nat)
    requires pageSize >= 2
    ensures match Reach(m, CompactOnWrite, pageSize, s0, Opened(v, bytes))
      case None => false
      case Some(l) =>
        var l1 := Made(m, l, Push(w, bytes));
        && OpenPageAcked(l.t) && Permitted(l, Push(w, bytes)) && l1.t.acked <= |l1.t.pages|
        && ReplayUnacked(m, l1.t, l1.downstream) == FoldFrom(m, s0, [v])
  {
    hide FoldFrom;
    var moves := Opened(v, bytes);
    var l0 := Link(NewTail(CompactOnWrite, pageSize), s0, s0, []);
    var l1, page := l0.(t := Spill(m, l0.t, v, bytes)), Page(0, v, bytes);
    assert moves[..0] == [] && moves[..1][..0] == [] && moves[..2][..1] == moves[..1] && moves[..3] == moves;
    assert Reach(m, CompactOnWrite, pageSize, s0, moves[..0]) == Some(l0);
    assert Reach(m, CompactOnWrite, pageSize, s0, moves[..1]) == Some(l1);
    assert l1.t.pages == [page] && PendingPages(l1.t) == [page];
    assert PendingSums(l1.t) == [v] && PendingSums(l1.t)[..1] == [v];
    var l2 := Link(l1.t, FoldFrom(m, s0, [v]), s0, [v]);
    assert Reach(m, CompactOnWrite, pageSize, s0, moves[..2]) == Some(l2);
    var t := AckThrough(l2.t, 0);
    assert AckThrough(l2.t.(acked := 1), 0) == l2.t.(acked := 1);
    assert t == l2.t.(acked := 1);
    LoneReplay(m, Spill(m, t, w, bytes), l2.downstream);
  }

  lemma LoneReplay(m: Merge, t: Tail, d: V)
    requires t.acked == |t.pages|
    ensures ReplayUnacked(m, t, d) == d
  {
    assert PendingPages(t) == [];
  }
}
