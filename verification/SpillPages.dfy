/** Which windows each page of the durable tail holds, what an acknowledgement covers, and what a reclaim drops. */
module SpillPages {
  import opened Basics
  import opened Folding
  import opened SpillModel

  // -- layout ------------------------------------------------------------------------------------------------

  /** Consecutive stretches of `k`, the last of which may be shorter. */
  function Cut<T>(k: nat, s: seq<T>): seq<seq<T>>
    requires k > 0
    decreases |s|
  {
    if s == [] then [] else if |s| <= k then [s] else [s[..k]] + Cut(k, s[k..])
  }

  lemma {:induction false} CutShape<T>(k: nat, s: seq<T>)
    requires k > 0
    ensures forall i :: 0 <= i < |Cut(k, s)| ==> 0 < |Cut(k, s)[i]| <= k
    ensures forall i :: 0 <= i < |Cut(k, s)| - 1 ==> |Cut(k, s)[i]| == k
    ensures s != [] <==> Cut(k, s) != []
    decreases |s|
  {
    if |s| > k {
      CutShape(k, s[k..]);
    }
  }

  /** One more goes into the last stretch while that is short, and otherwise begins a new one. */
  lemma {:induction false} CutSnoc<T>(k: nat, s: seq<T>, x: T)
    requires k > 0
    ensures var (c, d) := (Cut(k, s), Cut(k, s + [x]));
      d == if c != [] && |c[|c| - 1]| < k then c[..|c| - 1] + [c[|c| - 1] + [x]] else c + [[x]]
    decreases |s|
  {
    if |s| > k {
      CutSnoc(k, s[k..], x);
      CutShape(k, s[k..]);
      assert (s + [x])[..k] == s[..k] && (s + [x])[k..] == s[k..] + [x];
      var (c, d) := (Cut(k, s[k..]), Cut(k, s[k..] + [x]));
      assert ([s[..k]] + c)[|c|] == c[|c| - 1];
      if |c[|c| - 1]| < k {
        assert ([s[..k]] + c)[..|c|] == [s[..k]] + c[..|c| - 1];
      }
    } else if |s| == k {
      assert (s + [x])[..k] == s && (s + [x])[k..] == [x];
    } else if s != [] {
      assert [s][..0] == [];
    } else {
      assert s + [x] == [x];
    }
  }

  /** Stretches of the same length have the same shape, whatever is in them. */
  lemma {:induction false} CutAlike<S, T>(k: nat, s: seq<S>, t: seq<T>)
    requires k > 0 && |s| == |t|
    ensures |Cut(k, s)| == |Cut(k, t)| && forall i :: 0 <= i < |Cut(k, s)| ==> |Cut(k, s)[i]| == |Cut(k, t)[i]|
    decreases |s|
  {
    if |s| > k {
      CutAlike(k, s[k..], t[k..]);
    }
  }

  function Sum(s: seq<nat>): nat { if s == [] then 0 else Sum(s[..|s| - 1]) + s[|s| - 1] }

  lemma SumSnoc(s: seq<nat>, n: nat)
    ensures Sum(s + [n]) == Sum(s) + n
  {
    assert (s + [n])[..|s|] == s;
  }

  function Sizes(steps: seq<Step>): seq<nat> {
    if steps == [] then []
    else Sizes(steps[..|steps| - 1]) + if steps[|steps| - 1].Window? then [steps[|steps| - 1].bytes] else []
  }

  lemma {:induction false} SizesAlike(steps: seq<Step>)
    ensures |Sizes(steps)| == |Windows(steps)|
  {
    if steps != [] {
      SizesAlike(steps[..|steps| - 1]);
    }
  }

  /** How many windows a page takes: one, or as many as the page size says. */
  function PerPage(mode: Mode, pageSize: nat): (k: nat)
    ensures k > 0
  {
    if mode == AppendCompact then 1 else Max(pageSize, 1)
  }

  ghost predicate PageIs(m: Merge, p: Page, id: nat, ws: seq<V>, bs: seq<nat>) {
    p.id == id && ws != [] && p.summary == FoldL(m, ws) && p.bytes == Sum(bs)
  }

  /** The pages are the stretches of windows, in order. */
  ghost predicate Laid(m: Merge, t: Tail, k: nat, ws: seq<V>, bs: seq<nat>)
    requires k > 0 && |ws| == |bs|
  {
    CutAlike(k, ws, bs);
    var (c, b) := (Cut(k, ws), Cut(k, bs));
    && |t.pages| == |c| == t.nextId && (forall i :: 0 <= i < |c| ==> PageIs(m, t.pages[i], i, c[i], b[i]))
    && (t.mode == CompactOnWrite && c != [] ==> t.openFill == |c[|c| - 1]|)
  }

  lemma FoldOne(m: Merge, w: V, bytes: nat)
    ensures FoldL(m, [w]) == w && Sum([bytes]) == bytes
  {
    assert [bytes][..0] == [];
  }

  lemma SpillLaid(m: Merge, t: Tail, ws: seq<V>, bs: seq<nat>, w: V, bytes: nat)
    requires |ws| == |bs| && t.pageSize > 0 && Laid(m, t, PerPage(t.mode, t.pageSize), ws, bs)
    ensures Laid(m, Spill(m, t, w, bytes), PerPage(t.mode, t.pageSize), ws + [w], bs + [bytes])
  {
    hide Cut, FoldL, Sum;
    var k := PerPage(t.mode, t.pageSize);
    CutAlike(k, ws, bs);
    CutSnoc(k, ws, w);
    CutSnoc(k, bs, bytes);
    CutShape(k, ws);
    CutAlike(k, ws + [w], bs + [bytes]);
    var (c, b, d, e) := (Cut(k, ws), Cut(k, bs), Cut(k, ws + [w]), Cut(k, bs + [bytes]));
    var u := Spill(m, t, w, bytes);
    FoldOne(m, w, bytes);
    if Merges(t) {
      FoldSnoc(m, c[|c| - 1], w);
      SumSnoc(b[|c| - 1], bytes);
    }
    forall i | 0 <= i < |d| ensures PageIs(m, u.pages[i], i, d[i], e[i]) {
      if i < |c| {
        assert PageIs(m, t.pages[i], i, c[i], b[i]);
      }
    }
  }

  /**
   After any spills and acknowledgements: page i holds the fold of the i-th stretch of windows under id i, and
   the sum of their sizes. A stretch is one window in the appending layout, and in the compacting one as many as
   the page size says, but for the last.
   */
  lemma {:induction false} PagesAre(m: Merge, mode: Mode, pageSize: nat, steps: seq<Step>)
    ensures |Windows(steps)| == |Sizes(steps)|
    ensures var (t, k) := (Play(m, mode, pageSize, steps), PerPage(mode, pageSize));
      t.mode == mode && t.pageSize == Max(pageSize, 1) && t.acked <= |t.pages| && Laid(m, t, k, Windows(steps), Sizes(steps))
    decreases |steps|
  {
    hide Laid, Spill, AckThrough;
    SizesAlike(steps);
    PlayBounds(m, mode, pageSize, steps);
    if steps == [] {
      NewLaid(m, mode, pageSize);
    } else {
      var before := steps[..|steps| - 1];
      PagesAre(m, mode, pageSize, before);
      var t := Play(m, mode, pageSize, before);
      match steps[|steps| - 1]
      case Window(w, bytes) =>
        SpillLaid(m, t, Windows(before), Sizes(before), w, bytes);
        SpillKeeps(m, t, w, bytes);
      case Ack(id) =>
        AckKeepsPages(t, id);
        AckedLaid(m, t, AckThrough(t, id), PerPage(mode, pageSize), Windows(before), Sizes(before));
        assert Windows(steps) == Windows(before) && Sizes(steps) == Sizes(before);
    }
  }

  lemma NewLaid(m: Merge, mode: Mode, pageSize: nat)
    ensures var t := NewTail(mode, pageSize);
      t.mode == mode && t.pageSize == Max(pageSize, 1) && Laid(m, t, PerPage(mode, pageSize), [], [])
  {
  }

  lemma SpillKeeps(m: Merge, t: Tail, w: V, bytes: nat)
    ensures var u := Spill(m, t, w, bytes); u.mode == t.mode && u.pageSize == t.pageSize && u.acked == t.acked
  {
  }

  lemma AckedLaid(m: Merge, t: Tail, u: Tail, k: nat, ws: seq<V>, bs: seq<nat>)
    requires k > 0 && |ws| == |bs| && Laid(m, t, k, ws, bs) && u == t.(acked := u.acked)
    ensures Laid(m, u, k, ws, bs)
  {
  }

  // -- acknowledging and reclaiming ------------------------------------------------------------------------------

  /** Live pages are numbered one after the other up to the next id. */
  predicate Numbered(t: Tail) {
    t.acked <= |t.pages| <= t.nextId && forall i :: 0 <= i < |t.pages| ==> t.pages[i].id == t.nextId - |t.pages| + i
  }

  lemma SpillNumbers(m: Merge, t: Tail, w: V, bytes: nat)
    requires Numbered(t)
    ensures Numbered(NewTail(t.mode, t.pageSize)) && Numbered(Spill(m, t, w, bytes))
  {
    var u := Spill(m, t, w, bytes);
    assert forall i :: 0 <= i < |t.pages| ==> u.pages[i].id == t.pages[i].id;
  }

  lemma AckNumbers(t: Tail, id: nat)
    requires Numbered(t)
    ensures Numbered(AckThrough(t, id))
  {
    hide AckThrough;
    AckKeepsPages(t, id);
  }

  lemma ReclaimNumbers(t: Tail)
    requires Numbered(t)
    ensures Numbered(Reclaim(t))
  {
    var u := Reclaim(t);
    if t.acked > 0 {
      forall i | 0 <= i < |u.pages| ensures u.pages[i].id == u.nextId - |u.pages| + i {
        assert u.pages[i] == t.pages[t.acked + i];
      }
    }
  }

  /** An acknowledgement covers, beside what was acknowledged, exactly the pages up to its id. */
  lemma {:induction false} AckCovers(t: Tail, id: nat)
    requires Numbered(t)
    ensures var u := AckThrough(t, id);
      && u == t.(acked := u.acked) && t.acked <= u.acked <= |t.pages|
      && forall i :: 0 <= i < |t.pages| ==> (i < u.acked <==> i < t.acked || t.pages[i].id <= id)
    decreases |t.pages| - t.acked
  {
    if t.acked < |t.pages| && t.pages[t.acked].id <= id {
      AckCovers(t.(acked := t.acked + 1), id);
    }
  }

  /** A reclaim drops the acknowledged pages, and a replay after it gives what it gave before. */
  lemma ReclaimDrops(m: Merge, t: Tail, d: V)
    requires t.acked <= |t.pages|
    ensures var u := Reclaim(t);
      && t.pages[..t.acked] + u.pages == t.pages && u.acked == 0 && PendingPages(u) == PendingPages(t)
      && u == t.(pages := u.pages, acked := 0) && ReplayUnacked(m, u, d) == ReplayUnacked(m, t, d)
  {
    assert PendingPages(Reclaim(t)) == PendingPages(t);
  }
}
