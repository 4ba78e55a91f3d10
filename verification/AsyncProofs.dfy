/** In every interleaving a resolved slot holds the from-scratch value, and at most one run per slot is live. */
module AsyncProofs {
  import opened Basics
  import Edges
  import opened AsyncModel

  // -- hypotheses and shape -----------------------------------------------------------------

  /** `p` run for `x` reads only nodes that existed before `x`, always of lower rank. */
  ghost predicate Reads(g: Plan, x: Id, p: Prog)
    decreases p
  {
    match p
    case Ret(_) => true
    case Read(d, next) => 1 <= d < x && g.rank(d) < g.rank(x) && forall v :: v in next && Reads(g, x, next[v])
  }

  ghost predicate NodesOk(g: Plan, s: State) {
    && 1 <= s.nextId
    && (forall x :: x in s.nodes <==> 1 <= x < s.nextId)
    && (forall x :: IsSlot(s, x) ==> g.rank(x) <= g.limit && Reads(g, x, s.nodes[x].compute))
    && (forall x :: x in s.batched ==> IsCell(s, x))
  }

  ghost predicate ReadsOk(g: Plan, s: State) {
    forall x, d :: d in Deps(s, x) ==> d in s.nodes && g.rank(d) < g.rank(x) && x in Dependents(s, d)
  }

  ghost predicate ReadersOk(s: State) {
    forall x, d :: x in Dependents(s, d) ==> IsSlot(s, x) && d in Deps(s, x)
  }

  ghost predicate NoDups(s: State) {
    forall x :: Edges.NoDup(Deps(s, x)) && Edges.NoDup(Dependents(s, x))
  }

  ghost predicate EdgesOk(g: Plan, s: State) { ReadsOk(g, s) && ReadersOk(s) && NoDups(s) }

  /** A run that may still publish. */
  predicate Live(s: State, r: RunId) { r in s.runs && !s.runs[r].aborted && !s.runs[r].done }

  predicate IsComputing(s: State, x: Id, r: RunId) { IsSlot(s, x) && s.nodes[x].phase == Computing(r) }

  ghost predicate RunOk(g: Plan, s: State, r: RunId)
    requires r in s.runs
  {
    var run := s.runs[r];
    && r < s.nextRun && IsSlot(s, run.owner) && Reads(g, run.owner, run.rest)
    && (run.aborted ==> run.notice == Superseded)
    && (run.wait.Some? ==>
          && run.rest.Read? && IsSlot(s, run.rest.id)
          && run.wait.value in s.runs && s.runs[run.wait.value].owner == run.rest.id)
  }

  ghost predicate RunsOk(g: Plan, s: State) { forall r :: r in s.runs ==> RunOk(g, s, r) }

  /** Each computing slot has one live run, and every live run is its slot's. */
  ghost predicate TokensOk(s: State) {
    && (forall x, r :: IsComputing(s, x, r) ==>
          Live(s, r) && s.runs[r].owner == x && s.runs[r].notice == Pending && s.runs[r].revision == s.nodes[x].revision)
    && (forall r :: Live(s, r) ==> IsComputing(s, s.runs[r].owner, r))
  }

  // -- coherence ------------------------------------------------------------------------------

  /** Runs `p` on the stored values of recorded dependencies. */
  function Replay(s: State, p: Prog, ds: seq<Id>): Option<Value>
    decreases p
  {
    match p
    case Ret(v) => Some(v)
    case Read(d, next) =>
      var v := Cached(s, d);
      if d !in ds || v.None? || v.value !in next then None else Replay(s, next[v.value], ds)
  }

  /** `p` on the stored values of recorded dependencies arrives at `q`. */
  predicate Reaches(s: State, p: Prog, q: Prog, ds: seq<Id>)
    decreases p
  {
    p == q || match p
      case Ret(_) => false
      case Read(d, next) =>
        var v := Cached(s, d);
        d in ds && v.Some? && v.value in next && Reaches(s, next[v.value], q, ds)
  }

  /** No recorded dependency of `x` is among `stale`. */
  ghost predicate Clear(s: State, x: Id, stale: seq<Id>) { forall d :: d in Deps(s, x) ==> d !in stale }

  ghost predicate Good(s: State, stale: seq<Id>) {
    forall x :: IsSlot(s, x) && s.nodes[x].phase.Resolved? && Clear(s, x, stale) ==>
      Replay(s, s.nodes[x].compute, s.nodes[x].deps) == Some(s.nodes[x].phase.value)
  }

  ghost predicate Underway(s: State, stale: seq<Id>) {
    forall r :: Live(s, r) && IsSlot(s, s.runs[r].owner) && Clear(s, s.runs[r].owner, stale) ==>
      Reaches(s, s.nodes[s.runs[r].owner].compute, s.runs[r].rest, s.nodes[s.runs[r].owner].deps)
  }

  /** What a live run waits for is recorded, and is the current state of the slot it awaits. */
  predicate WaitOk(s: State, r: RunId)
    requires r in s.runs
  {
    var run := s.runs[r];
    run.wait.Some? ==>
      && run.wait.value in s.runs && run.rest.Read? && IsSlot(s, run.rest.id)
      && run.rest.id in Deps(s, run.owner)
      && match s.runs[run.wait.value].notice
         case Pending => s.nodes[run.rest.id].phase == Computing(run.wait.value)
         case Settled(v) => s.nodes[run.rest.id].phase == Resolved(v)
         case Superseded => false
  }

  ghost predicate Waiting(s: State) { forall r :: Live(s, r) ==> WaitOk(s, r) }

  ghost predicate Coherent(s: State, stale: seq<Id>) { Good(s, stale) && Underway(s, stale) && Waiting(s) }

  ghost predicate Frame(g: Plan, s: State) { NodesOk(g, s) && EdgesOk(g, s) && RunsOk(g, s) && TokensOk(s) }

  ghost predicate Inv(g: Plan, s: State) {
    Frame(g, s) && Coherent(s, s.batched) && (s.depth == 0 ==> s.batched == [])
  }

  // -- replay lemmas ---------------------------------------------------------------------------

  /** Values a replay may rely on are kept: whatever of `ds` was stored still is, and `ds` only grew. */
  ghost predicate Keeps(s: State, t: State, ds: seq<Id>, es: seq<Id>) {
    forall d :: d in ds ==> d in es && (Cached(s, d).Some? ==> Cached(t, d) == Cached(s, d))
  }

  lemma {:induction false} ReplayKept(s: State, t: State, p: Prog, ds: seq<Id>, es: seq<Id>)
    requires Keeps(s, t, ds, es) && Replay(s, p, ds).Some?
    ensures Replay(t, p, es) == Replay(s, p, ds)
    decreases p
  {
    match p
    case Ret(_) =>
    case Read(d, next) => ReplayKept(s, t, next[Cached(s, d).value], ds, es);
  }

  lemma {:induction false} ReachesKept(s: State, t: State, p: Prog, q: Prog, ds: seq<Id>, es: seq<Id>)
    requires Keeps(s, t, ds, es) && Reaches(s, p, q, ds)
    ensures Reaches(t, p, q, es)
    decreases p
  {
    if p != q {
      ReachesKept(s, t, p.next[Cached(s, p.id).value], q, ds, es);
    }
  }

  lemma {:induction false} ReachesOn(s: State, p: Prog, q: Prog, ds: seq<Id>)
    requires Reaches(s, p, q, ds) && q.Read? && q.id in ds && Cached(s, q.id).Some? && Cached(s, q.id).value in q.next
    ensures Reaches(s, p, q.next[Cached(s, q.id).value], ds)
    decreases p
  {
    if p != q {
      ReachesOn(s, p.next[Cached(s, p.id).value], q, ds);
    } else {
      assert Reaches(s, q.next[Cached(s, q.id).value], q.next[Cached(s, q.id).value], ds);
    }
  }

  lemma {:induction false} ReachesEnd(s: State, p: Prog, v: Value, ds: seq<Id>)
    requires Reaches(s, p, Ret(v), ds)
    ensures Replay(s, p, ds) == Some(v)
    decreases p
  {
    if p != Ret(v) {
      ReachesEnd(s, p.next[Cached(s, p.id).value], v, ds);
    }
  }

  // -- the cascade -------------------------------------------------------------------------------

  /** What superseding may do: empty slots and abort the runs that were computing them. */
  ghost predicate NodeCut(m: Node, n: Node) {
    match m
    case Cell(_, _) => n == m
    case Slot(p, phase, rev, ds, es) =>
      n.Slot? && n == Slot(p, n.phase, n.revision, ds, es) && (n.phase == Empty || (n.phase == phase && n.revision == rev))
  }

  ghost predicate RunCut(m: Run, n: Run) {
    n == m || n == m.(aborted := true, notice := Settle(m.notice, Superseded))
  }

  predicate IsEmpty(s: State, x: Id) { IsSlot(s, x) && s.nodes[x].phase.Empty? }

  ghost predicate NodesCut(s: State, t: State) {
    t.nodes.Keys == s.nodes.Keys && forall x :: x in s.nodes ==> NodeCut(s.nodes[x], t.nodes[x])
  }

  ghost predicate RunsCut(s: State, t: State) {
    t.runs.Keys == s.runs.Keys && forall r :: r in s.runs ==> RunCut(s.runs[r], t.runs[r])
  }

  /** Runs change exactly where their slot was emptied. */
  ghost predicate RunsFollow(s: State, t: State) {
    && (forall x, r :: IsComputing(s, x, r) && IsEmpty(t, x) ==> r in t.runs && t.runs[r].aborted && t.runs[r].notice == Superseded)
    && (forall r :: r in s.runs && r in t.runs && t.runs[r] != s.runs[r] ==>
          IsComputing(s, s.runs[r].owner, r) && IsEmpty(t, s.runs[r].owner))
  }

  /** Whoever reads an emptied slot is empty. */
  ghost predicate Spread(s: State, t: State) {
    forall y, z :: IsSlot(s, y) && !IsEmpty(s, y) && IsEmpty(t, y) && z in Dependents(s, y) ==> IsEmpty(t, z)
  }

  ghost predicate Trimmed(s: State, t: State) {
    t == s.(nodes := t.nodes, runs := t.runs) && NodesCut(s, t) && RunsCut(s, t) && RunsFollow(s, t)
  }

  ghost predicate Cut(s: State, t: State) { Trimmed(s, t) && Spread(s, t) }

  ghost predicate Owners(s: State) {
    forall x, r :: IsComputing(s, x, r) ==> r in s.runs && s.runs[r].owner == x && s.runs[r].notice == Pending
  }

  ghost predicate Upward(g: Plan, s: State) {
    forall x, y {:trigger y in Dependents(s, x)} ::
      y in Dependents(s, x) ==> IsSlot(s, y) && g.rank(x) < g.rank(y) <= g.limit
  }

  lemma TrimmedTrans(s: State, t: State, u: State)
    requires Trimmed(s, t) && Trimmed(t, u)
    ensures Trimmed(s, u)
  {
    hide NodeCut, RunCut;
    NodesCutTrans(s, t, u);
    RunsCutTrans(s, t, u);
    RunsFollowTrans(s, t, u);
  }

  lemma NodesCutTrans(s: State, t: State, u: State)
    requires NodesCut(s, t) && NodesCut(t, u)
    ensures NodesCut(s, u)
  {
  }

  lemma RunsCutTrans(s: State, t: State, u: State)
    requires RunsCut(s, t) && RunsCut(t, u)
    ensures RunsCut(s, u)
  {
  }

  lemma RunsFollowTrans(s: State, t: State, u: State)
    requires NodesCut(s, t) && NodesCut(t, u) && RunsCut(s, t) && RunsCut(t, u) && RunsFollow(s, t) && RunsFollow(t, u)
    ensures RunsFollow(s, u)
  {
  }

  lemma SpreadTrans(s: State, t: State, u: State)
    requires Trimmed(s, t) && Trimmed(t, u) && Spread(s, t) && Spread(t, u)
    ensures Spread(s, u)
  {
    forall y, z | IsSlot(s, y) && !IsEmpty(s, y) && IsEmpty(u, y) && z in Dependents(s, y) ensures IsEmpty(u, z) {
      assert NodeCut(s.nodes[y], t.nodes[y]);
      if IsEmpty(t, y) {
        assert IsEmpty(t, z);
        assert NodeCut(t.nodes[z], u.nodes[z]);
      } else {
        assert z in Dependents(t, y);
      }
    }
  }

  lemma TrimmedKeeps(g: Plan, s: State, t: State)
    requires Trimmed(s, t) && Owners(s) && Upward(g, s)
    ensures Owners(t) && Upward(g, t)
  {
    forall x, r | IsComputing(t, x, r) ensures r in t.runs && t.runs[r].owner == x && t.runs[r].notice == Pending {
      assert NodeCut(s.nodes[x], t.nodes[x]);
      assert IsComputing(s, x, r);
    }
    forall x, y | y in Dependents(t, x) ensures IsSlot(t, y) && g.rank(x) < g.rank(y) <= g.limit {
      assert NodeCut(s.nodes[x], t.nodes[x]);
      assert y in Dependents(s, x) && IsSlot(s, y);
      assert NodeCut(s.nodes[y], t.nodes[y]);
    }
  }

  lemma ResetTrims(s: State, x: Id)
    requires IsSlot(s, x) && Owners(s)
    ensures var t := Reset(s, x); Trimmed(s, t) && IsEmpty(t, x) && forall y :: y != x && y in s.nodes ==> t.nodes[y] == s.nodes[y]
  {
    if s.nodes[x].phase.Computing? {
      assert IsComputing(s, x, s.nodes[x].phase.run);
    }
  }

  lemma {:induction false} InvalidateCuts(g: Plan, s: State, floor: nat, xs: seq<Id>)
    requires Owners(s) && Upward(g, s)
    requires forall x :: x in xs ==> IsSlot(s, x) && floor < g.rank(x) <= g.limit
    ensures var t := Invalidate(g, s, floor, xs); Cut(s, t) && forall x :: x in xs ==> IsEmpty(t, x)
    decreases g.limit - floor, |xs|
  {
    if xs != [] {
      var x, rest := xs[0], xs[1..];
      assert xs == [x] + rest && x in xs;
      var s0 := Reset(s, x);
      ResetTrims(s, x);
      TrimmedKeeps(g, s, s0);
      forall y | y in Dependents(s, x) ensures IsSlot(s0, y) && g.rank(x) < g.rank(y) <= g.limit {
        assert IsSlot(s, y) && NodeCut(s.nodes[y], s0.nodes[y]);
      }
      InvalidateCuts(g, s0, g.rank(x), s.nodes[x].dependents);
      var s1 := Invalidate(g, s0, g.rank(x), s.nodes[x].dependents);
      FirstCut(s, s0, s1, x);
      TrimmedKeeps(g, s, s1);
      forall y | y in rest ensures IsSlot(s1, y) && floor < g.rank(y) <= g.limit {
        assert y in xs && NodeCut(s.nodes[y], s1.nodes[y]);
      }
      InvalidateCuts(g, s1, floor, rest);
      var t := Invalidate(g, s1, floor, rest);
      TrimmedTrans(s, s1, t);
      SpreadTrans(s, s1, t);
      assert NodeCut(s1.nodes[x], t.nodes[x]);
    }
  }

  lemma FirstCut(s: State, s0: State, s1: State, x: Id)
    requires IsSlot(s, x) && s0 == Reset(s, x) && Trimmed(s, s0) && IsEmpty(s0, x) && Cut(s0, s1)
    requires forall y :: y != x && y in s.nodes ==> s0.nodes[y] == s.nodes[y]
    requires forall y :: y in Dependents(s, x) ==> IsEmpty(s1, y)
    ensures Cut(s, s1) && IsEmpty(s1, x)
  {
    TrimmedTrans(s, s0, s1);
    assert NodeCut(s0.nodes[x], s1.nodes[x]);
    forall y, z | IsSlot(s, y) && !IsEmpty(s, y) && IsEmpty(s1, y) && z in Dependents(s, y) ensures IsEmpty(s1, z) {
      if y != x {
        assert z in Dependents(s0, y) && !IsEmpty(s0, y);
      }
    }
  }

  // -- superseding restores coherence -------------------------------------------------------------

  ghost predicate SameEdges(s: State, t: State) {
    forall x :: Deps(t, x) == Deps(s, x) && Dependents(t, x) == Dependents(s, x)
  }

  lemma SameEdgesOk(g: Plan, s: State, t: State)
    requires EdgesOk(g, s) && SameEdges(s, t) && t.nodes.Keys == s.nodes.Keys
    requires forall x :: IsSlot(t, x) == IsSlot(s, x)
    ensures EdgesOk(g, t)
  {
    assert ReadsOk(g, t) by {
      forall x, d | d in Deps(t, x) ensures d in t.nodes && g.rank(d) < g.rank(x) && x in Dependents(t, d) {
        assert d in Deps(s, x);
      }
    }
    assert ReadersOk(t) by {
      forall x, d | x in Dependents(t, d) ensures IsSlot(t, x) && d in Deps(t, x) {
        assert x in Dependents(s, d);
        assert IsSlot(s, x);
      }
    }
  }

  lemma CutNodes(s: State, t: State)
    requires NodesCut(s, t)
    ensures SameEdges(s, t) && forall x :: IsSlot(t, x) == IsSlot(s, x) && IsCell(t, x) == IsCell(s, x)
    ensures forall x :: IsSlot(s, x) ==> t.nodes[x].compute == s.nodes[x].compute
    ensures forall x :: IsSlot(t, x) && !IsEmpty(t, x) ==> t.nodes[x] == s.nodes[x]
    ensures forall x :: IsCell(s, x) ==> t.nodes[x] == s.nodes[x]
  {
    forall x | x in s.nodes
      ensures IsSlot(t, x) == IsSlot(s, x) && IsCell(t, x) == IsCell(s, x)
      ensures Deps(t, x) == Deps(s, x) && Dependents(t, x) == Dependents(s, x)
      ensures IsSlot(s, x) ==> t.nodes[x].compute == s.nodes[x].compute
      ensures IsSlot(t, x) && !IsEmpty(t, x) ==> t.nodes[x] == s.nodes[x]
    {
      assert NodeCut(s.nodes[x], t.nodes[x]);
    }
  }

  lemma CutRuns(g: Plan, s: State, t: State)
    requires RunsOk(g, s) && TokensOk(s) && Trimmed(s, t)
    ensures RunsOk(g, t) && TokensOk(t)
  {
    CutNodes(s, t);
    forall r | r in t.runs ensures RunOk(g, t, r) {
      assert RunOk(g, s, r) && RunCut(s.runs[r], t.runs[r]);
      var run := s.runs[r];
      if run.wait.Some? {
        assert RunCut(s.runs[run.wait.value], t.runs[run.wait.value]);
      }
      if t.runs[r] != run {
        assert IsComputing(s, run.owner, r);
      }
    }
    forall x, r | IsComputing(t, x, r)
      ensures Live(t, r) && t.runs[r].owner == x && t.runs[r].notice == Pending && t.runs[r].revision == t.nodes[x].revision
    {
      assert IsComputing(s, x, r) && !IsEmpty(t, x);
      assert t.runs[r] == s.runs[r];
    }
    forall r | Live(t, r) ensures IsComputing(t, t.runs[r].owner, r) {
      assert RunCut(s.runs[r], t.runs[r]);
      assert Live(s, r) && IsComputing(s, s.runs[r].owner, r);
      assert t.runs[r].owner == s.runs[r].owner;
      assert IsSlot(t, s.runs[r].owner) && NodeCut(s.nodes[s.runs[r].owner], t.nodes[s.runs[r].owner]);
    }
  }

  /** Readers of stale cells and of emptied slots are all empty, so every surviving claim still stands. */
  lemma SurvivorKeeps(g: Plan, s: State, t: State, x: Id, stale: seq<Id>)
    requires EdgesOk(g, s) && Cut(s, t) && IsSlot(t, x) && !IsEmpty(t, x)
    requires forall c, y :: c in stale && y in Dependents(s, c) ==> IsEmpty(t, y)
    ensures IsSlot(s, x) && t.nodes[x] == s.nodes[x] && Clear(s, x, stale)
    ensures Keeps(s, t, s.nodes[x].deps, s.nodes[x].deps)
    ensures forall d :: d in s.nodes[x].deps && IsSlot(s, d) && !IsEmpty(s, d) ==> IsSlot(t, d) && t.nodes[d] == s.nodes[d]
  {
    CutNodes(s, t);
    forall d | d in Deps(s, x)
      ensures d !in stale
      ensures Cached(s, d).Some? ==> Cached(t, d) == Cached(s, d)
      ensures IsSlot(s, d) && !IsEmpty(s, d) ==> IsSlot(t, d) && t.nodes[d] == s.nodes[d]
    {
      assert x in Dependents(s, d);
      if IsSlot(s, d) && !IsEmpty(s, d) {
        assert !IsEmpty(t, d);
      }
    }
  }

  lemma CutRestores(g: Plan, s: State, t: State, stale: seq<Id>)
    requires Frame(g, s) && Coherent(s, stale) && Cut(s, t)
    requires forall c, y :: c in stale && y in Dependents(s, c) ==> IsEmpty(t, y)
    ensures Frame(g, t) && Coherent(t, [])
  {
    hide EdgesOk, Spread, RunsFollow, Keeps;
    CutNodes(s, t);
    SameEdgesOk(g, s, t);
    CutRuns(g, s, t);
    assert Good(t, []) by {
      forall x | IsSlot(t, x) && t.nodes[x].phase.Resolved?
        ensures Replay(t, t.nodes[x].compute, t.nodes[x].deps) == Some(t.nodes[x].phase.value)
      {
        SurvivorKeeps(g, s, t, x, stale);
        ReplayKept(s, t, s.nodes[x].compute, s.nodes[x].deps, s.nodes[x].deps);
      }
    }
    assert Underway(t, []) by {
      forall r | Live(t, r) && IsSlot(t, t.runs[r].owner)
        ensures Reaches(t, t.nodes[t.runs[r].owner].compute, t.runs[r].rest, t.nodes[t.runs[r].owner].deps)
      {
        LiveKept(s, t, r);
        var x := s.runs[r].owner;
        SurvivorKeeps(g, s, t, x, stale);
        ReachesKept(s, t, s.nodes[x].compute, s.runs[r].rest, s.nodes[x].deps, s.nodes[x].deps);
      }
    }
    assert Waiting(t) by {
      forall r | Live(t, r) ensures WaitOk(t, r) {
        LiveKept(s, t, r);
        SurvivorKeeps(g, s, t, s.runs[r].owner, stale);
        WaitKept(g, s, t, r);
      }
    }
  }

  lemma LiveKept(s: State, t: State, r: RunId)
    requires Trimmed(s, t) && TokensOk(t) && TokensOk(s) && Live(t, r)
    ensures Live(s, r) && t.runs[r] == s.runs[r] && IsComputing(t, s.runs[r].owner, r) && !IsEmpty(t, s.runs[r].owner)
  {
    assert RunCut(s.runs[r], t.runs[r]);
    assert IsComputing(t, t.runs[r].owner, r);
  }

  lemma WaitKept(g: Plan, s: State, t: State, r: RunId)
    requires Cut(s, t) && RunsOk(g, s) && TokensOk(s) && Live(s, r) && WaitOk(s, r) && r in t.runs && t.runs[r] == s.runs[r]
    requires IsSlot(s, s.runs[r].owner) && SameEdges(s, t)
    requires forall d :: d in Deps(s, s.runs[r].owner) && IsSlot(s, d) && !IsEmpty(s, d) ==> IsSlot(t, d) && t.nodes[d] == s.nodes[d]
    ensures WaitOk(t, r)
  {
    var run := s.runs[r];
    if run.wait.Some? {
      var n := run.wait.value;
      assert RunCut(s.runs[n], t.runs[n]);
      assert RunOk(g, s, r);
      assert !IsEmpty(s, run.rest.id) && !IsEmpty(t, run.rest.id);
      assert t.runs[n] == s.runs[n];
    }
  }
}
