/** Outside a batch and without writes, fair rounds of ticks bring every demanded slot to its value. */
module AsyncProgress {
  import opened Basics
  import Edges
  import opened AsyncModel
  import opened AsyncProofs
  import opened AsyncSteps
  import opened AsyncRuns
  import opened AsyncHistory

  // -- how many rounds a run may need ------------------------------------------------------------------------

  /** One round for its end, one for each source read, and for each slot read its own need and two more. */
  ghost function Need(g: Plan, b: Book, x: Id, p: Prog): nat
    decreases g.rank(x), p
  {
    match p
    case Ret(_) => 1
    case Read(d, next) =>
      if g.rank(d) >= g.rank(x) then 0
      else
        var v := Meaning(g, b, d);
        if v.None? || v.value !in next then 0
        else 1 + (if d in b.computes then 1 + Need(g, b, d, b.computes[d]) else 0) + Need(g, b, x, next[v.value])
  }

  /** Where a run at `p` stands once it was handed what it reads. */
  ghost function Handed(g: Plan, b: Book, p: Prog): Prog {
    match p
    case Ret(_) => p
    case Read(d, next) =>
      var v := Meaning(g, b, d);
      if v.None? || v.value !in next then p else next[v.value]
  }

  lemma {:induction false} NeedsOne(g: Plan, b: Book, x: Id, p: Prog)
    requires MeaningOf(g, b, x, p).Some?
    ensures Need(g, b, x, p) >= 1
    ensures p.Read? ==> Meaning(g, b, p.id).Some? && Meaning(g, b, p.id).value in p.next && MeaningOf(g, b, x, Handed(g, b, p)).Some?
    ensures p.Read? ==> MeaningOf(g, b, x, Handed(g, b, p)) == MeaningOf(g, b, x, p)
    ensures p.Read? ==> Need(g, b, x, p) >= 1 + Need(g, b, x, Handed(g, b, p))
    ensures p.Read? && p.id in b.computes ==>
      Need(g, b, x, p) == 2 + Need(g, b, p.id, b.computes[p.id]) + Need(g, b, x, Handed(g, b, p))
  {
  }

  /** Whatever `p` has come to on what its slot's dependencies hold, it needs no more than at the start. */
  lemma {:induction false} ReachedNeeds(g: Plan, b: Book, s: State, x: Id, p: Prog, q: Prog, ds: seq<Id>)
    requires Inv(g, s) && Holds(b, s) && s.depth == 0 && Reaches(s, p, q, ds) && MeaningOf(g, b, x, p).Some?
    ensures Need(g, b, x, q) <= Need(g, b, x, p) && MeaningOf(g, b, x, q) == MeaningOf(g, b, x, p)
    decreases p
  {
    hide Inv, Holds, Meaning;
    if p != q {
      var v := Cached(s, p.id);
      StoredMeans(g, b, s, p.id);
      NeedsOne(g, b, x, p);
      ReachedNeeds(g, b, s, x, p.next[v.value], q, ds);
    }
  }

  // -- what one step does to a run -----------------------------------------------------------------------------

  /** The steps that neither write nor batch. */
  predicate Quiet(step: Step) { step.Tick? || step.GetAsync? }

  /** The run has published, and its notifier says what its slot holds. */
  predicate Finished(t: State, r: RunId) {
    && r in t.runs && t.runs[r].done && t.runs[r].notice.Settled?
    && IsSlot(t, t.runs[r].owner) && t.nodes[t.runs[r].owner].phase == Resolved(t.runs[r].notice.value)
  }

  /** The run is where it was, still waiting if it was. */
  predicate Stays(s: State, t: State, r: RunId) {
    && Live(s, r) && Live(t, r) && t.runs[r].owner == s.runs[r].owner && t.runs[r].rest == s.runs[r].rest
    && (s.runs[r].wait.Some? ==> t.runs[r].wait == s.runs[r].wait)
  }

  /** The run is past the read it was at. */
  ghost predicate Past(g: Plan, b: Book, s: State, t: State, r: RunId) {
    && Live(s, r) && Live(t, r) && t.runs[r].owner == s.runs[r].owner && s.runs[r].rest.Read?
    && MeaningOf(g, b, s.runs[r].owner, t.runs[r].rest) == MeaningOf(g, b, s.runs[r].owner, s.runs[r].rest)
    && Need(g, b, s.runs[r].owner, t.runs[r].rest) <= Need(g, b, s.runs[r].owner, Handed(g, b, s.runs[r].rest))
  }

  ghost predicate SameOwner(s: State, t: State, r: RunId) { r in s.runs && r in t.runs && t.runs[r].owner == s.runs[r].owner }

  /** A run never goes back. */
  ghost predicate Onward(g: Plan, b: Book, s: State, t: State, r: RunId) {
    SameOwner(s, t, r) && (Finished(t, r) || Stays(s, t, r) || Past(g, b, s, t, r))
  }

  /** Resolved slots stay resolved, and finished runs finished. */
  ghost predicate Lasting(s: State, t: State) {
    && (forall x :: IsSlot(s, x) && s.nodes[x].phase.Resolved? ==> IsSlot(t, x) && t.nodes[x].phase == s.nodes[x].phase)
    && (forall r :: Finished(s, r) ==> Finished(t, r) && t.runs[r] == s.runs[r])
  }

  /** After its own tick a run has ended, or is past its read, or waits for a slot that was not there yet. */
  ghost predicate Ticked(g: Plan, b: Book, s: State, t: State, r: RunId) {
    SameOwner(s, t, r) && (Finished(t, r) || Past(g, b, s, t, r) || Parked(s, t, r))
  }

  ghost predicate Parked(s: State, t: State, r: RunId) {
    && Stays(s, t, r) && t.runs[r].wait.Some? && t.runs[r].rest.Read? && IsSlot(t, t.runs[r].rest.id)
    && (s.runs[r].wait.Some? ==> IsSlot(s, s.runs[r].rest.id) && !s.nodes[s.runs[r].rest.id].phase.Resolved?)
  }

  lemma OnwardTrans(g: Plan, b: Book, s: State, t: State, u: State, r: RunId)
    requires Live(s, r) && MeaningOf(g, b, s.runs[r].owner, s.runs[r].rest).Some?
    requires Onward(g, b, s, t, r) && (Live(t, r) ==> Onward(g, b, t, u, r)) && Lasting(t, u)
    ensures Onward(g, b, s, u, r)
    ensures Past(g, b, s, t, r) ==> Finished(u, r) || Past(g, b, s, u, r)
  {
    hide Meaning, MeaningOf, Need, Handed;
    if !Finished(t, r) && !Finished(u, r) && t.runs[r].rest.Read? {
      NeedsOne(g, b, s.runs[r].owner, t.runs[r].rest);
    }
  }

  /** A step leaves every other run as it is and unsettles nothing. */
  ghost predicate Apart(s: State, t: State, r: RunId) {
    && Lasting(s, t) && (forall q :: q in s.runs && q != r ==> q in t.runs && t.runs[q] == s.runs[q])
  }

  lemma DemandApart(g: Plan, s: State, x: Id)
    requires Frame(g, s) && IsSlot(s, x)
    ensures var t := Demand(s, x);
      && Lasting(s, t) && (forall q :: q in s.runs ==> q in t.runs && t.runs[q] == s.runs[q])
      && IsSlot(t, x) && (!s.nodes[x].phase.Resolved? ==> t.nodes[x].phase.Computing?)
  {
    hide EdgesOk, NodesOk, TokensOk, Rewired, Begun, ClearDeps, Lasting, Finished;
    LastingRefl(s);
    if IsEmpty(s, x) {
      ClearRewires(g, s, x);
      var s1 := ClearDeps(s, x);
      RewiredReads(s, s1, x);
      RewiredRuns(s, s1, x);
      FreshRun(g, s);
      DemandIs(s, x);
      BegunApart(s, s1, x);
    }
  }

  lemma DemandIs(s: State, x: Id)
    requires IsEmpty(s, x) && IsSlot(ClearDeps(s, x), x) && ClearDeps(s, x).nextRun == s.nextRun
    requires ClearDeps(s, x).nodes[x].revision == s.nodes[x].revision && ClearDeps(s, x).nodes[x].compute == s.nodes[x].compute
    ensures Demand(s, x) == Begun(ClearDeps(s, x), x)
  {
    hide ClearDeps;
  }

  lemma BegunApart(s: State, s1: State, x: Id)
    requires IsEmpty(s1, x) && s1.runs == s.runs && s1.nextRun == s.nextRun && s.nextRun !in s.runs
    requires forall y :: IsSlot(s, y) ==> IsSlot(s1, y) && s1.nodes[y].phase == s.nodes[y].phase
    ensures var t := Begun(s1, x);
      && Lasting(s, t) && (forall q :: q in s.runs ==> q in t.runs && t.runs[q] == s.runs[q])
      && IsSlot(t, x) && t.nodes[x].phase.Computing?
  {
  }

  lemma RewiredRuns(s: State, t: State, x: Id)
    requires Rewired(s, t, x)
    ensures t.runs == s.runs && t.nextRun == s.nextRun
    ensures forall y :: IsSlot(s, y) ==> IsSlot(t, y) && t.nodes[y].phase == s.nodes[y].phase
  {
    forall y | IsSlot(s, y) ensures IsSlot(t, y) && t.nodes[y].phase == s.nodes[y].phase {
      assert SameButEdges(s.nodes[y], t.nodes[y]);
    }
  }

  lemma LastingTrans(s: State, t: State, u: State)
    requires Lasting(s, t) && Lasting(t, u)
    ensures Lasting(s, u)
  {
  }

  /** A live run's slot is computing, so nothing finished is its own. */
  lemma ReceiveApart(s: State, r: RunId, v: Value)
    requires r in s.runs && !s.runs[r].done && s.runs[r].rest.Read?
    ensures Apart(s, Receive(s, r, v), r)
  {
  }

  lemma AwaitApart(g: Plan, s: State, r: RunId, d: Id)
    requires Frame(g, s) && r in s.runs && !s.runs[r].done && s.runs[r].rest.Read? && IsSlot(s, d)
    ensures Apart(s, Await(s, r, d), r)
    ensures !s.nodes[d].phase.Resolved? ==> var t := Await(s, r, d);
      r in t.runs && IsSlot(t, d) && t.nodes[d].phase.Computing? && t.runs[r] == s.runs[r].(wait := Some(t.nodes[d].phase.run))
  {
    hide Frame, Demand;
    DemandApart(g, s, d);
  }

  lemma CompleteApart(g: Plan, s: State, r: RunId, v: Value)
    requires Frame(g, s) && r in s.runs && !s.runs[r].done
    ensures Apart(s, Complete(s, r, v), r)
    ensures Live(s, r) ==> Finished(Complete(s, r, v), r) && SameOwner(s, Complete(s, r, v), r)
  {
    hide Frame, Complete, Apart, Finished;
    if Live(s, r) {
      LivePublishes(g, s, r, v);
      LiveComputes(g, s, r);
      PublishApart(s, Complete(s, r, v), r, v);
    } else {
      SupersededChangesNothing(g, s, r, v);
      DoneApart(s, r);
    }
  }

  lemma LiveComputes(g: Plan, s: State, r: RunId)
    requires Frame(g, s) && Live(s, r)
    ensures IsComputing(s, s.runs[r].owner, r)
  {
  }

  lemma PublishApart(s: State, t: State, r: RunId, v: Value)
    requires Live(s, r) && IsComputing(s, s.runs[r].owner, r)
    requires t == PutRun(Put(s, s.runs[r].owner, s.nodes[s.runs[r].owner].(phase := Resolved(v))), r,
                         s.runs[r].(done := true, notice := Settled(v)))
    ensures Apart(s, t, r) && Finished(t, r)
  {
  }

  lemma DoneApart(s: State, r: RunId)
    requires r in s.runs && !s.runs[r].done
    ensures Apart(s, PutRun(s, r, s.runs[r].(done := true)), r)
  {
  }

  lemma RegisterApart(g: Plan, s: State, r: RunId)
    requires Frame(g, s) && r in s.runs && s.runs[r].rest.Read?
    ensures var t := Register(s, s.runs[r].rest.id, s.runs[r].owner);
      && Frame(g, t) && t.runs == s.runs && Lasting(s, t) && (forall y :: Cached(t, y) == Cached(s, y))
      && (forall y :: IsSlot(t, y) == IsSlot(s, y) && IsCell(t, y) == IsCell(s, y)) && s.runs[r].rest.id in t.nodes
  {
    hide Frame, Rewired, Register;
    var run := s.runs[r];
    ReadsLower(g, s, r);
    RegisterRewires(g, s, run.rest.id, run.owner);
    var t := Register(s, run.rest.id, run.owner);
    RewiredFrame(g, s, t, run.owner);
    RewiredReads(s, t, run.owner);
    RewiredRuns(s, t, run.owner);
    assert IsSlot(t, run.rest.id) || IsCell(t, run.rest.id);
  }

  /** What a run receives at its read, if its slot can be computed, takes it past that read. */
  lemma ReceivePast(g: Plan, b: Book, s: State, r: RunId, v: Value)
    requires Live(s, r) && s.runs[r].rest.Read? && MeaningOf(g, b, s.runs[r].owner, s.runs[r].rest).Some?
    requires Meaning(g, b, s.runs[r].rest.id) == Some(v)
    ensures Past(g, b, s, Receive(s, r, v), r)
    ensures var t := Receive(s, r, v); v in s.runs[r].rest.next && t.runs[r].rest == s.runs[r].rest.next[v] && t.runs[r].wait.None?
  {
    hide Meaning;
    NeedsOne(g, b, s.runs[r].owner, s.runs[r].rest);
  }

  lemma LiveGives(g: Plan, s: State, r: RunId)
    requires Inv(g, s) && Live(s, r)
    ensures Frame(g, s) && WaitOk(s, r) && IsComputing(s, s.runs[r].owner, r) && s.runs[r].notice == Pending
    ensures s.runs[r].wait.Some? ==> s.runs[r].rest.Read? && IsSlot(s, s.runs[r].rest.id) && s.runs[r].wait.value in s.runs
    ensures s.runs[r].rest.Read? ==> s.runs[r].rest.id in s.nodes
  {
    assert IsComputing(s, s.runs[r].owner, r);
    assert RunOk(g, s, r);
  }

  /** A waiting run whose slot has come takes the value; otherwise it waits on. */
  lemma WaitTick(g: Plan, b: Book, s: State, r: RunId)
    requires Inv(g, s) && Holds(b, s) && s.depth == 0 && Live(s, r) && s.runs[r].wait.Some?
    requires MeaningOf(g, b, s.runs[r].owner, s.runs[r].rest).Some?
    ensures var t := Advance(s, r); Apart(s, t, r) && Ticked(g, b, s, t, r)
  {
    hide Inv, Holds, Frame, Meaning, MeaningOf, Need, Await, Past;
    LiveGives(g, s, r);
    var d := s.runs[r].rest.id;
    match s.runs[s.runs[r].wait.value].notice
    case Pending =>
    case Settled(v) =>
      StoredMeans(g, b, s, d);
      ReceivePast(g, b, s, r, v);
      ReceiveApart(s, r, v);
  }

  /** A run at a read takes a source's value or a slot's that is there, and waits for a slot that is not. */
  lemma ReadTick(g: Plan, b: Book, s: State, r: RunId)
    requires Inv(g, s) && Holds(b, s) && s.depth == 0 && Live(s, r) && s.runs[r].wait.None? && s.runs[r].rest.Read?
    requires MeaningOf(g, b, s.runs[r].owner, s.runs[r].rest).Some?
    ensures var t := Advance(s, r); Apart(s, t, r) && Ticked(g, b, s, t, r)
  {
    hide Inv, Holds, Frame, Meaning, MeaningOf, Need, Await, Past, Register, Lasting, Receive;
    LiveGives(g, s, r);
    var d := s.runs[r].rest.id;
    RegisterApart(g, s, r);
    var s1 := Register(s, d, s.runs[r].owner);
    if Cached(s, d).Some? {
      var v := Cached(s, d).value;
      StoredMeans(g, b, s, d);
      ReceivePast(g, b, s1, r, v);
      ReceiveApart(s1, r, v);
      var t := Receive(s1, r, v);
      assert Advance(s, r) == t by { ReceiveIsAwait(s1, r, d, v); }
      LastingTrans(s, s1, t);
      PastFrom(g, b, s, s1, t, r);
    } else {
      AwaitApart(g, s1, r, d);
      LastingTrans(s, s1, Await(s1, r, d));
    }
  }

  lemma ReceiveIsAwait(s: State, r: RunId, d: Id, v: Value)
    requires r in s.runs && s.runs[r].rest.Read? && Cached(s, d) == Some(v)
    ensures d in s.nodes && (if s.nodes[d].Cell? then Receive(s, r, s.nodes[d].value) else Await(s, r, d)) == Receive(s, r, v)
  {
  }

  lemma PastFrom(g: Plan, b: Book, s: State, s1: State, t: State, r: RunId)
    requires s1.runs == s.runs && Past(g, b, s1, t, r)
    ensures Past(g, b, s, t, r) && SameOwner(s, t, r)
  {
  }

  lemma TickMoves(g: Plan, b: Book, s: State, r: RunId)
    requires Inv(g, s) && Holds(b, s) && s.depth == 0 && Live(s, r)
    requires MeaningOf(g, b, s.runs[r].owner, s.runs[r].rest).Some?
    ensures var t := Advance(s, r); Apart(s, t, r) && Ticked(g, b, s, t, r)
  {
    hide Inv, Holds, Frame, Coherent, Meaning, MeaningOf, Need, Past, Complete, Advance, Apart, Finished;
    if s.runs[r].wait.Some? {
      WaitTick(g, b, s, r);
    } else if s.runs[r].rest.Read? {
      ReadTick(g, b, s, r);
    } else {
      EndTick(g, b, s, r);
    }
  }

  lemma EndTick(g: Plan, b: Book, s: State, r: RunId)
    requires Inv(g, s) && Live(s, r) && s.runs[r].wait.None? && s.runs[r].rest.Ret?
    ensures var t := Advance(s, r); Apart(s, t, r) && SameOwner(s, t, r) && Finished(t, r)
  {
    hide Inv, Frame, Complete, Apart, Finished;
    LiveGives(g, s, r);
    CompleteApart(g, s, r, s.runs[r].rest.result);
  }

  /** Whatever run ticks, no other run and nothing settled is touched. */
  lemma AdvanceApart(g: Plan, s: State, q: RunId)
    requires Frame(g, s) && q in s.runs
    ensures Apart(s, Advance(s, q), q)
  {
    hide Await, Complete, Register, NodesOk, EdgesOk, TokensOk, Lasting;
    var run := s.runs[q];
    assert RunOk(g, s, q);
    LastingRefl(s);
    if run.done {
    } else if run.wait.Some? {
      if s.runs[run.wait.value].notice.Superseded? {
        AwaitApart(g, s, q, run.rest.id);
      } else if s.runs[run.wait.value].notice.Settled? {
        ReceiveApart(s, q, s.runs[run.wait.value].notice.value);
      }
    } else if run.rest.Ret? {
      CompleteApart(g, s, q, run.rest.result);
    } else {
      ReadsLower(g, s, q);
      ReadApart(g, s, q);
    }
  }

  lemma LastingRefl(s: State)
    ensures Lasting(s, s)
  {
  }

  lemma ReadApart(g: Plan, s: State, q: RunId)
    requires Frame(g, s) && q in s.runs && !s.runs[q].done && s.runs[q].wait.None? && s.runs[q].rest.Read?
    requires s.runs[q].owner in s.nodes && s.runs[q].rest.id in s.nodes
    ensures Apart(s, Advance(s, q), q)
  {
    hide Await, Register, Frame, Lasting;
    var d := s.runs[q].rest.id;
    RegisterApart(g, s, q);
    var s1 := Register(s, d, s.runs[q].owner);
    if s1.nodes[d].Cell? {
      ReceiveApart(s1, q, s1.nodes[d].value);
    } else {
      AwaitApart(g, s1, q, d);
    }
    LastingTrans(s, s1, Advance(s, q));
  }

  /** One quiet step: no run goes back, and the run that ticks moves, ends or waits. */
  lemma QuietStep(g: Plan, b: Book, s: State, step: Step, r: RunId)
    requires Inv(g, s) && Holds(b, s) && s.depth == 0 && Quiet(step)
    ensures var t := Next(g, s, step); Inv(g, t) && Holds(b, t) && t.depth == 0 && Lasting(s, t)
    ensures Live(s, r) && MeaningOf(g, b, s.runs[r].owner, s.runs[r].rest).Some? ==> Onward(g, b, s, Next(g, s, step), r)
    ensures Live(s, r) && MeaningOf(g, b, s.runs[r].owner, s.runs[r].rest).Some? && step == Tick(r) ==>
      Ticked(g, b, s, Next(g, s, step), r)
  {
    hide Inv, Holds, Demand, Advance, Lasting, MeaningOf, Past, Finished;
    StepOk(g, s, step);
    StepHolds(g, b, s, step);
    QuietDepth(b, s, Next(g, s, step));
    LastingRefl(s);
    match step
    case GetAsync(x) =>
      if IsSlot(s, x) {
        InvFrame(g, s);
        DemandApart(g, s, x);
      }
    case Tick(q) =>
      if q in s.runs {
        InvFrame(g, s);
        AdvanceApart(g, s, q);
        if q == r && Live(s, r) && MeaningOf(g, b, s.runs[r].owner, s.runs[r].rest).Some? {
          TickMoves(g, b, s, r);
          TickedOnward(g, b, s, Advance(s, r), r);
        }
      }
  }

  lemma TickedOnward(g: Plan, b: Book, s: State, t: State, r: RunId)
    requires Ticked(g, b, s, t, r)
    ensures Onward(g, b, s, t, r)
  {
    hide Past, Finished;
  }

  lemma InvFrame(g: Plan, s: State)
    requires Inv(g, s)
    ensures Frame(g, s)
  {
  }

  lemma QuietDepth(b: Book, s: State, t: State)
    requires Holds(b, s) && Holds(b, t)
    ensures t.depth == s.depth
  {
  }

  // -- rounds ------------------------------------------------------------------------------------------------------

  ghost function Steps(g: Plan, s: State, steps: seq<Step>): State
    decreases |steps|
  {
    if steps == [] then s else Steps(g, Next(g, s, steps[0]), steps[1..])
  }

  ghost function Rounds(g: Plan, s: State, rounds: seq<seq<Step>>): State
    decreases |rounds|
  {
    if rounds == [] then s else Rounds(g, Steps(g, s, rounds[0]), rounds[1..])
  }

  ghost predicate AllQuiet(steps: seq<Step>) { forall step :: step in steps ==> Quiet(step) }

  /** In each round every run that is live when it begins ticks at least once, whatever else does and in whatever order. */
  ghost predicate Fair(g: Plan, s: State, rounds: seq<seq<Step>>)
    decreases |rounds|
  {
    rounds != [] ==>
      && AllQuiet(rounds[0]) && (forall r :: Live(s, r) ==> Tick(r) in rounds[0])
      && Fair(g, Steps(g, s, rounds[0]), rounds[1..])
  }

  /** The run is live and its slot can be computed from where it stands. */
  ghost predicate Sound(g: Plan, b: Book, s: State, r: RunId) {
    Live(s, r) && MeaningOf(g, b, s.runs[r].owner, s.runs[r].rest).Some?
  }

  lemma OnwardRefl(g: Plan, b: Book, s: State, r: RunId)
    requires Live(s, r)
    ensures Onward(g, b, s, s, r)
  {
  }

  lemma OnwardSound(g: Plan, b: Book, s: State, t: State, r: RunId)
    requires Sound(g, b, s, r) && Onward(g, b, s, t, r)
    ensures Finished(t, r) || Sound(g, b, t, r)
  {
    hide MeaningOf, Need, Handed;
  }

  /** Ticked first, then anything. */
  lemma TickedThen(g: Plan, b: Book, s: State, t: State, u: State, r: RunId)
    requires Sound(g, b, s, r) && Ticked(g, b, s, t, r) && (Live(t, r) ==> Onward(g, b, t, u, r)) && Lasting(t, u)
    requires Live(u, r) && u.runs[r].rest.Read? && u.runs[r].wait.Some? ==> IsSlot(u, u.runs[r].rest.id)
    ensures Ticked(g, b, s, u, r)
  {
    hide MeaningOf, Need, Handed, Lasting, Past, Finished;
    TickedOnward(g, b, s, t, r);
    OnwardTrans(g, b, s, t, u, r);
    FinishedLasts(t, u, r);
    if !Finished(t, r) && !Past(g, b, s, t, r) && !Finished(u, r) && !Stays(t, u, r) {
      PastStays(g, b, s, t, u, r);
    }
  }

  lemma FinishedLasts(t: State, u: State, r: RunId)
    requires Lasting(t, u)
    ensures Finished(t, r) ==> Finished(u, r) && u.runs[r] == t.runs[r]
  {
  }

  lemma PastStays(g: Plan, b: Book, s: State, t: State, u: State, r: RunId)
    requires Stays(s, t, r) && Past(g, b, t, u, r)
    ensures Past(g, b, s, u, r)
  {
    hide MeaningOf, Need, Handed;
  }

  /** Anything first, then ticked. */
  lemma ThenTicked(g: Plan, b: Book, s: State, t: State, u: State, r: RunId)
    requires Sound(g, b, s, r) && Onward(g, b, s, t, r) && Lasting(s, t) && Lasting(t, u)
    requires Live(t, r) ==> Onward(g, b, t, u, r) && Ticked(g, b, t, u, r)
    requires s.runs[r].wait.Some? ==> s.runs[r].rest.Read? && IsSlot(s, s.runs[r].rest.id)
    ensures Ticked(g, b, s, u, r)
  {
    hide MeaningOf, Need, Handed, Past, Finished;
    OnwardTrans(g, b, s, t, u, r);
    FinishedLasts(t, u, r);
    if Stays(s, t, r) && !Finished(u, r) {
      if Past(g, b, t, u, r) {
        PastStays(g, b, s, t, u, r);
      }
    }
  }

  /** What holds across quiet steps. */
  ghost predicate Goes(g: Plan, b: Book, s: State, t: State) {
    Inv(g, t) && Holds(b, t) && t.depth == 0 && Lasting(s, t)
  }

  lemma SoundWaits(g: Plan, b: Book, s: State, r: RunId)
    requires Inv(g, s) && Live(s, r)
    ensures s.runs[r].wait.Some? ==> s.runs[r].rest.Read? && IsSlot(s, s.runs[r].rest.id)
  {
    hide Inv;
    LiveGives(g, s, r);
  }

  /** A list of quiet steps that holds a tick of `r` is like one tick of it. */
  lemma {:induction false} QuietSteps(g: Plan, b: Book, s: State, steps: seq<Step>, r: RunId)
    requires Inv(g, s) && Holds(b, s) && s.depth == 0 && AllQuiet(steps)
    ensures Goes(g, b, s, Steps(g, s, steps))
    ensures Sound(g, b, s, r) ==> Onward(g, b, s, Steps(g, s, steps), r)
    ensures Sound(g, b, s, r) && Tick(r) in steps ==> Ticked(g, b, s, Steps(g, s, steps), r)
    decreases |steps|
  {
    hide Inv, Holds, Lasting, MeaningOf, Onward, Ticked, Next, Live;
    if steps == [] {
      LastingRefl(s);
      if Sound(g, b, s, r) {
        SoundRefl(g, b, s, r);
      }
    } else {
      var t := Next(g, s, steps[0]);
      var u := Steps(g, t, steps[1..]);
      assert steps == [steps[0]] + steps[1..];
      assert Quiet(steps[0]);
      QuietStep(g, b, s, steps[0], r);
      QuietSteps(g, b, t, steps[1..], r);
      LastingTrans(s, t, u);
      if Sound(g, b, s, r) {
        ComposeSteps(g, b, s, t, u, r, steps[0] == Tick(r), Tick(r) in steps[1..]);
      }
    }
  }

  lemma SoundRefl(g: Plan, b: Book, s: State, r: RunId)
    requires Sound(g, b, s, r)
    ensures Onward(g, b, s, s, r)
  {
  }

  lemma ComposeSteps(g: Plan, b: Book, s: State, t: State, u: State, r: RunId, first: bool, later: bool)
    requires Inv(g, s) && Inv(g, u) && Sound(g, b, s, r) && Onward(g, b, s, t, r) && Lasting(s, t) && Lasting(t, u)
    requires Sound(g, b, t, r) ==> Onward(g, b, t, u, r) && (later ==> Ticked(g, b, t, u, r))
    requires first ==> Ticked(g, b, s, t, r)
    ensures Onward(g, b, s, u, r) && (first || later ==> Ticked(g, b, s, u, r))
  {
    hide Inv, Lasting, MeaningOf, Onward, Ticked;
    OnwardSound(g, b, s, t, r);
    FinishedDone(t, r);
    OnwardTrans(g, b, s, t, u, r);
    SoundWaits(g, b, s, r);
    if Live(u, r) {
      SoundWaits(g, b, u, r);
    }
    if later {
      ThenTicked(g, b, s, t, u, r);
    } else if first {
      TickedThen(g, b, s, t, u, r);
    }
  }

  lemma FinishedDone(t: State, r: RunId)
    ensures Finished(t, r) ==> !Live(t, r)
  {
  }

  lemma GoesTrans(g: Plan, b: Book, s: State, t: State, u: State)
    requires Goes(g, b, s, t) && Goes(g, b, t, u)
    ensures Goes(g, b, s, u)
  {
    hide Inv, Holds, Lasting;
    LastingTrans(s, t, u);
  }

  /** Over whole rounds no run goes back. */
  lemma {:induction false} QuietRounds(g: Plan, b: Book, s: State, rounds: seq<seq<Step>>, r: RunId)
    requires Inv(g, s) && Holds(b, s) && s.depth == 0 && Fair(g, s, rounds)
    ensures Goes(g, b, s, Rounds(g, s, rounds))
    ensures Sound(g, b, s, r) ==> Onward(g, b, s, Rounds(g, s, rounds), r)
    decreases |rounds|
  {
    hide Inv, Holds, Lasting, MeaningOf, Onward, Steps, Live;
    if rounds == [] {
      LastingRefl(s);
      if Sound(g, b, s, r) {
        SoundRefl(g, b, s, r);
      }
    } else {
      var t := Steps(g, s, rounds[0]);
      QuietSteps(g, b, s, rounds[0], r);
      QuietRounds(g, b, t, rounds[1..], r);
      GoesTrans(g, b, s, t, Rounds(g, s, rounds));
      if Sound(g, b, s, r) {
        ComposeSteps(g, b, s, t, Rounds(g, s, rounds), r, false, false);
      }
    }
  }

  lemma {:induction false} RoundsSplit(g: Plan, s: State, rounds: seq<seq<Step>>, k: nat)
    requires k <= |rounds| && Fair(g, s, rounds)
    ensures Rounds(g, s, rounds) == Rounds(g, Rounds(g, s, rounds[..k]), rounds[k..])
    ensures Fair(g, s, rounds[..k]) && Fair(g, Rounds(g, s, rounds[..k]), rounds[k..])
    decreases k
  {
    hide Steps, Live;
    if k == 0 {
      assert rounds[0..] == rounds && rounds[..0] == [];
    } else {
      var t := Steps(g, s, rounds[0]);
      RoundsSplit(g, t, rounds[1..], k - 1);
      assert rounds[..k] == [rounds[0]] + rounds[1..][..k - 1];
      assert rounds[..k][1..] == rounds[1..][..k - 1];
      assert rounds[k..] == rounds[1..][k - 1..];
    }
  }

  // -- every sound run ends ----------------------------------------------------------------------------------------

  /** With as many fair rounds as it needs, a live run publishes. */
  lemma {:induction false} RunEnds(g: Plan, b: Book, s: State, r: RunId, rounds: seq<seq<Step>>)
    requires Inv(g, s) && Holds(b, s) && s.depth == 0 && Sound(g, b, s, r) && Fair(g, s, rounds)
    requires |rounds| >= Need(g, b, s.runs[r].owner, s.runs[r].rest)
    ensures Finished(Rounds(g, s, rounds), r)
    decreases Need(g, b, s.runs[r].owner, s.runs[r].rest), 1
  {
    hide Inv, Holds, Lasting, MeaningOf, Need, Steps, Stays, Past, Ticked, Onward;
    var t := Rounds(g, s, rounds);
    NeedsOne(g, b, s.runs[r].owner, s.runs[r].rest);
    RoundsSplit(g, s, rounds, 1);
    var s1 := Rounds(g, s, rounds[..1]);
    RoundTicks(g, b, s, rounds, r);
    QuietRounds(g, b, s1, rounds[1..], r);
    TickedCases(g, b, s, s1, r);
    if Finished(s1, r) {
      FinishedLasts(s1, t, r);
    } else if Past(g, b, s, s1, r) {
      PastSound(g, b, s, s1, r);
      RunEnds(g, b, s1, r, rounds[1..]);
    } else {
      ParkedSound(g, b, s, s1, r);
      ParkedEnds(g, b, s1, r, rounds[1..]);
    }
  }

  /** The first of fair rounds ticks every live run. */
  lemma RoundTicks(g: Plan, b: Book, s: State, rounds: seq<seq<Step>>, r: RunId)
    requires Inv(g, s) && Holds(b, s) && s.depth == 0 && Sound(g, b, s, r) && Fair(g, s, rounds) && rounds != []
    ensures Goes(g, b, s, Rounds(g, s, rounds[..1])) && Ticked(g, b, s, Rounds(g, s, rounds[..1]), r)
  {
    hide Inv, Holds, Lasting, MeaningOf, Steps, Stays, Past, Ticked, Onward;
    QuietSteps(g, b, s, rounds[0], r);
    var t := Steps(g, s, rounds[0]);
    assert rounds[..1] == [rounds[0]] && rounds[..1][1..] == [];
    assert Rounds(g, s, rounds[..1]) == Rounds(g, t, []) == t;
  }

  lemma TickedCases(g: Plan, b: Book, s: State, t: State, r: RunId)
    requires Ticked(g, b, s, t, r)
    ensures Finished(t, r) || Past(g, b, s, t, r) || Parked(s, t, r)
  {
  }

  lemma ParkedSound(g: Plan, b: Book, s: State, t: State, r: RunId)
    requires Sound(g, b, s, r) && Parked(s, t, r)
    ensures Sound(g, b, t, r) && t.runs[r].owner == s.runs[r].owner && t.runs[r].rest == s.runs[r].rest
  {
    hide MeaningOf;
  }

  /** A run past its read is still sound, and needs at least one round less. */
  lemma PastSound(g: Plan, b: Book, s: State, t: State, r: RunId)
    requires Sound(g, b, s, r) && Past(g, b, s, t, r)
    ensures Sound(g, b, t, r) && t.runs[r].owner == s.runs[r].owner && s.runs[r].rest.Read?
    ensures Need(g, b, s.runs[r].owner, t.runs[r].rest) <= Need(g, b, s.runs[r].owner, Handed(g, b, s.runs[r].rest))
    ensures Need(g, b, s.runs[r].owner, Handed(g, b, s.runs[r].rest)) + 1 <= Need(g, b, s.runs[r].owner, s.runs[r].rest)
  {
    hide MeaningOf, Need, Handed;
    NeedsOne(g, b, s.runs[r].owner, s.runs[r].rest);
  }

  /** A run that waits for a slot gets its value once the slot is there, and goes on to its end. */
  lemma {:induction false} ParkedEnds(g: Plan, b: Book, s: State, r: RunId, rounds: seq<seq<Step>>)
    requires Inv(g, s) && Holds(b, s) && s.depth == 0 && Sound(g, b, s, r) && Fair(g, s, rounds)
    requires s.runs[r].wait.Some? && s.runs[r].rest.Read? && IsSlot(s, s.runs[r].rest.id)
    requires |rounds| + 1 >= Need(g, b, s.runs[r].owner, s.runs[r].rest)
    ensures Finished(Rounds(g, s, rounds), r)
    decreases Need(g, b, s.runs[r].owner, s.runs[r].rest), 0
  {
    hide Inv, Holds, Lasting, MeaningOf, Need, Steps, Past, Ticked, Onward;
    var (x, p) := (s.runs[r].owner, s.runs[r].rest);
    var d := p.id;
    NeedsOne(g, b, x, p);
    ComputeIn(b, s, d);
    var k := Need(g, b, d, b.computes[d]);
    WaitsFor(g, s, r);
    RoundsSplit(g, s, rounds, k);
    SlotEnds(g, b, s, d, rounds[..k]);
    QuietRounds(g, b, s, rounds[..k], r);
    var s2 := Rounds(g, s, rounds[..k]);
    OnwardCases(g, b, s, s2, r);
    QuietRounds(g, b, s2, rounds[k..], r);
    if Finished(s2, r) {
      FinishedLasts(s2, Rounds(g, s, rounds), r);
    } else if Past(g, b, s, s2, r) {
      PastSound(g, b, s, s2, r);
      RunEnds(g, b, s2, r, rounds[k..]);
    } else {
      ServedEnds(g, b, s2, r, rounds[k..]);
    }
  }

  /** A run whose awaited slot is there takes its value in the next round. */
  lemma {:induction false} ServedEnds(g: Plan, b: Book, s: State, r: RunId, rounds: seq<seq<Step>>)
    requires Inv(g, s) && Holds(b, s) && s.depth == 0 && Sound(g, b, s, r) && Fair(g, s, rounds)
    requires s.runs[r].wait.Some? && s.runs[r].rest.Read? && IsSlot(s, s.runs[r].rest.id)
    requires s.nodes[s.runs[r].rest.id].phase.Resolved?
    requires |rounds| >= 1 + Need(g, b, s.runs[r].owner, Handed(g, b, s.runs[r].rest))
    ensures Finished(Rounds(g, s, rounds), r)
    decreases Need(g, b, s.runs[r].owner, Handed(g, b, s.runs[r].rest)), 2
  {
    hide Inv, Holds, Lasting, MeaningOf, Need, Steps, Past, Ticked, Onward;
    RoundTicks(g, b, s, rounds, r);
    RoundsSplit(g, s, rounds, 1);
    var t := Rounds(g, s, rounds[..1]);
    TickedCases(g, b, s, t, r);
    QuietRounds(g, b, t, rounds[1..], r);
    if Finished(t, r) {
      FinishedLasts(t, Rounds(g, s, rounds), r);
    } else {
      PastSound(g, b, s, t, r);
      RunEnds(g, b, t, r, rounds[1..]);
    }
  }

  /** A slot that is being computed comes to its value. */
  lemma {:induction false} SlotEnds(g: Plan, b: Book, s: State, x: Id, rounds: seq<seq<Step>>)
    requires Inv(g, s) && Holds(b, s) && s.depth == 0 && Fair(g, s, rounds)
    requires IsSlot(s, x) && !IsEmpty(s, x) && x in b.computes && Meaning(g, b, x).Some?
    requires |rounds| >= Need(g, b, x, b.computes[x])
    ensures var t := Rounds(g, s, rounds);
      && IsSlot(t, x) && t.nodes[x].phase.Resolved?
      && (s.nodes[x].phase.Computing? ==>
            var r := s.nodes[x].phase.run; r in t.runs && t.runs[r].notice == Settled(t.nodes[x].phase.value))
    decreases Need(g, b, x, b.computes[x]), 2
  {
    hide Inv, Holds, Lasting, MeaningOf, Need, Steps, Past, Ticked, Onward;
    var t := Rounds(g, s, rounds);
    if s.nodes[x].phase.Resolved? {
      QuietRounds(g, b, s, rounds, 0);
      ResolvedLasts(s, t, x);
    } else {
      var r := s.nodes[x].phase.run;
      RunOfSlot(g, b, s, x, r);
      RunEnds(g, b, s, r, rounds);
      QuietRounds(g, b, s, rounds, r);
      OnwardOwner(g, b, s, t, r);
    }
  }

  lemma ResolvedLasts(s: State, t: State, x: Id)
    requires Lasting(s, t) && IsSlot(s, x) && s.nodes[x].phase.Resolved?
    ensures IsSlot(t, x) && t.nodes[x].phase == s.nodes[x].phase
  {
  }

  lemma OnwardOwner(g: Plan, b: Book, s: State, t: State, r: RunId)
    requires Onward(g, b, s, t, r)
    ensures r in s.runs && r in t.runs && t.runs[r].owner == s.runs[r].owner
  {
  }

  lemma OnwardCases(g: Plan, b: Book, s: State, t: State, r: RunId)
    requires Onward(g, b, s, t, r) && Sound(g, b, s, r)
    ensures Finished(t, r) || Past(g, b, s, t, r) || (Stays(s, t, r) && Sound(g, b, t, r))
  {
    hide MeaningOf, Need, Past;
  }

  lemma ComputeIn(b: Book, s: State, x: Id)
    requires Holds(b, s) && IsSlot(s, x)
    ensures x in b.computes && b.computes[x] == s.nodes[x].compute
  {
  }

  /** What a live run waits for is under way or there. */
  lemma WaitsFor(g: Plan, s: State, r: RunId)
    requires Inv(g, s) && Live(s, r) && s.runs[r].wait.Some?
    ensures s.runs[r].rest.Read? && IsSlot(s, s.runs[r].rest.id) && !IsEmpty(s, s.runs[r].rest.id)
  {
    hide Frame, Good, Underway;
    assert WaitOk(s, r);
  }

  /** The run of a computing slot is live, its own, and no further from its end than at its start. */
  lemma RunOfSlot(g: Plan, b: Book, s: State, x: Id, r: RunId)
    requires Inv(g, s) && Holds(b, s) && s.depth == 0 && IsComputing(s, x, r) && x in b.computes && Meaning(g, b, x).Some?
    ensures Sound(g, b, s, r) && s.runs[r].owner == x
    ensures Need(g, b, x, s.runs[r].rest) <= Need(g, b, x, b.computes[x])
  {
    hide EdgesOk, RunsOk, NodesOk, Good, Waiting, Need;
    SourceOrCompute(b, s, x);
    assert Live(s, r) && s.runs[r].owner == x;
    assert Clear(s, x, s.batched);
    assert Reaches(s, s.nodes[x].compute, s.runs[r].rest, s.nodes[x].deps);
    ReachedNeeds(g, b, s, x, s.nodes[x].compute, s.runs[r].rest, s.nodes[x].deps);
  }

  lemma SourceOrCompute(b: Book, s: State, x: Id)
    requires Holds(b, s) && IsSlot(s, x)
    ensures x !in b.sources
  {
  }

  // -- every demand is met --------------------------------------------------------------------------------------------

  /**
   After any legal run that is outside a batch, ask for a slot: when its compute, as it was given, has a value
   for the sources as they stand, then after as many fair rounds as it needs the slot holds that value, and so
   does the notifier of the run the caller waits for; when it has none, the slot is never resolved.
   */
  lemma DemandsAreMet(g: Plan, steps: seq<Step>, x: Id, rounds: seq<seq<Step>>)
    ensures match Reach(g, steps)
      case None => true
      case Some(s0) =>
        var b := Booked(g, steps);
        var s := Next(g, s0, GetAsync(x));
        b.depth == 0 && x in b.computes && Fair(g, s, rounds) && |rounds| >= Need(g, b, x, b.computes[x]) ==>
          var t := Rounds(g, s, rounds);
          && IsSlot(s, x) && IsSlot(t, x)
          && (t.nodes[x].phase.Resolved? <==> Meaning(g, b, x).Some?)
          && (t.nodes[x].phase.Resolved? ==> Some(t.nodes[x].phase.value) == Meaning(g, b, x))
          && (forall r :: IsComputing(s, x, r) && Meaning(g, b, x).Some? ==>
                r in t.runs && t.runs[r].notice == Settled(Meaning(g, b, x).value))
  {
    hide Inv, Holds, Booked, Meaning, Need, Fair, Rounds, Next;
    BookHolds(g, steps);
    var reached := Reach(g, steps);
    if reached.Some? {
      var b := Booked(g, steps);
      var s := Next(g, reached.value, GetAsync(x));
      if b.depth == 0 && x in b.computes && Fair(g, s, rounds) && |rounds| >= Need(g, b, x, b.computes[x]) {
        DemandMet(g, b, reached.value, x, rounds);
      }
    }
  }

  lemma DemandMet(g: Plan, b: Book, s0: State, x: Id, rounds: seq<seq<Step>>)
    requires Inv(g, s0) && Holds(b, s0) && b.depth == 0 && x in b.computes
    requires Fair(g, Next(g, s0, GetAsync(x)), rounds) && |rounds| >= Need(g, b, x, b.computes[x])
    ensures var s := Next(g, s0, GetAsync(x));
      var t := Rounds(g, s, rounds);
      && IsSlot(s, x) && IsSlot(t, x)
      && (t.nodes[x].phase.Resolved? <==> Meaning(g, b, x).Some?)
      && (t.nodes[x].phase.Resolved? ==> Some(t.nodes[x].phase.value) == Meaning(g, b, x))
      && (forall r :: IsComputing(s, x, r) && Meaning(g, b, x).Some? ==>
            r in t.runs && t.runs[r].notice == Settled(Meaning(g, b, x).value))
  {
    hide Inv, Holds, Meaning, Need, Fair, Rounds, Demand, Lasting, Onward, Live;
    var s := Next(g, s0, GetAsync(x));
    Demanded(g, b, s0, x);
    QuietRounds(g, b, s, rounds, 0);
    var t := Rounds(g, s, rounds);
    ComputeOut(b, t, x);
    if Meaning(g, b, x).Some? {
      SlotEnds(g, b, s, x, rounds);
    }
    if t.nodes[x].phase.Resolved? {
      StoredMeans(g, b, t, x);
    }
  }

  lemma ComputeOut(b: Book, s: State, x: Id)
    requires Holds(b, s) && x in b.computes
    ensures IsSlot(s, x) && b.depth == s.depth
  {
  }

  /** Asking for a slot leaves it under way or there. */
  lemma Demanded(g: Plan, b: Book, s0: State, x: Id)
    requires Inv(g, s0) && Holds(b, s0) && b.depth == 0 && x in b.computes
    ensures var s := Next(g, s0, GetAsync(x)); Inv(g, s) && Holds(b, s) && s.depth == 0 && IsSlot(s, x) && !IsEmpty(s, x)
  {
    hide Inv, Holds, Demand, Lasting, Onward;
    ComputeOut(b, s0, x);
    QuietStep(g, b, s0, GetAsync(x), 0);
    InvFrame(g, s0);
    DemandApart(g, s0, x);
    if s0.nodes[x].phase.Resolved? {
      ResolvedLasts(s0, Next(g, s0, GetAsync(x)), x);
    }
  }
}
