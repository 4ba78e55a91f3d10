/**
 The asynchronous reactive context as a state machine: cells are written synchronously, slots are
 computed by runs that advance one read at a time in any interleaving, and a write supersedes every
 run it reaches.
 */
module AsyncModel {
  import opened Basics
  import Edges

  type Id = nat
  type RunId = nat
  type Value(==, !new)

  /** An asynchronous compute: cells are read directly, slots are awaited. */
  datatype Prog = Ret(result: Value) | Read(id: Id, next: imap<Value, Prog>)

  datatype Phase = Empty | Computing(run: RunId) | Resolved(value: Value)

  datatype Node =
    | Cell(value: Value, dependents: seq<Id>)
    | Slot(compute: Prog, phase: Phase, revision: nat, deps: seq<Id>, dependents: seq<Id>)

  /** How a completion notifier was settled. */
  datatype Notice = Pending | Superseded | Settled(value: Value)

  /** One spawned compute: its token, its notifier, and where it stands. */
  datatype Run = Run(owner: Id, revision: nat, aborted: bool, notice: Notice, rest: Prog, wait: Option<RunId>, done: bool)

  datatype State = State(nodes: map<Id, Node>, runs: map<RunId, Run>, batched: seq<Id>, depth: nat, nextId: Id, nextRun: RunId)

  /** Ranks that every read lowers, all below a limit, and the comparison by which a write is taken for the stored value. */
  datatype Plan = Plan(rank: Id -> nat, limit: nat, same: (Value, Value) -> bool)

  const START := State(map[], map[], [], 0, 1, 0)

  predicate IsSlot(s: State, x: Id) { x in s.nodes && s.nodes[x].Slot? }
  predicate IsCell(s: State, x: Id) { x in s.nodes && s.nodes[x].Cell? }

  function Deps(s: State, x: Id): seq<Id> { if IsSlot(s, x) then s.nodes[x].deps else [] }
  function Dependents(s: State, x: Id): seq<Id> { if x in s.nodes then s.nodes[x].dependents else [] }

  function Cached(s: State, x: Id): Option<Value> {
    if IsCell(s, x) then Some(s.nodes[x].value)
    else if IsSlot(s, x) && s.nodes[x].phase.Resolved? then Some(s.nodes[x].phase.value)
    else None
  }

  function Put(s: State, x: Id, n: Node): State { s.(nodes := s.nodes[x := n]) }
  function PutRun(s: State, r: RunId, n: Run): State { s.(runs := s.runs[r := n]) }

  // -- edges ------------------------------------------------------------------------------

  function Register(s: State, d: Id, x: Id): State
    requires d in s.nodes && x in s.nodes
  {
    var s1 := Put(s, d, s.nodes[d].(dependents := Edges.Insert(s.nodes[d].dependents, x)));
    if s1.nodes[x].Slot? then Put(s1, x, s1.nodes[x].(deps := Edges.Insert(s1.nodes[x].deps, d))) else s1
  }

  function DropDependents(s: State, ds: seq<Id>, x: Id): State
    decreases |ds|
  {
    if ds == [] then s
    else if ds[0] in s.nodes then
      var n := s.nodes[ds[0]];
      DropDependents(Put(s, ds[0], n.(dependents := Edges.Remove(n.dependents, x))), ds[1..], x)
    else DropDependents(s, ds[1..], x)
  }

  function ClearDeps(s: State, x: Id): State
    requires IsSlot(s, x)
  {
    var s1 := DropDependents(s, s.nodes[x].deps, x);
    if IsSlot(s1, x) then Put(s1, x, s1.nodes[x].(deps := [])) else s1
  }

  // -- spawning, publishing, superseding -----------------------------------------------------

  function Spawn(s: State, x: Id): State
    requires IsSlot(s, x)
  {
    var s1 := ClearDeps(s, x);
    var n := s.nodes[x];
    var r := s.nextRun;
    if !IsSlot(s1, x) then s1
    else
      PutRun(Put(s1, x, s1.nodes[x].(phase := Computing(r))),
             r, Run(x, n.revision, false, Pending, n.compute, None, false)).(nextRun := r + 1)
  }

  /** The synchronous part of awaiting a slot. */
  function Demand(s: State, x: Id): State
    requires IsSlot(s, x)
  {
    if s.nodes[x].phase.Empty? then Spawn(s, x) else s
  }

  function Settle(n: Notice, event: Notice): Notice { if n.Pending? then event else n }

  /** A run finished with `v`: publish only if nothing superseded it. */
  function Complete(s: State, r: RunId, v: Value): State
    requires r in s.runs
  {
    var run := s.runs[r];
    if !IsSlot(s, run.owner) || run.aborted || s.nodes[run.owner].revision != run.revision then
      PutRun(s, r, run.(done := true, notice := Settle(run.notice, Superseded)))
    else
      PutRun(Put(s, run.owner, s.nodes[run.owner].(phase := Resolved(v))),
             r, run.(done := true, notice := Settle(run.notice, Settled(v))))
  }

  /** One slot goes back to empty; its current run is aborted and its waiters released. */
  function Reset(s: State, x: Id): State
    requires IsSlot(s, x)
  {
    var n := s.nodes[x];
    var s1 := Put(s, x, n.(phase := Empty, revision := n.revision + 1));
    if n.phase.Computing? && n.phase.run in s.runs then
      var run := s.runs[n.phase.run];
      PutRun(s1, n.phase.run, run.(aborted := true, notice := Settle(run.notice, Superseded)))
    else s1
  }

  /** The cascade: every listed slot and, transitively, its dependents. */
  function Invalidate(g: Plan, s: State, floor: nat, xs: seq<Id>): State
    decreases g.limit - floor, |xs|
  {
    if xs == [] then s
    else
      var x := xs[0];
      var s1 :=
        if IsSlot(s, x) && floor < g.rank(x) <= g.limit then
          Invalidate(g, Reset(s, x), g.rank(x), s.nodes[x].dependents)
        else s;
      Invalidate(g, s1, floor, xs[1..])
  }

  // -- steps ---------------------------------------------------------------------------------

  function Write(g: Plan, s: State, x: Id, v: Value): State
    requires IsCell(s, x)
  {
    if g.same(s.nodes[x].value, v) then s
    else
      var s1 := Put(s, x, s.nodes[x].(value := v));
      if s.depth > 0 then s1.(batched := Edges.Insert(s1.batched, x))
      else Invalidate(g, s1, g.rank(x), Dependents(s1, x))
  }

  function InvalidateCells(g: Plan, s: State, cells: seq<Id>): State
    decreases |cells|
  {
    if cells == [] then s
    else InvalidateCells(g, Invalidate(g, s, g.rank(cells[0]), Dependents(s, cells[0])), cells[1..])
  }

  function EndBatch(g: Plan, s: State): State
    requires s.depth > 0
  {
    var s1 := s.(depth := s.depth - 1);
    if s1.depth > 0 then s1 else InvalidateCells(g, s1.(batched := []), s1.batched)
  }

  /** Hand `v` to the read a run is at. */
  function Receive(s: State, r: RunId, v: Value): State
    requires r in s.runs && s.runs[r].rest.Read?
  {
    var run := s.runs[r];
    if v in run.rest.next then PutRun(s, r, run.(rest := run.rest.next[v], wait := None)) else s
  }

  /** A run awaits a slot: take a resolved value, or wait for the run that computes it. */
  function Await(s: State, r: RunId, d: Id): State
    requires r in s.runs && s.runs[r].rest.Read? && IsSlot(s, d)
  {
    if s.nodes[d].phase.Resolved? then Receive(s, r, s.nodes[d].phase.value)
    else
      var s1 := Demand(s, d);
      if IsSlot(s1, d) && s1.nodes[d].phase.Computing? && r in s1.runs then
        PutRun(s1, r, s1.runs[r].(wait := Some(s1.nodes[d].phase.run)))
      else s1
  }

  /** Run `r` takes its next step, if it has one: resume from a wait, read, or finish. */
  function Advance(s: State, r: RunId): State
    requires r in s.runs
  {
    var run := s.runs[r];
    if run.done || run.owner !in s.nodes then s
    else if run.wait.Some? then
      if run.wait.value !in s.runs || run.rest.Ret? then s
      else
        match s.runs[run.wait.value].notice
        case Pending => s
        case Settled(v) => Receive(s, r, v)
        case Superseded => if IsSlot(s, run.rest.id) then Await(s, r, run.rest.id) else s
    else
      match run.rest
      case Ret(v) => Complete(s, r, v)
      case Read(d, _) =>
        if d !in s.nodes then s
        else
          var s1 := Register(s, d, run.owner);
          if s1.nodes[d].Cell? then Receive(s1, r, s1.nodes[d].value) else Await(s1, r, d)
  }

  datatype Step =
    | MakeSource(v: Value) | MakeComputed(p: Prog) | Set(x: Id, v: Value) | Begin | End
    | GetAsync(x: Id) | Tick(r: RunId)

  function Next(g: Plan, s: State, step: Step): State {
    match step
    case MakeSource(v) => s.(nodes := s.nodes[s.nextId := Cell(v, [])], nextId := s.nextId + 1)
    case MakeComputed(p) => s.(nodes := s.nodes[s.nextId := Slot(p, Empty, 0, [], [])], nextId := s.nextId + 1)
    case Set(x, v) => if IsCell(s, x) then Write(g, s, x, v) else s
    case Begin => s.(depth := s.depth + 1)
    case End => if s.depth > 0 then EndBatch(g, s) else s
    case GetAsync(x) => if IsSlot(s, x) then Demand(s, x) else s
    case Tick(r) => if r in s.runs && s.depth == 0 then Advance(s, r) else s
  }

  // -- from-scratch values ---------------------------------------------------------------------

  function Eval(g: Plan, s: State, x: Id): Option<Value>
    decreases g.rank(x), 1
  {
    if IsCell(s, x) then Some(s.nodes[x].value)
    else if IsSlot(s, x) then EvalProg(g, s, x, s.nodes[x].compute)
    else None
  }

  function EvalProg(g: Plan, s: State, x: Id, p: Prog): Option<Value>
    decreases g.rank(x), 0, p
  {
    match p
    case Ret(v) => Some(v)
    case Read(d, next) =>
      if g.rank(d) >= g.rank(x) then None
      else
        var v := Eval(g, s, d);
        if v.None? || v.value !in next then None else EvalProg(g, s, x, next[v.value])
  }
}
