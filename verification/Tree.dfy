/** The tree replica with its table, frontier, log and parked operations changed in place. */
module Tree {
  import opened Basics
  import FracKeys
  import opened TreeModel
  import opened TreeConvergence
  import opened TreeDelivery
  import opened TreeSystem
  import opened TreeSplits
  import opened TreeSessions

  /** The dots of one peer. */
  class DotSet {
    var contiguous: nat
    var sparse: set<nat>

    ghost function Range(): DotRange
      reads this
    {
      DotRange(contiguous, sparse)
    }

    constructor ()
      ensures Range() == DotRange(0, {})
    {
      contiguous, sparse := 0, {};
    }

    /** Exactly `counter` becomes observed, and the prefix swallows what now adjoins it. */
    method Observe(counter: nat)
      modifies this
      ensures Range() == ObserveDot(old(Range()), counter)
      ensures forall c :: InRange(Range(), c) <==> InRange(old(Range()), c) || c == counter
    {
      if counter <= contiguous {
        return;
      }
      sparse := sparse + {counter};
      ghost var start := Range();
      while contiguous + 1 in sparse
        invariant Absorb(start) == Absorb(Range())
        decreases |sparse|
      {
        sparse := sparse - {contiguous + 1};
        contiguous := contiguous + 1;
      }
    }
  }

  class LosslessTree {
    const peer: Peer
    var counter: nat
    var nodes: map<Id, Record>
    var order: seq<Id>
    var frontier: Frontier
    var log: seq<Op>
    var buffered: seq<Op>

    ghost function Value(): Replica
      reads this
    {
      Replica(peer, counter, nodes, order, frontier, log, buffered)
    }

    constructor (owner: Peer)
      ensures Value() == NewReplica(owner) && forall D :: TreeConvergence.Valid(Value(), D)
    {
      peer, counter := owner, 0;
      nodes, order := map[ROOT := ROOT_RECORD], [ROOT];
      frontier, log, buffered := map[], [], [];
      new;
      forall D ensures TreeConvergence.Valid(Value(), D) {
        NewValid(owner, D);
      }
    }

    method ObserveId(x: Id)
      modifies this`frontier
      ensures frontier == Observe(old(frontier), x)
    {
      var dots := new DotSet();
      if x.peer in frontier {
        dots.contiguous, dots.sparse := frontier[x.peer].contiguous, frontier[x.peer].sparse;
      }
      dots.Observe(x.counter);
      frontier := frontier[x.peer := DotRange(dots.contiguous, dots.sparse)];
    }

    // -- applying ------------------------------------------------------------------------------

    method ApplyOp(op: Op)
      modifies this`nodes, this`order
      ensures Value() == TreeModel.ApplyOp(old(Value()), op)
    {
      match op.kind {
        case CreateNode(x, parent, sort, seed) =>
          if x !in nodes {
            nodes := nodes[x := Record(Some(parent), sort, op.id, seed, None, op.id)];
            order := order + [x];
          }
        case Tombstone(x) =>
          if x in nodes {
            nodes := nodes[x := Entomb(nodes[x], op.id)];
          }
        case Reorder(x, sort) =>
          if x in nodes && Before(nodes[x].sortStamp, op.id) {
            nodes := nodes[x := nodes[x].(sort := sort, sortStamp := op.id)];
          }
        case SplitLeaf(node, tail, sort, atChar, _) => ApplySplit(node, tail, sort, atChar, op.id);
        case MergeLeaves(left, right, _, _) => ApplyMerge(left, right, op.id);
      }
    }

    method ApplySplit(node: Id, tail: Id, sort: SortKey, atChar: nat, opId: Id)
      modifies this`nodes, this`order
      ensures Value() == TreeModel.ApplySplit(old(Value()), node, tail, sort, atChar, opId)
    {
      if node !in nodes || !nodes[node].body.Leaf? {
        return;
      }
      var rec := nodes[node];
      var clamp := Min(atChar, |rec.body.text|);
      nodes := nodes[node := rec.(body := Leaf(rec.body.leafKind, rec.body.text[..clamp]), textHead := opId)];
      if tail !in nodes {
        nodes := nodes[tail := Record(rec.parent, sort, opId, Leaf(rec.body.leafKind, rec.body.text[clamp..]), None, opId)];
        order := order + [tail];
      }
    }

    method ApplyMerge(left: Id, right: Id, opId: Id)
      modifies this`nodes
      ensures Value() == TreeModel.ApplyMerge(old(Value()), left, right, opId)
    {
      if left !in nodes || right !in nodes || !nodes[left].body.Leaf? || !nodes[right].body.Leaf? {
        return;
      }
      var l := nodes[left];
      var combined := l.body.text + nodes[right].body.text;
      nodes := nodes[left := l.(body := Leaf(l.body.leafKind, combined), textHead := opId)];
      nodes := nodes[right := Entomb(nodes[right], opId)];
    }

    method RecordOp(op: Op)
      modifies this`frontier, this`log
      ensures Value() == Log(old(Value()), op)
    {
      ObserveId(op.id);
      log := log + [op];
    }

    // -- delivery ---------------------------------------------------------------------------------

    /** Park what is new, then drain: everything received is applied or waits for something missing. */
    method ApplyUpdate(ops: seq<Op>, ghost D: set<Op>)
      requires WellFormed(D) && TreeConvergence.Valid(Value(), D) && forall op :: op in ops ==> op in D
      modifies this
      ensures Value() == TreeModel.ApplyUpdate(old(Value()), ops)
      ensures TreeConvergence.Valid(Value(), D) && Stuck(Value())
      ensures forall op :: op in ops || op in old(log) || op in old(buffered) ==> op in log || op in buffered
    {
      hide TreeConvergence.Valid, Stuck, WellFormed, Contains, Drain;
      UpdateOk(Value(), ops, D);
      ghost var start := Value();
      assert ops[0..] == ops;
      var i := 0;
      while i < |ops|
        invariant i <= |ops|
        invariant Park(start, ops) == Park(Value(), ops[i..])
      {
        assert ops[i..][0] == ops[i] && ops[i..][1..] == ops[i + 1..];
        var op := ops[i];
        if counter < op.id.counter {
          counter := op.id.counter;
        }
        if !Contains(frontier, op.id) {
          buffered := buffered + [op];
        }
        i := i + 1;
      }
      assert ops[|ops|..] == [];
      DrainBuffered();
    }

    method DrainBuffered()
      modifies this
      ensures Value() == Drain(old(Value()))
      decreases |buffered|
    {
      hide Contains, Ready, Commit;
      ghost var start := Value();
      var progressed := true;
      while progressed
        invariant Drain(start) == if progressed then Drain(Value()) else Value()
        decreases progressed, |buffered|
      {
        ghost var before := Value();
        var pending := buffered;
        buffered := [];
        progressed := false;
        ghost var open := Value();
        assert pending[0..] == pending;
        PassShrinks(open, pending);
        var i := 0;
        while i < |pending|
          invariant i <= |pending|
          invariant Pass(open, pending).0 == Pass(Value(), pending[i..]).0
          invariant Pass(open, pending).1 == (progressed || Pass(Value(), pending[i..]).1)
        {
          var op := pending[i];
          assert pending[i..][0] == op && pending[i..][1..] == pending[i + 1..];
          if !Contains(frontier, op.id) {
            if IsReady(op) {
              CommitOp(op);
              progressed := true;
            } else {
              buffered := buffered + [op];
            }
          }
          i := i + 1;
        }
        assert pending[|pending|..] == [];
        assert Pass(open, pending) == (Value(), progressed);
        assert open == before.(buffered := []);
      }
    }

    predicate IsReady(op: Op)
      reads this
      ensures IsReady(op) <==> Ready(Value(), op)
    {
      match op.kind
      case CreateNode(_, parent, _, _) => parent in nodes
      case Tombstone(x) => x in nodes
      case Reorder(x, _) => x in nodes
      case SplitLeaf(node, _, _, _, prev) => node in nodes && Contains(frontier, prev)
      case MergeLeaves(left, right, prevLeft, prevRight) =>
        left in nodes && right in nodes && Contains(frontier, prevLeft) && Contains(frontier, prevRight)
    }

    method CommitOp(op: Op)
      modifies this`nodes, this`order, this`frontier, this`log
      ensures Value() == Commit(old(Value()), op)
    {
      ApplyOp(op);
      RecordOp(op);
    }

    // -- reading ------------------------------------------------------------------------------------

    /** Exactly the held operations the other side lacks, in ascending id order. */
    method Diff(their: Frontier) returns (ops: seq<Op>)
      ensures ops == TreeSystem.Diff(Value(), their) && Ascending(ops)
      ensures forall op :: op in ops <==> op in log && !Contains(their, op.id)
    {
      hide Contains;
      SortAscends(Lacking(log, their));
      ops := SortById(Lacking(log, their));
    }

    // -- local edits ---------------------------------------------------------------------------------

    method NextOpId() returns (x: Id)
      modifies this`counter
      ensures x == NextId(old(Value())) && counter == old(counter) + 1
    {
      counter := counter + 1;
      x := Id(counter, peer);
    }

    /** None, and no change, when the parent is unknown. */
    method CreateNode(parent: Id, after: Option<Id>, seed: Body) returns (node: Option<Id>)
      modifies this
      ensures Value() == Perform(old(Value()), Create(parent, after, seed))
      ensures node == if old(parent in nodes) then Some(NextId(old(Value()))) else None
    {
      hide KeyAfter, Commit;
      if parent !in nodes {
        return None;
      }
      var sort := KeyFor(parent, after);
      var opId := NextOpId();
      CommitOp(Op(opId, Kind.CreateNode(opId, parent, sort, seed)));
      node := Some(opId);
    }

    method TombstoneNode(node: Id) returns (ok: bool)
      modifies this
      ensures Value() == Perform(old(Value()), Delete(node)) && ok == old(node in nodes && node != ROOT)
    {
      hide Commit;
      ok := node in nodes && node != ROOT;
      if ok {
        var opId := NextOpId();
        CommitOp(Op(opId, Tombstone(node)));
      }
    }

    method ReorderChild(node: Id, after: Option<Id>) returns (ok: bool)
      modifies this
      ensures Value() == Perform(old(Value()), Place(node, after)) && ok == old(node in nodes && nodes[node].parent.Some?)
    {
      hide KeyAfter, Commit;
      ok := node in nodes && nodes[node].parent.Some?;
      if ok {
        var sort := KeyFor(nodes[node].parent.value, after);
        var opId := NextOpId();
        CommitOp(Op(opId, Reorder(node, sort)));
      }
    }

    method KeyFor(parent: Id, after: Option<Id>) returns (key: SortKey)
      ensures key == KeyAfter(Value(), parent, after)
    {
      var kids := LiveChildren(nodes, order, parent);
      var (lo, hi) := Neighbours(kids, after);
      var low := if lo.None? then None else Some(nodes[lo.value].sort.frac);
      var high := if hi.None? then None else Some(nodes[hi.value].sort.frac);
      var frac := FracKeys.TreeKeyBetween(low, high);
      key := SortKey(frac, peer);
    }

    /** The tail's id; None, and no change, when the split is refused. */
    method SplitLeaf(node: Id, atChar: nat) returns (tail: Option<Id>)
      requires Shape(Value())
      modifies this
      ensures Value() == Apply(old(Value()), Split(node, atChar))
      ensures old(Splittable(Value(), node)) ==> Render(Value()) == old(Render(Value()))
      ensures tail.Some? ==> tail.value == NextId(old(Value()))
    {
      hide KeyAfter, Commit, Shape, Render, RoomBehind;
      ghost var start := Value();
      if MintSplit(start, node, atChar).Some? && Splittable(start, node) {
        SplitKeepsText(start, node, atChar);
      }
      if node !in nodes || !nodes[node].body.Leaf? || atChar > |nodes[node].body.text| || nodes[node].parent.None? {
        return None;
      }
      var sort := KeyFor(nodes[node].parent.value, Some(node));
      var prev := nodes[node].textHead;
      var opId := NextOpId();
      CommitOp(Op(opId, Kind.SplitLeaf(node, opId, sort, atChar, prev)));
      tail := Some(opId);
    }

    method MergeAdjacentLeaves(left: Id, right: Id) returns (ok: bool)
      requires Shape(Value())
      modifies this
      ensures Value() == Apply(old(Value()), Merge(left, right))
      ensures Render(Value()) == old(Render(Value()))
      ensures ok == MintMerge(old(Value()), left, right).Some?
    {
      hide Commit, Shape, Render, LiveChildren;
      ghost var start := Value();
      if MintMerge(start, left, right).Some? {
        MergeKeepsText(start, left, right);
      }
      if left !in nodes || !nodes[left].body.Leaf? || right !in nodes || !nodes[right].body.Leaf? || nodes[left].parent.None? {
        return false;
      }
      var kids := LiveChildren(nodes, order, nodes[left].parent.value);
      var i := IndexOf(kids, left);
      if !(i + 1 < |kids| && kids[i + 1] == right) {
        return false;
      }
      var prevLeft, prevRight := nodes[left].textHead, nodes[right].textHead;
      var opId := NextOpId();
      CommitOp(Op(opId, MergeLeaves(left, right, prevLeft, prevRight)));
      ok := true;
    }
  }
}
