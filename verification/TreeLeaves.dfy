/** Tables that hold nothing but leaves below the root, and the text they show. */
module TreeLeaves {
  import opened Basics
  import opened TreeModel
  import opened TreeConvergence
  import opened TreeRender

  /** A table built by applying operations one by one. */
  function Replay(log: seq<Op>): Replica {
    if log == [] then NewReplica(0) else ApplyOp(Replay(log[..|log| - 1]), log[|log| - 1])
  }

  lemma ReplaySnoc(log: seq<Op>, op: Op)
    ensures Replay(log + [op]) == ApplyOp(Replay(log), op)
  {
    assert (log + [op])[..|log|] == log;
  }

  function NewLeaf(id: Id, key: SortKey, text: string): Op { Op(id, CreateNode(id, ROOT, key, Leaf("Token", text))) }

  function LeafRecord(op: Op): Record
    requires op.kind.CreateNode?
  {
    Record(Some(op.kind.parent), op.kind.createSort, op.id, op.kind.seed, None, op.id)
  }

  function Ids(log: seq<Op>): (r: seq<Id>)
    ensures |r| == |log| && forall i :: 0 <= i < |log| ==> r[i] == log[i].id
  {
    seq(|log|, i requires 0 <= i < |log| => log[i].id)
  }

  ghost predicate Leaves(log: seq<Op>) {
    && (forall i :: 0 <= i < |log| ==> IsNewLeaf(log[i]))
    && (forall i, j :: 0 <= i < j < |log| ==> log[i].id != log[j].id)
  }

  predicate IsNewLeaf(op: Op) {
    op.id.counter > 0 && op.kind.CreateNode? && op.kind.id == op.id && op.kind.parent == ROOT && op.kind.seed.Leaf?
  }

  /** The table of such a log. */
  ghost predicate LeafTable(r: Replica, log: seq<Op>)
    requires Leaves(log)
  {
    && r.order == [ROOT] + Ids(log) && ROOT in r.nodes && r.nodes[ROOT] == ROOT_RECORD
    && (forall x :: x in r.nodes <==> x == ROOT || x in Ids(log))
    && (forall i :: 0 <= i < |log| ==> log[i].id in r.nodes && r.nodes[log[i].id] == LeafRecord(log[i]))
  }

  lemma {:induction false} LeavesTable(log: seq<Op>)
    requires Leaves(log)
    ensures LeafTable(Replay(log), log)
    decreases |log|
  {
    hide LeafTable, ApplyOp;
    if log == [] {
      NoLeaves();
    } else {
      var n := |log| - 1;
      assert log == log[..n] + [log[n]];
      LeavesTable(log[..n]);
      OneLeafMore(Replay(log[..n]), log[..n], log[n]);
    }
  }

  lemma NoLeaves()
    ensures LeafTable(NewReplica(0), [])
  {
    assert Ids([]) == [];
  }

  lemma OneLeafMore(r: Replica, log: seq<Op>, op: Op)
    requires Leaves(log + [op]) && Leaves(log) && LeafTable(r, log)
    ensures LeafTable(ApplyOp(r, op), log + [op])
  {
    var all := log + [op];
    assert all[|log|] == op && forall i :: 0 <= i < |log| ==> all[i] == log[i];
    assert IsNewLeaf(op) && op.id !in Ids(log);
    assert Ids(all) == Ids(log) + [op.id];
    assert [ROOT] + Ids(all) == [ROOT] + Ids(log) + [op.id];
    assert ApplyOp(r, op) == r.(nodes := r.nodes[op.id := LeafRecord(op)], order := r.order + [op.id]);
  }

  /** The children of the root are any arrangement of the leaves. */
  lemma KidsAre(log: seq<Op>, kids: seq<Id>)
    requires Leaves(log) && (forall x :: x in kids <==> x in Ids(log)) && Arranged(Replay(log).nodes, Replay(log).order, kids)
    ensures LiveChildren(Replay(log).nodes, Replay(log).order, ROOT) == kids
  {
    hide Ahead, Replay, LiveChildren;
    LeavesTable(log);
    var r := Replay(log);
    assert OrderOk(r.nodes, r.order) by {
      assert forall i :: 0 <= i < |log| ==> log[i].id != ROOT;
    }
    forall x ensures x in kids <==> IsLiveChild(r.nodes, ROOT, x) {
      if x in Ids(log) {
        var i :| 0 <= i < |log| && log[i].id == x;
      }
    }
    ChildrenAre(r.nodes, r.order, ROOT, kids);
  }

  /** The leaves are in the table as they were created. */
  ghost predicate Placed(nodes: map<Id, Record>, ops: seq<Op>) {
    forall op :: op in ops ==> op.kind.CreateNode? && op.id in nodes && nodes[op.id] == LeafRecord(op)
  }

  lemma LeavesPlaced(log: seq<Op>)
    requires Leaves(log)
    ensures Placed(Replay(log).nodes, log)
  {
    hide Replay;
    LeavesTable(log);
    forall op | op in log ensures op.kind.CreateNode? && op.id in Replay(log).nodes && Replay(log).nodes[op.id] == LeafRecord(op) {
      var i :| 0 <= i < |log| && log[i] == op;
    }
  }

  lemma PlacedOf(nodes: map<Id, Record>, ops: seq<Op>, op: Op)
    requires Placed(nodes, ops) && op in ops
    ensures op.kind.CreateNode? && op.id in nodes && nodes[op.id] == LeafRecord(op)
  {
  }

  lemma PlacedIs(nodes: map<Id, Record>, ops: seq<Op>)
    requires forall op :: op in ops ==> op.kind.CreateNode? && op.id in nodes && nodes[op.id] == LeafRecord(op)
    ensures Placed(nodes, ops)
  {
  }

  lemma OrderOnce(log: seq<Op>)
    requires Leaves(log)
    ensures var o := [ROOT] + Ids(log); forall i, j :: 0 <= i < j < |o| ==> o[i] != o[j]
  {
    assert forall i :: 0 <= i < |log| ==> IsNewLeaf(log[i]) && log[i].id != ROOT;
  }

  predicate IsLeaf(nodes: map<Id, Record>, x: Id) { x in nodes && nodes[x].body.Leaf? }

  /** What a list of leaves shows. */
  function Texts(nodes: map<Id, Record>, xs: seq<Id>): string
    requires forall x :: x in xs ==> IsLeaf(nodes, x)
  {
    if xs == [] then ""
    else
      assert IsLeaf(nodes, xs[0]);
      nodes[xs[0]].body.text + Texts(nodes, xs[1..])
  }

  lemma {:induction false} RenderLeaves(nodes: map<Id, Record>, order: seq<Id>, xs: seq<Id>, limit: nat)
    requires forall x :: x in xs ==> IsLeaf(nodes, x) && 0 < x.counter <= limit
    ensures RenderAll(nodes, order, xs, 0, limit) == Texts(nodes, xs)
    decreases |xs|
  {
    if xs != [] {
      assert xs[0] in xs;
      RenderLeaves(nodes, order, xs[1..], limit);
    }
  }

  lemma RenderKids(r: Replica, kids: seq<Id>)
    requires ROOT in r.nodes && r.nodes[ROOT].body.Element? && LiveChildren(r.nodes, r.order, ROOT) == kids
    requires forall x :: x in kids ==> IsLeaf(r.nodes, x) && x.counter > 0
    ensures Render(r) == Texts(r.nodes, kids)
  {
    hide LiveChildren, TopCounter;
    RenderLeaves(r.nodes, r.order, kids, TopCounter(r.order));
  }

  lemma NoTexts(nodes: map<Id, Record>)
    ensures Texts(nodes, []) == ""
  {
  }

  lemma TextsCons(nodes: map<Id, Record>, x: Id, rest: seq<Id>)
    requires IsLeaf(nodes, x) && forall y :: y in rest ==> IsLeaf(nodes, y)
    ensures forall y :: y in [x] + rest ==> IsLeaf(nodes, y)
    ensures Texts(nodes, [x] + rest) == nodes[x].body.text + Texts(nodes, rest)
  {
    assert ([x] + rest)[1..] == rest;
  }
}
