/** Whole sessions of local changes and received updates: when splits and merges leave the text alone. */
module TreeSessions {
  import opened Basics
  import ByteOrder
  import FracKeys
  import opened TreeModel
  import opened TreeConvergence
  import opened TreeDelivery
  import opened TreeRender
  import opened TreeSystem
  import opened TreeEdits
  import opened TreeSplits
  import opened TreeLeaves

  // -- operations as replicas make them --------------------------------------------------------------------

  /** A new node is named by its operation and newer than what it is placed under, and no key ends in zero. */
  predicate Sound(op: Op) {
    match op.kind
    case CreateNode(x, parent, sort, _) => x == op.id && parent.counter < x.counter && FracKeys.Proper(sort.frac)
    case Tombstone(_) => true
    case Reorder(_, sort) => FracKeys.Proper(sort.frac)
    case SplitLeaf(node, tail, sort, _, _) => tail == op.id && node.counter < tail.counter && FracKeys.Proper(sort.frac)
    case MergeLeaves(_, _, _, _) => true
  }

  predicate SoundFor(r: Replica, op: Op) { Sound(op) && op.id.counter <= r.counter }

  lemma ApplySound(r: Replica, op: Op)
    requires Shape(r) && SoundFor(r, op)
    ensures Shape(ApplyOp(r, op))
  {
    match op.kind
    case CreateNode(x, parent, sort, seed) => AddShape(r, x, Record(Some(parent), sort, op.id, seed, None, op.id));
    case Tombstone(x) =>
      if x in r.nodes {
        SetShape(r, x, Entomb(r.nodes[x], op.id));
      }
    case Reorder(x, sort) =>
      if x in r.nodes {
        SetShape(r, x, r.nodes[x].(sort := sort, sortStamp := op.id));
      }
    case SplitLeaf(node, tail, sort, atChar, _) => ApplySplitShape(r, node, tail, sort, atChar, op.id);
    case MergeLeaves(left, right, _, _) => ApplyMergeShape(r, left, right, op.id);
  }

  lemma AddShape(r: Replica, x: Id, rec: Record)
    requires Shape(r) && x.counter <= r.counter && rec.sortStamp.counter <= r.counter && FracKeys.Proper(rec.sort.frac)
    requires rec.parent.Some? ==> rec.parent.value.counter < x.counter
    ensures Shape(AddNode(r, x, rec))
  {
    hide FracKeys.Proper;
    var t := AddNode(r, x, rec);
    if x !in r.nodes {
      forall y | y in t.nodes ensures NodeShape(t, y) {
        assert y != x ==> NodeShape(r, y);
      }
    }
  }

  lemma SetShape(r: Replica, x: Id, rec: Record)
    requires Shape(r) && x in r.nodes && rec.parent == r.nodes[x].parent && rec.body.Leaf? == r.nodes[x].body.Leaf?
    requires FracKeys.Proper(rec.sort.frac) && rec.sortStamp.counter <= r.counter
    ensures Shape(SetNode(r, x, rec))
  {
    hide FracKeys.Proper;
    var t := SetNode(r, x, rec);
    forall y | y in t.nodes ensures NodeShape(t, y) {
      assert NodeShape(r, y);
    }
  }

  lemma ApplySplitShape(r: Replica, node: Id, tail: Id, sort: SortKey, atChar: nat, opId: Id)
    requires Shape(r) && node.counter < tail.counter <= r.counter && opId.counter <= r.counter && FracKeys.Proper(sort.frac)
    ensures Shape(ApplySplit(r, node, tail, sort, atChar, opId))
  {
    hide FracKeys.Proper, Shape;
    if node in r.nodes && r.nodes[node].body.Leaf? {
      ShapeOf(r, node);
      var rec := r.nodes[node];
      var at := Min(atChar, |rec.body.text|);
      var cut := rec.(body := Leaf(rec.body.leafKind, rec.body.text[..at]), textHead := opId);
      SetShape(r, node, cut);
      AddShape(SetNode(r, node, cut), tail, Record(rec.parent, sort, opId, Leaf(rec.body.leafKind, rec.body.text[at..]), None, opId));
    }
  }

  lemma ShapeOf(r: Replica, x: Id)
    requires Shape(r) && x in r.nodes
    ensures NodeShape(r, x)
  {
  }

  lemma ApplyMergeShape(r: Replica, left: Id, right: Id, opId: Id)
    requires Shape(r)
    ensures Shape(ApplyMerge(r, left, right, opId))
  {
    hide FracKeys.Proper, Shape;
    if left in r.nodes && right in r.nodes && r.nodes[left].body.Leaf? && r.nodes[right].body.Leaf? {
      ShapeOf(r, left);
      var l := r.nodes[left];
      var r1 := SetNode(r, left, l.(body := Leaf(l.body.leafKind, l.body.text + r.nodes[right].body.text), textHead := opId));
      SetShape(r, left, r1.nodes[left]);
      ShapeOf(r1, right);
      SetShape(r1, right, Entomb(r1.nodes[right], opId));
    }
  }

  /** Whatever is applied or parked is sound. */
  ghost predicate Steady(r: Replica) { Shape(r) && forall op :: op in r.buffered ==> SoundFor(r, op) }

  lemma LogShape(r: Replica, t: Replica)
    requires Shape(r) && t.nodes == r.nodes && t.order == r.order && r.counter <= t.counter
    ensures Shape(t)
  {
    forall x | x in t.nodes ensures NodeShape(t, x) {
      assert NodeShape(r, x);
    }
  }

  lemma CommitSteady(r: Replica, op: Op)
    requires Steady(r) && SoundFor(r, op)
    ensures Steady(Commit(r, op)) && Commit(r, op).counter == r.counter
  {
    hide Shape, ApplyOp, Observe, Sound;
    ApplySound(r, op);
    CommitKeepsBuffer(r, op);
    ApplyCounts(r, op);
    LogShape(ApplyOp(r, op), Commit(r, op));
  }

  lemma ApplyCounts(r: Replica, op: Op)
    ensures ApplyOp(r, op).counter == r.counter
  {
  }

  lemma {:induction false} PassSteady(r: Replica, pending: seq<Op>)
    requires Steady(r) && forall op :: op in pending ==> SoundFor(r, op)
    ensures Steady(Pass(r, pending).0)
    decreases |pending|
  {
    hide Shape, Contains, Ready, Commit, Sound;
    if pending != [] {
      var op, rest := pending[0], pending[1..];
      assert op in pending && forall o :: o in rest ==> o in pending;
      if Contains(r.frontier, op.id) {
        PassSteady(r, rest);
      } else if Ready(r, op) {
        CommitSteady(r, op);
        PassSteady(Commit(r, op), rest);
      } else {
        LogShape(r, r.(buffered := r.buffered + [op]));
        PassSteady(r.(buffered := r.buffered + [op]), rest);
      }
    }
  }

  lemma {:induction false} DrainSteady(r: Replica)
    requires Steady(r)
    ensures Steady(Drain(r))
    decreases |r.buffered|
  {
    hide Shape, Pass, Sound;
    var r0 := r.(buffered := []);
    LogShape(r, r0);
    PassSteady(r0, r.buffered);
    PassShrinks(r0, r.buffered);
    if Pass(r0, r.buffered).1 {
      DrainSteady(Pass(r0, r.buffered).0);
    }
  }

  lemma {:induction false} ParkSteady(r: Replica, ops: seq<Op>)
    requires Steady(r) && forall op :: op in ops ==> Sound(op)
    ensures Steady(Park(r, ops))
    decreases |ops|
  {
    hide Shape, Contains, Sound;
    if ops != [] {
      var op := ops[0];
      assert op in ops && forall o :: o in ops[1..] ==> o in ops;
      var r1 := if r.counter < op.id.counter then r.(counter := op.id.counter) else r;
      var r2 := if Contains(r1.frontier, op.id) then r1 else r1.(buffered := r1.buffered + [op]);
      LogShape(r, r2);
      ParkSteady(r2, ops[1..]);
    }
  }

  // -- sessions ------------------------------------------------------------------------------------------------

  datatype Change = Structure(edit: Edit) | Split(node: Id, atChar: nat) | Merge(left: Id, right: Id) | Receive(ops: seq<Op>)

  /** A change at a replica; a local one the tree refuses leaves it alone. */
  function Apply(r: Replica, c: Change): Replica {
    match c
    case Structure(e) => Perform(r, e)
    case Split(x, at) => if MintSplit(r, x, at).Some? then CommitLocal(r, MintSplit(r, x, at).value) else r
    case Merge(x, y) => if MintMerge(r, x, y).Some? then CommitLocal(r, MintMerge(r, x, y).value) else r
    case Receive(ops) => ApplyUpdate(r, ops)
  }

  predicate SoundChange(c: Change) { c.Receive? ==> forall op :: op in c.ops ==> Sound(op) }

  ghost predicate SoundChanges(changes: seq<Change>) { forall i :: 0 <= i < |changes| ==> SoundChange(changes[i]) }

  function Session(peer: Peer, changes: seq<Change>): Replica
    decreases |changes|
  {
    if changes == [] then NewReplica(peer)
    else Apply(Session(peer, changes[..|changes| - 1]), changes[|changes| - 1])
  }

  /** What a local change adds to the log, if anything. */
  function Mints(r: Replica, c: Change): Option<Op> {
    match c
    case Structure(e) => Mint(r, e)
    case Split(x, at) => MintSplit(r, x, at)
    case Merge(x, y) => MintMerge(r, x, y)
    case Receive(_) => None
  }

  /** A local change keeps the shape, and the operation it logs is sound for everyone else. */
  lemma LocalSteady(r: Replica, c: Change)
    requires Steady(r) && !c.Receive?
    ensures Steady(Apply(r, c))
    ensures Mints(r, c).Some? ==> Sound(Mints(r, c).value) && Apply(r, c).log == r.log + [Mints(r, c).value]
  {
    hide Shape, MintSplit, MintMerge, Mint, CommitLocal, FracKeys.Proper;
    if Mints(r, c).Some? {
      var op := Mints(r, c).value;
      LocalParks(r, op);
      match c
      case Structure(e) =>
        PerformShape(r, e);
        EditSound(r, e);
      case Split(x, at) =>
        MintSplitParts(r, x, at);
        KeyAfterProper(r, r.nodes[x].parent.value, Some(x));
        SplitShape(r, x, at);
        SplitSound(r, x, at);
      case Merge(x, y) =>
        MergeShape(r, x, y);
        MergeSound(r, x, y);
    }
  }

  lemma LocalParks(r: Replica, op: Op)
    ensures var t := CommitLocal(r, op); t.buffered == r.buffered && t.counter == r.counter + 1 && t.log == r.log + [op]
  {
    hide Observe;
  }

  lemma EditSound(r: Replica, e: Edit)
    requires Shape(r) && Mint(r, e).Some?
    ensures Sound(Mint(r, e).value)
  {
    hide KeyAfter, FracKeys.Proper, OrderOk;
    match e
    case Create(parent, after, _) =>
      KeyAfterProper(r, parent, after);
      ShapeOf(r, parent);
    case Delete(_) =>
    case Place(x, after) => KeyAfterProper(r, r.nodes[x].parent.value, after);
  }

  lemma SplitSound(r: Replica, x: Id, at: nat)
    requires Shape(r) && MintSplit(r, x, at).Some? && FracKeys.Proper(MintSplit(r, x, at).value.kind.tailSort.frac)
    ensures Sound(MintSplit(r, x, at).value)
  {
    hide KeyAfter, FracKeys.Proper, OrderOk;
    ShapeOf(r, x);
  }

  lemma MergeSound(r: Replica, x: Id, y: Id)
    requires MintMerge(r, x, y).Some?
    ensures Sound(MintMerge(r, x, y).value)
  {
    hide LiveChildren;
  }

  lemma {:induction false} SessionSteady(peer: Peer, changes: seq<Change>)
    requires SoundChanges(changes)
    ensures Steady(Session(peer, changes))
    decreases |changes|
  {
    hide Steady, Apply, Sound;
    if changes == [] {
      NewSteady(peer);
    } else {
      var before, c := changes[..|changes| - 1], changes[|changes| - 1];
      SessionSteady(peer, before);
      if c.Receive? {
        assert SoundChange(c);
        ReceiveSteady(Session(peer, before), c.ops);
      } else {
        LocalSteady(Session(peer, before), c);
      }
    }
  }

  lemma ReceiveSteady(r: Replica, ops: seq<Op>)
    requires Steady(r) && forall op :: op in ops ==> Sound(op)
    ensures Steady(Apply(r, Receive(ops)))
  {
    hide Steady, Drain, Park, Sound;
    ParkSteady(r, ops);
    DrainSteady(Park(r, ops));
  }

  lemma NewSteady(peer: Peer)
    ensures Steady(NewReplica(peer))
  {
    assert NewReplica(peer).order == [ROOT];
  }

  /**
   After any session of local changes and received updates, a merge the tree accepts never changes the
   text; the tail of a split lands right behind its leaf exactly when the leaf is live and its right
   neighbour has another key, and then the text stays as it was.
   */
  lemma EditsAreLossless(peer: Peer, changes: seq<Change>, c: Change)
    requires SoundChanges(changes)
    ensures var r := Session(peer, changes);
      && (c.Merge? ==> Render(Apply(r, c)) == Render(r))
      && (c.Split? && Splittable(r, c.node) ==> Render(Apply(r, c)) == Render(r))
      && (c.Split? && MintSplit(r, c.node, c.atChar).Some? ==>
            && c.node in r.nodes && r.nodes[c.node].parent.Some?
            && var (t, p) := (Apply(r, c), r.nodes[c.node].parent.value);
               LiveChildren(t.nodes, t.order, p) == Expand(LiveChildren(r.nodes, r.order, p), c.node, NextId(r)) <==> Splittable(r, c.node))
  {
    hide Shape, MintSplit, MintMerge, Perform, CommitLocal, Render, RoomBehind, Session, LiveChildren, Expand;
    var r := Session(peer, changes);
    SessionSteady(peer, changes);
    match c
    case Structure(_) =>
    case Receive(_) =>
    case Split(x, at) =>
      if MintSplit(r, x, at).Some? {
        SplitLandsIff(r, x, at);
        if Splittable(r, x) {
          SplitKeepsText(r, x, at);
        }
      }
    case Merge(x, y) =>
      if MintMerge(r, x, y).Some? {
        MergeKeepsText(r, x, y);
      }
  }

  // -- the two ways a split moves text ---------------------------------------------------------------------------

  function Burial(peer: Peer): seq<Change> {
    [Structure(Create(ROOT, None, Leaf("Token", "ab"))), Structure(Delete(Id(1, peer)))]
  }

  /** Only the root and one deleted leaf. */
  predicate Buried(r: Replica, n: Id) {
    && n in r.nodes && r.nodes.Keys == {ROOT, n} && r.order == [ROOT, n] && n != ROOT && r.nodes[n].tomb.Some?
    && r.nodes[n].parent == Some(ROOT) && r.nodes[n].body == Leaf("Token", "ab")
  }

  lemma BurialBuries(peer: Peer)
    ensures Buried(Session(peer, Burial(peer)), Id(1, peer))
  {
    hide KeyAfter, Observe;
    var n := Id(1, peer);
    var create, delete := Burial(peer)[0], Burial(peer)[1];
    assert Burial(peer)[..1] == [create] && [create][..0] == [];
    assert Session(peer, []) == NewReplica(peer);
    var r1 := Session(peer, [create]);
    assert r1 == Perform(NewReplica(peer), create.edit);
    assert Session(peer, Burial(peer)) == Perform(r1, delete.edit);
  }

  lemma SplitBuried(r: Replica, n: Id)
    requires Shape(r) && Buried(r, n)
    ensures Render(r) == "" && Render(Apply(r, Split(n, 1))) == "b"
  {
    hide KeyAfter, Observe, Render, CommitLocal, LiveChildren, Texts, FracKeys.Proper;
    NextIsFresh(r);
    SplitParts(r, n, 1);
    var t, tail := Apply(r, Split(n, 1)), NextId(r);
    assert "ab"[1..] == "b";
    OrderSnoc(r, t);
    ChildrenAre(r.nodes, r.order, ROOT, []);
    OneChild(t, tail);
    RenderKids(r, []);
    RenderKids(t, [tail]);
    NoTexts(r.nodes);
    NoTexts(t.nodes);
    TextsCons(t.nodes, tail, []);
    assert [tail] + [] == [tail];
  }

  lemma OneChild(t: Replica, x: Id)
    requires OrderOk(t.nodes, t.order) && IsLiveChild(t.nodes, ROOT, x) && forall y :: IsLiveChild(t.nodes, ROOT, y) ==> y == x
    ensures LiveChildren(t.nodes, t.order, ROOT) == [x]
  {
    hide LiveChildren, IsLiveChild;
    ChildIsNode(t.nodes, ROOT, x);
    ChildrenAre(t.nodes, t.order, ROOT, [x]);
  }

  /** Splitting a leaf that was deleted brings its tail back into the text. */
  lemma SplitRevives(peer: Peer)
    ensures var r := Session(peer, Burial(peer));
      SoundChanges(Burial(peer)) && Render(r) == "" && Render(Apply(r, Split(Id(1, peer), 1))) == "b"
  {
    hide Shape, Render, Buried;
    BurialBuries(peer);
    SessionSteady(peer, Burial(peer));
    SplitBuried(Session(peer, Burial(peer)), Id(1, peer));
  }

  const OWN: Op := NewLeaf(Id(1, 1), SortKey([128], 1), "ab")
  const THEIRS: Op := NewLeaf(Id(1, 2), SortKey([128], 2), "c")

  /** Peer 1 creates a first leaf and receives the first leaf of peer 2, which got the same fractional key. */
  function Meeting(): seq<Change> { [Structure(Create(ROOT, None, Leaf("Token", "ab"))), Receive([THEIRS])] }

  lemma MeetingMeets()
    ensures SoundChanges(Meeting())
    ensures var r := Session(1, Meeting());
      r.nodes == Replay([OWN, THEIRS]).nodes && r.order == Replay([OWN, THEIRS]).order && r.peer == 1 && r.counter == 1
  {
    hide Observe, Contains;
    var create := Meeting()[0];
    assert Meeting()[..1] == [create] && [create][..0] == [];
    assert Session(1, []) == NewReplica(1);
    var r1 := Session(1, [create]);
    FirstLeaf(r1);
    OneReady(r1, THEIRS);
    assert [OWN, THEIRS][..1] == [OWN] && [OWN][..0] == [];
    assert Sound(THEIRS);
  }

  lemma FirstLeaf(r: Replica)
    requires r == Perform(NewReplica(1), Create(ROOT, None, Leaf("Token", "ab")))
    ensures r.nodes == Replay([OWN]).nodes && r.order == Replay([OWN]).order && r.peer == 1 && r.counter == 1 && r.buffered == []
    ensures !Contains(r.frontier, THEIRS.id) && Ready(r, THEIRS)
  {
    assert [OWN][..0] == [] && [ROOT][..0] == [];
    assert LiveChildren(NewReplica(1).nodes, [ROOT], ROOT) == [];
    assert FracKeys.KeyBetween([], None) == [128];
  }

  lemma MeetingKids(r: Replica)
    requires r.nodes == Replay([OWN, THEIRS]).nodes && r.order == Replay([OWN, THEIRS]).order
    ensures LiveChildren(r.nodes, r.order, ROOT) == [OWN.id, THEIRS.id]
    ensures LeafTable(r, [OWN, THEIRS])
  {
    hide Replay, LiveChildren;
    var log := [OWN, THEIRS];
    assert Leaves(log) by {
      assert IsNewLeaf(OWN) && IsNewLeaf(THEIRS);
    }
    LeavesTable(log);
    assert r.nodes[log[0].id] == LeafRecord(log[0]) && r.nodes[log[1].id] == LeafRecord(log[1]);
    assert Arranged(r.nodes, r.order, [OWN.id, THEIRS.id]);
    KidsAre(log, [OWN.id, THEIRS.id]);
  }

  lemma MeetingSplits(r: Replica)
    requires Shape(r) && r.nodes == Replay([OWN, THEIRS]).nodes && r.order == Replay([OWN, THEIRS]).order && r.peer == 1 && r.counter == 1
    ensures var (t, tail) := (Apply(r, Split(OWN.id, 1)), Id(2, 1));
      && Shape(t) && LiveChildren(t.nodes, t.order, ROOT) == [OWN.id, THEIRS.id, tail]
      && IsLeaf(t.nodes, OWN.id) && IsLeaf(t.nodes, THEIRS.id) && IsLeaf(t.nodes, tail)
      && t.nodes[OWN.id].body.text == "a" && t.nodes[THEIRS.id].body.text == "c" && t.nodes[tail].body.text == "b"
  {
    hide KeyAfter, Replay, LiveChildren, CommitLocal, Shape, FracKeys.KeyBetween;
    var tail, t := Id(2, 1), Apply(r, Split(OWN.id, 1));
    MeetingKids(r);
    var log := [OWN, THEIRS];
    assert r.nodes[log[0].id] == LeafRecord(log[0]) && r.nodes[log[1].id] == LeafRecord(log[1]);
    NextIsFresh(r);
    SplitParts(r, OWN.id, 1);
    MintSplitParts(r, OWN.id, 1);
    TailKey(r);
    KeyAfterProper(r, ROOT, Some(OWN.id));
    SplitShape(r, OWN.id, 1);
    assert "ab"[..1] == "a" && "ab"[1..] == "b";
    MeetingTail(r, t, tail);
  }

  /** The tail's key is above both. */
  lemma TailKey(r: Replica)
    requires LiveChildren(r.nodes, r.order, ROOT) == [OWN.id, THEIRS.id] && OWN.id in r.nodes && THEIRS.id in r.nodes
    requires r.nodes[OWN.id].sort.frac == [128] && r.nodes[THEIRS.id].sort.frac == [128]
    ensures ByteOrder.Less([128], KeyAfter(r, ROOT, Some(OWN.id)).frac)
  {
    hide LiveChildren, FracKeys.KeyBetween;
    FracKeys.NoRoom([128]);
    assert IndexOf([OWN.id, THEIRS.id], OWN.id) == 0;
  }

  lemma MeetingTail(r: Replica, t: Replica, tail: Id)
    requires Shape(t) && LeafTable(r, [OWN, THEIRS]) && tail == Id(2, 1) && tail in t.nodes && IsLiveChild(t.nodes, ROOT, tail)
    requires forall x :: x in t.nodes <==> x in r.nodes || x == tail
    requires forall x :: x in r.nodes ==>
      x in t.nodes && t.nodes[x] == r.nodes[x].(body := t.nodes[x].body, textHead := t.nodes[x].textHead)
    requires ByteOrder.Less([128], t.nodes[tail].sort.frac)
    ensures LiveChildren(t.nodes, t.order, ROOT) == [OWN.id, THEIRS.id, tail]
  {
    hide LiveChildren, Arranged, Shape;
    MeetingRecords(r);
    InRow(t, OWN.id, THEIRS.id, tail);
    ShapeOrder(t);
    ChildrenAre(t.nodes, t.order, ROOT, [OWN.id, THEIRS.id, tail]);
  }

  lemma MeetingRecords(r: Replica)
    requires LeafTable(r, [OWN, THEIRS])
    ensures (forall x :: x in r.nodes <==> x in {ROOT, OWN.id, THEIRS.id})
    ensures r.nodes[ROOT] == ROOT_RECORD && r.nodes[OWN.id] == LeafRecord(OWN) && r.nodes[THEIRS.id] == LeafRecord(THEIRS)
  {
    var log := [OWN, THEIRS];
    assert r.nodes[log[0].id] == LeafRecord(log[0]) && r.nodes[log[1].id] == LeafRecord(log[1]);
    assert Ids(log) == [OWN.id, THEIRS.id];
  }

  lemma InRow(t: Replica, x: Id, y: Id, z: Id)
    requires x in t.nodes && y in t.nodes && z in t.nodes
    requires t.nodes[x].sort == SortKey([128], 1) && t.nodes[y].sort == SortKey([128], 2) && ByteOrder.Less([128], t.nodes[z].sort.frac)
    ensures Arranged(t.nodes, t.order, [x, y, z])
  {
  }

  lemma ShapeOrder(t: Replica)
    requires Shape(t)
    ensures OrderOk(t.nodes, t.order) && ROOT in t.nodes && t.nodes[ROOT].body.Element?
  {
  }

  /** Splitting before a neighbour with the leaf's own key puts the tail behind that neighbour. */
  lemma SplitPassesTie()
    ensures var r := Session(1, Meeting());
      SoundChanges(Meeting()) && Render(r) == "abc" && Render(Apply(r, Split(Id(1, 1), 1))) == "acb"
  {
    hide Render, Replay, LiveChildren, Texts, Shape, Session, Apply, Sound;
    MeetingMeets();
    SessionSteady(1, Meeting());
    var r := Session(1, Meeting());
    MeetingKids(r);
    MeetingSplits(r);
    MeetingText(r, [OWN.id, THEIRS.id]);
    var t := Apply(r, Split(Id(1, 1), 1));
    ShapeOrder(t);
    RenderKids(t, [OWN.id, THEIRS.id, Id(2, 1)]);
    TextsCons(t.nodes, Id(2, 1), []);
    TextsCons(t.nodes, THEIRS.id, [Id(2, 1)]);
    TextsCons(t.nodes, OWN.id, [THEIRS.id, Id(2, 1)]);
    NoTexts(t.nodes);
    assert [Id(2, 1)] + [] == [Id(2, 1)] && [THEIRS.id] + [Id(2, 1)] == [THEIRS.id, Id(2, 1)];
    assert [OWN.id] + [THEIRS.id, Id(2, 1)] == [OWN.id, THEIRS.id, Id(2, 1)];
  }

  lemma MeetingText(r: Replica, kids: seq<Id>)
    requires LeafTable(r, [OWN, THEIRS]) && kids == [OWN.id, THEIRS.id] && LiveChildren(r.nodes, r.order, ROOT) == kids
    ensures Render(r) == "abc"
  {
    hide Render, LiveChildren, Texts;
    var log := [OWN, THEIRS];
    assert r.nodes[log[0].id] == LeafRecord(log[0]) && r.nodes[log[1].id] == LeafRecord(log[1]);
    RenderKids(r, kids);
    TextsCons(r.nodes, THEIRS.id, []);
    TextsCons(r.nodes, OWN.id, [THEIRS.id]);
    NoTexts(r.nodes);
    assert [THEIRS.id] + [] == [THEIRS.id] && [OWN.id] + [THEIRS.id] == kids;
  }
}
