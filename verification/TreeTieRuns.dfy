/** Two runs in which replicas end with the same operations and different text, one for each rule of a careful run. */
module TreeTieRuns {
  import opened Basics
  import ByteOrder
  import FracKeys
  import opened TreeModel
  import opened TreeConvergence
  import opened TreeDelivery
  import opened TreeRender
  import opened TreeSystem
  import opened TreeSpacing
  import opened TreeLeaves

  // -- following a run in which nothing is parked ------------------------------------------------------------

  datatype View = View(log: seq<Op>, counter: nat)

  /** A replica with that table; the frontier does not matter to what it mints or shows. */
  function Pictured(p: Peer, v: View): Replica { Replay(v.log).(peer := p, counter := v.counter) }

  ghost predicate Shows(r: Replica, p: Peer, v: View) {
    && r.peer == p && r.counter == v.counter && r.log == v.log && r.buffered == []
    && r.nodes == Replay(v.log).nodes && r.order == Replay(v.log).order
  }

  ghost predicate At(run: seq<Step>, k: nat, views: map<Peer, View>)
    requires k <= |run|
  {
    match Reach(run[..k])
    case None => false
    case Some(s) => s.Keys == views.Keys && forall p :: p in views ==> Shows(s[p], p, views[p])
  }

  lemma ApplyLooks(r: Replica, t: Replica, op: Op)
    requires r.nodes == t.nodes && r.order == t.order && Structural(op)
    ensures var (a, b) := (ApplyOp(r, op), ApplyOp(t, op)); a.nodes == b.nodes && a.order == b.order
  {
  }

  lemma CommitShows(r: Replica, p: Peer, v: View, op: Op)
    requires Shows(r, p, v) && Structural(op)
    ensures Shows(Commit(r, op), p, v.(log := v.log + [op]))
  {
    hide ApplyOp, Observe, Replay;
    CommitParts(r, op);
    ApplyLooks(r, Replay(v.log), op);
    ReplaySnoc(v.log, op);
  }

  lemma ReachNext(run: seq<Step>, k: nat)
    requires k < |run| && Reach(run[..k]).Some? && Allowed(Reach(run[..k]).value, run[k])
    ensures Reach(run[..k + 1]) == Some(Take(Reach(run[..k]).value, run[k]))
  {
    assert run[..k + 1][..k] == run[..k];
  }

  lemma StartAt(run: seq<Step>)
    ensures At(run, 0, map[])
  {
    assert run[..0] == [];
  }

  lemma JoinNext(run: seq<Step>, k: nat, views: map<Peer, View>, p: Peer)
    requires k < |run| && At(run, k, views) && run[k] == Join(p) && p !in views
    ensures At(run, k + 1, views[p := View([], 0)])
  {
    hide Reach;
    ReachNext(run, k);
  }

  lemma MintLooks(r: Replica, t: Replica, e: Edit)
    requires r.nodes == t.nodes && r.order == t.order && r.counter == t.counter && r.peer == t.peer
    ensures Mint(r, e) == Mint(t, e)
  {
  }

  lemma LocalNext(run: seq<Step>, k: nat, views: map<Peer, View>, p: Peer, e: Edit, op: Op)
    requires k < |run| && At(run, k, views) && run[k] == Local(p, e) && p in views
    requires Mint(Pictured(p, views[p]), e) == Some(op) && Structural(op)
    ensures At(run, k + 1, views[p := View(views[p].log + [op], views[p].counter + 1)])
  {
    hide Reach, Mint, Commit, Replay;
    ReachNext(run, k);
    var r := Reach(run[..k]).value[p];
    MintLooks(r, Pictured(p, views[p]), e);
    CommitShows(r.(counter := r.counter + 1), p, views[p].(counter := r.counter + 1), op);
  }

  /** Of what the sender holds the receiver lacks one operation, and could apply it. */
  ghost predicate LacksOne(v: View, w: View, op: Op) {
    && op in v.log && (forall o :: o in w.log ==> o.id != op.id) && Ready(Replay(w.log), op) && Minted(op)
    && forall i :: 0 <= i < |v.log| ==> (v.log[i] in w.log || v.log[i] == op) && v.log[i].id.counter > 0
  }

  lemma TakesOne(r: Replica, q: Peer, w: View, op: Op)
    requires Shows(r, q, w) && FrontierOk(r.frontier, r.log) && Minted(op)
    requires (forall o :: o in w.log ==> o.id != op.id) && Ready(Replay(w.log), op)
    ensures Shows(ApplyUpdate(r, [op]), q, View(w.log + [op], Max(w.counter, op.id.counter)))
  {
    hide Contains, Canonical, ApplyUpdate, Commit, Replay;
    var c := Max(w.counter, op.id.counter);
    assert !Contains(r.frontier, op.id);
    OneReady(r, op);
    CommitShows(r.(counter := c), q, w.(counter := c), op);
  }

  lemma {:induction false} LackingOne(log: seq<Op>, their: Frontier, op: Op)
    requires (forall i, j :: 0 <= i < j < |log| ==> log[i] != log[j])
    requires forall o :: o in log ==> (Contains(their, o.id) <==> o != op)
    ensures Lacking(log, their) == if op in log then [op] else []
    decreases |log|
  {
    hide Contains;
    if log != [] {
      var n := |log| - 1;
      assert log == log[..n] + [log[n]];
      LackingOne(log[..n], their, op);
    }
  }

  lemma DiffOne(t: Replica, r: Replica, v: View, w: View, op: Op)
    requires Once(t.log) && FrontierOk(r.frontier, r.log) && t.log == v.log && r.log == w.log && LacksOne(v, w, op)
    ensures Diff(t, r.frontier) == [op]
  {
    hide Contains, Canonical, Ready;
    forall o | o in t.log ensures Contains(r.frontier, o.id) <==> o != op {
      var i :| 0 <= i < |t.log| && t.log[i] == o;
    }
    LackingOne(t.log, r.frontier, op);
    assert [op][..0] == [];
    assert SortById([op]) == InsertById(SortById([]), op);
  }

  lemma Frontiers(run: seq<Step>, k: nat, views: map<Peer, View>, p: Peer)
    requires k <= |run| && At(run, k, views) && p in views
    ensures var r := Reach(run[..k]).value[p]; FrontierOk(r.frontier, r.log) && Once(r.log)
  {
    hide Reach, Describes, Grounded, OrderOk, WellFormed, Closed;
    ReachOk(run[..k]);
  }

  lemma SyncNext(run: seq<Step>, k: nat, views: map<Peer, View>, p: Peer, q: Peer, op: Op)
    requires k < |run| && At(run, k, views) && run[k] == Sync(p, q) && p in views && q in views && LacksOne(views[p], views[q], op)
    ensures At(run, k + 1, views[q := View(views[q].log + [op], Max(views[q].counter, op.id.counter))])
  {
    hide Reach, ApplyUpdate, Diff, FrontierOk, Replay, Ready, Once;
    ReachNext(run, k);
    Frontiers(run, k, views, p);
    Frontiers(run, k, views, q);
    var s := Reach(run[..k]).value;
    DiffOne(s[p], s[q], views[p], views[q], op);
    TakesOne(s[q], q, views[q], op);
  }

  lemma SendNext(run: seq<Step>, k: nat, views: map<Peer, View>, p: Peer, q: Peer, op: Op)
    requires k < |run| && At(run, k, views) && run[k] == Send(p, q, [op]) && p in views && q in views && op in views[p].log
    requires Minted(op) && (forall o :: o in views[q].log ==> o.id != op.id) && Ready(Replay(views[q].log), op)
    ensures At(run, k + 1, views[q := View(views[q].log + [op], Max(views[q].counter, op.id.counter))])
  {
    hide Reach, ApplyUpdate, FrontierOk, Replay, Ready, Once;
    ReachNext(run, k);
    Frontiers(run, k, views, q);
    var s := Reach(run[..k]).value;
    assert forall o :: o in [op] ==> o in s[p].log;
    TakesOne(s[q], q, views[q], op);
  }

  // -- edits without room -----------------------------------------------------------------------------------------

  const FRONT: FracKeys.Key := [128]
  const GAP: FracKeys.Key := FracKeys.KeyBetween(FRONT, Some(FRONT))
  const A: Op := NewLeaf(Id(1, 1), SortKey(FRONT, 1), "a")
  const B: Op := NewLeaf(Id(1, 2), SortKey(FRONT, 2), "b")
  const C: Op := NewLeaf(Id(2, 1), SortKey(GAP, 1), "c")
  const Y: Op := NewLeaf(Id(2, 2), SortKey([64], 2), "y")
  const MOVE: Op := Op(Id(3, 1), Reorder(Id(2, 2), SortKey(GAP, 1)))

  /**
   Both create a first child and exchange them. Peer 1 creates a node behind its own, where the two
   neighbours have one key; peer 2 creates another, which peer 1, after an exchange, places behind the
   same node: the key comes out the same again.
   */
  function CrowdedRun(): seq<Step> {
    [Join(1), Join(2), Local(1, Create(ROOT, None, Leaf("Token", "a"))), Local(2, Create(ROOT, None, Leaf("Token", "b"))),
     Sync(1, 2), Sync(2, 1), Local(1, Create(ROOT, Some(A.id), Leaf("Token", "c"))), Local(2, Create(ROOT, None, Leaf("Token", "y"))),
     Sync(1, 2), Sync(2, 1), Local(1, Place(Y.id, Some(A.id))), Sync(1, 2)]
  }

  lemma Keys()
    ensures FracKeys.KeyBetween([], None) == FRONT && FracKeys.KeyBetween([], Some(FRONT)) == [64]
    ensures ByteOrder.Less(FRONT, GAP) && ByteOrder.Less([64], FRONT) && ByteOrder.Less([64], GAP)
  {
    FracKeys.NoRoom(FRONT);
    ByteOrder.LessTrans([64], FRONT, GAP);
  }

  lemma KeysOfNone(p: Peer, v: View)
    requires LiveChildren(Replay(v.log).nodes, Replay(v.log).order, ROOT) == []
    ensures KeyAfter(Pictured(p, v), ROOT, None) == SortKey(FRONT, p)
  {
    Keys();
  }

  lemma NoKids()
    ensures LiveChildren(Replay([]).nodes, Replay([]).order, ROOT) == []
  {
    assert [ROOT][..0] == [];
  }

  /** The first children, each before it knows of the other. */
  lemma CrowdedStarts(run: seq<Step>)
    requires CrowdedRun() <= run
    ensures At(run, 4, map[1 := View([A], 1), 2 := View([B], 1)])
  {
    hide At, KeyAfter, LiveChildren;
    Prefix(run);
    StartAt(run);
    JoinNext(run, 0, map[], 1);
    JoinNext(run, 1, map[1 := View([], 0)], 2);
    NoKids();
    KeysOfNone(1, View([], 0));
    KeysOfNone(2, View([], 0));
    LocalNext(run, 2, map[1 := View([], 0), 2 := View([], 0)], 1, run[2].edit, A);
    assert [] + [A] == [A] && [] + [B] == [B];
    assert map[1 := View([], 0)][2 := View([], 0)] == map[1 := View([], 0), 2 := View([], 0)];
    assert map[1 := View([], 0), 2 := View([], 0)][1 := View([A], 1)] == map[1 := View([A], 1), 2 := View([], 0)];
    LocalNext(run, 3, map[1 := View([A], 1), 2 := View([], 0)], 2, run[3].edit, B);
    assert map[1 := View([A], 1), 2 := View([], 0)][2 := View([B], 1)] == map[1 := View([A], 1), 2 := View([B], 1)];
  }

  lemma Prefix(run: seq<Step>)
    requires CrowdedRun() <= run
    ensures |run| >= 12 && forall k :: 0 <= k < 12 ==> run[k] == CrowdedRun()[k]
  {
  }

  function Two(v: View, w: View): map<Peer, View> { map[1 := v, 2 := w] }

  lemma TwoPut(v: View, w: View, u: View)
    ensures Two(v, w)[1 := u] == Two(u, w) && Two(v, w)[2 := u] == Two(v, u)
  {
  }

  lemma LogLeaves()
    ensures Leaves([A, B]) && Leaves([B, A]) && Leaves([A, B, C]) && Leaves([B, A, Y]) && Leaves([A, B, C, Y]) && Leaves([B, A, Y, C])
  {
    assert IsNewLeaf(A) && IsNewLeaf(B) && IsNewLeaf(C) && IsNewLeaf(Y);
    assert A.id == Id(1, 1) && B.id == Id(1, 2) && C.id == Id(2, 1) && Y.id == Id(2, 2);
  }

  /** The first exchange. */
  lemma CrowdedMeets(run: seq<Step>)
    requires CrowdedRun() <= run
    ensures At(run, 6, Two(View([A, B], 1), View([B, A], 1)))
  {
    hide At, Replay;
    Prefix(run);
    CrowdedStarts(run);
    LogLeaves();
    RootThere(View([B], 1));
    RootThere(View([A], 1));
    TwoPut(View([A], 1), View([B], 1), View([B, A], 1));
    TwoPut(View([A], 1), View([B, A], 1), View([A, B], 1));
    assert [B] + [A] == [B, A] && [A] + [B] == [A, B];
    SyncNext(run, 4, Two(View([A], 1), View([B], 1)), 1, 2, A);
    SyncNext(run, 5, Two(View([A], 1), View([B, A], 1)), 2, 1, B);
  }

  lemma {:induction false} RootThere(v: View)
    ensures ROOT in Replay(v.log).nodes
    decreases |v.log|
  {
    hide ApplyOp;
    if v.log != [] {
      RootThere(v.(log := v.log[..|v.log| - 1]));
      StaysThere(Replay(v.log[..|v.log| - 1]), v.log[|v.log| - 1]);
    }
  }

  lemma StaysThere(r: Replica, op: Op)
    ensures forall x :: x in r.nodes ==> x in ApplyOp(r, op).nodes
  {
  }

  /** Both first children: peer 1's before peer 2's. */
  lemma TwoKids(log: seq<Op>)
    requires log == [A, B] || log == [B, A]
    ensures LiveChildren(Replay(log).nodes, Replay(log).order, ROOT) == [A.id, B.id]
  {
    hide Replay, LiveChildren, GAP, Placed;
    LogLeaves();
    LeavesPlaced(log);
    var r := Replay(log);
    PlacedOf(r.nodes, log, A);
    PlacedOf(r.nodes, log, B);
    assert Arranged(r.nodes, r.order, [A.id, B.id]);
    KidsAre(log, [A.id, B.id]);
  }

  /** With the two more, at peer 1. */
  lemma FourKids()
    ensures var r := Replay([A, B, C, Y]); LiveChildren(r.nodes, r.order, ROOT) == [Y.id, A.id, B.id, C.id]
  {
    hide Replay, LiveChildren, Placed, GAP;
    var log := [A, B, C, Y];
    LogLeaves();
    LeavesPlaced(log);
    var r := Replay(log);
    PlacedOf(r.nodes, log, A);
    PlacedOf(r.nodes, log, B);
    PlacedOf(r.nodes, log, C);
    PlacedOf(r.nodes, log, Y);
    Keys();
    assert Arranged(r.nodes, r.order, [Y.id, A.id, B.id, C.id]);
    KidsAre(log, [Y.id, A.id, B.id, C.id]);
  }

  lemma MintC()
    ensures Mint(Pictured(1, View([A, B], 1)), Create(ROOT, Some(A.id), Leaf("Token", "c"))) == Some(C)
  {
    hide Replay, LiveChildren, Placed, FracKeys.KeyBetween;
    TwoKids([A, B]);
    LogLeaves();
    LeavesPlaced([A, B]);
    RootThere(View([A, B], 1));
    PlacedOf(Replay([A, B]).nodes, [A, B], A);
    PlacedOf(Replay([A, B]).nodes, [A, B], B);
  }

  lemma MintY()
    ensures Mint(Pictured(2, View([B, A], 1)), Create(ROOT, None, Leaf("Token", "y"))) == Some(Y)
  {
    hide Replay, LiveChildren, Placed, FracKeys.KeyBetween;
    TwoKids([B, A]);
    LogLeaves();
    Keys();
    LeavesPlaced([B, A]);
    RootThere(View([B, A], 1));
    PlacedOf(Replay([B, A]).nodes, [B, A], A);
  }

  lemma MintMove()
    ensures Mint(Pictured(1, View([A, B, C, Y], 2)), Place(Y.id, Some(A.id))) == Some(MOVE)
  {
    hide Replay, LiveChildren, Placed, FracKeys.KeyBetween;
    var log := [A, B, C, Y];
    FourKids();
    LogLeaves();
    LeavesPlaced(log);
    PlacedOf(Replay(log).nodes, log, A);
    PlacedOf(Replay(log).nodes, log, B);
    PlacedOf(Replay(log).nodes, log, Y);
  }

  lemma CrowdedEdits(run: seq<Step>)
    requires CrowdedRun() <= run
    ensures At(run, 8, Two(View([A, B, C], 2), View([B, A, Y], 2)))
  {
    hide At, Replay, Mint;
    Prefix(run);
    CrowdedMeets(run);
    var v, w := View([A, B], 1), View([B, A], 1);
    MintC();
    LocalNext(run, 6, Two(v, w), 1, run[6].edit, C);
    assert [A, B] + [C] == [A, B, C] && [B, A] + [Y] == [B, A, Y];
    TwoPut(v, w, View([A, B, C], 2));
    MintY();
    LocalNext(run, 7, Two(View([A, B, C], 2), w), 2, run[7].edit, Y);
    TwoPut(View([A, B, C], 2), w, View([B, A, Y], 2));
  }

  lemma CrowdedExchanges(run: seq<Step>)
    requires CrowdedRun() <= run
    ensures At(run, 10, Two(View([A, B, C, Y], 2), View([B, A, Y, C], 2)))
  {
    hide At, Replay;
    Prefix(run);
    CrowdedEdits(run);
    LogLeaves();
    var v, w, u := View([A, B, C], 2), View([B, A, Y], 2), View([B, A, Y, C], 2);
    RootThere(v);
    RootThere(w);
    SyncNext(run, 8, Two(v, w), 1, 2, C);
    assert [B, A, Y] + [C] == [B, A, Y, C] && [A, B, C] + [Y] == [A, B, C, Y];
    TwoPut(v, w, u);
    SyncNext(run, 9, Two(v, u), 2, 1, Y);
    TwoPut(v, u, View([A, B, C, Y], 2));
  }

  lemma CrowdedMoves(run: seq<Step>)
    requires CrowdedRun() <= run
    ensures At(run, 12, Two(View([A, B, C, Y, MOVE], 3), View([B, A, Y, C, MOVE], 3)))
  {
    hide At, Replay, Mint;
    Prefix(run);
    CrowdedExchanges(run);
    LogLeaves();
    var v, w, u := View([A, B, C, Y], 2), View([B, A, Y, C], 2), View([A, B, C, Y, MOVE], 3);
    MintMove();
    LocalNext(run, 10, Two(v, w), 1, run[10].edit, MOVE);
    assert [A, B, C, Y] + [MOVE] == [A, B, C, Y, MOVE] && [B, A, Y, C] + [MOVE] == [B, A, Y, C, MOVE];
    TwoPut(v, w, u);
    LeavesPlaced(w.log);
    PlacedOf(Replay(w.log).nodes, w.log, Y);
    SyncNext(run, 11, Two(u, w), 1, 2, MOVE);
    TwoPut(u, w, View([B, A, Y, C, MOVE], 3));
  }

  /** After the move the last two have one key, so the table's order decides. */
  lemma MovedTable(log: seq<Op>)
    requires log == [A, B, C, Y] || log == [B, A, Y, C]
    ensures var r := Replay(log + [MOVE]);
      && r.order == [ROOT] + Ids(log) && (forall x :: x in r.nodes <==> x == ROOT || x in Ids(log))
      && ROOT in r.nodes && r.nodes[ROOT] == ROOT_RECORD && Placed(r.nodes, [A, B, C])
      && Y.id in r.nodes && r.nodes[Y.id] == LeafRecord(Y).(sort := SortKey(GAP, 1), sortStamp := MOVE.id)
  {
    hide Replay, GAP, Placed;
    LogLeaves();
    LeavesTable(log);
    LeavesPlaced(log);
    ReplaySnoc(log, MOVE);
    PlacedOf(Replay(log).nodes, log, Y);
    forall op | op in [A, B, C]
      ensures op.kind.CreateNode? && op.id in Replay(log).nodes && Replay(log).nodes[op.id] == LeafRecord(op) && op.id != Y.id
    {
      PlacedOf(Replay(log).nodes, log, op);
    }
    PlacedIs(Replay(log + [MOVE]).nodes, [A, B, C]);
  }

  /** What the move leaves of the four. */
  lemma MovedFour(log: seq<Op>)
    requires log == [A, B, C, Y] || log == [B, A, Y, C]
    ensures var n := Replay(log + [MOVE]).nodes;
      && (forall x :: x in n <==> x in {ROOT, A.id, B.id, C.id, Y.id})
      && n[ROOT] == ROOT_RECORD && n[A.id] == LeafRecord(A) && n[B.id] == LeafRecord(B) && n[C.id] == LeafRecord(C)
      && n[Y.id] == LeafRecord(Y).(sort := SortKey(GAP, 1), sortStamp := MOVE.id)
  {
    hide Replay, GAP, Placed, LeafRecord;
    MovedTable(log);
    var n := Replay(log + [MOVE]).nodes;
    PlacedOf(n, [A, B, C], A);
    PlacedOf(n, [A, B, C], B);
    PlacedOf(n, [A, B, C], C);
    forall x ensures x in n <==> x in {ROOT, A.id, B.id, C.id, Y.id} {
      assert Ids([A, B, C, Y]) == [A.id, B.id, C.id, Y.id] && Ids([B, A, Y, C]) == [B.id, A.id, Y.id, C.id];
    }
  }

  lemma MovedKids(log: seq<Op>, x: Op, y: Op)
    requires (log == [A, B, C, Y] && x == C && y == Y) || (log == [B, A, Y, C] && x == Y && y == C)
    ensures var r := Replay(log + [MOVE]); LiveChildren(r.nodes, r.order, ROOT) == [A.id, B.id, x.id, y.id]
  {
    hide Replay, GAP, LiveChildren, IndexOf, Arranged;
    var r, kids := Replay(log + [MOVE]), [A.id, B.id, x.id, y.id];
    MovedFour(log);
    MovedOrder(log, x, y);
    MovedArranged(r, kids, x, y);
    ChildrenAre(r.nodes, r.order, ROOT, kids);
  }

  lemma MovedOrder(log: seq<Op>, x: Op, y: Op)
    requires (log == [A, B, C, Y] && x == C && y == Y) || (log == [B, A, Y, C] && x == Y && y == C)
    ensures var r := Replay(log + [MOVE]); OrderOk(r.nodes, r.order) && IndexOf(r.order, x.id) < IndexOf(r.order, y.id)
  {
    hide Replay, GAP, IndexOf, Placed;
    MovedTable(log);
    LogLeaves();
    OrderOnce(log);
    var r := Replay(log + [MOVE]);
    IndexIs(r.order, 3);
    IndexIs(r.order, 4);
  }

  lemma MovedArranged(r: Replica, kids: seq<Id>, x: Op, y: Op)
    requires (x == C && y == Y) || (x == Y && y == C)
    requires kids == [A.id, B.id, x.id, y.id] && forall k :: k in kids ==> k in r.nodes
    requires r.nodes[A.id].sort == SortKey(FRONT, 1) && r.nodes[B.id].sort == SortKey(FRONT, 2)
    requires r.nodes[x.id].sort == SortKey(GAP, 1) == r.nodes[y.id].sort && IndexOf(r.order, x.id) < IndexOf(r.order, y.id)
    ensures Arranged(r.nodes, r.order, kids)
  {
    hide GAP, IndexOf;
    Keys();
  }

  lemma TextsFour(nodes: map<Id, Record>, a: Id, b: Id, c: Id, d: Id)
    requires IsLeaf(nodes, a) && IsLeaf(nodes, b) && IsLeaf(nodes, c) && IsLeaf(nodes, d)
    ensures Texts(nodes, [a, b, c, d]) == nodes[a].body.text + (nodes[b].body.text + (nodes[c].body.text + (nodes[d].body.text + "")))
  {
    hide Texts;
    TextsCons(nodes, d, []);
    TextsCons(nodes, c, [d]);
    TextsCons(nodes, b, [c, d]);
    TextsCons(nodes, a, [b, c, d]);
    NoTexts(nodes);
    assert [d] + [] == [d] && [c] + [d] == [c, d] && [b] + [c, d] == [b, c, d] && [a] + [b, c, d] == [a, b, c, d];
  }

  lemma MovedText(r: Replica, v: View, log: seq<Op>, p: Peer, x: Op, y: Op)
    requires (log == [A, B, C, Y] && x == C && y == Y) || (log == [B, A, Y, C] && x == Y && y == C)
    requires v.log == log + [MOVE] && Shows(r, p, v)
    ensures Render(r) == if x == C then "abcy" else "abyc"
  {
    hide Replay, GAP, LiveChildren, Render, Texts;
    MovedFour(log);
    MovedKids(log, x, y);
    RenderKids(r, [A.id, B.id, x.id, y.id]);
    TextsFour(r.nodes, A.id, B.id, x.id, y.id);
  }

  /**
   Edits in a gap between two equal keys: after exchanges of all they hold, the two replicas hold the same
   operations and show different text.
   */
  lemma CrowdedGapDiverges()
    ensures match Reach(CrowdedRun())
      case None => false
      case Some(s) =>
        && 1 in s && 2 in s && (forall op :: op in s[1].log <==> op in s[2].log)
        && Render(s[1]) == "abcy" && Render(s[2]) == "abyc"
  {
    hide Reach, Render, Replay;
    var run := CrowdedRun();
    CrowdedMoves(run);
    assert run[..12] == run;
    var s := Reach(run).value;
    var v, w := View([A, B, C, Y, MOVE], 3), View([B, A, Y, C, MOVE], 3);
    assert v == Two(v, w)[1] && w == Two(v, w)[2];
    assert v.log == [A, B, C, Y] + [MOVE] && w.log == [B, A, Y, C] + [MOVE];
    MovedText(s[1], v, [A, B, C, Y], 1, C, Y);
    MovedText(s[2], w, [B, A, Y, C], 2, Y, C);
  }

  // -- a send that leaves something out ------------------------------------------------------------------------

  const X: Op := NewLeaf(Id(1, 1), SortKey(FRONT, 1), "x")
  const BURY: Op := Op(Id(2, 1), Tombstone(Id(1, 1)))
  const Z: Op := NewLeaf(Id(3, 1), SortKey(FRONT, 1), "z")

  /** A peer creates, deletes and creates again; the creations go out, to two others, without the deletion. */
  function PartialRun(): seq<Step> {
    [Join(1), Join(2), Join(3), Local(1, Create(ROOT, None, Leaf("Token", "x"))), Local(1, Delete(X.id)),
     Local(1, Create(ROOT, None, Leaf("Token", "z"))), Send(1, 2, [X]), Send(1, 2, [Z]), Send(1, 3, [Z]), Send(1, 3, [X])]
  }

  function Three(u: View, v: View, w: View): map<Peer, View> { map[1 := u, 2 := v, 3 := w] }

  lemma ThreePut(u: View, v: View, w: View, z: View)
    ensures Three(u, v, w)[1 := z] == Three(z, v, w) && Three(u, v, w)[2 := z] == Three(u, z, w) && Three(u, v, w)[3 := z] == Three(u, v, z)
  {
  }

  const NOTHING: View := View([], 0)

  lemma PartialStarts(run: seq<Step>)
    requires run == PartialRun()
    ensures At(run, 3, Three(NOTHING, NOTHING, NOTHING))
  {
    hide At, Replay;
    StartAt(run);
    JoinNext(run, 0, map[], 1);
    JoinNext(run, 1, map[1 := NOTHING], 2);
    assert map[1 := NOTHING][2 := NOTHING] == map[1 := NOTHING, 2 := NOTHING];
    JoinNext(run, 2, map[1 := NOTHING, 2 := NOTHING], 3);
    assert map[1 := NOTHING, 2 := NOTHING][3 := NOTHING] == Three(NOTHING, NOTHING, NOTHING);
  }

  /** Nothing lives below the root once the first leaf is deleted. */
  lemma BuriedKids()
    ensures var r := Replay([X, BURY]);
      LiveChildren(r.nodes, r.order, ROOT) == [] && ROOT in r.nodes && X.id in Replay([X]).nodes
  {
    hide LiveChildren;
    ReplaySnoc([], X);
    ReplaySnoc([X], BURY);
    assert [] + [X] == [X] && [X] + [BURY] == [X, BURY];
    var r := Replay([X, BURY]);
    assert forall x :: !IsLiveChild(r.nodes, ROOT, x);
    var kids := LiveChildren(r.nodes, r.order, ROOT);
    Headless(kids);
  }

  lemma PartialEdits(run: seq<Step>)
    requires run == PartialRun()
    ensures At(run, 6, Three(View([X, BURY, Z], 3), NOTHING, NOTHING))
  {
    hide At, KeyAfter, LiveChildren, Replay;
    PartialStarts(run);
    RootThere(NOTHING);
    BuriedKids();
    NoKids();
    KeysOfNone(1, NOTHING);
    KeysOfNone(1, View([X, BURY], 2));
    LocalNext(run, 3, Three(NOTHING, NOTHING, NOTHING), 1, run[3].edit, X);
    ThreePut(NOTHING, NOTHING, NOTHING, View([X], 1));
    assert [] + [X] == [X] && [X] + [BURY] == [X, BURY] && [X, BURY] + [Z] == [X, BURY, Z];
    LocalNext(run, 4, Three(View([X], 1), NOTHING, NOTHING), 1, run[4].edit, BURY);
    ThreePut(View([X], 1), NOTHING, NOTHING, View([X, BURY], 2));
    LocalNext(run, 5, Three(View([X, BURY], 2), NOTHING, NOTHING), 1, run[5].edit, Z);
    ThreePut(View([X, BURY], 2), NOTHING, NOTHING, View([X, BURY, Z], 3));
  }

  lemma PartialSends(run: seq<Step>)
    requires run == PartialRun()
    ensures At(run, 10, Three(View([X, BURY, Z], 3), View([X, Z], 3), View([Z, X], 3)))
  {
    hide At, Replay;
    PartialEdits(run);
    var u := View([X, BURY, Z], 3);
    RootThere(NOTHING);
    RootThere(View([X], 1));
    RootThere(View([Z], 3));
    SendNext(run, 6, Three(u, NOTHING, NOTHING), 1, 2, X);
    ThreePut(u, NOTHING, NOTHING, View([X], 1));
    assert [] + [X] == [X] && [X] + [Z] == [X, Z] && [] + [Z] == [Z] && [Z] + [X] == [Z, X];
    SendNext(run, 7, Three(u, View([X], 1), NOTHING), 1, 2, Z);
    ThreePut(u, View([X], 1), NOTHING, View([X, Z], 3));
    SendNext(run, 8, Three(u, View([X, Z], 3), NOTHING), 1, 3, Z);
    ThreePut(u, View([X, Z], 3), NOTHING, View([Z], 3));
    SendNext(run, 9, Three(u, View([X, Z], 3), View([Z], 3)), 1, 3, X);
    ThreePut(u, View([X, Z], 3), View([Z], 3), View([Z, X], 3));
  }

  lemma TiedText(r: Replica, v: View, p: Peer, x: Op, y: Op)
    requires ((x == X && y == Z) || (x == Z && y == X)) && v.log == [x, y] && Shows(r, p, v)
    ensures Render(r) == x.kind.seed.text + (y.kind.seed.text + "")
  {
    hide Replay, LiveChildren, Render, Texts, Placed;
    assert Leaves([x, y]) by {
      assert IsNewLeaf(x) && IsNewLeaf(y);
    }
    LeavesTable([x, y]);
    LeavesPlaced([x, y]);
    PlacedOf(r.nodes, [x, y], x);
    PlacedOf(r.nodes, [x, y], y);
    TiedArranged(r, x, y);
    KidsAre([x, y], [x.id, y.id]);
    RenderKids(r, [x.id, y.id]);
    TextsCons(r.nodes, y.id, []);
    TextsCons(r.nodes, x.id, [y.id]);
    NoTexts(r.nodes);
    assert [y.id] + [] == [y.id] && [x.id] + [y.id] == [x.id, y.id];
  }

  lemma TiedArranged(r: Replica, x: Op, y: Op)
    requires x.id in r.nodes && y.id in r.nodes && r.nodes[x.id].sort == r.nodes[y.id].sort
    requires Ids([x, y]) == [x.id, y.id] && r.order == [ROOT] + Ids([x, y]) && x.id != ROOT && y.id != ROOT && x.id != y.id
    ensures Arranged(r.nodes, r.order, [x.id, y.id])
  {
    hide IndexOf;
    IndexIs(r.order, 1);
    IndexIs(r.order, 2);
  }

  /**
   Every edit of this run has room wherever it is made, but a deletion is left behind: two replicas hold
   the same operations and show different text.
   */
  lemma PartialSendDiverges()
    ensures match Reach(PartialRun())
      case None => false
      case Some(s) =>
        && 2 in s && 3 in s && (forall op :: op in s[2].log <==> op in s[3].log)
        && Render(s[2]) == "xz" && Render(s[3]) == "zx"
    ensures forall k, r :: 0 <= k < |PartialRun()| && PartialRun()[k].Local? ==> Spaced(r, PartialRun()[k].edit)
  {
    hide Reach, Render, Replay;
    var run := PartialRun();
    PartialSends(run);
    assert run[..10] == run;
    var s := Reach(run).value;
    var u, v, w := View([X, BURY, Z], 3), View([X, Z], 3), View([Z, X], 3);
    assert v == Three(u, v, w)[2] && w == Three(u, v, w)[3];
    TiedText(s[2], v, 2, X, Z);
    TiedText(s[3], w, 3, Z, X);
  }
}
