# Verified models of the lazily kernels

This project models the state machines of the lazily library and proves what they are for: reactive
reads that are never stale, replicas that converge, delivery that neither loses nor invents, and
codecs that lose nothing. Each component is a value-level model (data types, one function per
operation, and the system of runs over those operations), the lemmas about it, and, where the source
changes objects in place, a class whose methods are proved to do exactly what the functions say.

| part | files |
|---|---|
| shared by all | `Basics` |
| synchronous reactive kernel | `Edges`, `ReactiveModel`, `ReactiveInvariant`, `ReactiveMarking`, `ReactiveReach`, `ReactiveRefresh`, `ReactiveRuns`, `ReactiveOps`, `ReactiveHistory`, `ReactiveDiamond`, `ReactiveCutoff`, `Reactive` |
| edge index, disposal and recycled ids | `EdgeIndex`, `ArenaModel`, `Arena` |
| asynchronous reactive kernel | `AsyncModel`, `AsyncProofs`, `AsyncSteps`, `AsyncRuns`, `AsyncHistory`, `AsyncProgress`, `AsyncCalls`, `Async` |
| keyed collections | `Lis`, `Collections`, `Reconcile`, `SourceMap` |
| fractional keys | `ByteOrder`, `FracKeys` |
| lossless tree | `TreeModel`, `TreeConvergence`, `TreeDelivery`, `TreeRender`, `TreeTies`, `TreeSystem`, `TreeSpacing`, `TreeLeaves`, `TreeTieRuns`, `TreeEdits`, `TreeSplits`, `TreeSessions`, `TreePlacing`, `Tree` |
| anti-entropy plane | `Clock`, `PlaneModel`, `PlaneProofs`, `PlaneSystem`, `PlaneTheorems`, `PlaneCells`, `Plane` |
| sequence replica | `SeqModel`, `SeqProofs`, `SeqEdits`, `SeqOrder`, `SeqTies`, `Seq` |
| ingress | `Folding`, `IngressModel`, `IngressProofs`, `IngressAnswers`, `Ingress` |
| canonical encoding | `Frames`, `Canonical` |
| MessagePack codec | `Msgpack`, `MsgpackFormat`, `MsgpackCodec` |
| gap recovery and reliable sending | `Resync`, `SyncModel`, `SyncPasses`, `SyncHost`, `SyncDriver` |
| relay and spill | `RelayModel`, `RelayAnswers`, `SpillModel`, `SpillPages`, `Relay` |
| work queue | `QueueModel`, `QueueAnswers`, `WorkQueue` |
| latest-value durable delivery | `LatestModel`, `LatestAnswers`, `LatestDurable` |

## How the theorems are stated

A run is a list of operations from the empty state. `Reach` gives the state after it, or `None` once
an operation was one the source does not admit (a read of a node that does not exist, a peer joining
twice); a theorem over every run is then one lemma over every list, with a `match` on `Reach`.

Ghost histories (`History`, `Trace`) are never read by the operations, and each invariant ties the
history to the state. What an operation reported to its caller is recorded from that report: deliveries
and acknowledgements of the work queue, claims and accepted revisions of the latest-value core, outcomes
and drained values of the relay, drained values of an ingress scope. Where the report does not say it, the
history is taken from elsewhere: an ingress arrival's from the branch the admission takes (`PlaceOk` proves
that what counts as taken is what was reported buffered or delivered), a reap's, which reports a number
only, from the leases that are overdue before it, and the sync driver's from the frames and acknowledgements
handed to it and the length of its queue after the pass (what it hands to the host is taken from what each
pass returns).

What a call answers is told from the calls and answers before it, not from the code's own state. The two
reactive kernels keep a book of the sources as last set and the computes as they were given; a read means
what the book's computes give on the book's sources (`ReactiveHistory`, `AsyncHistory`). The `*Answers` modules
do the same for the ingress core, the relay, the work queue and the latest-value core: a ledger of what was
accepted, handed out and settled decides every answer, in every run.

Computes of the reactive kernels are trees: return a value, or read a node and continue with what was
found there. A plan gives every node a kind, a rank that reads go down in, and the nodes it may come to
read, itself or through others, so dependencies are dynamic but acyclic. It also gives the comparison by
which a written or recomputed value is taken for the stored one. Values are an abstract type everywhere.

## Hypotheses, and where the code falls short of its promise

- **Read order.** The refresh of a slot tests the flags it took before its dependency loop
  (src/reactive.js:1308, 1331). A force bit raised on the same slot during that loop is not seen and is
  cleared. So a slot that reads the far side of a diamond before the near one keeps a stale value
  (`ReactiveDiamond.StaleRead`). The glitch-free theorem therefore asks that no slot's compute reads a slot
  after one that may come to read it (`ReactiveInvariant.NearFirst`, a property of the compute and the plan
  alone); effects and the asynchronous kernel need no such hypothesis. No plan that allows such reads can do
  without it: `ReactiveDiamond.StaleAnywhere` is, for every plan that lets a slot read a slot over a source and
  another slot over that one, a run that goes stale and breaks the hypothesis alone.
- **The cut-off.** A recomputed value that `defaultEqual` takes for the stored one is not stored, and readers
  are not told (src/reactive.js:51-95, 1389-1408); any two sets, maps or dates are such values. The theorems on
  the synchronous kernel ask that the comparison takes no value for another (`ReactiveInvariant.Exact`);
  `ReactiveCutoff.CutoffStale` is, for every comparison that does and still tells some two values apart, a run
  that goes stale. Computes that cannot tell equated values apart are covered by reading the type of values as
  the classes of equated ones. The asynchronous kernel compares written values only, and needs no such
  hypothesis.
- **Tied sort keys.** Siblings with equal sort keys are shown in the order in which they arrived
  (src/lossless-tree-crdt.js:195). `TreeTies.OneArrangementIffDistinct` proves that the deliveries of a
  closed set of operations list the children in one order exactly when no two live siblings have one key.
  Edits make such ties: `TreeTieRuns.CrowdedGapDiverges` is a run of edits and synchronisations after which
  two replicas hold the same operations and show "abcy" and "abyc". Two rules a caller can check beforehand
  exclude them (`TreeSpacing.Careful`): a node is created or placed between neighbours whose fractional keys
  differ, and an operation is sent on together with all that its maker held when it made it, unless the
  receiver has that already, as a `diff` does. Then the same operations mean the same text
  (`TreeSpacing.CarefulAgreement`). The second rule is needed too:
  `TreeTieRuns.PartialSendDiverges`. The node tables agree without either.
- **Splits that move text.** The tail of a split lands right behind its leaf exactly when the leaf is live
  and its live right neighbour has another fractional key (`TreeSplits.SplitLandsIff`). A deleted leaf's
  tail is a live node, so its text comes back (`TreeSessions.SplitRevives`); before a neighbour with the
  leaf's own key the tail goes past it (`TreeSessions.SplitPassesTie`).
- **Cells and logs.** Merging a cell adopts a newer stamp even when the value is equal, but a local
  update whose value is equal is not logged (src/distributed.js:250-253, 495-497); and registering a known
  node replaces its cell by an empty one (src/distributed.js:325-333). A step keeps every cell the newest
  logged operation on its node exactly when it is neither an update to the value already there nor a
  registration of a node that has one (`PlaneCells.StepKeepsCells`), and in runs that avoid both, equal logs
  mean equal cells. `PlaneCells.UnloggedUpdateDiverges` and `PlaneCells.ReRegistrationDiverges` are reachable
  runs that end with equal logs and different cells.
- **Epoch zero.** A replay lists the retained frames past an acknowledged epoch that starts at 0
  (src/index.js:1391-1396), so a frame at epoch 0 is never replayed: `SyncModel.ZeroIsNeverReplayed` is the
  run, and `SyncModel.ReplayedIffPositive` says that a pass whose sends succeed replays a retained frame no
  acknowledgement covers exactly when its epoch is positive.
- **Broken passes.** A read that fails throws away the list of what the pass has applied so far, after the
  receiver moved past it (src/index.js:1666-1671, 1680-1687). The host is handed everything that was applied
  exactly when no pass was broken off after reading something that applies (`SyncHost.HandedIffNoneLost`);
  then a host that folds what it is handed shows the producer's graph (`SyncHost.HostFollows`). Otherwise
  a delta can be acknowledged to the peer and never reach the host: `SyncHost.BrokenReadLoses`.
- **Byte order marks and fields named `__proto__`.** The decoder strips a byte order mark from the front of
  every string and key (src/msgpack-codec.js:32, 234-237), and its assignment of a field named `__proto__` sets
  a prototype or does nothing (src/msgpack-codec.js:245-253). `Msgpack.RoundTrip` holds exactly when no string
  and no written key, at any depth, starts with the mark and no written field has that name.
  `Msgpack.MarkIsLost` and `Msgpack.ProtoIsLost` give values that do not come back.
- **What a relay stores.** A relay keeps its window in a reactive cell, which does not store a value that
  `defaultEqual` takes for the stored one (src/reactive.js:834), and reads null as an empty window
  (src/relay.js:134-138, 183-190). A call leaves the head the fold of its window exactly when the value it is
  about to store is neither null nor taken for another one (`RelayModel.StepExplains`), and the relay theorems
  ask that of every call (`RelayModel.AllStored`). It holds for all calls on values that the cell tells apart
  and that do not merge to null (`RelayModel.PlainStored`). Otherwise the drain schedule matters:
  `RelayModel.DrainMattersIff` says exactly when, for any two operations; under `SetUnion` the sets {1} and {2}
  drained together come out as {1} (`RelayModel.UnionIsDropped`), and a null is lost (`RelayModel.NullIsLost`).
- **Refused deltas.** The receiver advances before the view refuses a delta with a queue operation
  (src/index.js:1317-1336 against src/graph-view.js:110-118). `Resync.InStepIffProjectable` says exactly when
  they stay together, and `Resync.RefusedDeltaDrifts` is an instance that does not.
- **Compaction into an acknowledged page.** `SpillModel.SpillReachesEgress` says exactly when a newly
  spilled window still reaches the downstream: when the open page is not acknowledged yet.
  `SpillModel.AckedOpenPageLoses` is the run in which it does not, and `SpillModel.ReplayConverges` covers
  every run that avoids it.
- **Tied positions.** Two elements of a sequence with one position are shown in the order in which they were
  first seen (src/seq-crdt.js:318-327). `SeqOrder.OneOrderIffDistinct` says that the order is one, whatever was
  seen first, exactly when no two live elements have one position; `SeqTies.TiedMovesDiverge` is a run after
  which two replicas hold equal registers and show two orders. Neighbours that a caller names with equal
  fractional keys leave no room, and the element then lands elsewhere (`SeqOrder.InsertLandsIff`).
- **Suspended scopes.** An envelope for a suspended ingress scope is admitted like any other and makes
  the scope live again; the model follows the code.

## Model

| member | source | states |
|---|---|---|
| ReactiveOps.GlitchFree | src/reactive.js:824-917 | After any legal run of creations, writes, batches and reads, under a comparison that takes no value for another, outside a batch every read returns the from-scratch value of its node for the current sources, and every effect last ran on current values |
| ReactiveOps.GlitchFreeRead | src/reactive.js:703-744 | Outside a batch, under a comparison that takes no value for another, a read gives a value, and it is the from-scratch evaluation over the current sources |
| ReactiveOps.EffectsCurrent | src/reactive.js:1552-1639 | Outside a batch, under a comparison that takes no value for another, what every effect last saw is what its run would see now from scratch |
| ReactiveHistory.ReadsMeanTheCalls | src/reactive.js:703-917 | After any legal run a source reads as the value last set, inside a batch or out; outside a batch a slot reads as its compute, as it was given, means for the sources as last set, and every effect last ran on that |
| ReactiveHistory.ReadAtAnyDepth | src/reactive.js:703-744 | At any depth a read of a source gives what is stored, and a read of a slot leaves it clean over clean reads and gives the replay of its compute over what is stored, unless it was not forced and reads a source written in the batch, when it gives the value it had |
| ReactiveHistory.CleanThroughBatch | src/reactive.js:824-917 | A slot that was clean when a batch began reads, all through the batch, as its compute meant for the sources as they were then, whatever is written, created or read meanwhile |
| ReactiveOps.StepOk | src/reactive.js:556-917 | Every operation keeps the kernel invariant and leaves no queued effect when it returns |
| ReactiveOps.FlushOk | src/reactive.js:1552-1576 | Draining the effect queue ends with an empty queue, a coherent graph and unchanged sources |
| ReactiveOps.BatchedOk | src/reactive.js:824-850 | Inside a batch the readers of the written cell are exempt until the batch ends, and nothing else is |
| ReactiveOps.EndBatchOk | src/reactive.js:888-917 | Marking the cones of everything written in the batch restores the full invariant at its end |
| ReactiveOps.WriteOk | src/reactive.js:824-850 | A write, inside a batch or out, keeps the full invariant, and leaves an effect queued only if it says a flush is owed |
| ReactiveOps.GetOk | src/reactive.js:721-744 | A read brings its slot up to date, keeps every source and leaves no effect queued |
| ReactiveOps.EvalSame | src/reactive.js:1303-1408 | From-scratch values depend on sources and computes only, so no refresh can change them |
| ReactiveRefresh.RefreshOk | src/reactive.js:1303-1341 | One refresh leaves its slot clean and coherent, touches nothing of higher rank but flags, reports a change whenever it replaced a stored value by another, and only if the comparison tells the two apart |
| ReactiveReach.RefreshTouches | src/reactive.js:1303-1341 | One refresh, with all the nested ones and the marks it spreads, replaces stored values only at its slot and at nodes that slot may come to read |
| ReactiveRefresh.SkipOk | src/reactive.js:1319-1335 | When no recorded dependency changed, the stored value still is what a replay of the compute gives, for computes that read no slot after one that may come to read it |
| ReactiveRefresh.RecomputeOk | src/reactive.js:1355-1408 | A recompute leaves its slot clean and everything coherent, stores what its compute gives on what it read, reports a change whenever it replaced a stored value by another, and only if the comparison tells the two apart |
| ReactiveRefresh.RunProgOk | src/reactive.js:782-797 | Running a compute records each node read once, in first-read order, fresh at the end, and its result is the replay over them |
| ReactiveRefresh.ReadOk | src/reactive.js:782-797 | One tracked read registers the edge at both ends before it brings the node up to date |
| ReactiveRefresh.PublishOk | src/reactive.js:1389-1408 | After a changed value is stored, marking its readers restores coherence |
| ReactiveMarking.MarksSpread | src/reactive.js:1476-1519 | The marking walk flags every root, and whatever it newly dirties has all its readers flagged |
| ReactiveMarking.MarkStaysInside | src/reactive.js:1476-1519 | Marks never leave a cone that is closed under readers |
| ReactiveMarking.MarkingRestores | src/reactive.js:1417-1434 | A graph coherent but for some roots is coherent once their cones are marked |
| ReactiveRuns.RunHeadOk | src/reactive.js:1578-1639 | Running or skipping the effect at the head keeps the invariant and strictly lowers the outstanding work |
| ReactiveRuns.ShouldRunOk | src/reactive.js:1622-1639 | A queued effect is skipped only if nothing it read changed, and then what it saw is still current; it runs only if it never ran or some value it read is another one now, if the comparison takes every value for itself |
| ReactiveDiamond.StaleRead | src/reactive.js:1303-1341 | At any four places of any plan that lets a slot read so, among any other nodes: a slot that reads a node after another that reads it keeps its value although its from-scratch value changed |
| ReactiveDiamond.OutOfOrder | src/reactive.js:1303-1341 | The compute of that slot breaks the read-order hypothesis and no other |
| ReactiveDiamond.StaleAnywhere | src/reactive.js:1303-1341 | Every plan that lets a slot read a slot over a source, and another slot over that one, has a legal run after which one more computed, lawful but for the order of its two reads, goes stale |
| ReactiveCutoff.CutoffStale | src/reactive.js:1389-1408 | Under any comparison that takes one value for another, a run whose computes keep the read order and a slot that still gives its first value although its from-scratch value changed |
| Reactive.Context.Source | src/reactive.js:556-575 | Creates a source; the new state is the model's |
| Reactive.Context.Computed | src/reactive.js:582-652 | Creates a lazy slot that has not run |
| Reactive.Context.Effect | src/reactive.js:674-693 | Creates an effect, which has run before the call returns |
| Reactive.Context.Get | src/reactive.js:703-744 | Returns what a source holds at any depth; of a slot, brought up to date, the replay of its compute over what is stored at the nodes it read, or, inside a batch, the value it had if it reads a source written in the batch; outside a batch the from-scratch value |
| Reactive.Context.Set | src/reactive.js:808-850 | Writes a source; an equal value changes nothing, and outside a batch every effect has caught up on return |
| Reactive.Context.BeginBatch | src/reactive.js:879-886 | Opens a batch level and changes nothing else |
| Reactive.Context.FinishBatch | src/reactive.js:888-917 | Closes a level; leaving the outermost one marks everything written and drains the queue |
| Reactive.Context.RefreshSlot | src/reactive.js:1303-1341 | The in-place refresh with its dependency loop ends in exactly the state and answer of the model's refresh |
| Reactive.Context.RecomputeSlotNow | src/reactive.js:1355-1408 | The in-place recompute ends in exactly the model's state |
| Reactive.Context.MarkFrontier | src/reactive.js:1476-1519 | The worklist loop marks exactly what the model's walk marks and returns the effects met in order |
| Reactive.Context.InvalidateDependentsNow | src/reactive.js:1417-1434 | Marks a node's cone and queues the effects met |
| Reactive.Context.FlushEffects | src/reactive.js:1552-1576 | The drain loop ends, with the model's state and an empty queue |
| Reactive.Context.RunNextEffect | src/reactive.js:1552-1576 | Takes the head off the queue and runs or skips it as the model does |
| Reactive.Context.RunEffect | src/reactive.js:1578-1620 | Runs or skips one effect as the model does |
| Reactive.Context.EffectShouldRun | src/reactive.js:1622-1639 | Decides as the model does, refreshing what the effect read until one changed |
| Reactive.Context.RegisterDependency | src/reactive.js:1244-1264 | Records an edge at both ends |
| Reactive.Context.ClearDependencies | src/reactive.js:1355-1377 | Detaches a node from everything it read |
| EdgeIndex.InsertIndexed | src/reactive.js:351-383 | A duplicate-free append that keeps the index the exact inverse of the array and promotes a list at the threshold |
| EdgeIndex.RemoveIndexed | src/reactive.js:385-412 | A swap-removal that keeps the index the exact inverse of the array |
| EdgeIndex.BuildIndex | src/reactive.js:351-383 | The promotion scan builds the inverse of a duplicate-free list |
| Edges.InsertIsUnion | src/reactive.js:351-383 | Inserting into an edge list is set union and keeps it duplicate-free |
| Edges.RemoveIsDifference | src/reactive.js:385-412 | The swap-removal takes out exactly one id and keeps the list duplicate-free |
| ArenaModel.RefinesSets | src/reactive.js:351-412 | Through any run of creations, reads, recomputes and disposals the edge lists hold exactly the plain set of edges, symmetric, each once at each end |
| ArenaModel.FreedLeavesNoTrace | src/reactive.js:1028-1103 | A freed id occurs in no list at either end |
| ArenaModel.CreateOk | src/reactive.js:529-542 | A node at a recycled id starts with no edge and no flag of an earlier occupant, and disturbs no other node |
| ArenaModel.RegisterOk | src/reactive.js:1244-1264 | A read adds exactly one edge to the edge set |
| ArenaModel.ClearOk | src/reactive.js:1355-1377 | A recompute starts by removing exactly the edges its node reads through |
| ArenaModel.DisposeOk | src/reactive.js:1028-1103 | A disposal removes exactly the edges at the node, keeps the rest and frees the id |
| ArenaModel.ReadersGoStale | src/reactive.js:1451-1474 | The slots that read a disposed node must recompute before they answer again |
| ArenaModel.HandlesStayStale | src/reactive.js:925-959 | Whatever happens after a disposal, no later node is taken for the disposed one, even at its id |
| Arena.Nodes.New | src/reactive.js:529-542 | Allocates at the last freed id or at a new one; nothing in any list names it |
| Arena.Nodes.RegisterDependency | src/reactive.js:1244-1264 | Records an edge at both ends and in both indices |
| Arena.Nodes.ClearDependencies | src/reactive.js:1355-1377 | Empties a node's reads and drops its dependency index |
| Arena.Nodes.Dispose | src/reactive.js:1028-1103 | Tears down what the handle was made for, its indices included; a stale handle does nothing |
| Arena.Nodes.RemoveDependentEdge | src/reactive.js:1266-1278 | Removes one end of an edge and keeps the index its inverse |
| Arena.Nodes.RemoveDependencyEdge | src/reactive.js:1284-1299 | Removes the other end of an edge and keeps the index its inverse |
| Arena.Nodes.MarkReaders | src/reactive.js:1451-1474 | Marks the cone of a disposed node's readers and schedules nothing |
| AsyncRuns.NoStaleValue | src/reactive-async.js:357-388 | In every interleaving of writes, batches, demands, run steps and completions, outside a batch a resolved slot holds the from-scratch value for the current cells |
| AsyncRuns.OneLiveRun | src/reactive-async.js:774-803 | Each slot has at most one run that is neither finished nor aborted, and it is the one the slot waits for |
| AsyncRuns.DeliveredValue | src/reactive-async.js:805-826 | What a live completion delivers to its waiters is the from-scratch value of its slot at that moment |
| AsyncHistory.ResolvedMeansTheCalls | src/reactive-async.js:230-388 | After any legal run a source holds the value last taken, inside a batch or out, and outside a batch a resolved slot holds what its compute, as it was given, means for those values |
| AsyncProgress.DemandsAreMet | src/reactive-async.js:357-388 | After any legal run that ends outside a batch, asking for a slot and then letting every live run tick at least once a round, in any order, for as many rounds as the computes on its way read, resolves it to its meaning and settles the asker's notifier with it, exactly when it has a meaning; otherwise it never resolves |
| AsyncProgress.RunEnds | src/reactive-async.js:747-803 | With as many fair rounds as its reads need, a live run whose reads have values publishes |
| AsyncCalls.TickResumes | src/reactive-async.js:747-803 | A tick of a live run goes on with a source's value, a resolved slot's, or what the notifier it waits for was settled with; publishes what the compute returns; or waits for the run of a slot that is not there, started if need be; it records what it reads and starts or resolves nothing else |
| AsyncCalls.AskingStartsOne | src/reactive-async.js:357-388 | Asking starts the run of an empty slot, and of no other, with its compute from the beginning |
| AsyncCalls.WritesStayInside | src/reactive-async.js:845-907 | A write, or the end of a batch, touches only what it writes and who reads that, itself or through others |
| AsyncCalls.BatchDefers | src/reactive-async.js:309-328 | Until the outermost batch ends, a write stores its value unless it equals the held one, and reaches no slot and no run |
| AsyncRuns.StepOk | src/reactive-async.js:309-388 | Every step of every caller and run keeps the invariant |
| AsyncRuns.ReachOk | src/reactive-async.js:230-388 | Every reachable state satisfies the invariant: edges agree at both ends, live runs own their slots, and every unsettled claim still stands |
| AsyncRuns.InvalidateOk | src/reactive-async.js:845-907 | Superseding from a cell empties each of its readers and, through the cascade, whoever reads an emptied slot; only the runs of emptied slots are aborted |
| AsyncRuns.EndBatchOk | src/reactive-async.js:676-690 | The end of a batch restores the invariant for everything written in it |
| AsyncProofs.InvalidateCuts | src/reactive-async.js:882-907 | The cascade only empties slots and aborts their own runs, and whoever reads an emptied slot is empty |
| AsyncProofs.CutRestores | src/reactive-async.js:845-907 | After the cascade every surviving claim still stands |
| Async.AsyncContext.Source | src/reactive-async.js:230-235 | Creates a source under the next id |
| Async.AsyncContext.ComputedAsync | src/reactive-async.js:242-247 | Creates an empty slot under the next id |
| Async.AsyncContext.Set | src/reactive-async.js:309-328 | Writes a source and supersedes its readers, at once or at the end of the batch; other handles are refused |
| Async.AsyncContext.GetAsync | src/reactive-async.js:357-388 | Gives a resolved value at once, outside a batch the from-scratch one, or starts or joins the run whose notifier will be settled |
| Async.AsyncContext.Resume | src/reactive-async.js:747-803 | Advances one run by one read, one await or its completion, as the model's step does; a live run goes on as told above, so one whose awaited slot has come takes its value |
| Async.AsyncContext.PublishResolved | src/reactive-async.js:805-826 | Publishes if the token is still current, and otherwise discards |
| Async.AsyncContext.SpawnCompute | src/reactive-async.js:774-803 | Starts a run under a new revision after dropping the old edges |
| Async.AsyncContext.InvalidateSlot | src/reactive-async.js:882-907 | The in-place cascade ends in exactly the model's state |
| Async.AsyncContext.InvalidateCellDependents | src/reactive-async.js:845-853 | Cascades to every reader of a cell |
| Async.AsyncContext.RegisterDependency | src/reactive-async.js:707-725 | Records an edge at both ends, once |
| Async.AsyncContext.ClearDependencies | src/reactive-async.js:774-803 | Detaches a slot from everything it read |
| Async.AsyncContext.BeginBatch | src/reactive-async.js:676-690 | Opens a batch level |
| Async.AsyncContext.FinishBatch | src/reactive-async.js:676-690 | Closes a level; leaving the outermost one supersedes the readers of every written cell |
| Lis.LongestIncreasingSubsequence | src/collections.js:57-86 | The positions returned increase, pick a strictly increasing subsequence, and no increasing subsequence is longer |
| Lis.PileFor | src/collections.js:65-75 | Binary search finds the leftmost pile that does not end below the value |
| Lis.TraceBack | src/collections.js:81-85 | Following the back links yields an increasing subsequence as long as the number of piles |
| Lis.DominatesNext | src/collections.js:64-80 | After each element every increasing subsequence so far is matched by a pile at least as long that ends no higher |
| Reconcile.ReconcileCollections | src/collections.js:233-280 | Applied one by one, the operations turn the prior order into the target; no operations that do so place fewer prior keys or are fewer; untouched keys with equal values are the ones not invalidated |
| Reconcile.FewestMoves | src/collections.js:233-280 | Any operations that reach the target place all but an increasing subsequence of the common keys and touch every key that leaves or comes |
| Reconcile.StableKeys | src/collections.js:239-246 | The keys left in place are those of a longest increasing subsequence of prior positions |
| Reconcile.EmitRemovals | src/collections.js:253-258 | Removes exactly the keys the target lacks, and places nothing |
| Reconcile.EmitPlacements | src/collections.js:259-273 | Walking the target settles its keys one after the other, moving only common keys that are not stable |
| Reconcile.MemberTrace | src/collections.js:166-192 | Whatever operations are applied, an order without duplicates stays one, an untouched key stays in or out, and a touched key that is there at the end was placed |
| SourceMap.SourceMap.Insert | src/collections.js:166-184 | Inserts a new key at the asked place under a new handle; a present key or a missing anchor changes nothing |
| SourceMap.SourceMap.Remove | src/collections.js:186-192 | Removes the key, its value and its handle; a missing key changes nothing |
| SourceMap.SourceMap.MoveTo | src/collections.js:194-202 | Puts the key at the clamped index and keeps the relative order of the rest |
| SourceMap.SourceMap.MoveBefore | src/collections.js:204-206 | Puts the key directly before the anchor, the rest in order |
| SourceMap.SourceMap.MoveAfter | src/collections.js:208-210 | Puts the key directly after the anchor, as the reconciliation's move asks for |
| SourceMap.SourceMap.ReorderBefore | src/collections.js:212-225 | Takes the key out and puts it back at the slot counted before or after its removal |
| FracKeys.KeyIsBetween | src/lossless-tree-crdt.js:54-75 | The chosen key never ends in zero, and lies strictly between the bounds exactly when they are in order and the upper one is not the lower padded with zeros |
| FracKeys.Dense | src/seq-crdt.js:167-190 | Between any two ordered keys of which the upper does not end in zero there is one more, again not ending in zero |
| FracKeys.NoRoom | src/lossless-tree-crdt.js:54-75 | Between equal bounds there is no key: the chosen one lies above both |
| FracKeys.TreeKeyBetween | src/lossless-tree-crdt.js:54-75 | The tree's in-place loop computes the one key function |
| FracKeys.SeqKeyBetween | src/seq-crdt.js:167-190 | The sequence's in-place loop, which treats an exhausted lower bound differently, computes the same key |
| TreeDelivery.EachAppliedOnce | src/lossless-tree-crdt.js:374-431 | Delivering a causally closed set in any order, batched and repeated in any way, applies each operation exactly once and leaves the buffer empty |
| TreeDelivery.DeliveryOrderDoesNotMatter | src/lossless-tree-crdt.js:374-479 | Any two such deliveries end with the same node table and the same frontier |
| TreeDelivery.UpdateOk | src/lossless-tree-crdt.js:374-431 | One update loses nothing it received and leaves nothing parked that is ready |
| TreeDelivery.ClosedIsApplied | src/lossless-tree-crdt.js:383-431 | A causally closed set, once received, is applied whole, whatever else is parked |
| TreeDelivery.SameOpsSameTable | src/lossless-tree-crdt.js:443-479 | Replicas that hold the same operations have the same table and frontier |
| TreeConvergence.ApplyDescribes | src/lossless-tree-crdt.js:443-479 | Applying a ready creation, deletion or reordering leaves the table that the enlarged set of operations determines |
| TreeConvergence.TableUnique | src/lossless-tree-crdt.js:443-479 | A set of operations determines one table |
| TreeConvergence.FrontierUnique | src/lossless-tree-crdt.js:78-125 | A frontier, as dense prefix and sparse rest, is determined by the dots it holds |
| TreeConvergence.ObserveOk | src/lossless-tree-crdt.js:86-90 | Observing a dot adds exactly that dot and keeps the one normal form |
| TreeRender.RenderConverges | src/lossless-tree-crdt.js:189-210 | With distinct live sibling keys any two deliveries of the same operations show the same text |
| TreeTies.TiedKeysDiverge | src/lossless-tree-crdt.js:189-197 | For any closed set of operations and any two live siblings with one key there are two deliveries of that set after which their parent lists them in two orders |
| TreeTies.OneArrangementIffDistinct | src/lossless-tree-crdt.js:189-197 | All deliveries of a closed set of operations list all children in one order exactly when no two live siblings have one key |
| TreeRender.ChildrenAreNewer | src/lossless-tree-crdt.js:200-210 | Every live child is newer than its parent, so rendering visits every live node and ends |
| TreeSystem.Agreement | src/lossless-tree-crdt.js:128-479 | In every system reachable by local edits and synchronisations, replicas that hold the same operations agree on table, frontier and, with distinct keys, text |
| TreeSystem.ReachOk | src/lossless-tree-crdt.js:128-479 | Every reachable system is sound: ids are unique, each replica's operations are causally closed, and its table is the one they determine |
| TreeSystem.SyncCompletes | src/lossless-tree-crdt.js:364-431 | One synchronisation brings the receiver everything the sender holds and nothing nobody sent |
| TreeSystem.BothWaysAgree | src/lossless-tree-crdt.js:364-431 | Synchronising both ways makes two replicas equal unless the first still parks operations |
| TreeSystem.MintOk | src/lossless-tree-crdt.js:273-296 | A local operation carries an id nobody has used and depends only on what its replica holds |
| TreeSpacing.CarefulAgreement | src/lossless-tree-crdt.js:252-296 | In every run whose edits fall between neighbours with different fractional keys and whose sends bring each operation with what its maker held, live siblings have distinct keys, and replicas with the same operations show the same text |
| TreeSpacing.KeyIsNew | src/lossless-tree-crdt.js:252-271 | A key chosen between neighbours with different fractional keys differs from the key of every live sibling |
| TreeSpacing.StepTidy | src/lossless-tree-crdt.js:273-381 | Every careful step keeps replicas causally complete and every reuse of a key among siblings after the older use was superseded |
| TreeSpacing.ContextTaken | src/lossless-tree-crdt.js:364-431 | A receiver of operations sent with what their makers held then holds exactly what it was sent beside what it held, and parks nothing |
| TreeSpacing.WholeInContext | src/lossless-tree-crdt.js:364-431 | A synchronisation, like any send that leaves out nothing the receiver lacks, brings each operation with what its maker held |
| TreeTieRuns.CrowdedGapDiverges | src/lossless-tree-crdt.js:252-296 | A run of edits and full synchronisations, two edits of it between neighbours with one key, after which two replicas hold the same operations and show different text |
| TreeTieRuns.PartialSendDiverges | src/lossless-tree-crdt.js:374-400 | A run whose edits all have room, but whose sends leave out a deletion, after which two replicas hold the same operations and show different text |
| TreeSessions.EditsAreLossless | src/lossless-tree-crdt.js:327-361 | After any session of local changes and received updates a merge never changes the text, and the tail of a split lands right behind its leaf exactly when the leaf is live and its right neighbour has another key, the text then staying as it was |
| TreeSplits.SplitLandsIff | src/lossless-tree-crdt.js:327-342 | The children after a split are the children before with the tail right behind the leaf exactly when the leaf is live and its live right neighbour has another key |
| TreePlacing.EditsLand | src/lossless-tree-crdt.js:252-296 | After any session of local changes and received updates: a created node takes the place right behind its anchor, first without one and last when the anchor is gone, exactly when the keys around that place leave room; a moved one the same, taken out first; a deletion takes exactly its node out; all else stays |
| TreePlacing.CreateLandsIff | src/lossless-tree-crdt.js:252-280 | The children after a creation are the children before with the new node in its place exactly when there is room, and no other list changes |
| TreePlacing.PlaceLandsIff | src/lossless-tree-crdt.js:289-296 | The children after a move are the others with the moved node in its place exactly when it fits; moving a deleted node changes no list |
| TreePlacing.DeleteTakesOut | src/lossless-tree-crdt.js:282-287 | A deletion takes one child out of its list, keeps all others in order and touches no other node |
| TreePlacing.CarefulLanding | src/lossless-tree-crdt.js:252-280 | In every careful run there is room exactly between neighbours whose fractional keys differ |
| TreePlacing.MergeDoes | src/lossless-tree-crdt.js:345-361 | A merge is taken exactly for adjacent leaves; the left one then has both texts and only the right one leaves its list |
| TreePlacing.SplitDoes | src/lossless-tree-crdt.js:327-342 | A split is taken exactly for a leaf and an offset within its text; leaf and tail then have the two parts |
| TreeSessions.SessionSteady | src/lossless-tree-crdt.js:374-544 | Whatever is edited locally and received, applied or parked, the table keeps the shape the text theorems rely on |
| TreeSessions.LocalSteady | src/lossless-tree-crdt.js:273-361 | Every local change keeps that shape, and what it logs is sound for whoever receives it |
| TreeSplits.SplitKeepsText | src/lossless-tree-crdt.js:327-342 | Splitting a live leaf with room behind it leaves the text as it was, and keeps what later edits rely on |
| TreeSplits.MergeKeepsText | src/lossless-tree-crdt.js:345-361 | Merging adjacent leaves always leaves the text as it was |
| TreeSessions.SplitRevives | src/lossless-tree-crdt.js:506-530 | Splitting a leaf that was deleted brings its tail back into the text |
| TreeSessions.SplitPassesTie | src/lossless-tree-crdt.js:327-342 | Splitting a leaf before a received neighbour with the leaf's own key turns "abc" into "acb" |
| TreeSplits.PerformShape | src/lossless-tree-crdt.js:273-361 | Every local structural edit keeps the shape the text theorems rely on |
| TreeEdits.RenderDivided | src/lossless-tree-crdt.js:200-210 | A table in which one leaf's text is divided between it and its next sibling renders the same |
| Tree.DotSet.Observe | src/lossless-tree-crdt.js:86-90 | Exactly one counter becomes observed and the prefix swallows what now adjoins it |
| Tree.LosslessTree.ApplyUpdate | src/lossless-tree-crdt.js:374-381 | Parks what is new and drains; everything received is applied or waits for something missing |
| Tree.LosslessTree.DrainBuffered | src/lossless-tree-crdt.js:383-400 | The drain loop ends in the model's state |
| Tree.LosslessTree.ApplyOp | src/lossless-tree-crdt.js:443-504 | Dispatches each operation to the model's effect on the table |
| Tree.LosslessTree.ApplySplit | src/lossless-tree-crdt.js:506-530 | Cuts the leaf and adds the tail as a new sibling |
| Tree.LosslessTree.ApplyMerge | src/lossless-tree-crdt.js:532-544 | Joins the text and entombs the right leaf |
| Tree.LosslessTree.Diff | src/lossless-tree-crdt.js:364-367 | Lists exactly the held operations that the other frontier lacks, in ascending id order |
| Tree.LosslessTree.CreateNode | src/lossless-tree-crdt.js:273-280 | Creates a child behind its anchor under a new id; an unknown parent changes nothing |
| Tree.LosslessTree.TombstoneNode | src/lossless-tree-crdt.js:283-287 | Deletes a known node by a logged operation |
| Tree.LosslessTree.ReorderChild | src/lossless-tree-crdt.js:290-296 | Moves a known child behind its anchor by a logged operation |
| Tree.LosslessTree.SplitLeaf | src/lossless-tree-crdt.js:327-342 | Splits as the model does; a refused split changes nothing |
| Tree.LosslessTree.MergeAdjacentLeaves | src/lossless-tree-crdt.js:345-361 | Merges as the model does; leaves that are not adjacent change nothing |
| Clock.SendAdvances | src/seq-crdt.js:42-50 | A sent stamp is newer than everything the clock passed, whatever the wall clock says |
| Clock.ReceiveAdvances | src/seq-crdt.js:53-66 | Receiving passes the remote stamp and keeps everything passed before |
| Clock.WallIsLatestSeen | src/seq-crdt.js:42-66 | In every run of sends and receipts the wall part is the latest wall time seen, its own or received |
| Clock.CountsOn | src/seq-crdt.js:42-66 | The count starts anew exactly when the wall part moves past all counts seen, and otherwise is the next one |
| Clock.Hlc.Send | src/seq-crdt.js:42-50 | The object's send moves the clock and stamps as the model does |
| Clock.Hlc.Recv | src/seq-crdt.js:53-66 | The object's receive moves the clock as the model does |
| PlaneTheorems.FrontierIsExact | src/distributed.js:355-365 | In every run of local updates, announcements, requests, replies and repeated deliveries a replica holds an operation exactly when its frontier reaches it |
| PlaneTheorems.MissingExactly | src/distributed.js:563-594 | A reply ships exactly what the replier holds and the requester lacks |
| PlaneTheorems.RoundTrip | src/distributed.js:557-594 | Ingesting the reply to one's own frame brings in exactly the missing operations, counts each once, and counts none a second time |
| PlaneTheorems.MintedBeyond | src/distributed.js:481-502 | A minted stamp is beyond everything seen from its peer anywhere |
| PlaneTheorems.StepOk | src/distributed.js:481-594 | Every step of the system keeps the invariant, packets in transit included |
| PlaneTheorems.ReachOk | src/distributed.js:481-594 | Every reachable system is sound: logs are unions of minted operations, frontiers cover what they claim, and packets promise only what they carry |
| PlaneProofs.IngestTwice | src/distributed.js:504-532 | For any replica and frame, ingesting the frame again applies nothing and moves no cell |
| PlaneProofs.IngestOk | src/distributed.js:504-532 | A frame that brings what its frontier promises is taken whole, and the count is what was new |
| PlaneCells.EqualLogsEqualCells | src/distributed.js:235-261 | In every run without an update to the value already there and without a registration of a node that has a value, replicas with equal logs hold equal cells |
| PlaneCells.StepKeepsCells | src/distributed.js:325-333 | A step of a reachable system leaves every cell the newest logged operation on its node exactly when it is neither an update of a cell to its own value nor a registration of a node that has a value |
| PlaneCells.UpdateReturnsIffChanged | src/distributed.js:481-502 | In every run a local update returns an operation exactly when the node is known and the value changes |
| PlaneCells.UpdateWrites | src/distributed.js:481-502 | In every run a local update of a known node leaves its cell, and no other, with the new state under a stamp of this peer beyond the one it held; what it logs and returns is the operation in the cell |
| PlaneCells.UnloggedUpdateDiverges | src/distributed.js:245-256 | A reachable run: writing the value a cell already has leaves two replicas with equal logs and different values |
| PlaneCells.ReRegistrationDiverges | src/distributed.js:325-333 | A reachable run: registering a node that has a value leaves two replicas with equal logs, one cell empty and one not |
| Plane.CrdtPlane.LocalUpdate | src/distributed.js:481-502 | Returns and logs an operation, or None, as the model does |
| Plane.CrdtPlane.Ingest | src/distributed.js:504-532 | Folds the frame in and returns how many operations were new |
| Plane.CrdtPlane.MergeInto | src/distributed.js:245-256 | Keeps the newer state, and tells whether the value changed |
| Plane.CrdtPlane.Observe | src/distributed.js:355-365 | Raises a peer's frontier entry, never lowers it |
| Plane.CrdtPlane.FrontierEntries | src/distributed.js:535-539 | Lists the frontier ascending by peer |
| Plane.CrdtPlane.SyncFrame | src/distributed.js:557-559 | Ships the whole log under the frontier |
| Plane.CrdtPlane.SyncReply | src/distributed.js:574-594 | Ships what lies beyond the requester's frontier |
| Plane.CrdtPlane.Register | src/distributed.js:325-333 | Makes a node known without a value |
| SeqProofs.NoLocalWriteIsDropped | src/seq-crdt.js:259-306 | In every run no local write, move or removal of a present element is dropped, whatever the wall clock says |
| SeqProofs.StampsNameValues | src/seq-crdt.js:70-93 | In every run equal stamps on a register mean equal values, at any two replicas |
| SeqProofs.JoinCommutes | src/seq-crdt.js:387-404 | Merging is commutative on states whose equal stamps carry equal values |
| SeqProofs.JoinAssociates | src/seq-crdt.js:387-404 | Merging is associative |
| SeqProofs.JoinIdempotent | src/seq-crdt.js:387-404 | Merging a state with itself changes nothing |
| SeqProofs.MutualMergeAgrees | src/seq-crdt.js:387-404 | In every run two replicas that merge each other end with the same registers |
| SeqEdits.InsertInEveryRun | src/seq-crdt.js:228-245 | In every run an insert under an unknown id leaves the element present with its value under a stamp newer than all held, its key strictly between its neighbours' exactly when these are in order, and every other element as it was; a known id is left alone |
| SeqEdits.WritesInEveryRun | src/seq-crdt.js:259-306 | In every run a write, a move and a removal take exactly on known elements, write what they should under a stamp newer than all held, and touch one register of one element |
| SeqEdits.MergeKeepsNewest | src/seq-crdt.js:387-404 | A merge holds what either side held, of each register the newest, and the clock has passed it all |
| SeqOrder.MergedOrdersAgree | src/seq-crdt.js:318-404 | In every run two replicas that merge each other show the same elements in the same order, if no two live ones have one position |
| SeqOrder.OneOrderIffDistinct | src/seq-crdt.js:318-327 | The elements are shown in one order, whatever order they were first seen in, exactly when no two live ones have one position |
| SeqTies.TiedMovesDiverge | src/seq-crdt.js:267-327 | A run of two replicas that merge each other, after which a move of both elements to one place leaves equal registers and two orders |
| SeqOrder.InsertLandsIff | src/seq-crdt.js:228-327 | In every run a new element is shown directly behind its left neighbour and before its right one, all others as they were, exactly when the keys of the two are in order or one is absent |
| SeqOrder.MoveLandsIff | src/seq-crdt.js:267-327 | In every run the same of an element that is moved, the others standing as they do without it |
| SeqOrder.EndsLand | src/seq-crdt.js:247-257 | In every run an insert at the back is shown last and one at the front first, whatever the keys |
| SeqOrder.BesideLandsIff | src/seq-crdt.js:280-298 | In every run a move behind or before a shown element puts the moved one directly there exactly when the keys it comes between are in order or one is absent; beside an element not shown nothing moves |
| SeqOrder.OthersStay | src/seq-crdt.js:300-378 | In every run a removal takes its element out of the order and no other, and writes and forks leave the order alone |
| SeqProofs.StepOk | src/seq-crdt.js:228-404 | Inserts, writes, moves, removals, forks to fresh peers and merges keep the system's invariant |
| SeqProofs.ReachOk | src/seq-crdt.js:228-404 | In every reachable system equal stamps name equal values, every clock has passed its replica's entries, and no stamp is ahead of its peer's clock |
| Seq.SeqCrdt.InsertBetween | src/seq-crdt.js:228-245 | Inserts a fresh id between its neighbours, present and with its value; a known id is left alone |
| Seq.SeqCrdt.SetValue | src/seq-crdt.js:259-265 | Rewrites a known element; false only for an unknown one |
| Seq.SeqCrdt.MoveBetween | src/seq-crdt.js:267-278 | Moves a known element between its neighbours |
| Seq.SeqCrdt.Remove | src/seq-crdt.js:300-306 | Marks a known element deleted |
| Seq.SeqCrdt.Order | src/seq-crdt.js:318-327 | The live elements in the model's order |
| Seq.SeqCrdt.InsertBack | src/seq-crdt.js:247-251 | Inserts behind the last element shown |
| Seq.SeqCrdt.InsertFront | src/seq-crdt.js:253-257 | Inserts before the first element shown |
| Seq.SeqCrdt.MoveAfter | src/seq-crdt.js:280-288 | Moves an element behind one that is shown; false, and nothing changes, beside any other |
| Seq.SeqCrdt.MoveBefore | src/seq-crdt.js:290-298 | Moves an element before one that is shown; false, and nothing changes, beside any other |
| Seq.SeqCrdt.Merge | src/seq-crdt.js:387-404 | Hears every stamp of the other state, takes the newer of each register, and tells whether anything changed |
| Seq.SeqCrdt.ForkOf | src/seq-crdt.js:370-378 | A copy under another peer, from the same place on the clock |
| IngressProofs.EveryRun | src/ingress-core.js:752-981 | In every run the watermark counts the payloads delivered in sequence order, each once; exactly the accepted sequences past the first gap are pending; the window is the left fold of what was delivered since the last drain |
| IngressAnswers.AnswersInEveryRun | src/ingress-core.js:859-981 | In every run an envelope past the fences is answered by what its generation has delivered, taken and not yet drained: duplicates and overfull windows of waiting sequences are refused, a gap names the least sequence not delivered, the next sequence is blocked or refused by the policy exactly when the window is full, and otherwise delivered through the new watermark, conflated exactly when two payloads met; what is not admitted changes nothing but the generation |
| IngressAnswers.FenceAnswers | src/ingress-core.js:859-900 | A closed scope, an older generation and an envelope past its horizon are refused each for its own reason, in that order, and change nothing |
| IngressAnswers.RetryAfterDrain | src/ingress-core.js:752-853 | What was blocked is delivered when it is sent again after a drain |
| IngressAnswers.StatusInEveryRun | src/ingress-core.js:563-720 | In every run a scope is closed exactly when the last close came after every opening, and its errors are the streak of failures since the last delivery, reconnect, close or reopening |
| IngressProofs.ArrivalOrderDoesNotMatter | src/ingress-core.js:859-981 | Any two runs of one generation in which the same sequences arrive, in any order, with any repetition and under any drain schedules, end with the same watermark and pending sequences; undrained they show the same window, and with an associative merge the returned values and the window fold to the same total |
| IngressProofs.RoomyTakesAll | src/ingress-core.js:859-981 | In a run of one generation, drains, suspensions and source errors included, with no expiry, room in the buffer and nothing shed at the high water, what was taken is what arrived and nothing is lost |
| IngressProofs.DrainsFoldToTotal | src/ingress-core.js:729-739 | With an associative merge the values the drains returned and the window fold to the fold of everything delivered |
| IngressProofs.UndrainedWindow | src/ingress-core.js:968-981 | Without a drain the window is the left fold of everything delivered |
| IngressProofs.SameTakenSameScope | src/ingress-core.js:859-981 | Two scopes of a generation that took the same sequences delivered the same and wait for the same |
| IngressProofs.FlushOk | src/ingress-core.js:951-959 | The flush delivers the buffered successors in order up to the next gap |
| Ingress.IngressCore.Admit | src/ingress-core.js:752-853 | Admits, buffers, sheds or rejects as the model does, tells the producer so, and records exactly that in a receipt; a refused envelope leaves its scope as it was |
| Ingress.IngressCore.DecideOn | src/ingress-core.js:859-962 | Takes the model's branch for every generation, sequence, age and depth |
| Ingress.IngressCore.DeliverOn | src/ingress-core.js:941-981 | Merges the envelope and then every buffered successor it unblocks |
| Ingress.IngressCore.Open | src/ingress-core.js:563-593 | Opens a scope, opens a closed one afresh, or moves an open one to a newer generation |
| Ingress.IngressCore.Suspend | src/ingress-core.js:600-609 | Suspends an open scope and names the replay a reconnect needs |
| Ingress.IngressCore.Reconnect | src/ingress-core.js:623-654 | Resumes the scope, handing over to a newer generation, and names the replay it is owed |
| Ingress.IngressCore.Close | src/ingress-core.js:657-676 | Closes a scope for good |
| Ingress.IngressCore.Tick | src/ingress-core.js:683-693 | The observed time becomes the given time, whichever way it moves |
| Ingress.IngressCore.Fail | src/ingress-core.js:699-720 | Counts a source error against its scope |
| Ingress.IngressCore.Drain | src/ingress-core.js:729-739 | Hands the window over and empties it; the watermark stays |
| Ingress.IngressCore.Make | src/ingress-core.js:477-492 | Refuses a policy under which conflation bounds nothing or no receipt could be kept |
| Canonical.CanonicalIffSame | src/replay.js:239-322 | Two encodable values have equal bytes exactly when they agree, with sequences in order and maps and sets as multisets of members |
| Canonical.TagsApart | src/replay.js:239-311 | A tag tells the class of a value, and a scalar's body the scalar |
| Canonical.Layout | src/replay.js:201-311 | Encoded bytes are the letter of the class, the length of the body in decimal, a colon and the body: the text of an integer, the bytes of a scalar, the encodings of items in order, and those of members and entries, key before value, in ascending byte order |
| Frames.FrameIsDelimited | src/replay.js:201-203 | A frame can be told apart from whatever follows it |
| Frames.ConcatInjective | src/replay.js:181-191 | A concatenation of frames, or of pairs of frames, parses in one way |
| Frames.SortedConcat | src/replay.js:284-306 | Sorting and joining frames loses exactly their order |
| Frames.DecimalInjective | src/replay.js:201-203 | The decimal length determines the number |
| Frames.DecimalReads | src/replay.js:201-203 | Decimal text denotes its number, with no zero in front |
| Frames.CompareBytes | src/replay.js:206-213 | The comparison loop gives the sign of byte order |
| Frames.ConcatBytes | src/replay.js:181-191 | The buffer filled part by part is the concatenation |
| Msgpack.RoundTrip | src/msgpack-codec.js:152-319 | Unpacking a packed value followed by anything gives the value, undefined entries normalised, and exactly what followed, across every width boundary, exactly when no string and no written key at any depth starts with a byte order mark and no written field is named `__proto__` |
| Msgpack.FrameRoundTrip | src/msgpack-codec.js:329-348 | Decoding a frame gives the value back under exactly the same condition, and a frame with anything after it is refused |
| Msgpack.ComesBack | src/msgpack-codec.js:152-319 | Whatever its strings and field names, a packed value followed by anything reads back as the value with leading byte order marks stripped, entries under one stripped key merged, and each `__proto__` entry turned into a prototype or dropped, and exactly what followed is left |
| MsgpackFormat.PackSays | src/msgpack-codec.js:44-190 | Whatever packs, packs to an encoding of itself in the layouts of the MessagePack specification: first bytes, widths, signs, counts, and items and pairs in order |
| MsgpackFormat.ShortestInt | src/msgpack-codec.js:72-110 | No encoding of an integer is shorter than the packed one |
| MsgpackFormat.ShortestHeads | src/msgpack-codec.js:112-145 | No header of a string, an array or a map is shorter than the packed one |
| MsgpackFormat.EveryFormReads | src/msgpack-codec.js:194-319 | Every encoding of a packable value, in whatever form the specification allows, reads back like the packed one and leaves what follows |
| MsgpackFormat.Refuses | src/msgpack-codec.js:260-319 | Byte payloads in their own form, extensions, floats and the unused first byte are refused |
| Msgpack.ProtoIsLost | src/msgpack-codec.js:245-253 | Values with a field named `__proto__` that pack and do not come back |
| Msgpack.MarkIsLost | src/msgpack-codec.js:234-253 | Values that pack and do not come back: a string and a key that start with a byte order mark, two fields that become one, and a marked `__proto__` that sets a prototype |
| Msgpack.IntRoundTrip | src/msgpack-codec.js:72-110 | Every safe integer reads back from its shortest form |
| Msgpack.Halves | src/msgpack-codec.js:98-110 | The two 32-bit halves of a negative integer are its 64-bit two's complement |
| Msgpack.StrRoundTrip | src/msgpack-codec.js:112-123 | Every string reads back from its shortest header, less a leading byte order mark |
| Msgpack.FieldsComeBack | src/msgpack-codec.js:137-190 | The entries of a map are read back in order, each key stripped of a leading byte order mark and assigned as the decoder assigns it |
| MsgpackCodec.Packer.PackValue | src/msgpack-codec.js:152-190 | Appends exactly the model's bytes, or refuses exactly what the model refuses |
| MsgpackCodec.Packer.Integer | src/msgpack-codec.js:72-110 | Appends the shortest form of a safe integer and refuses any other |
| MsgpackCodec.Packer.BigEndian | src/msgpack-codec.js:57-62 | The shifting loop appends the big-endian bytes |
| MsgpackCodec.Packer.Text | src/msgpack-codec.js:112-123 | Appends header and bytes of a string |
| MsgpackCodec.Packer.NegativeHalves | src/msgpack-codec.js:98-110 | Appends the two's complement in two halves |
| MsgpackCodec.Unpacker.UnpackValue | src/msgpack-codec.js:260-319 | Reads what the model reads, byte order marks stripped, and stops where the model stops, or fails where it fails |
| MsgpackCodec.Unpacker.BigEndian | src/msgpack-codec.js:211-219 | Reads an unsigned number, or fails on a truncated frame |
| MsgpackCodec.Unpacker.Signed | src/msgpack-codec.js:221-232 | Reads a two's complement number |
| MsgpackCodec.Unpacker.UnpackMap | src/msgpack-codec.js:245-253 | Reads a map, keys stripped of a leading byte order mark, later entries replacing earlier ones and `__proto__` setting the prototype or nothing |
| Resync.ResyncSafety | src/index.js:1309-1351 | For any subset, order and repetition of truthful snapshots and multi-epoch deltas the view is the producer's graph at the receiver's epoch, and at most one request is outstanding |
| Resync.DeltaSpans | src/graph-view.js:110-136 | Folding a delta over several epochs is folding the epochs one by one |
| Resync.AnswersInEveryRun | src/index.js:1317-1342 | After any truthful frames the next one is applied exactly when it follows, a snapshot is asked for from the epoch last applied exactly when it is ahead and no request is out, and anything else is ignored |
| Resync.CatchesUp | src/index.js:1317-1335 | A receiver that is given every epoch's delta in order gets there, whatever other deltas come in between |
| Resync.InitializedIffApplied | src/graph-view.js:80-136 | The view says it was initialised exactly when a frame was applied |
| Resync.InStepIffProjectable | src/graph-view.js:110-136 | After an applicable delta receiver and view are in step exactly when the view can project every operation of it |
| Resync.RefusedDeltaDrifts | src/graph-view.js:41-64 | A delta with a queue operation moves the receiver and not the view |
| Resync.ResyncCoordinator.IngestDelta | src/index.js:1317-1335 | Decides as the model does: apply, ignore, or request a snapshot once |
| Resync.ResyncCoordinator.IngestSnapshot | src/index.js:1338-1342 | A snapshot is always applied and ends a resync |
| Resync.GraphView.ApplySnapshot | src/graph-view.js:89-104 | The view becomes what the snapshot says |
| Resync.GraphView.ApplyDelta | src/graph-view.js:110-136 | Refuses before changing anything, or applies every operation in order |
| SyncModel.NothingIsLost | src/index.js:1590-1719 | At every moment of every run each enqueued frame is pending, retained in the store, or covered by an acknowledgement that was received |
| SyncModel.ReconnectReplays | src/index.js:1596-1719 | In every run, a pass after a reconnect, broken off by a failing read or not, first sends, in ascending order, the retained frames of positive epoch that no received acknowledgement covers, up to the first failing send, and asks for another replay exactly when one failed; every other frame it sends was in the queue |
| SyncPasses.PassSends | src/index.js:1630-1719 | Everything a pass sends, for any pattern of failing sends: the owed frames up to the first failure, then, if the sink is up, the queue in the same way, then each answer to what came in, a snapshot for a request and a request for a gap, and last the receiver's cursor; and what it leaves queued, owed and stalled |
| SyncPasses.CleanPass | src/index.js:1630-1719 | A pass over a sink that takes everything sends all of it, in that order, and leaves nothing queued, owed or stalled |
| SyncPasses.AckForgets | src/index.js:1372-1389 | In every run an acknowledgement past all received before drops from the store exactly what it covers, and another drops nothing |
| SyncModel.ReplayedIffPositive | src/index.js:1391-1396 | In every run, a pass after a reconnect whose sends succeed replays a retained frame that no received acknowledgement covers exactly when its epoch is positive |
| SyncModel.ZeroIsNeverReplayed | src/index.js:1391-1427 | A run in which a frame at epoch 0 whose send failed stays retained, unacknowledged and unsent after a reconnect and a pass whose sends succeed |
| SyncModel.ScanIs | src/index.js:1422-1427 | A scan lists exactly the entries past the cursor, ascending |
| SyncModel.StepOk | src/index.js:1590-1719 | Enqueues in increasing epochs, passes, failing reads, sink failures, acknowledgements and reconnects keep the driver's invariant |
| SyncModel.ReachOk | src/index.js:1590-1719 | Every reachable driver and history satisfy that invariant |
| SyncHost.HandedIffNoneLost | src/index.js:1660-1719 | In every run the host is handed exactly what the passes applied if and only if no pass was broken off after it had read something that applies |
| SyncHost.HostFollows | src/index.js:1630-1719 | Fed truthful frames in any order and repetition, in every run without such a pass, a host that folds what the passes return shows the producer's graph at the epoch the driver acknowledges |
| SyncHost.BrokenReadLoses | src/index.js:1666-1719 | A run in which a delta read before a failing read is acknowledged to the peer and never handed to the host |
| SyncDriver.InMemoryStore.Put | src/index.js:1412-1414 | Stores one frame under its epoch |
| SyncDriver.InMemoryStore.DeleteThrough | src/index.js:1416-1420 | Deletes exactly the entries up to the epoch |
| SyncDriver.InMemoryStore.ScanAfter | src/index.js:1422-1427 | Lists the entries past the cursor, oldest first |
| SyncDriver.Outbox.Append | src/index.js:1368-1370 | Retains a frame |
| SyncDriver.Outbox.AckThrough | src/index.js:1372-1389 | Moves the cursor forward only, and drops what it covers |
| SyncDriver.Outbox.ReplayFrom | src/index.js:1391-1396 | Lists the retained frames past the greater of cursor and acknowledgement |
| SyncDriver.SyncDriver.Enqueue | src/index.js:1590-1592 | Queues a frame |
| SyncDriver.SyncDriver.Reconnected | src/index.js:1596-1600 | Asks for a replay at the next pass |
| SyncDriver.SyncDriver.Tick | src/index.js:1630-1719 | One pass: replays what is owed, drains the queue, handles what came in, and advertises the cursor, returning what the host has to fold; a failing read ends it before the last step and returns the error instead |
| RelayModel.ScheduleDoesNotMatter | src/relay.js:134-190 | Two schedules of operations and drains that accept the same operations, evict none, and store neither null nor a value the cell takes for another, fold to the same total |
| RelayModel.EgressIsFlatFold | src/relay.js:134-190 | The drained windows and the head fold to the fold of every accepted operation, in every run whose calls store neither null nor a value the cell takes for another |
| RelayModel.LosslessKeeps | src/relay.js:134-190 | Conflate, Spill and Block never evict, and without Block every offered operation is accepted; if each call stores what it should, the drained values and the head are the folds of consecutive windows that make up the accepted operations |
| RelayModel.StepExplains | src/relay.js:134-190 | A call leaves the head the fold of its window exactly when it is refused, a drain, or about to store a value that is neither null nor taken by the cell for another |
| RelayModel.PlainStored | src/relay.js:134-190 | On operations that the cell tells apart and that do not merge to null every call of every run stores what it should |
| RelayModel.DrainMattersIff | src/relay.js:134-190 | Two operations give one total with and without a drain in between exactly when their merge is neither null nor taken by the cell for the first of them |
| RelayModel.UnionIsDropped | src/merge.js:53-62 | Under set union, two accepted sets drained together come out as the first alone, and drained one by one fold to their union |
| RelayModel.NullIsLost | src/relay.js:134-190 | A number and then null, drained together, come out as nothing, and the window is never drained |
| RelayModel.FramesPreserveOrder | src/relay.js:340-355 | Frames of any size hand over the same stream in order |
| RelayModel.LinkConverges | src/relay.js:134-190 | What a second relay folds from the first one's egress is the fold of the operations the first accepted, if the calls on both store neither null nor a value the cell takes for another |
| RelayAnswers.OutcomeInEveryRun | src/relay.js:134-176 | In every run an operation that meets a full window is blocked under Block, dropped under DropNewest, and takes the window's place under DropOldest; otherwise it is accepted into an empty window and conflated into another |
| RelayAnswers.DrainInEveryRun | src/relay.js:183-190 | In every run whose calls stored what they should, a drain hands over the fold of everything since the last one, if there was anything, and leaves the window empty |
| RelayAnswers.WindowIsBounded | src/relay.js:134-176 | Under Block and the dropping policies no window holds more operations than the high-water mark, or one |
| RelayAnswers.FrameSizes | src/relay.js:348-355 | A poll hands over a full frame, or all that is buffered |
| SpillModel.PagesAreFlatFold | src/relay.js:232-285 | Before any reclaim the pages fold to the flat fold of every spilled window, in both page layouts |
| SpillModel.ReconstructIsFlatFold | src/relay.js:291-294 | Reconstruction is the flat fold of every operation, spilled or hot |
| SpillModel.ReplayConverges | src/relay.js:232-307 | In every run of spills, deliveries cut short anywhere, acknowledgements of delivered pages, reclaims and no window into an acknowledged page, delivering every page from the ack cursor on brings the downstream to the flat fold of every spilled window, if merging twice is merging once |
| SpillModel.AckedOpenPageLoses | src/relay.js:232-272 | A run that reaches an acknowledged open page, and the window spilled next, which reaches no downstream |
| SpillModel.SpillReachesEgress | src/relay.js:232-272 | A spilled window reaches the pages still to be delivered exactly when the open page is not acknowledged yet |
| SpillModel.TwiceIsOnce | src/relay.js:302-307 | Delivering a stretch of pages twice is delivering it once, if merging twice is merging once |
| SpillPages.PagesAre | src/relay.js:232-258 | After any spills and acknowledgements page i holds the fold of the i-th stretch of windows and the sum of their sizes: single windows in the appending layout, stretches of the page size in the compacting one |
| SpillPages.AckCovers | src/relay.js:268-272 | An acknowledgement covers, beside what was acknowledged, exactly the pages up to its id |
| SpillPages.ReclaimDrops | src/relay.js:275-280 | A reclaim drops exactly the acknowledged pages, and a replay after it gives what it gave before |
| Relay.RelayCell.Ingress | src/relay.js:134-176 | Merges, evicts or blocks as the model does, the head written through the cell's equality guard |
| Relay.RelayCell.Drain | src/relay.js:183-190 | Hands the window over and empties it, or returns nothing if the head is null |
| Relay.FramedTransport.Poll | src/relay.js:348-355 | Hands over a frame of at most the frame size, in order |
| Relay.FramedTransport.Deliver | src/relay.js:345-347 | Buffers an operation at the end |
| Relay.SpillStore.Spill | src/relay.js:232-251 | Appends a page, or merges into the open one while it has room |
| Relay.SpillStore.AckThrough | src/relay.js:268-272 | Moves the acknowledged count forward only, within the pages |
| Relay.SpillStore.Reclaim | src/relay.js:275-280 | Drops exactly the acknowledged pages |
| Relay.SpillStore.Reconstruct | src/relay.js:291-294 | Folds every live page and then the hot head |
| Relay.SpillStore.ReplayUnacked | src/relay.js:302-307 | Folds exactly the pages that are not acknowledged |
| QueueModel.Conservation | src/queue-core.js:586-658 | In every run each pushed item is, once, in exactly one of pending, leased, dead letters and acknowledged |
| QueueModel.OneLiveDelivery | src/queue-core.js:596-618 | In every run two live deliveries never carry the same item |
| QueueModel.DeliveriesBounded | src/queue-core.js:568-583 | In every run no item is delivered more often than allowed, and every dead letter carries its item's value and exactly the maximum number of attempts |
| QueueModel.FirstDeliveriesInPushOrder | src/queue-core.js:586-618 | In every run the k-th item ever delivered is the k-th item pushed |
| QueueModel.SpentForGood | src/queue-core.js:621-641 | A delivery that was settled or expired can never be acknowledged or failed again, whatever happens in between |
| QueueModel.ReapExact | src/queue-core.js:644-658 | Reaping ends exactly the leases past their deadline, in delivery order, and retries or buries each by its attempts |
| QueueModel.FailOk | src/queue-core.js:568-583 | Failing a live delivery keeps the invariant, with its item waiting again below the limit and buried at it |
| QueueModel.FreshHead | src/queue-core.js:596-618 | A head that was never delivered is the first item never delivered |
| QueueModel.EveryRun | src/queue-core.js:586-658 | Every run keeps the invariant behind these statements |
| QueueAnswers.PushAnswers | src/queue-core.js:586-593 | In every run a push is refused only once the ids are used up, and answers how many were pushed before |
| QueueAnswers.ClaimAnswers | src/queue-core.js:596-618 | In every run a claim is answered exactly when an item waits and delivery ids are left, with the item that has waited longest, its value and one more delivery of it, for the worker who asked, on a lease that runs out when the timeout has passed |
| QueueAnswers.SettlingAnswers | src/queue-core.js:621-641 | In every run exactly the worker a delivery was handed to can settle it, and only while it runs |
| QueueAnswers.SettlingDoes | src/queue-core.js:568-641 | An acknowledged delivery leaves for good; a failed one sends its item to the end of the line, or at the limit becomes one dead letter with its value, its deliveries and the reason |
| QueueAnswers.SweepEnds | src/queue-core.js:644-658 | In every run a sweep ends exactly the deliveries whose leases ran out since they were handed out, in that order |
| WorkQueue.WorkQueueCore.constructor | src/queue-core.js:524-542 | An empty queue with the given limits |
| WorkQueue.WorkQueueCore.Push | src/queue-core.js:586-593 | Appends an item under the next id, or refuses once ids are exhausted |
| WorkQueue.WorkQueueCore.Claim | src/queue-core.js:596-618 | Leases the oldest pending item under the next delivery id, its deadline capped at the largest safe integer |
| WorkQueue.WorkQueueCore.Ack | src/queue-core.js:621-629 | Settles only the exact live delivery of the worker |
| WorkQueue.WorkQueueCore.Nack | src/queue-core.js:632-641 | Fails only the exact live delivery of the worker |
| WorkQueue.WorkQueueCore.ReapExpired | src/queue-core.js:644-658 | The loop over the expired leases ends in the model's state and returns how many there were |
| LatestModel.NewestIntentSurvives | src/latest-durable-projection-core.js:111-263 | In every run desired epoch, in-flight epoch and durable epoch are in strictly descending order, the flight carries the current generation, and the newest accepted revision is desired, in flight or durable, its value kept until it is durable |
| LatestModel.ClaimHandsNewest | src/latest-durable-projection-core.js:140-163 | A claim hands out the newest accepted revision, so a sink never sees an older one later |
| LatestModel.DurableOnlyByCurrentClaim | src/latest-durable-projection-core.js:165-200 | The durable epoch moves only forward, and only to an epoch that was handed out under the current generation |
| LatestModel.DurableNeverFallsBack | src/latest-durable-projection-core.js:165-200 | Along any run a durable epoch, once reached, is never lost or lowered |
| LatestModel.VersionCountsChanges | src/latest-durable-projection-core.js:94-108 | The version moves, by one, exactly when the snapshot changes |
| LatestModel.ReconnectResends | src/latest-durable-projection-core.js:227-263 | After a reconnect nothing is in flight and every newest revision not yet durable can be claimed at once |
| LatestModel.CountsCoverFlights | src/latest-durable-projection-core.js:242-263 | The two counts a reconnect reports cover exactly the entries that were in flight |
| LatestModel.NewerThanAll | src/latest-durable-projection-core.js:111-138 | An accepted epoch is newer than every epoch accepted before for its key |
| LatestAnswers.UpsertAnswers | src/latest-durable-projection-core.js:111-138 | In every run a revision is already durable, accepted, stale, the same or in conflict by what was confirmed and what was accepted last |
| LatestAnswers.ClaimAnswers | src/latest-durable-projection-core.js:140-163 | In every run a claim is stale by its generation, busy while something is out, empty if all accepted is confirmed, and otherwise handed the newest revision |
| LatestAnswers.AckAnswers | src/latest-durable-projection-core.js:165-200 | In every run exactly the epoch that is out advances the durable one, a covered epoch is told the confirmed one, and any other is unknown |
| LatestAnswers.FailAnswers | src/latest-durable-projection-core.js:202-225 | In every run giving up what is out is answered by whether something newer was accepted meanwhile |
| LatestAnswers.ReconnectAnswers | src/latest-durable-projection-core.js:227-263 | In every run a newer generation counts what was out, by whether something newer had been accepted |
| LatestAnswers.ListedAsAccepted | src/latest-durable-projection-core.js:94-138 | In every run a snapshot lists the keys in the order in which they were first accepted |
| LatestDurable.LatestDurableProjectionCore.UpsertDesired | src/latest-durable-projection-core.js:111-138 | Takes the model's branch on durable, stale, repeated and conflicting epochs |
| LatestDurable.LatestDurableProjectionCore.Claim | src/latest-durable-projection-core.js:140-163 | Moves the desired revision in flight, or says why not |
| LatestDurable.LatestDurableProjectionCore.AckApplied | src/latest-durable-projection-core.js:165-200 | Settles exactly the epoch in flight |
| LatestDurable.LatestDurableProjectionCore.FailRetryable | src/latest-durable-projection-core.js:202-225 | Gives the flight back unless a newer revision supersedes it |
| LatestDurable.LatestDurableProjectionCore.Reconnect | src/latest-durable-projection-core.js:227-263 | The loop gives back everything in flight, counts what it requeued and superseded, and raises the generation |

## Left out

- ReactiveOps.GlitchFree: asks that no slot's compute reads a slot after one that may come to read it, and that the comparison takes no value for another, because the code keeps a stale value otherwise (`ReactiveDiamond.StaleAnywhere`, `ReactiveCutoff.CutoffStale`); a compute may only read nodes created before its own, which a closure over a later handle could; runs with disposal are covered by the edge theorems only.
- ReactiveOps.GlitchFreeRead: asks the same of the computes and the comparison, as part of the invariant.
- ReactiveOps.EffectsCurrent: asks the same of the computes and the comparison, as part of the invariant.
- TreeRender.RenderConverges: asks for distinct live sort keys, because the code shows tied siblings in arrival order (`TreeTies.OneArrangementIffDistinct`); the node tables agree without it.
- TreeSpacing.CarefulAgreement: asks for neighbours with different keys and for operations sent with what their makers held, because edits tie otherwise (`TreeTieRuns.CrowdedGapDiverges`, `TreeTieRuns.PartialSendDiverges`).
- TreeDelivery.DeliveryOrderDoesNotMatter: covers creations, deletions and reorderings; concurrent text edits, splits and merges of one leaf depend on the order of application.
- TreeSplits.SplitKeepsText: asks for a live leaf whose live right neighbour has another key, because the code revives text or misplaces the tail otherwise (`TreeSplits.SplitLandsIff`, `TreeSessions.SplitRevives`, `TreeSessions.SplitPassesTie`).
- PlaneCells.EqualLogsEqualCells: asks that no update writes the value already there and no registration meets a node that has a value, because the code then moves a stamp without logging it, or empties the cell (`PlaneCells.UnloggedUpdateDiverges`, `PlaneCells.ReRegistrationDiverges`).
- SpillModel.ReplayConverges: asks that deliveries start at the ack cursor, that acknowledgements are of pages as delivered, and that no window goes into an acknowledged page (`SpillModel.AckedOpenPageLoses`).
- IngressProofs.ArrivalOrderDoesNotMatter: asks that every arrival is fresh and finds room unless it is a duplicate, which the source's backpressure tells the producer, and that the scope is not closed.
- SyncModel.ReconnectReplays: covers positive epochs, because the code never replays epoch 0 (`SyncModel.ZeroIsNeverReplayed`).
- SyncHost.HostFollows: asks that no pass is broken off after reading something that applies, because the code then drops what it applied (`SyncHost.BrokenReadLoses`).
- Msgpack.RoundTrip: asks that no string or written key starts with a byte order mark and no written field is named `__proto__`, because the decoder strips the one and does not store the other (`Msgpack.MarkIsLost`, `Msgpack.ProtoIsLost`).
- RelayModel.ScheduleDoesNotMatter: asks that each call stores neither null nor a value that the cell takes for another, because the code drops it otherwise (`RelayModel.UnionIsDropped`, `RelayModel.NullIsLost`).
- RelayModel.EgressIsFlatFold: asks the same of each call.
- RelayModel.LosslessKeeps: asks the same of each call for what is folded; that nothing is refused or evicted needs no condition.
- RelayModel.LinkConverges: asks the same of each call on both relays.
- SpillModel.ReconstructIsFlatFold: covers stores that have not reclaimed pages, which are gone by design, and a hot head that is not null.
- Reconcile.ReconcileCollections: covers orders without duplicate keys, which is what a keyed order is; the order of the not-invalidated keys is not stated, and they are those with equal values, where the code also takes any two sets for equal.
- SyncModel.NothingIsLost: covers epochs enqueued in increasing order, which is what the producer's counter gives.
- SeqOrder.MergedOrdersAgree: asks that no two live elements have one position, because the code shows tied elements in the order in which they were first seen (`SeqOrder.OneOrderIffDistinct`, `SeqTies.TiedMovesDiverge`).
- SeqOrder.BesideLandsIff: says nothing of a move beside the element that the moved one is already next to on that side, whose own old key then is a neighbour's.
- RelayAnswers.DrainInEveryRun: asks that each call stores neither null nor a value that the cell takes for another, as the relay theorems do.
- Reactive kernel: how often a compute runs, as against what it gives; cycle detection and the error it raises, computes and effects that throw, custom guards of `computedRippleWhen`, effects that write, eager slots and signals, scopes, instrumentation counters.
- Edge arena: the typed arrays and packed flag words, disposal of a node from within its own compute, pending effects of a disposed owner, and the queue entry a disposed effect leaves behind, at which an effect created under its id would run earlier.
- Asynchronous kernel: effects, signals, errors and cancelled signals of computes, disposal, and the settling of the whole graph.
- Source maps: a keyed order given with duplicates, the change report an operation returns, and the nested source tree.
- Tree: leaf text is a plain string indexed by character; UTF-8 byte offsets, text edits inside a leaf, forks of a tree and the wire form of updates.
- Plane: keyed and family nodes, custom cells, permission filtering, WebRTC transport and signaling.
- Sequence: garbage collection, and clones that keep writing under the same peer.
- Ingress: the invalidation flags and receipt channels reported to readers, freshness and readiness views, and delivery schedules.
- Canonical encoding: cyclic values and the error they raise, the replay harness and its comparison report; doubles and text are opaque byte strings.
- MessagePack: the order in which a host enumerates integer-like object keys, floating-point numbers and negative zero, and what the text encoder does to a lone surrogate: a string is the UTF-8 it gives.
- Reliable sending: wall-clock stall reports, the counters of a pass, sets and registers sent beside the frames, and stores other than the one in memory.
- Relay: reactive readers of depth and fullness, credits, rate, window, expiry and priority policies, and keyed relays.
- Work queue: the invalidation flags of each call, and the topic with its durable cursors.
- Latest-value delivery: validation of epochs and generations as safe integers.
- Wire classes, capability negotiation, shared-memory mapping, foreign-function bindings, thread-safe shells, state charts and the small independent cores.
