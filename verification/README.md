# A verified model of the causal effect engine

The engine keeps an append-only log of immutable *effects*. Every effect names the effects it
observed; a read linearises the dependency graph below a key's tips and folds it into a value, and
transactions commit through a *bind* effect that other nodes acknowledge or refuse. This project
models the parts of the engine whose correctness is not visible from any single function and
proves what they promise. `dafny verify dfyconfig.toml` checks everything.

## Layout

| files | component |
|---|---|
| `Effects`, `Sequences` | effects, binds, histories; shared notions |
| `PostOrder`, `Cutoff`, `DagSpec`, `DagSearch`, `Dag`, `DagOrder`, `Linearisation`, `Reading`, `DagListing`, `ListingCut`, `ListingExample`, `CausalChain` | linearising a history, stopping at a snapshot, and what that preserves |
| `ChainClocks`, `CausalIndex` | the reachability index |
| `Commit`, `CommitSafety`, `CommitRuns`, `CommitReads`, `CommitReadsExample`, `CommitProgress`, `CommitExample`, `CommitChecks`, `Worklist` | the commit protocol and the graph walks behind its decisions |
| `Horizon`, `HorizonMerge`, `HorizonResolve`, `HorizonObject` | transactions held invisible, in groups that compete for a base |
| `Mirror`, `MirrorInv`, `MirrorSteps`, `MirrorSync`, `MirrorCrash`, `MirrorClean`, `MirrorSpace`, `MirrorOpen`, `MirrorRecovery`, `MirrorExample`, `MirrorTornExample` | the crash-safe mirror file |
| `Reduce`, `ReduceLaws`, `ReduceParts`, `ReduceMeaning`, `ReduceValues` | folding effects into a value |
| `Historical`, `Membership`, `FrozenPast`, `FrozenPastExample` | historical cuts |
| `Cuckoo`, `CuckooObjects`, `CuckooCodec`, `KeyFilter` | approximate key sets and the free-miss gate |
| `Glob`, `GlobMeaning` | the pattern matcher |
| `Outbox`, `FirstAck` | delivery to the cloud and the first-ACK future |

Code that only computes is modelled by functions. Loops and objects are methods and classes, proved
against specification functions or predicates. Protocols with concurrency or crashes (commit,
mirror, first ACK) are state machines over atomic steps: a step has a guard and an effect, a run is
any finite sequence of enabled steps, and the main results are about every run.

## Findings

Where the code does less than its comments or its tests suggest, the model follows the code.

- *Linearisation depends on the order in which tips are listed.* `ListingExample` gives a history
  on which the two listings of the same two tips make the walk stop at different places and emit
  different orders. What decides are the state snapshots the tips *face*, that is, reach past no
  other state snapshot. `ListingCut.ListingFree`: if they face at most one, or reach an end of
  history without meeting any, then all listings cut at the same place, which follows from that
  alone, and emit the same order. `ListingCut.DeepestCut` and `CutIsUnavoidable` are two further
  cases. Conversely `ListingCut.ListingMatters` names a family, of which the example is a member, on
  which moving one tip from the end of the listing to its beginning changes the order. The value
  read never differs.
- *Two concurrent transactions on one base can both commit.* The conflict check on a reply does
  not look below the first data effect or bind it meets. If the node that issued the winning bind
  has built another bind on it before it answers, the loser is shown only the newer bind.
  `CommitExample.BothCommitted` is such a run. `CommitRuns.BothCommit` says this is the only way:
  two committed binds on a common key are ordered, or the reply that should have shown the winner
  had it buried. `CommitRuns.AtMostOneCommit` is the theorem for replies that bury nothing.
- *A subscription can hide a concurrent write from a transaction.* Before it emits a bind, a node
  checks that what the transaction read is still there and that nothing but subscriptions came in
  since. `CommitReads.LateWriteAborts`: a write or bind that was indexed at the node after the read,
  and was not already in the past of what was read, keeps the transaction from being emitted, for
  as long as no subscription has taken its place among the tips. The exception is real: a
  subscription names the tips it was made on as its dependencies and replaces them in the index.
  `CommitReadsExample.VeiledWriteIsMissed` is a run in which a transaction is emitted that way.
- *A crash can leave the mirror unreadable, and then synced records are not given back either.*
  `MirrorRecovery.RefusedIff` says exactly when, in terms of what was written since the last sync:
  an effect was stored through two slots, a published slot's payload need not have reached the disk,
  or a page or published slot lies beyond the length known to be on disk. `MirrorExample.Refused`
  and `MirrorTornExample.TornAway` are runs for the first two. When none of the three holds, every
  restart succeeds and returns every synced record (`MirrorRecovery.SyncedRecovers`).
- *Some malformed cuckoo filters are accepted.* The decoder computes the body length in 64-bit
  words, where it wraps. A header of 2^62 or 2^63 without a body decodes to a filter without slots,
  and one of 2^61 asks for an impossible allocation. `CuckooCodec.SizedIffSmall` says that what is
  accepted is well formed exactly if its header is below 2^61; `WrappedHeader` is an instance.
- *The search behind a frozen frontier can miss a subscription.* It decides every effect except
  subscriptions that depend on nothing (`FrozenPast.Contains`), because the walk drops such tips when
  they lie below its cut. `FrozenPastExample.MissedSubscription` is an instance.
- *Reducing a chain at once and effect by effect differ on some chains.* An in-place list update,
  or a collection write with an unknown operation, acts differently on top of nothing but removals.
  `ReduceLaws.AgreementIffFair` gives the exact condition; `InPlaceAfterRemoval` is an instance.

- *The first replacing write keeps an expiry that was noted before it.* A write that replaces the
  value clears the expiry, except when no scalar was there yet. `ReduceValues.ExpiryIsLast` is the
  rule for every chain; `FirstSetKeepsExpiry` is an instance.

## Assumptions that appear in contracts

- Histories are acyclic where a `rank` is required, and fork-choice hashes are distinct where the
  result mentions an order between different listings. Without distinct hashes the original's sort
  may order equal elements either way; the model's sort keeps their order.
- A state snapshot recorded the value of some walk over its own dependencies (`Faithful`), and a
  fold ignores subscription announcements.
- Hashes and checksums are functions passed as parameters. Clock intervals are a parameter.
- In the commit model every node is subscribed to every key, and no predicate evidence exists.
  Fetching what a reply names is a step of its own (`Learn`), which may come before a decision.
- In the mirror each slot, payload, page link and the file length may reach the disk independently
  and at any time, but not earlier than the last completed sync. A restart that is refused ends the
  run. `RefusedIff` needs a checksum without collisions between payloads of the same record.

## Model

| member | source | states |
|---|---|---|
| DagSpec.Dominance | effects/dag.go:225-323 | If the walk stops at a snapshot, every maximal dependency path on the key from every tip that is not a standalone subscription passes through that snapshot. |
| DagOrder.TrimRemovesOnlyStandalone | effects/dag.go:334-367 | Trimming the ancestors of the cut removes only unreferenced, dependency-less subscription tips. |
| DagOrder.CutPreservesOrder | effects/dag.go:374-420 | Ignoring standalone subscriptions, the uncut order is the order of the snapshot's own dependencies followed by exactly the cut order, which starts with the snapshot. |
| DagOrder.CutPreservesValue | effects/context.go:303-326 | Folding the cut order from the recorded state gives what folding the whole order gives. |
| DagOrder.UncutOrder | effects/dag.go:138-182 | A walk that never stopped linearises the whole history. |
| DagOrder.CompactionIsTransparent | effects/dag.go:225-323 | For every acyclic history with faithful snapshots, reading through whatever cut the walk chose equals folding the whole history, however many snapshots lie below. |
| Dag.Walker.Seed | effects/dag.go:225-258 | The tips are collected and queued as the search specification prescribes, or an effect is missing. |
| Dag.Walker.Follow | effects/dag.go:286-318 | Expanding one effect collects its dependencies and keeps the frontier equal to the unexpanded, still referenced effects. |
| Dag.Walker.Bfs | effects/dag.go:225-323 | The loop collects a set that is closed except at the chosen snapshot, chooses it only when the frontier has converged on it, fails only if a needed effect is missing, and equals the functional search. |
| Dag.Walker.TrimAncestorsOfLca | effects/dag.go:334-367 | The loop removes exactly what the snapshot's dependencies reach. |
| Dag.Walker.TopoCollect | effects/dag.go:374-420 | The recursive traversal appends the post-order of one tip's not yet visited ancestry. |
| Dag.Walker.TopoCollectAll | effects/dag.go:401-417 | The traversal of several children appends the post-order of all of them, shared ancestry once. |
| Dag.Walker.Prepare | effects/dag.go:138-182 | Both phases together produce the specified order over the trimmed collection. |
| Dag.Walker.Read | effects/dag.go:187-213 | Handing the emitted effects to a fold computes the value of the cut order, inside or outside a transaction; `Reading.ReadShows` says which effects those are. |
| PostOrder.WalkIsReachability | effects/dag.go:374-420 | The traversal emits exactly what its roots reach outside a closed visited set. |
| PostOrder.WalkChildrenFirst | effects/dag.go:374-420 | On an acyclic graph every vertex is emitted after its children. |
| Linearisation.OrderIsComplete | effects/dag.go:164-182 | The order lists every effect left after trimming exactly once, dependencies first. |
| Linearisation.TipsEmitBlocks | effects/dag.go:374-420 | Each tip contributes one contiguous block, exactly the ancestry no earlier tip reaches, so concurrent chains never interleave. |
| Linearisation.SortedPermutation | effects/dag.go:102-104 | With distinct hashes the fork-choice sort does not depend on the listing. |
| Linearisation.SameCutCollectsSame | effects/dag.go:225-323 | Two listings that cut at the same place collect the same effects. |
| Linearisation.OnlyOneCut | effects/dag.go:138-182 | If one listing cuts and another does not, their orders differ. |
| Linearisation.SameOrderIffSameCut | effects/dag.go:138-182 | Whatever two walks collected, two listings of the same tips give the same order if and only if both walks cut at the same place. |
| Linearisation.ReadIgnoresListing | effects/dag.go:187-213 | The value read is the same for every listing of the tips and every cut. |
| Linearisation.ReadsWholeHistory | effects/context.go:303-326 | Every read of a compacted acyclic history equals the read of the full history. |
| Reading.ReadShows | effects/dag.go:187-213 | A read of a whole history is the plain fold over exactly the reached effects that are no snapshots and are outside transactions, binds, or of the reader's own transaction, each once, in emission order. |
| Reading.NoDirtyRead | effects/dag.go:203-213 | Two histories that differ only in what unbound effects of other transactions contain read the same. |
| Reading.CompactionInsideTransaction | effects/dag.go:187-323 | Inside a transaction, too, reading through the cut equals folding the whole history, if the transaction's own effects lie above every snapshot. |
| Reading.LowerHashFirst | effects/dag.go:164-182 | Of two tips the one with the lower fork-choice hash is emitted first, unless the other lies in the past of a tip no higher. |
| Reading.BindLeadsToItsWrite | effects/dag.go:57-81 | On a key a bind leads to its own write there and to nothing of other keys; any other effect leads to its dependencies. |
| DagListing.SearchCollects | effects/dag.go:225-323 | The walk as a function of history and listing: what it finds is a collection as specified, and it gives up only over an absent effect. |
| DagListing.Drains | effects/dag.go:258-310 | Until the queue is empty for the first time, effects are discovered in the order of their distance from the tips, later listed tips counting as farther. |
| DagListing.LabelAtMost | effects/dag.go:258-310 | At that moment the recorded distance of every effect is the least over all tips and paths past no state snapshot. |
| ListingCut.DecidedCut | effects/dag.go:277-281 | If the tips face at most one state snapshot or reach an end of history without one, the cut is that snapshot or none, respectively, and the walk fails exactly over an absent effect it needs. |
| ListingCut.ListingFree | effects/dag.go:138-182 | Under that condition on history and tips, every listing of the tips succeeds or fails alike, cuts at the same place and gives the same order. |
| ListingCut.CutIsUnavoidable | effects/dag.go:225-323 | Whatever the listing, a cut lies on every maximal path from every data tip; so where each snapshot can be avoided no listing cuts. |
| ListingCut.DeepestCut | effects/dag.go:277-281 | A snapshot that all collected ones lead straight to, and that lies deeper than every other one the tips face, is the cut of every listing. |
| ListingCut.ListingMatters | effects/dag.go:138-182 | If instead one tip alone reaches it soonest, as soon as other tips reach all others, then listing that tip last cuts there, listing it first does not, and the orders differ. |
| ListingExample.LeftFirst | effects/dag.go:225-323 | On a concrete history the walk from one listing does not cut. |
| ListingExample.RightFirst | effects/dag.go:225-323 | On the same history the walk from the other listing cuts at a snapshot. |
| ListingExample.OrdersDiffer | effects/dag.go:138-182 | On that history the two listings emit different orders. |
| ListingExample.ForkSwings | effects/dag.go:277-281 | That history is a member of the family on which the listing decides. |
| ListingExample.ForkFaces | effects/dag.go:277-281 | Its tips face two state snapshots and reach no end of history without one. |
| CausalChain.StopMeansPresent | effects/effect.go:2176-2257 | A walk that tolerates missing effects stops at a snapshot only if nothing it discovered is missing. |
| CausalChain.Visit | effects/effect.go:2186-2218 | Listing one reference keeps the frontier of the tolerant walk exact. |
| CausalChain.CollectCausalChain | effects/effect.go:2176-2257 | For any cache: the listed references are distinct and nonzero, contain the tips, and are closed under cached dependencies unless the walk stopped at a snapshot that every path leads to, a zero reference being passed over; then nothing listed is missing. |
| ChainClocks.CoversIffReaches | effects/causal_index.go:139-157 | For stamped vertices the clock comparison holds exactly when a dependency path exists. |
| ChainClocks.AppendKeepsStamped | effects/causal_index.go:104-131 | Stamping a vertex with the joined clocks of its dependencies on a chain whose head it covers keeps the clocks exact. |
| CausalIndex.UnstampedClosesCycle | effects/causal_index.go:80-98 | Meeting an unstamped vertex during the search exhibits a cycle. |
| CausalIndex.Index.JoinClocks | effects/causal_index.go:104-115 | The joined clock is the pointwise maximum of the dependencies' clocks. |
| CausalIndex.Index.PickChain | effects/causal_index.go:116-122 | The chosen chain is one whose head the vertex covers, or a new one. |
| CausalIndex.Index.Finish | effects/causal_index.go:108-132 | Stamping a vertex whose dependencies are stamped keeps all clocks exact. |
| CausalIndex.Index.Move | effects/causal_index.go:90-134 | Each step of the stack discipline keeps the search invariant, makes progress, and gives up only at a cycle. |
| CausalIndex.Index.Explore | effects/causal_index.go:60-137 | The explicit-stack search stamps everything reachable from a tip, or stops at a real cycle. |
| CausalIndex.Index.Add | effects/causal_index.go:60-137 | Adding tips keeps the index exact, stamps all they reach, and gives up only if the history has a cycle. |
| CausalIndex.Index.ReachesCyclic | effects/causal_index.go:198-232 | The cached fallback search answers plain reachability. |
| CausalIndex.Index.Query | effects/causal_index.go:139-157 | The answer is true exactly when a dependency path, possibly empty, leads from one effect to the other. |
| CausalIndex.Index.CandidateChains | effects/causal_index.go:162-185 | Every candidate occurs in exactly one chain, exactly once, and each chain is in dependency order. |
| CausalIndex.Index.ConcurrentRange | effects/causal_index.go:187-196 | The two binary searches return exactly the candidates that neither reach nor are reached by the tip. |
| CommitSafety.IngestServes | effects/effect.go:1396-1452 | After indexing a received effect the node's tips still lead to every bind it knows on every key. |
| CommitSafety.SpeaksOnce | effects/context.go:1432-1456 | A bind that passes the checks before emission comes after every bind the node already knew on each of its keys. |
| CommitRuns.SilentMeansOrdered | effects/effect.go:1470-1502 | A reply that does not name a key's frontier only has tips the bind already follows; otherwise the frontier it names leads to every bind the replier knows. |
| CommitRuns.FlushKeepsInv | effects/context.go:1184-1499 | Emitting a transaction keeps the protocol invariant; when it may be emitted is the subject of `CommitReads` and `CommitProgress`. |
| CommitRuns.ReceiveKeepsInv | effects/effect.go:1396-1502 | Indexing a bind and answering it keeps the protocol invariant. |
| CommitRuns.LearnKeepsInv | effects/effect.go:1606-1740 | Ingesting an effect learnt from a reply or a fetch keeps the protocol invariant. |
| CommitRuns.WriteKeepsInv | effects/context.go:1875-1913 | A write outside transactions keeps the protocol invariant. |
| CommitRuns.DecideKeepsInv | effects/context.go:1596-1677 | Counting replies and deciding keeps the protocol invariant, however much of what the replies name was ingested before. |
| CommitRuns.StepKeepsInv | effects/context.go:1143-1821 | Every step of every node keeps the protocol invariant. |
| CommitRuns.RunKeepsInv | effects/context.go:1143-1821 | The invariant holds after every run, in any order of steps and with any replies lost. |
| CommitRuns.BothCommit | effects/txn.go:115-169 | Over every run, two committed binds on a common key are ordered, or the reply from the issuer of the lower-hash bind to the other had that bind buried under a later data effect or bind. |
| CommitRuns.AtMostOneCommit | effects/context.go:1559-1677 | Over every run whose replies bury no unordered bind, two binds with different hashes on a common key never both commit unless one follows the other. |
| CommitReads.LateWriteAborts | effects/context.go:1208-1254 | Over every run: if after the read a write or bind outside the past of what was read is indexed at the node, and no subscription takes its place, the transaction is not emitted. |
| CommitReads.OverwrittenAborts | effects/context.go:1208-1220 | A transaction that read a tip which is not a tip any more is not emitted. |
| CommitReads.RunKeepsNews | effects/context.go:1229-1254 | Over every run without such a subscription, some tip of the key stays news to the reader. |
| CommitReads.DroppedIsDep | effects/effect.go:1396-1452 | Indexing an effect drops from a key only what the effect depends on. |
| CommitReads.IndexingReplaces | effects/effect.go:1396-1452 | An indexed effect is a tip of its keys, its dependencies are not any more, and other keys keep their tips; a bind replaces its own write on its first key only. |
| CommitReadsExample.Overwritten | effects/context.go:1208-1220 | A node that moved on to a write on top of what was read does not emit. |
| CommitReadsExample.Concurrent | effects/context.go:1229-1254 | A node that learned a concurrent write does not emit. |
| CommitReadsExample.VeiledWriteIsMissed | effects/context.go:1233-1242 | A run in which a concurrent write and then a subscription on it arrive, and the transaction is still emitted. |
| CommitProgress.UpToDateIsEmitted | effects/context.go:1184-1499 | In every reachable state a transaction that consumes just its node's tips passes every check before emission. |
| CommitProgress.SilentReply | effects/effect.go:1470-1502 | A replier that has nothing beyond what the bind consumed and wrote names no frontier. |
| CommitProgress.UndisturbedCommits | effects/context.go:1143-1821 | From every reachable state, a transaction that is up to date and whose keys hold nothing else anywhere has a run that commits it. |
| CommitProgress.LowerHashAborts | effects/txn.go:220-284 | A reply that shows an unordered bind of lower hash, at its frontier or right below an effect that is neither data nor a bind, leaves only the abort. |
| CommitProgress.HigherHashesPass | effects/txn.go:220-284 | Replies with frontiers of data and of binds of no lower hash do not prevent the commit, whatever lies below. |
| CommitExample.BothCommitted | effects/txn.go:115-169 | A concrete run in which two unordered binds that consume the same tip both commit, although everything the deciding reply names has been ingested. |
| CommitChecks.Ancestors | effects/effect.go:1842-1878 | The stack loop computes exactly the past of the consumed tips. |
| CommitChecks.CheckCompetingBinds | effects/effect.go:1826-1935 | The walk finds a bind exactly when the index leads to one whose write is not in the past of the consumed tips. |
| CommitChecks.CheckNackConflict | effects/txn.go:115-169 | The queue loop reports a conflict only for an effect shown through wrappers that is missing or lost to, and misses none outside the transaction's past. |
| CommitChecks.NoConflictMeansUnbeaten | effects/txn.go:220-284 | If no tip of a reply is a conflict, no unordered bind with a lower hash is shown by it. |
| CommitChecks.ResolutionRetains | effects/effect.go:977-1041 | Replacing the tips of transactions in flight by their bases hides no bind. |
| Horizon.SharesBaseSymmetric | effects/fork_choice.go:55-71 | Sharing a base is symmetric. |
| Horizon.BindsShareBase | effects/fork_choice.go:55-71 | The nested loops decide whether two binds consume a common tip on a common key. |
| Horizon.Join | effects/horizon.go:107-143 | A connected set that touches a bind joins whatever is connected through that bind. |
| HorizonMerge.GatherKeeps | effects/horizon.go:107-143 | Scanning and merging the overlapping groups keeps the partition, the separation of groups, the timers and, through the new bind, connectedness. |
| HorizonMerge.PruneKeeps | effects/horizon.go:333-349 | Dropping empty groups keeps every other group as it was and the structure intact. |
| HorizonMerge.AddedValid | effects/horizon.go:97-161 | After an addition the groups are again exactly the connected components of all retained binds. |
| HorizonResolve.AddedTimers | effects/horizon.go:129-143 | An addition leaves every waiting group its fallback timer and revives no stopped timer. |
| HorizonResolve.ScheduledTimers | effects/horizon.go:193-227 | Scheduling supersedes exactly the group's own timer and takes nobody's fallback. |
| HorizonResolve.ResolveAllIs | effects/horizon.go:322-329 | Resolving a list of transactions releases exactly those, each once, with its pending tips and channel. |
| HorizonResolve.WithdrawnValid | effects/horizon.go:286-303 | Resolving some members keeps the remaining groups connected components, including bases of aborted members. |
| HorizonResolve.WithdrawnTimers | effects/horizon.go:333-349 | Resolving members keeps the fallback of everyone who stays. |
| HorizonObject.HorizonSet.Add | effects/horizon.go:97-161 | The in-place loop computes the specified state; nothing is closed; a redelivered bind changes nothing. |
| HorizonObject.HorizonSet.Hold | effects/effect.go:1386-1388 | A transaction's tip becomes pending and nothing else changes. |
| HorizonObject.HorizonSet.MergeGroups | effects/horizon.go:118-143 | The loops that move members, bases and the timer of an absorbed group compute the specified merge. |
| HorizonObject.HorizonSet.ResolveEntry | effects/horizon.go:322-329 | The loop drops exactly the transaction's pending tips and closes its channel with its removal. |
| HorizonObject.HorizonSet.MakeGroupVisible | effects/horizon.go:245-277 | The loop releases all members of the group and keeps the groups of all others. |
| HorizonObject.HorizonSet.MakeVisible | effects/horizon.go:231-277 | The whole group, and nobody else, leaves: entries, pending tips and channels together. |
| HorizonObject.HorizonSet.ScheduleMakeVisible | effects/horizon.go:193-227 | A new timer becomes live for the group, the group's earlier one stops being live, and every other timer stays as it was. |
| HorizonObject.HorizonSet.Fire | effects/horizon.go:211-226 | A superseded or merged-away timer changes nothing; a live one releases exactly its group. |
| HorizonObject.HorizonSet.Abort | effects/horizon.go:286-303 | One transaction leaves alone; its channel is closed once. |
| HorizonObject.HorizonSet.PruneGroups | effects/horizon.go:333-349 | Exactly the groups without members are dropped and lose their timers. |
| MirrorInv.CreatedSound | durability/store.go:238-356 | A bucket just created satisfies the invariant. |
| MirrorSteps.BeginKeepsInv | durability/store.go:478-485 | Reserving a slot and an allocation keeps the invariant of the mirror. |
| MirrorSteps.CopyKeepsInv | durability/store.go:486-486 | Writing the payload keeps the invariant. |
| MirrorSteps.FillKeepsInv | durability/store.go:487-491 | Writing the fields of an unpublished slot keeps the invariant. |
| MirrorSteps.PublishKeepsInv | durability/store.go:492-496 | Publishing a filled slot keeps the invariant. |
| MirrorSteps.DeleteKeepsInv | durability/store.go:549-594 | A tombstone with deferred reclaiming and immediate slot reuse keeps the invariant. |
| MirrorSync.GrowKeepsInv | durability/store.go:406-444 | Extending the file keeps the invariant. |
| MirrorSync.AddPageKeepsInv | durability/store.go:513-533 | Growing by a page of slots keeps pages and allocations disjoint. |
| MirrorSync.SyncStartKeepsInv | durability/store.go:747-763 | Noting what a sync will cover keeps the invariant. |
| MirrorSync.SyncFailKeepsInv | durability/store.go:764-774 | A failed sync gives its pending punches back and keeps the invariant. |
| MirrorSync.SyncDoneKeepsInv | durability/store.go:747-783 | Crediting a sync with what was written before it started, and releasing only the allocations whose tombstones it covered, keeps the invariant. |
| MirrorSync.PunchKeepsInv | durability/store.go:785-803 | Punching a released allocation keeps every slot that can be found on disk away from it. |
| MirrorSync.PunchFailKeepsInv | durability/store.go:795-800 | A failed punch is kept for the next sync and keeps the invariant. |
| MirrorCrash.PublishedIsUnpunched | durability/store.go:547-570 | In every crash image a published slot names an allocation that is neither punched nor about to be. |
| MirrorCrash.PublishedApart | durability/store.go:454-501 | In every crash image two published slots name different allocations. |
| MirrorCrash.KeptIsFound | durability/store.go:747-803 | A record covered by a completed sync and not deleted since is in every crash image, published, whole and with a matching checksum. |
| MirrorCrash.ReopenedDisjoint | durability/store.go:357-402 | After reopening, pages and allocations are disjoint and new allocations start behind the end of the file. |
| MirrorCrash.CrashKeepsInv | durability/store.go:238-403 | Reopening any possible image that is not refused re-establishes the invariant. |
| MirrorCrash.CrashKeepsKept | durability/store.go:238-403 | Reopening an image that is not refused keeps every synced record with its bytes. |
| MirrorCrash.StepKeepsInv | durability/store.go:454-803 | Every step, a crash included, keeps the invariant. |
| MirrorCrash.StepKeepsKept | durability/store.go:454-803 | No step other than its own deletion gives up a synced record. |
| MirrorCrash.RunKeepsInv | durability/store.go:454-803 | The invariant holds over every run of writes, deletions, syncs, punches and successful restarts. |
| MirrorCrash.SyncedSurvives | durability/store.go:747-803 | Through any further run, restarts included, a synced record is in every crash image, published, whole and with a matching checksum, until it is deleted itself. |
| MirrorCrash.CleanIsKept | durability/store.go:844-858 | When nothing is dirty every live record is covered by a completed sync. |
| MirrorCrash.NoTombstoneNoDuplicates | durability/store.go:375-393 | Without a deletion since the last sync no image holds an effect twice. |
| MirrorCrash.DurableLengthFits | durability/store.go:366-393 | If the file length is on disk, everything a crash image names lies within the file. |
| MirrorClean.RunKeepsSound | durability/store.go:549-594 | Over every run, a deletion is counted: no tombstone is newer than the sync, completed or running, that carries the current generation. |
| MirrorClean.CleanStarts | durability/store.go:635-738 | After a crash with nothing dirty and the file length on disk, opening and recovery succeed. |
| MirrorClean.CleanRestart | durability/store.go:747-783 | From creation on, over every run that ends so, every crash image opens and holds exactly the live effects. |
| MirrorSpace.RunKeepsTight | durability/store.go:454-803 | Over every run each slot is free, reserved or live, and each allocation is reserved, live, punched or waiting to be punched. |
| MirrorSpace.NothingLeaks | durability/store.go:564-803 | From creation on: what is neither live nor reserved is a free slot, and once punching has caught up, punched space. |
| MirrorCrash.DuplicateIffStoredTwice | durability/store.go:386-389 | Some crash image holds an effect twice if and only if two slots were published for it since the last sync; this is the first of the three cases of RefusedIff. |
| MirrorRecovery.RunKeepsWhole | durability/store.go:454-803 | Over every run, each published version that may still be on disk is the record of the payload its allocation holds. |
| MirrorRecovery.RefusedIff | durability/store.go:375-393 | In every reachable state, some crash image is refused by opening or recovery if and only if an effect was stored twice, a payload may be missing, or the length may be short. |
| MirrorRecovery.SyncedRecovers | durability/store.go:635-738 | From creation on, over every run: a record once synced and not deleted since is returned with its bytes by every restart that succeeds, and every restart succeeds unless one of the three cases holds. |
| MirrorTornExample.TornAway | durability/store.go:691-694 | A concrete run and crash image on which recovery fails over another effect's missing payload, so that a synced record is not returned. |
| MirrorExample.Refused | durability/store.go:386-389 | A concrete run and crash image on which opening fails. |
| MirrorOpen.Open | durability/store.go:357-402 | The nested loops succeed exactly when everything fits and no effect occurs twice, and then rebuild exactly the published entries, the free slots and the end of the file. |
| MirrorOpen.Recover | durability/store.go:635-738 | The checksum pass succeeds exactly when every published record is intact, and delivers exactly those records. |
| ReduceLaws.ReduceFlatOwned | effects/reduce.go:188-305 | The accumulating loop computes the fold of the chain; `ReduceValues` says what that fold is worth. |
| ReduceValues.ScalarGrowsFromBase | effects/reduce.go:370-439 | For every chain and starting value the scalar is the last replacing write since the last delete, or else the first write, with the later writes added; without one there is no scalar. |
| ReduceValues.ScalarMeans | effects/reduce.go:370-439 | Rule by rule: nothing added is the base itself, increments give the 64-bit or real sum on top of it, maxima the largest number, registers the largest byte at every place; increments on other bases and first-write-wins writes are ignored. |
| ReduceValues.ScalarReplacesCollection | effects/reduce.go:343-350 | A scalar write, and whatever follows short of a collection write, leaves no element. |
| ReduceValues.TagIsLast | effects/reduce.go:210-217 | The type tag is that of the last note that names one; a delete clears it. |
| ReduceValues.LeaderIsLast | effects/reduce.go:252-266 | The leader is that of the last lead effect, none after a release or a delete. |
| ReduceValues.ExpiryIsLast | effects/reduce.go:219-239 | The expiry is that of the last note on the key, none after a delete or a replacing write over a scalar. |
| ReduceValues.FirstSetKeepsExpiry | effects/reduce.go:370-376 | A chain on which a replacing write keeps an earlier expiry. |
| ReduceValues.ElementGrows | effects/reduce.go:442-513 | A keyed element is its last new or replacing insertion with the later writes added, its time and node, and the expiry last noted for it. |
| ReduceValues.ElementMeans | effects/reduce.go:474-513 | Without later writes that is the insertion, with increments the sum and with maxima the largest. |
| ReduceValues.NetRemovalIff | effects/reduce.go:442-472 | A keyed element counts as removed exactly if the last write to it removed it while it was absent; removing what the chain inserted leaves no trace. |
| ReduceValues.ListRemovalIsRecorded | effects/reduce.go:517-535 | A removal from a list is recorded exactly if the list does not hold the element. |
| ReduceValues.MergeableIff | effects/reduce.go:379-411 | A value stays mergeable exactly as long as no write replaces its scalar or counts up a replaced one. |
| ReduceValues.FirstMerges | effects/reduce.go:307-316 | A first write is mergeable by its rule, a leadership effect is, a note is not; the operation is that of the first write. |
| ReduceValues.ErasedLeavesMarker | effects/reduce.go:282-291 | A chain whose last effect that counts is a delete leaves an empty marker with the time of the last effect. |
| ReduceValues.CallShowsChain | effects/reduce.go:293-304 | Otherwise the call shows what the chain comes to, with the time of the last effect and the hash of the first. |
| ReduceLaws.AccumulateAlike | effects/reduce.go:343-368 | Values that show the same and agree on what decides further writes keep doing so, through collection switches. |
| ReduceLaws.StepAlike | effects/reduce.go:188-305 | Any effect that is not a delete keeps two such values alike. |
| ReduceLaws.FairMatches | effects/reduce.go:188-305 | Along a fair chain the running batch value matches the incremental one, including the part no read shows. |
| ReduceLaws.UnevenDiffers | effects/reduce.go:307-341 | An uneven write onto nothing but removals makes the visible values differ. |
| ReduceLaws.BatchIsIncremental | effects/reduce.go:188-305 | One call over a fair chain shows the same scalar, elements, list, type, expiry and leader as one call per effect. |
| ReduceLaws.AgreementIffFair | effects/reduce.go:188-341 | The two agree on every prefix of a chain if and only if no uneven write falls on nothing but removals. |
| ReduceLaws.InPlaceAfterRemoval | effects/reduce.go:307-341 | A two-effect chain on which they differ. |
| ReduceParts.ReducePartitioned | effects/reduce.go:87-158 | Each partition holds the reduction of its own effects since the last whole-key delete, on top of its carried value. |
| ReduceParts.ReduceChains | effects/reduce.go:128-152 | The loop over partitions reduces each chain onto its own carried value and leaves the others. |
| ReduceParts.DeleteForgets | effects/reduce.go:72-81 | Nothing before a delete influences the result. |
| ReduceParts.PartsIsolated | effects/reduce.go:72-126 | Nothing written to one partition shows in another, except a delete of the whole key. |
| ReduceParts.RootDeleteWipes | effects/reduce.go:72-81 | Deleting the whole key empties every partition. |
| ReduceParts.FlatAgrees | effects/reduce.go:51-158 | On a key without partitions the partitioned path shows what the flat path shows. |
| ReduceMeaning.IncrementsAddUp | effects/reduce.go:370-386 | A chain of increments reduces to its 64-bit sum. |
| ReduceMeaning.LargerMerges | effects/reduce.go:417-438 | Register merging is commutative, associative and idempotent. |
| ReduceMeaning.KeyedMembership | effects/reduce.go:442-513 | An element is present exactly if the last write to it was an insertion, or nothing was written to it and it was there before. |
| ReduceMeaning.FindIsFirst | effects/reduce.go:572-580 | The lookup returns the first element with the id, and nothing only if there is none. |
| ReduceMeaning.InsertionPlaces | effects/reduce.go:537-562 | An insertion adds one element and keeps the order of the others: at the head, at the tail, or right before or after the first element with the reference id; without one it goes to the head or the tail. |
| ReduceMeaning.RemovalAndUpdate | effects/reduce.go:517-570 | A removal takes out the first element with the id, an in-place update replaces it, and otherwise nothing changes. |
| Historical.HistoricalFrontier | effects/historical.go:41-93 | The stack loop returns exactly the members reached through non-members, each once, and fails exactly if an effect on the way is missing. |
| Historical.FrontierIsTheCut | effects/historical.go:31-40 | For a closed membership the returned frontier leads to exactly the members the tips lead to. |
| Historical.BelowRestores | effects/historical.go:74-87 | Below an excluded bind lies what it consumed on the key; below any other effect lie its dependencies. |
| Historical.ExcludedBindRestores | effects/historical.go:39-40 | Excluding a transaction restores exactly the tips it consumed, never its own write. |
| Membership.TransactionSnapshot.Member | effects/transaction_snapshot.go:118-214 | The memoised recursion terminates, never changes an answer or its ground, records for each answer a ground that later evidence cannot take away, and fails only because of a missing effect, an unusable clock or a cycle. |
| Membership.BindStandsOnWrites | effects/dag.go:38-54 | A bind concerns each of its keys and has its own writes among its parents. |
| Membership.TransactionSnapshot.Inherit | effects/transaction_snapshot.go:192-214 | The loop over parents records the answer that the answers of all parents prescribe, keeps every earlier answer, and fails only because of something missing, unusable or cyclic. |
| Membership.TransactionSnapshot.AskFrozen | effects/transaction_snapshot.go:151-173 | The loop says excluded exactly if some frozen key leaves the effect outside, and included exactly if some key is frozen and none leaves it outside. |
| Membership.TransactionSnapshot.Refresh | effects/transaction_snapshot.go:274-317 | New effects, newly frozen keys and any change of the clock evidence leave every decision and its ground in place. |
| Membership.TransactionSnapshot.Session | effects/transaction_snapshot.go:216-319 | Over every sequence of questions and further preparations, answers and their grounds stay. |
| Membership.ParentsAgree | effects/transaction_snapshot.go:192-214 | Whatever evidence came in since, an effect decided through its parents is included exactly if all its parents are. |
| FrozenPast.Contains | effects/transaction_snapshot.go:79-116 | The walk behind snapshots terminates; what it finds is in the past of the frontier, what it does not find is not, standalone subscriptions excepted; and it fails only over an absent effect. |
| FrozenPast.RoundKeeps | effects/transaction_snapshot.go:92-113 | After each round, whatever of the past has not been seen lies behind the round's cut, which no earlier round has looked behind. |
| FrozenPastExample.MissedSubscription | effects/transaction_snapshot.go:92-113 | A history on which a subscription in the past is met in no round. |
| Membership.NoExcludedParent | effects/transaction_snapshot.go:188-204 | Under unchanged evidence, outside the two shortcuts an included effect has only included parents. |
| Membership.AnswersAgree | effects/transaction_snapshot.go:118-214 | Under unchanged evidence and on acyclic histories the order of questions does not matter. |
| Cuckoo.XorTwice | effects/cuckoo.go:103-108 | Exclusive-or with the same mask twice gives the index back, on every number of buckets. |
| Cuckoo.XorBits | effects/cuckoo.go:103-108 | Each bit of the index is flipped exactly where the mask has a one. |
| Cuckoo.PartnerDiffers | effects/cuckoo.go:103-108 | A fingerprint whose hash has a one in the low bits has two different buckets. |
| Cuckoo.AltTwice | effects/cuckoo.go:103-108 | The partner of a bucket's partner is the bucket. |
| Cuckoo.PlaceKeeps | effects/cuckoo.go:116-126 | Filling an empty slot holds exactly the places held or in hand before. |
| Cuckoo.SwapKeeps | effects/cuckoo.go:149-158 | Swapping the fingerprint in hand with a resident keeps the set of held places. |
| CuckooObjects.CuckooFilter.constructor | effects/cuckoo.go:67-80 | The filter is empty and has the smallest power of two of buckets above a quarter of the capacity. |
| CuckooObjects.CuckooFilter.InsertIntoBucket | effects/cuckoo.go:116-126 | One empty slot of the bucket is filled, or the bucket is full and nothing changes. |
| CuckooObjects.CuckooFilter.Add | effects/cuckoo.go:135-168 | Success holds exactly the old places and the key's; failure leaves one of them in hand; a key already answered changes nothing; a free slot in the home bucket guarantees success; the count follows the stored fingerprints. |
| CuckooObjects.CuckooFilter.Relocate | effects/cuckoo.go:148-167 | The kick loop keeps every place held or in hand and ends with at most one in hand. |
| CuckooObjects.CuckooFilter.MaybeContains | effects/cuckoo.go:172-176 | The answer is whether the key's fingerprint sits in its bucket pair. |
| CuckooObjects.ExtendedAnswers | effects/cuckoo.go:135-176 | After an addition a key is answered exactly if it was before or shares its place with the added key. |
| CuckooObjects.CarriedAnswers | effects/cuckoo.go:148-176 | After a failed addition every key answered before is still answered, except those at the place in hand. |
| CuckooObjects.CuckooChain.Rotate | effects/cuckoo.go:265-272 | A new empty segment becomes active and no answer changes. |
| CuckooObjects.CuckooChain.Add | effects/cuckoo.go:265-289 | The key is answered afterwards in any case. Every key answered before still is, except those at the single place an overflowing segment dropped, and no segment overflows while the home bucket has room. Nothing stored means the key was answered already. |
| CuckooObjects.CuckooChain.AddAll | effects/cuckoo.go:265-304 | After any sequence of additions every key added is answered unless its place was dropped; while no segment overflows, all are. |
| CuckooObjects.CuckooChain.MaybeContains | effects/cuckoo.go:292-304 | The answer is whether some segment answers. |
| CuckooCodec.RoundTrip | effects/cuckoo.go:188-236 | A filter with fewer than 2^61 buckets, sent and received, is the same filter. |
| CuckooCodec.FirstIsHighest | effects/cuckoo.go:188-197 | Numbers are written with the most significant byte first. |
| CuckooCodec.SizedIffSmall | effects/cuckoo.go:207-218 | What is accepted is a well-formed filter if and only if its header is below 2^61; decoding panics exactly on a header of 2^61 without a body. |
| CuckooCodec.WrappedHeader | effects/cuckoo.go:212-218 | Eight bytes that are accepted and are not a well-formed filter. |
| CuckooCodec.Marshal | effects/cuckoo.go:188-197 | The loop writes the specified encoding. |
| CuckooCodec.Unmarshal | effects/cuckoo.go:202-236 | The loop decodes as specified, wrapped sizes included, and counts the fingerprints. |
| CuckooCodec.ChunkIsSendable | effects/cuckoo.go:306-341 | A segment of a chain is small enough for its length field. |
| CuckooCodec.ChainRoundTrip | effects/cuckoo.go:306-387 | A chain sent and received has the same segments. |
| CuckooCodec.AnswersSurviveTheWire | effects/cuckoo.go:306-387 | A received chain answers exactly as the sent one. |
| KeyFilter.PeerFilters.PeerFilterIndex | effects/keyfilter.go:129-133 | Binary search finds the peer or the place that keeps the order. |
| KeyFilter.PeerFilters.GetOrCreate | effects/keyfilter.go:119-126 | A peer gets one entry, in order, that knows nothing yet; an existing one is kept. |
| KeyFilter.PeerFilters.NotePeerConnected | effects/keyfilter.go:140-155 | A connection is recorded, and the count stays the number of connected peers without a bulk filter. |
| KeyFilter.PeerFilters.CachePeerFilter | effects/keyfilter.go:161-190 | A bulk filter is applied exactly if it decodes, comes from another node and is the first or newer; it replaces the earlier one and keeps announcements. Otherwise nothing changes. |
| KeyFilter.PeerFilters.PeerFilterAdd | effects/keyfilter.go:106-126 | An announced key is kept. |
| KeyFilter.PeerFilters.RemovePeerKeyFilter | effects/keyfilter.go:197-208 | A departed peer is forgotten. |
| KeyFilter.PeerFilters.ClusterMaybeHasKey | effects/keyfilter.go:229-244 | A negative answer means every connected peer delivered a bulk filter and nothing a tracked peer told holds the key. |
| Glob.MatchCharClass | crdt/dataplane.go:137-156 | The loop decides membership in a class of characters and ranges. |
| Glob.MatchToken | crdt/dataplane.go:37-108 | One token accepts a character as its meaning says; malformed classes and trailing escapes accept nothing. |
| Glob.LaterStarCovers | crdt/dataplane.go:38-45 | Once a later star is reached, other places for an earlier star add nothing. |
| Glob.NowhereElse | crdt/dataplane.go:110-130 | When the input ends inside a run without stars, no later place for the star can match. |
| Glob.AllStars | crdt/dataplane.go:118-134 | With the input used up the rest of the pattern matches exactly if it is all stars. |
| Glob.MatchGlobPattern | crdt/dataplane.go:28-135 | The loop with one backtrack point terminates and accepts exactly what the recursive meaning of the pattern accepts. |
| GlobMeaning.PatternMeans | crdt/dataplane.go:28-156 | A pattern written as a list of tokens matches exactly the strings that split into one part per token: the character itself, any character, any run, or a character in or not in a class of characters and ranges; with an unclosed class or a trailing escape at its end it matches nothing. |
| GlobMeaning.PatternParses | crdt/dataplane.go:28-156 | Every pattern is such a list, with or without a malformed end. |
| Outbox.CloudOutbox.EnqueueUpload | cluster/cloud_outbox.go:100-173 | An upload is added exactly if it is resident and not pending, with one reference; an own write is listed under its key, whose first one takes the pin if the key can be pinned. |
| Outbox.CloudOutbox.ExpandAncestry | cluster/cloud_outbox.go:195-228 | Exactly the own, uploadable, resident dependencies the cloud is not known to hold are queued. |
| Outbox.CloudOutbox.HandleLocalEffect | cluster/cloud_outbox.go:64-84 | Exactly the effect and the missing part of its direct history become pending, the effect last; an effect that is not uploadable changes nothing. |
| Outbox.CloudOutbox.DeferUploadBehind | cluster/cloud_outbox.go:234-259 | The queue becomes the dependencies, the tip and the rest, nothing lost. |
| Outbox.CloudOutbox.TakeNext | cluster/cloud_sync.go:497-570 | One queued tip is dropped only if it is not pending, or unblocked and impossible to seal, which starts its retry timer; requeued only if it is blocked; handed out only if it is pending, unblocked and sealed; or it goes behind own history that was missing. Nothing pending is lost. |
| Outbox.CloudOutbox.Expand | cluster/cloud_sync.go:508-529 | The tip goes behind queued history exactly if it carries its history along and a dependency is missing in the cloud and not pending. |
| Outbox.CloudOutbox.Dispatch | cluster/cloud_sync.go:531-571 | An upload is requeued exactly if a dependency is pending, handed out exactly if none is and it can be sealed, and put on a retry timer otherwise. |
| Outbox.CloudOutbox.TakeInterrupted | cluster/cloud_sync.go:497-570 | The same with any acknowledgements arriving while the outbox is unlocked, the upload's own among them: it is handed out only if no dependency is pending when dependencies are checked, dropped only if it was not pending or cannot be sealed, and no upload is forgotten. |
| Outbox.CloudOutbox.MarkCloudHolds | cluster/cloud_outbox.go:269-304 | The bounded memory never claims a tip that was not acknowledged, keeps the latest generation, and forgets nothing before a generation is full. |
| Outbox.CloudOutbox.Retire | cluster/cloud_outbox.go:316-354 | A pending upload gives back its one reference, and its key's pin exactly with the key's last own write; a second acknowledgement changes nothing; the queue is emptied exactly when nothing is pending. |
| Outbox.CloudOutbox.NextEnvelope | cluster/cloud_sync.go:488-573 | A pass terminates although it may queue history; it hands out only an upload none of whose dependencies is pending; no upload is forgotten; a pass that queued nothing and sends nothing leaves only blocked uploads queued, and every pending upload it passed over is blocked or cannot be sealed. |
| Outbox.CloudOutbox.HandleAck | cluster/cloud_sync.go:598-640 | A stored effect is retired and remembered; a refused one stays pending and gets a retry timer exactly if it is still owed. |
| Outbox.CloudOutbox.RetryFires | cluster/cloud_sync.go:631-640 | A retry queues the upload only if it is still pending. |
| Outbox.CloudOutbox.HandleFetch | cluster/cloud_sync.go:647-665 | Exactly the requested resident effect becomes pending, without its history and without a claim on its key. |
| Outbox.CloudOutbox.Restart | cluster/cloud_sync.go:417-423 | A new stream queues every pending upload exactly once. |
| Outbox.CloudOutbox.Evict | cluster/cloud_outbox.go:100-126 | A vertex without a reference can leave the pool without touching a pending upload. |
| Outbox.CloudOutbox.Install | cluster/cloud_outbox.go:64-84 | A newly stored vertex disturbs no pending upload. |
| Outbox.CloudOutbox.DropLeaf | cluster/cloud_outbox.go:133-152 | A key that is not pinned may lose its leaf; a pinned key keeps it. |
| FirstAck.StepKeepsInv | cluster/replication_request.go:84-106 | Every atomic step keeps the counters, the flag and the completion consistent. |
| FirstAck.RunKeepsInv | cluster/replication.go:239-294 | Over every interleaving the invariant holds and a completion never changes. |
| FirstAck.OutcomeStays | cluster/replication_request.go:84-97 | The future completes once. |
| FirstAck.ClaimedOnce | cluster/replication.go:389-476 | A request leaves the pending table at most once and never returns. |
| FirstAck.RejectedMeansAllDropped | cluster/replication_request.go:101-106 | A rejection for drops implies that every registered peer dropped. |
| FirstAck.FirstEndDecides | cluster/replication_request.go:84-97 | Over every interleaving the first ACK handler or stop to complete the future decides between success and timeout; drops cannot have completed it before. |
| FirstAck.AckResolves | cluster/replication.go:389-398 | A resolving ACK before any stop makes the write a success. |
| FirstAck.OutcomeHasCause | cluster/replication.go:475-628 | Success has an ACK in the run, a timeout a stop, and a rejection for drops a drop at every peer. |
| FirstAck.OnlyDropsRemain | cluster/replication_request.go:101-106 | Without an ACK or a stop only drops complete the future. |
| FirstAck.NoLostWakeup | cluster/replication.go:239-294 | Once setup is over and every claimed request has been worked off, the future is complete. |

## Left out

- ListingCut.ListingMatters: the condition for agreement is not exact; open are ties between snapshots that one tip reaches equally soon and candidates that lie behind further snapshots.
- CommitRuns.AtMostOneCommit: needs that replies bury no unordered bind, because the property is false otherwise; that a burial always leads to two commits is not claimed, since another reply may still refuse.
- CommitRuns.BothCommit: says nothing about two binds with equal hashes, which no rule decides.
- CommitRuns.RunKeepsInv: the check against binds remembered per consumed tip, the re-evaluation after indexing and refusals for other reasons only make a transaction abort, so a decision to abort is always allowed and they are not modelled.
- CommitChecks.CheckCompetingBinds: follows dependencies only, not the extra link from a snapshot to its predecessor.
- CommitChecks.CheckNackConflict: the classification of one effect is a parameter; predicate evidence and comparison of touched elements are not modelled.
- DagOrder.CompactionIsTransparent: covers reads outside a transaction; `Reading.CompactionInsideTransaction` covers those inside, if the transaction's own effects lie above every snapshot.
- Membership.TransactionSnapshot.Member: what a frozen key contains is given; `FrozenPast.Contains` is the walk that computes it, and its failure is not a case of Member.
- Outbox.CloudOutbox.NextEnvelope: the statement about a whole pass is for passes without interference; `TakeInterrupted` covers interference for one upload. Sealing may fail for any tip.
- FirstAck.NoLostWakeup: a single-peer request withdrawn because its send failed has no waiter and is not modelled.
- MirrorCrash.RunKeepsInv: header validation, the mapping of ids to bucket files and the creation of a file under a temporary name are not modelled; removing an empty bucket is one step.
- ReduceLaws.BatchIsIncremental: floating-point sums are over reals; time stamps and fork-choice hashes of the result are not part of what is compared.
- Outbox.CloudOutbox.EnqueueUpload: the set of names that may be in the cloud, to which an upload is added, is not modelled.
- CuckooObjects.CuckooFilter.Add: the seed that picks which resident to move does not wrap around; the number of buckets is stored as its logarithm.
- KeyFilter.PeerFilters.ClusterMaybeHasKey: a filter is a set of added keys plus arbitrary false positives, which is what the cuckoo chain is proved to be while no segment overflows.
- `effects/effect.go` `evaluateBindForkChoice`, `NormalizeCloudTipCandidates`, backfill and anti-entropy: not modelled.
- `effects/effect.go` `ingestNackTips`: runs the same loop as `collectCausalChain` and is not repeated.
- Adjudication of competing binds on read, snapshots with verdicts, serialization leaders: not modelled.
- Retry of a lost compare-and-swap when the index is updated: an index update is one step.
- Network, TLS, files, memory mapping, metrics, tracing and logging: not modelled.
- The cache and the key trie: not modelled.
