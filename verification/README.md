# Verified models of the benchmark protocols and algorithms

This Dafny 4.11 project models the algorithmic core of the repository's
benchmark and audit tools and proves what that code is for. `dafny verify
dfyconfig.toml` checks all of it. Code that only computes is a function; code
that changes fields, arrays or dictionaries in a loop is a method or a class
proved against a function or a predicate, and the lemmas are about those.

## What is modelled

**Draft parking** (`Parking*.dfy`). A scheduler and a worker share a first-in
first-out queue of immutable steps and exchange acknowledgements that may be
late, reordered, repeated or lost. A world is the request's state together with
the committed log, the context built so far and all acknowledgements ever sent;
a run is any sequence of park, arm, schedule, execute, receive, publish and
cancel events in which no acknowledgement is invented. In every run the
stale-proposal error and the missing-context exit are unreachable, the retention
ring holds committed rows only and never more than window + slack of them, the
deferred strategy shows callers exactly what the eager one shows, a cancelled
request only drains, and it is stated exactly which prefixes are published with
positions that were never built. What every call returns is also determined from
outside, by the calls and answers before it.

**Suffix search** (`CopySearch.dfy`, `CopyIndex.dfy`, `CopyScore.dfy`). The
incremental index answers what the exhaustive backward search answers after any
extensions, and its contents depend on the history alone.

**Tree frontier** (`Names.dfy`, `SetSums.dfy`, `CandidateTree.dfy`,
`FrontierTables.dfy`, `TreeFrontier.dfy`, `Shapes.dfy`, `Frontier.dfy`). A node
list is accepted exactly when it is a valid forest. The dynamic program, which
prunes and breaks ties locally, returns for every size the ancestor-closed
selection of greatest reach and, among those, the first in tuple order; since
reach never grows downwards this is also the largest total over all selections
of that size, and gains fall along the frontier.

**Weighted least squares** (`Vectors.dfy`, `Elimination.dfy`,
`LeastSquares.dfy`, `CategoryFit.dfy`). Accumulation, partial pivoting, in-place
elimination and back substitution give the one vector of least weighted squared
error. No estimate is given exactly when the pivoted elimination of the normal
equations meets an unusable pivot, which it always does when the observed
mixtures are not independent.

**Sparse-indexer metadata** (`PrefillSplit.dfy`, `PrefillMetadata.dfy`,
`PrefillBuild.dfy`, `PrefillGroups.dfy`, `DecodeExpansion.dfy`,
`DecodeBuffers.dfy`). Greedy splitting under a product bound, the metadata kernel
with its programs in any order, the two composed, and the repaired decode
expansion into persistent buffers that still hold the lengths being read.

**Paged logits** (`MqaLogits.dfy`). Two differently tiled kernels store the same
untiled sum.

**Container swap** (`NodeSwap.dfy`, `NodeScripts.dfy`). Scripts in which any docker
command may fail and which may die after any of them, the launch script they
start included, beside a watchdog. When both containers can run, when a launch
loses the original, and when a restore brings it back is each stated exactly.

**Activation audit** (`Activation.dfy`, `ActivationAudit.dfy`,
`ActivationWindows.dfy`, `ActivationVerdict.dfy`). The verdict is equivalent to a
statement about every row in terms of widened windows, labels and passes, every
charge is stated, and every row is accounted for once.

**Safetensors and quantization** (`SafetensorsHeader.dfy`, `SafetensorsFile.dfy`,
`Quantize.dfy`). A header is accepted exactly when its tensors tile the payload;
a written file reads back byte for byte exactly when every tensor has bytes and
none is named like the format record; a quantized weight reads back to within
half a step exactly when its stored scale reaches it.

**Counting bounds and energy** (`CycleBounds.dfy`, `DeviceEnergy.dfy`). The
reported bounds are the exact range of what the telemetry leaves open; the
clipped sweep lies between the lower and the upper sums of the interpolated power
curve for every way of cutting the window, so it is the curve's integral.

## Where the code does less than its description

- Re-entry after parking is right for the live window only; a published prefix
  can hold positions a deferred rebuild never covered.
  `ParkingPublish.PublishedPrefixIff` says exactly when,
  `ParkingPublish.GapIsPublished` is a run that does it, and the eager strategy
  never does (`ParkingPublish.EagerPublishesBuilt`).
- `restore` ignores a failed `docker stop`. Original and experiment then run
  together: `NodeSwap.OverlapHappens` is such a run,
  `NodeSwap.OverlapAfterRestoreIff` says after which restores both run,
  `NodeSwap.OverlapPossibleIff` before which one it can happen, and
  `NodeSwap.NeverBoth` proves exclusion for every run in which that one command
  takes effect.
- A failed inspection of the serving name reads as a free name, so `restore`
  leaves the experiment in place and then fails to rename the original
  (`NodeSwap.RestoreRecovers` counts it among the failures it does not survive).
- A `launch` that misses the stopped original in that way goes on to the launch
  script, whose forced removal of the name's holder deletes the original; every
  later `restore` then raises. `NodeSwap.OriginalLostIff` says in which runs the
  original is gone, `NodeSwap.LossPossibleIff` before which launch it can happen,
  `NodeSwap.OriginalKept` that no other failure does it, and
  `NodeSwap.LossHappens` is such a run.
- A tensor named `__metadata__` replaces the format record: it is never read
  back, and if it has bytes the whole file is refused
  (`SafetensorsFile.RoundTrip`, `SafetensorsFile.ReservedIsLost`).
- A tensor without elements is written when it has one axis, and the file is
  accepted, but `load_tensor` raises on its empty buffer
  (`SafetensorsFile.EmptyIsLost`). `write_tensors` raises for tensors without
  axes and for a zero among several axes, since neither has a view of its bytes
  (`SafetensorsFile.WriteTensors`).
- `split_indexer_prefill_chunks` raises when a group has neither queries nor
  keys; `PrefillSplit.RaisesIff` gives the exact inputs and
  `PrefillSplit.EmptyRequestRaises` one of them. With positive query lengths it
  never does (`PrefillSplit.RaisesOnlyOnEmpty`).
- With equal decode lengths the kernel branch returns as many entries as there
  are tokens, whatever padding was requested. `DecodeBuffers.MeetsRequestIff`
  says when that meets the executable specification and
  `DecodeBuffers.PaddingDropped` is an input for which it does not.
- The per-position accepted column adds up to all accepted tokens exactly when
  no cycle accepted more than seven (`CycleBounds.AcceptedColumnSums`; a cycle
  that does is in `CycleBounds.TokenMissed`).
- `activation` does not finish when an excluded probe row carries an unusable
  relaxed count; `ActivationVerdict.Audit` states this as its error case, and
  `ActivationVerdict.NullCountRaises` is a row that triggers it.

## Model

| member | source | states |
|---|---|---|
| ParkingSafety.NoStaleProposal | bench/spec_k0_screen.py:82-165 | in every run, an open request with a positive-cap step at the queue head has a proposal for the current position; the stale-proposal error and the missing-context acknowledgement never occur |
| ParkingSafety.OnlyOwnIntentPrecedes | bench/spec_k0_screen.py:82-165 | in every run, whatever precedes a positive-cap step in the queue has the same intent and does not park |
| ParkingSafety.RingRefinesLog | bench/spec_k0_screen.py:96-152 | in every run, each retained row is the committed row of its position and there are at most window + slack of them, and every unmaterialized position they reach back to is among them |
| ParkingSafety.ReadyMeansWindowBuilt | bench/spec_k0_screen.py:104-156 | a ready acknowledgement means the live window was built from committed rows, the rebuild covered exactly the dirty range in bounded chunks, and the proposal is for the new position |
| ParkingSafety.DrainingReleasesLease | bench/spec_k0_screen.py:104-180 | from a cancellation on, whatever events follow, nothing is committed, issued or accepted, and the lease is releasable exactly when every step that was queued has been taken off |
| ParkingSafety.DrainEnds | bench/spec_k0_screen.py:104-180 | executing the steps queued at a cancellation, in order, makes the lease releasable |
| ParkingPublish.PublishedPrefixIff | bench/spec_k0_screen.py:125-169 | in every run, a prefix that may be published was built completely from committed rows exactly when no re-entry started its live window behind a materialized end inside that prefix |
| ParkingPublish.EagerPublishesBuilt | bench/spec_k0_screen.py:115-169 | the eager strategy never publishes a position it has not built |
| ParkingPublish.GapIsPublished | bench/spec_k0_screen.py:125-169 | a legal run after which a prefix with an unbuilt position may be published |
| ParkingSafety.NextKeepsInv | bench/spec_k0_screen.py:68-180 | every event keeps queue, scheduler, acknowledgements, ring and context consistent |
| ParkingSafety.NextIsSafe | bench/spec_k0_screen.py:104-156 | no event of a consistent world produces a stale-proposal error or a missing-context acknowledgement |
| ParkingSafety.RunKeepsInv | bench/spec_k0_screen.py:68-180 | the same over whole runs |
| ParkingTrace.EveryCallIsExplained | bench/spec_k0_screen.py:68-180 | in every run the answer to each call follows from the calls and answers before it: a schedule call gives the owner, the number of steps issued before, the number of park and arm calls so far, and the requested cap exactly when nothing was asked for or an arm was last and has been acknowledged; only the next step in issue order is executed, for the position after the commits so far; and which calls and acknowledgements are refused |
| ParkingTrace.StateIsExplained | bench/spec_k0_screen.py:68-180 | in every run the queue is the steps issued so far without those taken off, first in first out, and position, published end, draft passes, worker mode and proposal are those of the commits so far |
| ParkingSimulation.DeferredSimulatesEager | bench/spec_k0_screen.py:125-165 | on the same events the deferred strategy gives the same steps, acknowledgements, positions, anchors and scheduler state as the eager one, and the same live context once it is up to date |
| ParkingSimulation.TwinNext | bench/spec_k0_screen.py:68-180 | one event keeps an eager and a deferred request alike and shows callers the same thing, except that publishing succeeds at least as often when eager |
| ParkingRing.CommitKeeps | bench/spec_k0_screen.py:96-156 | every committed step keeps ring and context exact, and arming and active steps always draft for the new position |
| ParkingRing.RebuildFindsEveryRow | bench/spec_k0_screen.py:138-147 | a rebuild from a consistent ring never misses a row |
| ParkingRing.RingHoldsCommittedRows | bench/spec_k0_screen.py:96-121 | a consistent ring stores only committed rows and no more than its capacity |
| ParkingRing.DraftBuildsWindow | bench/spec_k0_screen.py:138-152 | after an arming or active step every live-window position has context from its committed row, and the report lists exactly the unmaterialized live-window positions, in full chunks but the last |
| Parking.ChunksCoverExactly | bench/spec_k0_screen.py:149 | rebuild chunks concatenate to the required range and are all full but the last, which is not empty |
| Parking.Retained | bench/spec_k0_screen.py:96-102 | which rows are kept after retaining, and which values they have |
| ParkingClass.ParkingModel.constructor | bench/spec_k0_screen.py:47-66 | the object starts as the initial state |
| ParkingClass.ParkingModel.Create | bench/spec_k0_screen.py:47-66 | bad strategy geometry is refused, anything else starts as the initial state |
| ParkingClass.ParkingModel.Park | bench/spec_k0_screen.py:68-73 | refines the park step of the state machine, including its error |
| ParkingClass.ParkingModel.Arm | bench/spec_k0_screen.py:75-80 | refines the arm step |
| ParkingClass.ParkingModel.Schedule | bench/spec_k0_screen.py:82-94 | refines scheduling: cap and action by intent, sequence numbers, the queue |
| ParkingClass.ParkingModel.Retain | bench/spec_k0_screen.py:96-102 | the loop and the trim leave exactly the specified ring |
| ParkingClass.ParkingModel.Execute | bench/spec_k0_screen.py:104-156 | refines execution, with every check in order and every exit |
| ParkingClass.ParkingModel.Commit | bench/spec_k0_screen.py:119-156 | refines the commit for both strategies |
| ParkingClass.ParkingModel.Receive | bench/spec_k0_screen.py:158-165 | refines acknowledgement handling |
| ParkingClass.ParkingModel.PublishPrefix | bench/spec_k0_screen.py:167-169 | refines the publication check |
| ParkingClass.ParkingModel.Cancel | bench/spec_k0_screen.py:171-174 | refines cancellation |
| ParkingClass.ParkingModel.RetentionLeaseReleasable | bench/spec_k0_screen.py:176-180 | closed and drained |
| ParkingClass.SlotsForPositions | bench/spec_k0_screen.py:183-190 | succeeds exactly when every position is addressable, and then maps each through its block |
| ParkingClass.SlotsAreDistinct | bench/spec_k0_screen.py:183-190 | equal slots mean the same block and the same offset |
| CopySearch.BestStartIsMostRecent | bench/copy_opportunity.py:14-24 | the search for one width finds the most recent complete occurrence in reach, or there is none |
| CopySearch.ProposalIsChosen | bench/copy_opportunity.py:14-24 | the proposal is the continuation at the most recent occurrence of the first width that occurs |
| CopySearch.NothingOrChosen | bench/copy_opportunity.py:14-24 | nothing is proposed exactly when no width occurs |
| CopySearch.Scan | bench/copy_opportunity.py:19-23 | the backward loop of one width |
| CopySearch.Propose | bench/copy_opportunity.py:14-24 | the loops together compute the specified proposal |
| CopyIndex.LookupIsLastMatch | bench/copy_opportunity.py:60-67 | looking a key up in the dictionary is searching backwards for it |
| CopyIndex.ExpireDropsOldest | bench/copy_opportunity.py:48-51 | expiring the oldest queue entry removes its key exactly when no later occurrence replaced it |
| CopyIndex.ExtendingKeepsEntries | bench/copy_opportunity.py:42-58 | extending the history changes no indexed entry |
| CopyIndex.CopyIndex.constructor | bench/copy_opportunity.py:35-40 | an empty valid index |
| CopyIndex.CopyIndex.Extend | bench/copy_opportunity.py:42-58 | appends the tokens and leaves every width's watermark, dictionary and queue as the history determines them |
| CopyIndex.CopyIndex.Propose | bench/copy_opportunity.py:60-67 | answers exactly what the exhaustive search answers for the history |
| CopyIndex.SameHistorySameIndex | bench/copy_opportunity.py:42-58 | how the history was cut into extensions leaves no trace |
| CopyIndex.QueueBound | bench/copy_opportunity.py:42-58 | a queue holds at most max(0, lookback - width - capacity + 1) entries |
| CopyScore.ScoreRun | bench/copy_opportunity.py:70-101 | scoring through the incremental index gives the score defined by the exhaustive search; a missing prompt is refused |
| CopyScore.ScoreIsConsistent | bench/copy_opportunity.py:70-101 | one accepted length per match, none above seven, and the full matches counted |
| CopyScore.ScoreMeans | bench/copy_opportunity.py:70-101 | the boundaries counted, and for each of them, in order, whether one of the widths 16, 8, 4 occurs and how many of the seven tokens after its most recent occurrence are what the output goes on with |
| CopyScore.ConfirmedIsUnique | bench/copy_opportunity.py:91-95 | the counted prefix is the only one that agrees and stops at the first difference |
| Names.TupleOrderIsSetOrder | bench/spec_architecture_screen.py:100-103 | comparing ascending tuples of one size is comparing their sets at the smallest name they differ on |
| Names.LessMeans | bench/spec_architecture_screen.py:46-48 | names are ordered by their first difference, a proper prefix first |
| CandidateTree.ValidateTree | bench/spec_architecture_screen.py:27-70 | accepts exactly the valid forests, and computes sorted children and path probabilities for them |
| CandidateTree.ValidIff | bench/spec_architecture_screen.py:27-64 | said of the list: at most 128 nodes with a name, a token and a probability each, distinct names, known parents, distinct tokens and mass at most one under each parent, and no cycle |
| CandidateTree.ReachIsProduct | bench/spec_architecture_screen.py:51-62 | reach is the product of the conditionals along the chain from the root |
| CandidateTree.VisitAll | bench/spec_architecture_screen.py:51-64 | the recursive visits succeed exactly when no parent chain cycles, and reach is the product of conditionals |
| CandidateTree.SortAndCheck | bench/spec_architecture_screen.py:46-50 | sibling groups are sorted and accepted exactly when tokens differ and mass is at most one |
| FrontierTables.Offer | bench/spec_architecture_screen.py:102-104 | the stored entry beats both what was there and the candidate |
| FrontierTables.Merge | bench/spec_architecture_screen.py:94-105 | merging tables that are best for two disjoint families gives the table that is best for their unions |
| TreeFrontier.SelectionsGrow | bench/spec_architecture_screen.py:106-110 | adding a child's subtree to the merged ones extends the selections by exactly the optional selections of that subtree |
| TreeFrontier.Subtree | bench/spec_architecture_screen.py:106-110 | the recursion returns the best table over all ancestor-closed selections of the subtree |
| TreeFrontier.MergeChildren | bench/spec_architecture_screen.py:106-113 | the loop over children returns the best table over the top and all its descendants |
| Frontier.FrontierOf | bench/spec_architecture_screen.py:84-118 | succeeds exactly for budgets 0 to 128 and valid trees, with one plan per size 0 to min(budget, n), each ancestor-closed, of greatest total reach, first in tuple order among equals, with the shape its nodes have in the sorted preorder |
| Frontier.BestIsLargest | bench/spec_architecture_screen.py:94-118 | the best ancestor-closed selection of a size has the largest total of all selections of that size |
| Frontier.GainsFall | bench/spec_architecture_screen.py:94-118 | marginal gains along the frontier do not increase |
| Frontier.ReachShrinks | bench/spec_architecture_screen.py:52-64 | a child's reach is never negative and never exceeds its parent's |
| Frontier.Greedy | bench/spec_architecture_screen.py:52-64 | for every size some ancestor-closed selection consists of the nodes reached most often |
| Frontier.BestPlanIsUnique | bench/spec_architecture_screen.py:94-118 | at most one selection is best for a size |
| SetSums.DominatingIsLargest | bench/spec_architecture_screen.py:94-118 | a set whose members outweigh all others has the largest sum of its size |
| Shapes.Walk | bench/spec_architecture_screen.py:65-69 | the walk is the preorder of the forest with siblings in ascending order: every node once, every parent before its children |
| Shapes.WalkIsUnique | bench/spec_architecture_screen.py:65-69 | a forest has one such preorder |
| Shapes.WalkOrders | bench/spec_architecture_screen.py:65-69 | a node comes before what is below it, and an earlier sibling with everything below it before a later one |
| Shapes.ShapeKey | bench/spec_architecture_screen.py:73-81 | raises exactly when the selection is not ancestor-closed; otherwise each index names the parent's place, which comes earlier, or zero for a root |
| Elimination.SwapKeepsSolutions | bench/harness_call_attrib.py:74 | exchanging two equations keeps all solutions |
| Elimination.ReductionKeepsSolutions | bench/harness_call_attrib.py:78-82 | subtracting multiples of the pivot row keeps all solutions, both ways |
| Elimination.ReductionClearsColumn | bench/harness_call_attrib.py:78-82 | the column becomes zero below the pivot and earlier columns stay zero |
| Elimination.EliminatedKeeps | bench/harness_call_attrib.py:72-82 | an elimination that reaches its end has the original solutions and leaves a triangle with usable pivots |
| Elimination.PivotIsLargest | bench/harness_call_attrib.py:73-74 | the row moved up has the largest remaining entry of the column |
| Elimination.EliminatedStops | bench/harness_call_attrib.py:72-82 | an elimination that stops has come, without changing the solutions, to a column none of whose remaining entries exceeds the tolerance |
| Elimination.SubstituteOne | bench/harness_call_attrib.py:83-85 | each value filled in is forced by the ones after it |
| LeastSquares.GradientIsGap | bench/harness_call_attrib.py:56-69 | the accumulated equations leave over exactly the downhill direction of the squared error |
| LeastSquares.ErrorExpands | bench/harness_call_attrib.py:49-69 | the squared error along a line is the quadratic given by value, slope and spread |
| LeastSquares.NormalEquationsCharacterise | bench/harness_call_attrib.py:49-69 | the normal equations hold at exactly the vectors of least weighted squared error |
| CategoryFit.BuildNormal | bench/harness_call_attrib.py:56-69 | the nested loops accumulate the normal equations of the rows that are not skipped |
| CategoryFit.KeptAre | bench/harness_call_attrib.py:59-65 | the samples are, in order, those of all calls of at least five drafts whose mixture has a sum, each with the emitted tokens as weight and drafts per emitted token as target |
| CategoryFit.SumIsZeroIff | bench/harness_call_attrib.py:61 | a mixture without negative shares has no sum exactly when all its shares are zero |
| CategoryFit.ToleranceIs | bench/harness_call_attrib.py:70-77 | a pivot is unusable up to 1e-12 or 1e-10 of the largest entry, whichever is larger |
| CategoryFit.SelectPivot | bench/harness_call_attrib.py:73 | the first row with the largest entry of the column |
| CategoryFit.EliminateBelow | bench/harness_call_attrib.py:78-82 | the in-place loops leave the reduced system |
| CategoryFit.Eliminate | bench/harness_call_attrib.py:70-82 | the loop ends as the pivoted elimination on values does: at the first column whose largest remaining entry is unusable, with all earlier pivots usable, or with the reduced system |
| CategoryFit.BackSubstitute | bench/harness_call_attrib.py:83-85 | the filled vector is the one solution of the triangular system |
| CategoryFit.Fitted | bench/harness_call_attrib.py:49-90 | no estimate is given exactly when the elimination of the normal equations meets an unusable pivot; otherwise each estimate is the inverse of its entry in the unique vector of least weighted squared error, where that entry lies between an eighth and one, and missing elsewhere, with the ratio of the smallest to the largest pivot |
| CategoryFit.UnidentifiedMeans | bench/harness_call_attrib.py:71-77 | no estimate is given only when the normal equations, their solutions unchanged, have come to a column all of whose remaining entries count as zero |
| CategoryFit.TwoMinimisersAreUnidentified | bench/harness_call_attrib.py:49-77 | if two different vectors have the least error, no estimate is given |
| CategoryFit.DependentMixturesAreUnidentified | bench/harness_call_attrib.py:49-77 | if some non-zero vector is orthogonal to every mixture that is used, no estimate is given |
| PrefillSplit.Split | results/tonyd2wild-indexer-audit/image-indexer.py:69-115 | the loops return the chunks of the greedy grouping, or raise |
| PrefillSplit.TakeGroup | results/tonyd2wild-indexer-audit/image-indexer.py:92-107 | a group is as many requests as fit both limits, or one request that does not fit at all |
| PrefillSplit.GroupIsUnique | results/tonyd2wild-indexer-audit/image-indexer.py:92-107 | only one group begins at a request |
| PrefillSplit.ChunksTile | results/tonyd2wild-indexer-audit/image-indexer.py:69-115 | in order, the chunks name every query token once and in order |
| PrefillSplit.EveryChunkOk | results/tonyd2wild-indexer-audit/image-indexer.py:69-115 | every chunk belongs to one group, has one query or respects the bound on queries times keys; with one query more, or one request more, a bound would be broken; groups over the workspace are single requests and groups of several requests are never cut |
| PrefillGroups.FewestChunks | results/tonyd2wild-indexer-audit/image-indexer.py:109-113 | a group is cut into as few chunks as any cutting of its queries within the bound has |
| PrefillSplit.RaisesIff | results/tonyd2wild-indexer-audit/image-indexer.py:109-113 | the zero step is reached exactly when a run of empty requests is cut off on both sides by oversize requests or the ends |
| PrefillSplit.RaisesOnlyOnEmpty | results/tonyd2wild-indexer-audit/image-indexer.py:109-113 | it is reached only when some request has no query |
| PrefillSplit.EmptyRequestRaises | results/tonyd2wild-indexer-audit/image-indexer.py:109-113 | one request without queries and keys raises |
| PrefillMetadata.Launch | results/tonyd2wild-indexer-audit/image-indexer.py:725-778 | from arbitrary buffers and in any program order, every token gets its interval and every gathered key its request |
| PrefillMetadata.BuildChunk | results/tonyd2wild-indexer-audit/image-indexer.py:646-722 | nothing for a chunk without compressed keys, otherwise the chunk's intervals, offsets and token range |
| PrefillMetadata.IntervalIsOwnHistory | results/tonyd2wild-indexer-audit/image-indexer.py:742-771 | a token's interval begins with its request's segment and has (absolute position + 1) // ratio keys |
| PrefillMetadata.PositionsMean | results/tonyd2wild-indexer-audit/image-indexer.py:742-771 | the last query token is at the last position of its sequence, every earlier one as many positions before as tokens follow it |
| PrefillMetadata.LastSeesAll | results/tonyd2wild-indexer-audit/image-indexer.py:742-771 | the last query token of a request sees its whole segment |
| PrefillMetadata.OwnerMeans | results/tonyd2wild-indexer-audit/image-indexer.py:742-778 | a gathered key is labelled with the request whose segment it lies in |
| PrefillMetadata.StaysInSegment | results/tonyd2wild-indexer-audit/image-indexer.py:742-771 | that many keys stay inside the request's own segment |
| PrefillMetadata.SubChunksConcatenate | results/tonyd2wild-indexer-audit/image-indexer.py:646-722 | cutting any slice in two concatenates its intervals, and only the first part gathers keys |
| PrefillBuild.BuildPrefill | results/tonyd2wild-indexer-audit/image-indexer.py:502-556 | one record per chunk with compressed keys, in chunk order |
| PrefillBuild.RecordsInOrder | results/tonyd2wild-indexer-audit/image-indexer.py:538-556 | the records follow one another and share no token |
| PrefillBuild.SplitIsInOrder | results/tonyd2wild-indexer-audit/image-indexer.py:530-556 | so do the chunks they are built from |
| PrefillBuild.TokenIsCovered | results/tonyd2wild-indexer-audit/image-indexer.py:502-556 | every prefill token is in a record exactly when its group has compressed keys, then in one record only, and there its interval is its own history |
| PrefillGroups.GroupConcatenates | results/tonyd2wild-indexer-audit/image-indexer.py:502-556 | however often a group was cut, its records are consecutive, are all the records of its requests, follow one another from its first to its last query, concatenate to the intervals of the uncut group, and only the first gathers keys |
| DecodeExpansion.RepeatedOf | results/tonyd2wild-indexer-audit/image-indexer.py:416-433 | the repeated value of entry t is its request's value |
| DecodeExpansion.EntryMeans | results/tonyd2wild-indexer-audit/image-indexer.py:351-398 | every token of every request has an entry, after those of the tokens before it; its last token sees all keys of the request, each earlier one as many fewer as tokens follow, and each reads the request's row of the table, zero beyond its end |
| DecodeExpansion.PaddingMeans | results/tonyd2wild-indexer-audit/image-indexer.py:380-398 | entries beyond the last token see nothing and have empty rows |
| DecodeExpansion.UniformRequest | results/tonyd2wild-indexer-audit/image-indexer.py:47-49 | with equal lengths, division and remainder find an entry's request and token |
| DecodeBuffers.Builder.CopyRow | bench/repro/indexer_block_table_width.py:36-41 | the masked block loop writes the source row zero-extended and nothing else |
| DecodeBuffers.Builder.UniformProgram | results/tonyd2wild-indexer-audit/image-indexer.py:47-66 | one kernel program completes its entry and touches no other |
| DecodeBuffers.Builder.ExpandUniform | results/tonyd2wild-indexer-audit/image-indexer.py:380-398 | the kernel branch completes every entry, programs in any order, and zeroes the unused lengths |
| DecodeBuffers.Builder.ExpandVariable | bench/repro/indexer_block_table_width.py:53-60 | the variable branch completes every entry and padding row from arbitrary stale contents, reading the lengths from the buffer it overwrites |
| DecodeBuffers.Builder.Prepare | results/tonyd2wild-indexer-audit/image-indexer.py:351-469 | which branch runs, when the repair raises, and what the buffers hold afterwards |
| DecodeBuffers.MeetsRequestIff | bench/repro/indexer_block_table_width.py:115-130 | as many entries come back as were requested exactly when lengths differ or no padding was requested |
| DecodeBuffers.PaddingDropped | bench/repro/indexer_block_table_width.py:115-130 | a request for five entries that gets four |
| DecodeBuffers.NativeEntry | results/tonyd2wild-indexer-audit/image-indexer.py:455-468 | in the two-dimensional lengths, token j of request b attends to the keys up to its own position |
| DecodeBuffers.NativeAgrees | results/tonyd2wild-indexer-audit/image-indexer.py:455-468 | where all lengths are equal the two-dimensional lengths are those of the expansion |
| MqaLogits.GenericLane | bench/repro/sm12x_mqa_old.py:222-288 | with masked tiles a lane of the generic kernel computes the untiled sum, or minus infinity outside the context |
| MqaLogits.RowwiseLane | bench/repro/sm12x_mqa_old.py:339-416 | with head tiles and masked tail heads a lane of the row-wise kernel computes the same |
| MqaLogits.RowwiseProgram | bench/repro/sm12x_mqa_old.py:339-421 | the early exit stores what the full computation would |
| MqaLogits.Generic | bench/repro/sm12x_mqa_old.py:186-293 | the grid stores every logit: minus infinity at and past the row's context length, elsewhere the sum over heads of the positive scaled products times their weights |
| MqaLogits.Rowwise | bench/repro/sm12x_mqa_old.py:296-421 | so does the row-wise grid |
| MqaLogits.KernelsAgree | bench/repro/sm12x_mqa_old.py:186-421 | the two kernels leave the same logits for all shapes, tables, context lengths and tile sizes |
| MqaLogits.LogitIsNotNegative | bench/repro/sm12x_mqa_old.py:279 | with weights that are not negative nothing negative is stored |
| MqaLogits.LogitReadsOnly | bench/repro/sm12x_mqa_old.py:222-293 | what is stored depends on the row's own query, on the one key that the block table names for the column, on its scale, and on the weights of the heads whose scaled product is positive, and on nothing else |
| MqaLogits.OneHead | bench/repro/sm12x_mqa_old.py:279-286 | with one head that scores, the scaled product times the weight is stored |
| NodeSwap.NeverBoth | bench/spec_node.py:146-262 | in any interleaving in which the unchecked stop takes effect, original and experiment never run together; every other docker command may fail, and scripts may die anywhere |
| NodeSwap.OverlapNeedsLeak | bench/spec_node.py:146-262 | in every run, both running means an unchecked stop failed |
| NodeSwap.OverlapAfterRestoreIff | bench/spec_node.py:242-262 | both run after a successful restore exactly when the experiment was running and had been put away before or was not stopped; a restore that raises changes nothing about it |
| NodeSwap.OverlapPossibleIff | bench/spec_node.py:242-262 | some outcome of a restore leaves both running exactly when the experiment is running before it and the original still exists |
| NodeSwap.OverlapHappens | bench/spec_node.py:242-262 | such a run exists |
| NodeSwap.RestoreRecovers | bench/spec_node.py:242-262 | after a crash or failure at any step of stop, launch or restore, a restore is over after at most eight steps and has put the original back, running, exactly when no earlier launch removed the original and no command it needed failed; otherwise it has raised |
| NodeSwap.RestoreAlone | bench/spec_node.py:242-262 | what a restore leaves for every combination of failing commands, and when it raises |
| NodeSwap.RestoreAgain | bench/spec_node.py:242-262 | after a restore that raised anywhere, one whose commands succeed puts the original back exactly when it still exists |
| NodeSwap.RestoreTwice | bench/spec_node.py:242-262 | after a restore that succeeded a second one changes nothing, whatever becomes of its commands |
| NodeSwap.RunKeepsInv | bench/spec_node.py:146-262 | every run keeps names unique and each script's established facts |
| NodeSwap.StopAlone | bench/spec_node.py:146-163 | what a stop leaves for every combination of failing commands, and when it raises |
| NodeSwap.LaunchAlone | bench/spec_node.py:166-208 | what a launch leaves of the original and the experiment for every combination of failing commands, and when it raises: it removes the original exactly when it frees a name under which it did not see it |
| NodeSwap.OriginalLostIff | launch-glm53big-dcp.sh:258-262 | in every run, the original is gone exactly when some launch failed to inspect the name the stopped original carried and then freed that name |
| NodeSwap.OriginalKept | bench/spec_node.py:166-208 | as long as no launch fails to inspect the name while the original carries it, no failure or crash loses the original |
| NodeSwap.LossPossibleIff | launch-glm53big-dcp.sh:258-262 | some outcome of a launch removes the original exactly when nothing has tripped and the original is stopped under the serving name |
| NodeSwap.LossHappens | launch-glm53big-dcp.sh:258-262 | a run whose launch succeeds and loses the original, after which no restore succeeds |
| NodeSwap.WatchdogTrips | bench/spec_node.py:211-231 | an armed watchdog that acts marks the node, stops the experiment if its kill works, and leaves the original alone |
| NodeSwap.NoLaunchAfterTrip | bench/spec_node.py:166-231 | once it has tripped and no launch is under way, nothing is launched any more, whatever happens |
| NodeSwap.CheckedFailureRaises | bench/spec_node.py:146-262 | a checked command that fails ends its script and changes nothing, and every other failure lets the script go on |
| NodeSwap.StopWorks | bench/spec_node.py:146-163 | without failures a stop leaves the original aside and stopped, and the watchdog armed |
| NodeSwap.LaunchWorks | bench/spec_node.py:166-208 | without failures a launch then leaves the experiment running under the serving name |
| NodeSwap.LaunchRefuses | bench/spec_node.py:166-173 | a launch changes nothing on a tripped node, with the original running, or with the name seen taken |
| NodeScripts.SpecNode.Stop | bench/spec_node.py:146-163 | the commands in order leave what the state machine says, for every combination of failures |
| NodeScripts.SpecNode.Launch | bench/spec_node.py:166-208 | likewise for launch |
| NodeScripts.SpecNode.LaunchCommands | launch-glm53big-dcp.sh:258-386 | the launch script removes whatever carries the name, goes on whether or not it could, and fails unless the experiment runs at the end |
| NodeScripts.SpecNode.Watch | bench/spec_node.py:211-231 | one reaction of the watchdog never touches the original |
| NodeScripts.SpecNode.Restore | bench/spec_node.py:242-262 | likewise for restore |
| Activation.CleanIff | bench/spec_think_tasks_report.py:327-369 | a row adds no failure to any arm exactly when it is clean: unlabelled, unrelaxed and without margin in control windows, within its windows with its margin and scope when counted for a treatment, labelled in treatment windows |
| Activation.OneClass | bench/spec_think_tasks_report.py:298-346 | a row belongs to one class only |
| ActivationWindows.InOrderIff | bench/spec_think_tasks_report.py:294-369 | a timed row is clean exactly when, in a widened control window, it is unlabelled, unrelaxed, without margin and complete; counted for a treatment, it lies in a widened window of its own with its settings; and in treatment windows only, it is labelled |
| ActivationWindows.CountedIff | bench/spec_think_tasks_report.py:303-346 | which rows count for an arm |
| ActivationWindows.ProbeIff | bench/spec_think_tasks_report.py:311-321 | which rows are an arm's probes |
| ActivationWindows.OtherIff | bench/spec_think_tasks_report.py:311-325 | which rows are other traffic |
| ActivationWindows.OutsideIsOther | bench/spec_think_tasks_report.py:311-325 | a verify row outside all widened windows, and unlabelled or outside all passes, is other traffic |
| ActivationWindows.ChargesAre | bench/spec_think_tasks_report.py:326-369 | how often a row charges an arm with each failure |
| ActivationAudit.Attribute | bench/spec_think_tasks_report.py:326-369 | the branches for rows in call windows change the arms' counts, relaxation and failures by what the row is worth |
| ActivationAudit.ObserveProbe | bench/spec_think_tasks_report.py:312-323 | probe rows are charged to the arm their label or window names, kept apart from the proof |
| ActivationAudit.Observe | bench/spec_think_tasks_report.py:298-369 | one turn of the loop accounts for the row, or raises for an unreadable probe row |
| ActivationVerdict.Audit | bench/spec_think_tasks_report.py:283-385 | errors, totals, final failures, and a proven verdict exactly when every row is in order, every arm has a row that counts for it and every treatment one that relaxed tokens, all in terms of windows widened by the slack, labels and passes |
| ActivationVerdict.TotalsGrow | bench/spec_think_tasks_report.py:303-369 | what each row adds to an arm's counts and relaxed tokens, and to its probes' |
| ActivationVerdict.PlainTotalsGrow | bench/spec_think_tasks_report.py:298-326 | what each row adds to the ignored, untimed, other and overlapping counts |
| ActivationVerdict.FinalCounts | bench/spec_think_tasks_report.py:370-377 | which closing failures an arm gets |
| ActivationVerdict.UnreadableIff | bench/spec_think_tasks_report.py:312-321 | for which rows the audit raises |
| ActivationVerdict.EveryRowIsSomewhere | bench/spec_think_tasks_report.py:298-385 | ignored, untimed, other, unattributed, probe and per-arm counts add up to the number of rows |
| ActivationVerdict.ProvenLeavesNothing | bench/spec_think_tasks_report.py:298-385 | when proven, nothing is untimed or unattributed and the remaining counts add up |
| ActivationVerdict.NullCountRaises | bench/spec_think_tasks_report.py:312-323 | an excluded probe row with a null count makes the audit raise |
| SafetensorsHeader.CheckOffsets | bench/repack_dense_int8.py:65-73 | the loop over sorted entries |
| SafetensorsHeader.AcceptedIffTiled | bench/repack_dense_int8.py:64-75 | in any entry order and with empty tensors, the check succeeds exactly when the tensors tile the payload |
| SafetensorsHeader.WidthsAre | bench/repack_dense_int8.py:25-26 | the element sizes |
| SafetensorsFile.Header | bench/repack_dense_int8.py:50-75 | accepts exactly bounded headers that decode and whose tensors tile the rest of the file |
| SafetensorsFile.FramedIff | bench/repack_dense_int8.py:50-62 | the length is read from the first eight bytes, lowest first, and must lie between 2 and 64 MiB and within the file |
| SafetensorsFile.LoadTensor | bench/repack_dense_int8.py:95-109 | loads type, shape and bytes of a named tensor of an accepted file, or raises, also for an empty one |
| SafetensorsFile.LoadedIff | bench/repack_dense_int8.py:95-109 | which tensors of an accepted file load, and how many bytes they have |
| SafetensorsFile.WriteTensors | bench/repack_dense_int8.py:112-131 | writes the specified file exactly when every tensor is contiguous, of a supported type and has a view of its bytes, and raises otherwise |
| SafetensorsFile.RoundTrip | bench/repack_dense_int8.py:95-131 | every written tensor loads back with its name, shape, type and bytes exactly when each has bytes and none is named like the format record; which ones load is known either way |
| SafetensorsFile.AcceptedIffReservedEmpty | bench/repack_dense_int8.py:50-131 | a written file is accepted exactly when no bytes were written under the reserved key |
| SafetensorsFile.HeaderDecodes | bench/repack_dense_int8.py:112-131 | the written header has no key twice, so a codec that decodes such objects decodes it |
| SafetensorsFile.PaddedIs | bench/repack_dense_int8.py:126 | the header is followed by at most seven spaces, up to a multiple of eight bytes |
| SafetensorsFile.ReservedIsLost | bench/repack_dense_int8.py:50-131 | a tensor whose file cannot be read |
| SafetensorsFile.EmptyIsLost | bench/repack_dense_int8.py:95-131 | a tensor that is written into an accepted file and does not load |
| SafetensorsFile.UnpackPack | bench/repack_dense_int8.py:56-57 | the little-endian length reads back |
| Quantize.LanesSurvive | bench/repack_dense_int8.py:166-167 | every lane of a signed word, joined by shifts and bitwise or, reads back |
| Quantize.PackedIs | bench/repack_dense_int8.py:166-167 | the word is the signed number whose bytes, from the low one up, are the four levels and 128 |
| Quantize.StoredWeightIsNear | bench/repack_dense_int8.py:134-169 | a weight reads back to within half a step exactly when its stored scale reaches it |
| Quantize.StoredWeightIsNearest | bench/repack_dense_int8.py:134-169 | no level of the range would read back nearer than the stored one |
| Quantize.TiesGoToEven | bench/repack_dense_int8.py:165 | half way between two levels the even one is taken |
| Quantize.QuantizedRowMeans | bench/repack_dense_int8.py:134-169 | for a matrix row: a word per four weights, a scale per group of the requested width, and each weight nearest under its own group's scale |
| Quantize.QuantizedScaleMeans | bench/repack_dense_int8.py:159-164 | each stored scale is the rounded value that makes its group's largest weight 127 steps, or one for a group of zeros |
| Quantize.BadScaleIs | bench/repack_dense_int8.py:162-163 | a matrix of the right shape is refused only for a group whose rounded scale is not positive |
| Quantize.ExactScaleReaches | bench/repack_dense_int8.py:159-161 | scales kept exactly reach every weight of their group |
| Quantize.QuantizeBlocks | bench/repack_dense_int8.py:155-167 | the block size leaves no trace in the result |
| Quantize.QuantizeMatrix | bench/repack_dense_int8.py:134-169 | which inputs are refused, and what is stored for the rest |
| CycleBounds.BoundsHold | bench/spec_request_report.py:156-163 | every assignment of relaxed counts to accepted positions lies within the bounds |
| CycleBounds.BoundsAreSharp | bench/spec_request_report.py:160-161 | both bounds are met by some assignment |
| CycleBounds.BoundsAreTheRange | bench/spec_request_report.py:156-163 | the counts that assignments give are the numbers between the bounds, all of them and no others |
| CycleBounds.DeterminedIff | bench/spec_request_report.py:162-163 | a single number is reported exactly when all assignments agree |
| CycleBounds.AcceptedColumnSums | bench/spec_request_report.py:132-140 | the accepted column adds up to all accepted tokens exactly when no cycle accepted more than seven |
| CycleBounds.TokenMissed | bench/spec_request_report.py:132-140 | a cycle one of whose accepted tokens is in no position |
| CycleBounds.Curve | bench/spec_request_report.py:132-163 | the per-position table |
| CycleBounds.CountsAre | bench/spec_request_report.py:132-140 | scheduled and accepted are the numbers of cycles that scheduled, and accepted, the position |
| CycleBounds.UsableAre | bench/spec_request_report.py:146-152 | the usable cycles are those neither terminal nor unlearned, in order |
| CycleBounds.FollowingAre | bench/spec_request_report.py:147-152 | the followers are the usable cycles after a usable one, sorted by whether that one was relaxed, in order |
| CycleBounds.CycleStatistics | bench/spec_request_report.py:143-173 | only usable cycles enter the table, used and excluded cycles add up, and the followers are those of adjacent usable pairs |
| CycleBounds.UsedAreFew | bench/spec_request_report.py:146-164 | every used cycle is usable, and no more are used than there are |
| CycleBounds.Follow | bench/spec_request_report.py:147-152 | the cycles that follow a relaxed or an exact cycle of the same request |
| CycleBounds.FollowingPartitions | bench/spec_request_report.py:147-152 | every adjacent usable pair is followed up once |
| DeviceEnergy.SweepIsIntegral | bench/spec_energy_report.py:10-24 | the sweep over a window is the difference of one cumulative energy at its ends |
| DeviceEnergy.LineInterpolates | bench/spec_energy_report.py:20-21 | the interpolated power goes through both readings and is as far along as the time is |
| DeviceEnergy.ReadableIff | bench/spec_energy_report.py:16-19 | readable means that no pair of samples overlapping the window is more than five seconds apart or lacks a reading |
| DeviceEnergy.CurveBoundsEnergy | bench/spec_energy_report.py:10-24 | bounds on the interpolated power inside a window bound the energy of the covered part |
| DeviceEnergy.EnergyIsIntegral | bench/spec_energy_report.py:10-24 | however a window inside the samples is cut, the energy lies between the lower and the upper sum of the interpolated power |
| DeviceEnergy.EnergyBounds | bench/spec_energy_report.py:10-24 | a host's energy lies between its extreme powers times the covered time |
| DeviceEnergy.CoverageTelescopes | bench/spec_energy_report.py:10-24 | covered time is the overlap of the window with the sampled span |
| DeviceEnergy.IntegralIsAdditive | bench/spec_energy_report.py:10-24 | an integrable window may be split anywhere: both parts are integrable and add up |
| DeviceEnergy.AcceptedIffSpanned | bench/spec_energy_report.py:23 | with readable samples, a host supports a window exactly when it is spanned to within a hundredth of a second |
| DeviceEnergy.Integrate | bench/spec_energy_report.py:10-24 | when a total is given, and that it is the sum over the four hosts |
| DeviceEnergy.DecodeEnergy | bench/analyze_adaptive_spec.py:24-49 | the same sweep between first and last chunk, per token after the first chunk |

## Left out

- Floating-point rounding everywhere: floats are exact real numbers, as are the `Fraction` values of the tree screen.
- All file, SSH, docker, HTTP and metrics input and output, argument parsing, report formatting, bootstrap statistics and regular expressions.
- Parking: rows are values, so the copying of list-valued rows is not an aliasing statement; memory, break-even and cost functions of the same file.
- CopyIndex: widths are positive and lookback is not negative, as the command line ensures.
- ScoreRun: runs are sequences of emitted token lists; labels and ratios are not modelled.
- ValidateTree: names, parents and tokens have their types already; non-finite conditionals do not exist.
- FrontierOf: `rank_frontier`, the memory screens and the JSON text of a shape.
- Fitted: counters are non-negative, every share vector has the same positive length, and the tolerance is applied to exact values.
- Split: key and query lengths are not negative.
- BuildPrefill: the CPU copy of the sequence lengths is exact for prefill rows, as its comment says; a request has at least as many positions as queries; slot mapping and scheduling metadata are not built.
- Prepare: the unrepaired expansion, the compression of lengths after expansion, and buffer sizes other than those that hold the request.
- MqaLogits: strides are abstracted into logical indices, and lanes of a program run one after another.
- WriteTensors: a payload that cannot be written leaves the file behind up to that point; only the error is modelled.
- NodeSwap: one experiment label and one launch; a launch that dies takes its launch script with it; no other container carries or contains the serving name; inspect-and-kill is one step of the watchdog; marker files are always written; a command that times out is a crash; `prepare`, `reuse_cache` and the launch environment.
- Audit: label overrides are resolved beforehand, telemetry fields are scalars.
- RoundTrip: JSON is a codec that decodes the header it encoded, which stays within the size that reading accepts.
- QuantizeMatrix: the serialized scale type is any rounding function; tensors on other devices, non-finite weights and the stored shape record.
- Curve: rates are left out; the counts they are made of are modelled.
- DecodeEnergy: the window is given; finding the first and last chunk with tokens is not modelled.
