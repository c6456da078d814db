# Verified models of the cloud server's core

This project models the hardest parts of the Claudian cloud server in Dafny and proves what they are for:

- **One tree policy, three checkers.** `TreePolicy` states the portability policy for Git trees over every place of the
  expansion of a root, and proves that the explicit-stack walk decides it. `AcceptListing` is the chunk-fed checker of a
  flat listing, `ListingAgreement` proves that it agrees with the walk. `TreeBatch` and `HookTreeBatch` are the two
  parsers of a batch stream, `BatchEncoding` the stream itself and the output cap.
- **Crash-safe file protocols.** `DurableRemoval` and `Publication` model a directory as a durable state and an ordered
  log of unsynced changes; a crash keeps any prefix of the log. Every run is a step machine that can fail or crash at
  any step and be started again. A sync makes the whole log durable. Whether a tree is owned is settled when it is
  placed, whatever runs do later; the ownership check answers that question and no other.
- **Admission.** `ResourceAdmission`, `CheckpointStreamAdmission`, `GitReceiveAdmission` and `BootstrapUploadAdmission`
  cut each method at its awaits; every segment is one atomic step, and segments, releases, timeouts, aborts and `close`
  interleave in any order.
- **The accept protocol.** `AcceptJournal` is the journal as transactions, `AcceptRepository` the deterministic merge
  commit and the compare-and-swap on main, `AcceptProtocol` both together under crashes and repetition.
- **Smaller pieces.** `ReceivePolicy` (what an accepted push can do), `ProcessSettlement` (how a Git process settles),
  `SecretEnvelope` (framing over base64url) and `AuthorityPage` (pages within a byte budget).

`RemovalQueue` is the map of promise tails that makes removals under one key follow each other. `Common` holds the shared
vocabulary. In each stateful module a value `State` with a `Step` function gives the meaning,
lemmas prove what every run keeps, and a class with the source's fields and methods is proved to do exactly those steps.
Git, hashing, SQL, file systems and clocks are oracles: functions given as parameters, or preconditions that state what
an exact answer is. Time does not appear; a timeout is an event that may happen at any moment.

Where the code does less than one might expect, the model follows the code:

- A last object id one octet short, or running into the separator, passes the length test of the parsers; agreement of
  the two parsers therefore holds exactly for bodies without such a tail (`HookTreeBatch.HookEntriesAgree`).
- A batch is independent of how it is cut into chunks exactly when its header lines have at most 128 octets
  (`TreeBatch.ChunkIndependence`, and `TreeBatch.LongHeaderOverruns` for the rest).
- `GitReceiveAdmission` writes back a per-project count read before an await. It never falls below the live permits, and
  it is exact in every run exactly when the per-project cap is one (`GitReceiveAdmission.ExactIffCapOne`). A permit can
  still be granted just after `close` was called (`GitReceiveAdmission.GrantedAfterClose`).
- A process with an input stream can resolve although it was terminated after a clean exit; `ProcessSettlement.LateSuccess`
  says exactly when, and `ProcessSettlement.LateSuccessPossible` gives such a run.
- Discarding a published repository leaves behind the marker of an earlier, interrupted discard of its staged copy;
  `Publication.DiscardConverges` says that nothing else can be left, `Publication.StaleMarkerPossible` that it happens.

## Model

| member | source | states |
|---|---|---|
| TreePolicy.ValidateTrees | src/repositories/GitBundleImporter.ts:977-1053 | the walk passes exactly when every entry of the full expansion of every root satisfies the policy, no two paths of one root fold together, the whole expansion is within budget and no tree is too large; a rejection's code is earned by the input |
| TreePolicy.WalkRoots | src/repositories/GitBundleImporter.ts:1010-1053 | the same for the walk over the roots alone, on any tree map, cyclic ones included; it always ends |
| TreePolicy.ExpandFrame | src/repositories/GitBundleImporter.ts:1015-1050 | reading one tree counts each of its entries once and pushes its subtrees, or rejects for a reason found in the expansion |
| TreePolicy.AllExpanded | src/repositories/GitBundleImporter.ts:1011-1052 | when the stack is empty, every place of the expansion has been visited |
| TreePolicy.RootFinished | src/repositories/GitBundleImporter.ts:1011-1052 | a finished root satisfies the policy |
| TreePolicy.BudgetKept | src/repositories/GitBundleImporter.ts:1019-1022 | a count that stayed within the budget bounds every finite set of occurrences |
| TreePolicy.OverBudget | src/repositories/GitBundleImporter.ts:1019-1022 | a count beyond the budget shows the expansion exceeds it |
| TreePolicy.JustifiedRefutes | src/repositories/GitBundleImporter.ts:977-1053 | whatever justifies a rejection contradicts the policy: no allowed input is rejected |
| TreePolicy.CyclicNeverAllowed | src/repositories/GitBundleImporter.ts:995-1053 | a tree that contains itself below some root is refused under every budget |
| AcceptListing.AssertAcceptTreePolicy | src/repositories/GitRepositoryAuthority.ts:1966-1982 | fed chunk by chunk, the parser accepts exactly when the concatenated listing is acceptable |
| AcceptListing.AcceptTreePolicyParser.Push | src/repositories/GitRepositoryAuthority.ts:497-510 | a chunk extends what was fed; the parser fails for good exactly when what was fed can no longer become acceptable |
| AcceptListing.AcceptTreePolicyParser.Finish | src/repositories/GitRepositoryAuthority.ts:512-514 | finishing accepts exactly when nothing is left over and nothing failed |
| AcceptListing.RecordBound | src/repositories/GitRepositoryAuthority.ts:497-543 | an acceptable record never reaches the cut-off of 2048 octets |
| AcceptListing.Hopeless | src/repositories/GitRepositoryAuthority.ts:497-559 | once a record fails, no continuation is acceptable |
| AcceptListing.FedMore | src/repositories/GitRepositoryAuthority.ts:497-510 | records completed so far are those of the concatenation, however it was cut |
| ListingAgreement.ParserAgreesWithWalk | src/repositories/GitRepositoryAuthority.ts:485-560 | on the flat listing of a tree, the parser accepts exactly when the walk allows that root within the same limits |
| ListingAgreement.ListingVerdict | src/repositories/GitRepositoryAuthority.ts:516-554 | checking every line of the listing is the declarative policy on the root |
| ListingAgreement.StreamVerdict | src/repositories/GitRepositoryAuthority.ts:497-543 | the octets of the listing parse back into exactly those lines |
| ListingAgreement.RememberAllExact | src/repositories/GitRepositoryAuthority.ts:546-553 | the folded-path and sibling maps, filled one record at a time, detect exactly the collisions and the overfull parents |
| TreeBatch.ParseTree | src/repositories/GitBundleImporter.ts:862-886 | the loop over one tree object yields exactly its entries, with the source's own length test |
| TreeBatch.StreamingTreeBatchParser.Push | src/repositories/GitBundleImporter.ts:911-955 | a chunk moves the parser to the state of the concatenation |
| TreeBatch.StreamingTreeBatchParser.Finish | src/repositories/GitBundleImporter.ts:957-966 | finishing returns the trees exactly when every expected object was read and nothing is left |
| TreeBatch.ReadRepositoryTrees | src/repositories/GitBundleImporter.ts:1104-1140 | the driver over a stream of chunks returns what the streamed decoding of those chunks is |
| TreeBatch.ChunkIndependence | src/repositories/GitBundleImporter.ts:911-966 | every way of cutting a batch decodes alike exactly when every header line has at most 128 octets |
| TreeBatch.LongHeaderOverruns | src/repositories/GitBundleImporter.ts:916-921 | a longer header line fails when a chunk ends inside it |
| TreeBatch.DrainFed | src/repositories/GitBundleImporter.ts:911-955 | draining after more input is draining, feeding and draining again |
| TreeBatch.HexOfUnhex | src/repositories/GitBundleImporter.ts:878-882 | hexadecimal object ids and their octets determine each other |
| TreeBatch.ValueOfDecimal | src/repositories/GitBundleImporter.ts:922-937 | the size field is read back from its decimal text |
| HookTreeBatch.ParseTreeBatch | src/repositories/GitReceivePackPolicy.ts:229-269 | the hook's one-shot parser with its running offset computes the batch's meaning |
| HookTreeBatch.ParseEntriesInPlace | src/repositories/GitReceivePackPolicy.ts:244-260 | its inner loop, by offsets into one buffer, reads the entries of the body at that offset |
| HookTreeBatch.HookEntriesAgree | src/repositories/GitReceivePackPolicy.ts:244-260 | the hook's parser reads a tree body as the importer's does exactly when the body has no short tail |
| HookTreeBatch.ParsersAgree | src/repositories/GitReceivePackPolicy.ts:229-269 | on a batch whose bodies are whole and whose headers are short, the hook and the streaming parser return the same trees for every chunking |
| BatchEncoding.EntryRoundTrip | src/repositories/GitBundleImporter.ts:866-884 | parsing undoes encoding for one tree entry |
| BatchEncoding.HeaderRoundTrip | src/repositories/GitBundleImporter.ts:916-938 | parsing undoes encoding for an object header |
| BatchEncoding.BatchRoundTrip | src/repositories/GitBundleImporter.ts:911-966 | decoding undoes encoding for a whole batch |
| BatchEncoding.EncodedBatchRead | src/repositories/GitBundleImporter.ts:911-966 | for every chunking of an encoded batch both parsers return exactly the encoded trees |
| BatchEncoding.BatchBound | src/repositories/GitBundleImporter.ts:855-860 | the size of a batch with names of at most 360 octets is bounded by 400 per entry and 82 per tree |
| BatchEncoding.CapNeverRejects | src/repositories/GitReceivePackPolicy.ts:398-399 | the output cap is never reached by distinct trees within the entry budget |
| DurableRemoval.AlwaysSound | src/repositories/DurableTreeRemoval.ts:158-256 | after any history of runs, failures and crashes, every directory a crash could leave is sound |
| DurableRemoval.CrashSafety | src/repositories/DurableTreeRemoval.ts:158-256 | a detached tree has its exact marker, the target is never partly deleted, only owned trees are ever deleted or reported removed, no run reports a conflict, each tree is reported removed at most once and is then nowhere |
| DurableRemoval.ReturnedMeansGone | src/repositories/DurableTreeRemoval.ts:233-251 | on return target, detached tree and marker are durably absent |
| DurableRemoval.ResultHonest | src/repositories/DurableTreeRemoval.ts:192-256 | `removed` names the tree whose marker the run took away, `replayed` none |
| DurableRemoval.NextRunSucceeds | src/repositories/DurableTreeRemoval.ts:158-256 | from whatever state, the next undisturbed run returns exactly unless the target is foreign (not owned and without a marker); a foreign target is refused with nothing changed |
| DurableRemoval.Volume.RemoveDurableOwnedTree | src/repositories/DurableTreeRemoval.ts:192-256 | the procedure, system call by system call, adds the events of one run; success means durably gone; without faults it succeeds exactly unless the target is foreign, and a foreign target is refused with the directory and its unsynced changes as before |
| DurableRemoval.Volume.WriteMarker | src/repositories/DurableTreeRemoval.ts:158-180 | part file, content, rename and sync leave exactly the marker in place, or nothing of it |
| DurableRemoval.Volume.MarkIntent | src/repositories/DurableTreeRemoval.ts:195-216 | the first half ends with the exact marker, with nothing to do, or with a foreign target refused and nothing changed |
| DurableRemoval.Volume.MarkOwned | src/repositories/DurableTreeRemoval.ts:206-213 | nothing is marked before the ownership check has passed; a target that is not owned is refused and nothing changes |
| DurableRemoval.Volume.AssertTargetOwned | src/repositories/DurableTreeRemoval.ts:206-206 | the check answers exactly whether the target is one of the owned trees, whatever runs did before |
| DurableRemoval.Volume.Detach | src/repositories/DurableTreeRemoval.ts:218-231 | the target is renamed aside and synced, when it is still in place |
| DurableRemoval.Volume.DeleteDetached | src/repositories/DurableTreeRemoval.ts:233-243 | recursive deletion, which a failure can leave half done |
| DurableRemoval.Volume.Unmark | src/repositories/DurableTreeRemoval.ts:239-255 | sync, remove the marker, sync |
| RemovalQueue.OneAtATime | src/repositories/DurableTreeRemoval.ts:55-76 | removals under one key run one at a time in the order they were called, and the map of tails names exactly the keys with a removal to finish |
| RemovalQueue.FirstMayRun | src/repositories/DurableTreeRemoval.ts:69-71 | the first unfinished removal of a key never waits |
| RemovalQueue.ResolvedMeans | src/repositories/DurableTreeRemoval.ts:64-67 | a tail that has resolved means every call of the key up to it has finished |
| RemovalQueue.RemovalTails.Enter | src/repositories/DurableTreeRemoval.ts:59-68 | a call leaves its tail and remembers the one it found |
| RemovalQueue.RemovalTails.Resume | src/repositories/DurableTreeRemoval.ts:69-71 | once that tail has resolved, every earlier call of the key has finished |
| RemovalQueue.RemovalTails.Leave | src/repositories/DurableTreeRemoval.ts:72-75 | the own tail is taken away exactly when nobody came after |
| Publication.AlwaysSound | src/repositories/RepositoryCheckpointAuthority.ts:1834-1930 | publishing, discarding, failures and crashes in any order keep every possible crash image sound |
| Publication.OnePlace | src/repositories/RepositoryCheckpointAuthority.ts:1070-1102 | at every point the repository that exists is at exactly one of staged, published and detached under its exact marker, whole and, once published, with its exact record; only a repository of this attempt is ever published or deleted |
| Publication.KeptMeansPublished | src/repositories/RepositoryCheckpointAuthority.ts:1858-1926 | a publish that returns leaves the repository durably published with its record and no longer staged |
| Publication.DiscardedMeansGone | src/repositories/RepositoryCheckpointAuthority.ts:2250-2328 | a discard that returns leaves nothing of the repository at either place, durably |
| Publication.PublishConverges | src/repositories/RepositoryCheckpointAuthority.ts:1857-1926 | left alone, publishing returns exactly when the repository of this attempt is at its staged or published place, and returns that repository |
| Publication.DiscardConverges | src/repositories/RepositoryCheckpointAuthority.ts:2250-2328 | left alone, discarding returns with the repository gone, exactly unless a staged repository of another attempt is in place, which is refused with nothing changed; a marker stays exactly in the case described above |
| Publication.StaleMarkerPossible | src/repositories/RepositoryCheckpointAuthority.ts:2301-2302 | a history after which that marker stays |
| Publication.Placement.PublishInactive | src/repositories/RepositoryCheckpointAuthority.ts:1834-1930 | the procedure: success means durably published, and without faults it succeeds exactly when there is something of this attempt to publish |
| Publication.Placement.WritePublicationMarker | src/repositories/RepositoryCheckpointAuthority.ts:3010-3057 | an exact record is kept, otherwise one is written through a part file; afterwards the record is exact and synced |
| Publication.Placement.MoveRepository | src/repositories/RepositoryCheckpointAuthority.ts:1909-1914 | a failed rename counts as done exactly when the repository is at its published place |
| Publication.Placement.RemoveAt | src/repositories/RepositoryCheckpointAuthority.ts:2269-2300 | the durable removal at one place empties it and leaves the other alone, or refuses a foreign target with nothing changed |
| Publication.Placement.AssertTargetOwned | src/repositories/RepositoryCheckpointAuthority.ts:2277-2293 | the publication record where there is or must be one, the attempt marker otherwise: together they tell exactly whether the repository is of this attempt |
| Publication.Placement.AssertAttemptMarker | src/repositories/RepositoryCheckpointAuthority.ts:1887-1887 | publishing goes on exactly when the staged repository is of this attempt |
| Publication.Placement.RemoveOwnedRepository | src/repositories/RepositoryCheckpointAuthority.ts:2243-2328 | the procedure: success means nothing left; without faults it succeeds exactly unless the staged repository is of another attempt |
| ResourceAdmission.StepKeeps | src/resource-admission/ResourceAdmission.ts:159-319 | every event keeps the invariant, leaves nobody waiting who could run, settles no promise twice and grants nothing after closing |
| ResourceAdmission.Accounts | src/resource-admission/ResourceAdmission.ts:243-278 | counters equal the permits and waiters they count, no cap is exceeded, each live permit's count object is the one in the map, and closing has resolved exactly when asked and idle |
| ResourceAdmission.ArrivalDecided | src/resource-admission/ResourceAdmission.ts:159-187 | in every run a request is granted at once exactly when it is admissible and the live permits leave room globally, in its class and in its project; else it is queued exactly when the waiters leave room in all three bounds; else it is refused with the reason |
| ResourceAdmission.WaitersHaveNoRoom | src/resource-admission/ResourceAdmission.ts:243-251 | in every run nobody waits for whom the live permits leave room |
| ResourceAdmission.ReleaseFrees | src/resource-admission/ResourceAdmission.ts:265-276 | a first release frees exactly its slot, and whoever leaves the queue is granted; any other release changes nothing |
| ResourceAdmission.TimeoutDismisses | src/resource-admission/ResourceAdmission.ts:224-227 | a timeout takes its waiter out as busy; nobody else leaves but by being granted |
| ResourceAdmission.AbortCancels | src/resource-admission/ResourceAdmission.ts:230-237 | an abort cancels exactly the waiters of its signal; nobody else leaves but by being granted |
| ResourceAdmission.CloseRejects | src/resource-admission/ResourceAdmission.ts:189-198 | closing rejects every waiter as closed and touches no permit |
| ResourceAdmission.ArrivalOrderKept | src/resource-admission/ResourceAdmission.ts:170-175 | grants for one project and class follow arrival order, fast path included |
| ResourceAdmission.IdleWriteAtOnce | src/resource-admission/ResourceAdmission.ts:243-251 | a write for an idle project is granted at once whenever no write is active |
| ResourceAdmission.GrantedAtOnceKeeps | src/resource-admission/ResourceAdmission.ts:170-175 | the fast path overtakes nobody of the same project and class |
| ResourceAdmission.PermitKeeps | src/resource-admission/ResourceAdmission.ts:253-263 | a new permit keeps all counts, whether its project's count object is shared or fresh |
| ResourceAdmission.ReleaseKeeps | src/resource-admission/ResourceAdmission.ts:264-276 | a release through the captured count object keeps all counts |
| ResourceAdmission.DrainedKeeps | src/resource-admission/ResourceAdmission.ts:280-297 | draining keeps the invariant and ends with no grantable waiter |
| ResourceAdmission.AbortEvent | src/resource-admission/ResourceAdmission.ts:230-237 | after an abort no waiter of that signal is left, however the drains in between went |
| ResourceAdmission.ResourceAdmission.AcquireGitChild | src/resource-admission/ResourceAdmission.ts:159-187 | the method does exactly the acquire event |
| ResourceAdmission.ResourceAdmission.DrainQueue | src/resource-admission/ResourceAdmission.ts:280-297 | the loop computes the drained state |
| ResourceAdmission.ResourceAdmission.CreatePermit | src/resource-admission/ResourceAdmission.ts:253-278 | the counters and the shared count object after a grant |
| ResourceAdmission.ResourceAdmission.Release | src/resource-admission/ResourceAdmission.ts:265-276 | an idempotent release followed by a drain or the end of closing |
| ResourceAdmission.ResourceAdmission.FireTimeout | src/resource-admission/ResourceAdmission.ts:224-228 | a queue timeout rejects its waiter and drains |
| ResourceAdmission.ResourceAdmission.FireAbort | src/resource-admission/ResourceAdmission.ts:230-237 | the listeners of one signal, one after the other |
| ResourceAdmission.ResourceAdmission.Close | src/resource-admission/ResourceAdmission.ts:189-198 | every waiter is rejected, and closing resolves at once when idle |
| CheckpointStreamAdmission.StepKeeps | src/resource-admission/CheckpointStreamAdmission.ts:265-452 | every segment keeps the invariant, leaves no stream waiting that could run, and resolves closing as soon as all is drained |
| CheckpointStreamAdmission.Conservation | src/resource-admission/CheckpointStreamAdmission.ts:297-384 | reserved bytes are size times held reservations; claims are exactly held plus pending and within both caps; whatever is queued or running still holds its reservation; closing has resolved exactly when all has drained |
| CheckpointStreamAdmission.ReserveDecided | src/resource-admission/CheckpointStreamAdmission.ts:297-313 | in every run a reservation is claimed exactly when the admission is open, the attempt unclaimed and both caps leave room |
| CheckpointStreamAdmission.AcquireDecided | src/resource-admission/CheckpointStreamAdmission.ts:415-434 | in every run a stream is taken exactly when its reservation is held with no release asked, the attempt neither queued nor running and the queue has room; it runs at once exactly when the running streams leave room, and is last in the queue otherwise |
| CheckpointStreamAdmission.WaitersHaveNoRoom | src/resource-admission/CheckpointStreamAdmission.ts:517-523 | in every run nobody waits for whom the running streams leave room |
| CheckpointStreamAdmission.StreamFrees | src/resource-admission/CheckpointStreamAdmission.ts:564-579 | the first release of a stream frees exactly its slot; whoever leaves the queue has its stream; without a release asked for, every reservation stays |
| CheckpointStreamAdmission.DismissTakesOut | src/resource-admission/CheckpointStreamAdmission.ts:587-618 | a timeout or an abort takes its waiter out; its reservation is given up exactly when that was asked for |
| CheckpointStreamAdmission.CloseEmpties | src/resource-admission/CheckpointStreamAdmission.ts:437-452 | closing empties the queue and stops no stream |
| CheckpointStreamAdmission.SpaceChecked | src/resource-admission/CheckpointStreamAdmission.ts:350-363 | a reservation is granted exactly when the free space covers the floor and all reservations, and otherwise its claim is given back |
| CheckpointStreamAdmission.ReleaseDeferred | src/resource-admission/CheckpointStreamAdmission.ts:366-375 | a release while a stream is in flight changes no reservation |
| CheckpointStreamAdmission.StreamEndGivesUp | src/resource-admission/CheckpointStreamAdmission.ts:564-579 | the end of that stream gives the reservation up |
| CheckpointStreamAdmission.NothingAfterClose | src/resource-admission/CheckpointStreamAdmission.ts:350-452 | once closed, no reservation and no stream is granted |
| CheckpointStreamAdmission.FinalizedKeeps | src/resource-admission/CheckpointStreamAdmission.ts:620-646 | giving up a reservation keeps claims, counts and bytes in step |
| CheckpointStreamAdmission.DrainedKeeps | src/resource-admission/CheckpointStreamAdmission.ts:513-548 | draining keeps the invariant and ends with no stream that could run |
| CheckpointStreamAdmission.CheckpointStreamAdmission.ReserveAttempt | src/resource-admission/CheckpointStreamAdmission.ts:297-313 | the claim before the await |
| CheckpointStreamAdmission.CheckpointStreamAdmission.FinishReserve | src/resource-admission/CheckpointStreamAdmission.ts:350-384 | the segment after the await |
| CheckpointStreamAdmission.CheckpointStreamAdmission.Release | src/resource-admission/CheckpointStreamAdmission.ts:366-375 | a reservation's idempotent release |
| CheckpointStreamAdmission.CheckpointStreamAdmission.Acquire | src/resource-admission/CheckpointStreamAdmission.ts:415-427 | queueing a stream of a held reservation, then draining |
| CheckpointStreamAdmission.CheckpointStreamAdmission.DrainQueue | src/resource-admission/CheckpointStreamAdmission.ts:513-548 | the loop computes the drained state |
| CheckpointStreamAdmission.CheckpointStreamAdmission.RemoveAndReject | src/resource-admission/CheckpointStreamAdmission.ts:587-618 | a timeout or abort of a queued stream |
| CheckpointStreamAdmission.CheckpointStreamAdmission.ReleaseStream | src/resource-admission/CheckpointStreamAdmission.ts:564-579 | a stream permit's idempotent release |
| CheckpointStreamAdmission.CheckpointStreamAdmission.Close | src/resource-admission/CheckpointStreamAdmission.ts:437-452 | closing rejects every queued stream |
| GitReceiveAdmission.StepKeeps | src/resource-admission/GitReceiveAdmission.ts:123-236 | every segment keeps the invariant |
| GitReceiveAdmission.ChainMeans | src/resource-admission/GitReceiveAdmission.ts:141-144 | the chain of promises a call awaits has resolved exactly when every earlier call has finished |
| GitReceiveAdmission.Accounts | src/resource-admission/GitReceiveAdmission.ts:145-196 | one call at a time is between reading and updating the counters, in arrival order; caps hold, bytes are conserved, and the project count never falls below the live permits |
| GitReceiveAdmission.ArrivalJoins | src/resource-admission/GitReceiveAdmission.ts:127-144 | an admissible call joins the chain, any other changes nothing |
| GitReceiveAdmission.WokenDecided | src/resource-admission/GitReceiveAdmission.ts:146-157 | in every run a call whose predecessors have finished goes on to measure exactly when the admission is open, it is not aborted, the live permits are below the cap and its project's count is below its cap |
| GitReceiveAdmission.CapOneMeansIdle | src/resource-admission/GitReceiveAdmission.ts:151-157 | with a per-project cap of one that count lets a call through exactly when no permit of its project is live |
| GitReceiveAdmission.ReleaseFrees | src/resource-admission/GitReceiveAdmission.ts:225-234 | a first release takes exactly its permit, its bytes and one of its project's count away |
| GitReceiveAdmission.GivingUp | src/resource-admission/GitReceiveAdmission.ts:189-196 | a call that gives up only finishes |
| GitReceiveAdmission.ExactIffCapOne | src/resource-admission/GitReceiveAdmission.ts:151-186 | the project count is exact in every run exactly when the per-project cap is one |
| GitReceiveAdmission.Overcounts | src/resource-admission/GitReceiveAdmission.ts:151-186 | a run that leaves the count too high, for every larger cap |
| GitReceiveAdmission.GrantedWhen | src/resource-admission/GitReceiveAdmission.ts:175-188 | a permit is granted exactly when the free space covers the floor and all reservations |
| GitReceiveAdmission.GrantedAfterClose | src/resource-admission/GitReceiveAdmission.ts:164-188 | a run in which a permit is granted after `close` was called |
| GitReceiveAdmission.ClosedForGood | src/resource-admission/GitReceiveAdmission.ts:272-276 | closing has resolved exactly when nothing is pending or live, and from then on nothing ever is |
| GitReceiveAdmission.GitReceiveAdmission.Begin | src/resource-admission/GitReceiveAdmission.ts:127-144 | joining the chain |
| GitReceiveAdmission.GitReceiveAdmission.Abandon | src/resource-admission/GitReceiveAdmission.ts:242-270 | an abort while awaiting the chain |
| GitReceiveAdmission.GitReceiveAdmission.Resume | src/resource-admission/GitReceiveAdmission.ts:147-157 | the checks after the first await |
| GitReceiveAdmission.GitReceiveAdmission.Finish | src/resource-admission/GitReceiveAdmission.ts:175-196 | the update after the second await |
| GitReceiveAdmission.GitReceiveAdmission.ReleasePermit | src/resource-admission/GitReceiveAdmission.ts:225-234 | an idempotent release |
| GitReceiveAdmission.GitReceiveAdmission.CloseAdmission | src/resource-admission/GitReceiveAdmission.ts:199-208 | closing |
| BootstrapUploadAdmission.StepKeeps | src/resource-admission/BootstrapUploadAdmission.ts:131-316 | every segment keeps the invariant |
| BootstrapUploadAdmission.Accounts | src/resource-admission/BootstrapUploadAdmission.ts:206-293 | at most one drain; the cap holds across awaits; in-flight ids are the disjoint union of queued and active ones; strict queue order; no lost wake-up; closing has resolved exactly when asked and idle |
| BootstrapUploadAdmission.AcquireDecided | src/resource-admission/BootstrapUploadAdmission.ts:131-204 | in every run an upload is queued at the end exactly when it is admissible, its attempt neither queued nor active and the queue has room, and is drained for if there is a slot |
| BootstrapUploadAdmission.DismissLeaves | src/resource-admission/BootstrapUploadAdmission.ts:296-316 | a timeout or an abort takes exactly its waiter and its attempt out |
| BootstrapUploadAdmission.ReleaseFrees | src/resource-admission/BootstrapUploadAdmission.ts:278-293 | a first release frees exactly its slot, bytes and attempt, and somebody drains if anyone waits |
| BootstrapUploadAdmission.ResumeSettles | src/resource-admission/BootstrapUploadAdmission.ts:222-256 | a resumed drain settles its head, granted or refused, if that still waits |
| BootstrapUploadAdmission.CloseEmpties | src/resource-admission/BootstrapUploadAdmission.ts:151-163 | closing empties the queue and takes no slot away |
| BootstrapUploadAdmission.GrantedWhen | src/resource-admission/BootstrapUploadAdmission.ts:222-256 | a resumed drain grants exactly the waiter still at the head, when there is room |
| BootstrapUploadAdmission.BootstrapUploadAdmission.AcquireUpload | src/resource-admission/BootstrapUploadAdmission.ts:131-204 | queueing and kicking the drain |
| BootstrapUploadAdmission.BootstrapUploadAdmission.ResumeDrain | src/resource-admission/BootstrapUploadAdmission.ts:222-267 | the drain after its await |
| BootstrapUploadAdmission.BootstrapUploadAdmission.RemoveAndReject | src/resource-admission/BootstrapUploadAdmission.ts:296-316 | a timeout or abort |
| BootstrapUploadAdmission.BootstrapUploadAdmission.ReleasePermit | src/resource-admission/BootstrapUploadAdmission.ts:278-293 | an idempotent release |
| BootstrapUploadAdmission.BootstrapUploadAdmission.CloseAdmission | src/resource-admission/BootstrapUploadAdmission.ts:151-163 | closing rejects the queue |
| AcceptJournal.StepKeeps | src/coordination/postgres/PostgresAcceptPersistence.ts:452-793 | every transaction keeps the journal's invariant |
| AcceptJournal.OneChain | src/coordination/postgres/PostgresAcceptPersistence.ts:452-793 | at most one open journal; a recovery candidate exactly while one is active; completed accepts form a chain with exactly one event each |
| AcceptJournal.RecoveryBlocks | src/coordination/postgres/PostgresAcceptPersistence.ts:620-666 | recovery-required is final and blocks every further prepare and completion |
| AcceptJournal.StepPreserves | src/coordination/postgres/PostgresAcceptPersistence.ts:452-793 | plans and recorded results never change, completed journals and their responses stay |
| AcceptJournal.FencedMeans | src/coordination/postgres/PostgresAcceptPersistence.ts:795-846 | the fences spelled out: the project serves at the planned main and placement, and the request is open as planned with exactly the planned relations pending at the planned ticket revisions |
| AcceptJournal.PrepareWhen | src/coordination/postgres/PostgresAcceptPersistence.ts:452-547 | when a plan is accepted, and what that changes: its journal and its candidate, nothing else |
| AcceptJournal.PersistWhen | src/coordination/postgres/PostgresAcceptPersistence.ts:549-587 | when a result is recorded, and what that changes |
| AcceptJournal.MarkWhen | src/coordination/postgres/PostgresAcceptPersistence.ts:589-618 | when main is recorded as updated, and what that changes |
| AcceptJournal.RecoveryWhen | src/coordination/postgres/PostgresAcceptPersistence.ts:620-666 | when recovery is recorded as required, and what that does, replay included: the project no longer serves and leaves the catalogue, no candidate names the operation, everything else stays |
| AcceptJournal.CompletionRepeats | src/coordination/postgres/PostgresAcceptPersistence.ts:901-912 | completing again at any later moment returns the first response and changes nothing |
| AcceptJournal.CompletionEffect | src/coordination/postgres/PostgresAcceptPersistence.ts:683-791 | main moves from the planned value to the result, the request is merged, exactly the tickets to resolve are closed |
| AcceptJournal.CompletionWhen | src/coordination/postgres/PostgresAcceptPersistence.ts:668-681 | completion succeeds exactly when the journal is main-updated and the fences hold |
| AcceptJournal.CompletionMatches | src/coordination/postgres/PostgresAcceptPersistence.ts:914-954 | the check of the response against the journal never fails behind the fences |
| AcceptJournal.PersistRepeats | src/coordination/postgres/PostgresAcceptPersistence.ts:564-571 | repeating `persistResult` is recognised |
| AcceptJournal.MarkRepeats | src/coordination/postgres/PostgresAcceptPersistence.ts:596-599 | repeating `markMainUpdated` is recognised |
| AcceptJournal.RecoverRepeats | src/coordination/postgres/PostgresAcceptPersistence.ts:629-634 | repeating `markRecoveryRequired` is recognised |
| AcceptJournal.AcceptPersistence.PreparePlan | src/coordination/postgres/PostgresAcceptPersistence.ts:452-547 | the transaction does what the specification says or nothing |
| AcceptJournal.AcceptPersistence.PersistAcceptResult | src/coordination/postgres/PostgresAcceptPersistence.ts:549-587 | likewise |
| AcceptJournal.AcceptPersistence.MarkAcceptMainUpdated | src/coordination/postgres/PostgresAcceptPersistence.ts:589-618 | likewise |
| AcceptJournal.AcceptPersistence.MarkAcceptRecoveryRequired | src/coordination/postgres/PostgresAcceptPersistence.ts:620-666 | likewise, with the service state, the catalogue and the candidate |
| AcceptJournal.AcceptPersistence.CompleteAccept | src/coordination/postgres/PostgresAcceptPersistence.ts:668-793 | likewise, a late failure undoing every earlier statement |
| AcceptJournal.AcceptPersistence.ScheduleRecovery | src/coordination/postgres/PostgresAcceptPersistence.ts:956-972 | the upsert refuses another operation's candidate |
| AcceptRepository.BytesInjective | src/repositories/GitRepositoryAuthority.ts:371-399 | two plans have the same commit bytes exactly when they agree on tree, parents, request and time |
| AcceptRepository.SameResult | src/repositories/GitRepositoryAuthority.ts:371-399 | and, with digests that do not collide, the same commit id |
| AcceptRepository.BytesSplit | src/repositories/GitRepositoryAuthority.ts:390-398 | the commit's bytes are exactly the lines of the plan's fields |
| AcceptRepository.BytesDated | src/repositories/GitRepositoryAuthority.ts:389-398 | those lines in full: tree, both parents, author and committer with the plan's time in whole seconds as decimal text, signed before the epoch, and the message |
| AcceptRepository.BytesWhen | src/repositories/GitRepositoryAuthority.ts:372-388 | there are bytes exactly for the deterministic plan of a merge at a whole second |
| AcceptRepository.Repository.MaterializeAcceptResult | src/repositories/GitRepositoryAuthority.ts:1157-1253 | exactly when it succeeds; every success returns the id determined by the plan alone, with main at the expected value or the result and no ref changed |
| AcceptRepository.Repository.SettleAcceptMain | src/repositories/GitRepositoryAuthority.ts:1255-1350 | main moves at most once, from the expected value to the result; success leaves it at the result; where it advanced no other ref differs; with main at the result already it always replays, and with nothing in the way it succeeds exactly when main is there or as expected |
| AcceptProtocol.AlwaysInv | src/coordination/postgres/PostgresAcceptPersistence.ts:549-618 | journal and repository stay in step under crashes and repetition |
| AcceptProtocol.InStep | src/repositories/GitRepositoryAuthority.ts:1310-1347 | each accept moves main at most once, recorded results are the materialised ones, and main is where the journal says when no accept is open |
| AcceptProtocol.MainMoves | src/repositories/GitRepositoryAuthority.ts:1319-1330 | main changes only by settling, from the planned value to the recorded result |
| AcceptProtocol.SettleMoves | src/repositories/GitRepositoryAuthority.ts:1314-1330 | in every run an accept with its result recorded and not yet moved finds main where its plan expects it, and moves it |
| AcceptProtocol.MarkFollows | src/coordination/postgres/PostgresAcceptPersistence.ts:589-618 | with main at the result, recording it goes through |
| ReceivePolicy.Validate | src/repositories/GitReceivePackPolicy.ts:316-389 | with exact revision walks the hook accepts exactly the fast-forwards that add only objects needed by the new tip and lack none |
| ReceivePolicy.Inventory | src/repositories/GitReceivePackPolicy.ts:203-228 | the running total refuses exactly an empty, too large or oversized inventory |
| ReceivePolicy.FastForward | src/repositories/GitReceivePackPolicy.ts:347-353 | an accepted push is a fast-forward |
| ReceivePolicy.NothingLost | src/repositories/GitReceivePackPolicy.ts:347-389 | everything some ref reached before, some ref reaches after |
| ReceivePolicy.NoGarbageAdded | src/repositories/GitReceivePackPolicy.ts:361-378 | no unreachable object is added |
| ReceivePolicy.NothingDangles | src/repositories/GitReceivePackPolicy.ts:379-389 | no ref leads to a missing object if none did before |
| ReceivePolicy.CheckRefs | src/repositories/GitRepositoryAuthority.ts:1593-1611 | the check after the push passes exactly when only the personal ref changed as recorded, or nothing did |
| ReceivePolicy.SameRefs | src/repositories/GitRepositoryAuthority.ts:351-357 | sizes and one-way comparison decide equality |
| ProcessSettlement.StepKeeps | src/repositories/GitProcessSupervisor.ts:408-574 | every handler keeps the invariant, a settled run stays settled, no callback starts after termination |
| ProcessSettlement.SettlesOnce | src/repositories/GitProcessSupervisor.ts:408-424 | a run settles at most once |
| ProcessSettlement.SuccessMeans | src/repositories/GitProcessSupervisor.ts:414-418 | success means an accepted exit code, no pending callback, a finished pump, complete output within the caps and, without an input stream, no termination |
| ProcessSettlement.SettlesHow | src/repositories/GitProcessSupervisor.ts:408-434 | how a run settles, as a function of the close, the termination, the input failure and what finished last |
| ProcessSettlement.UnterminatedResolves | src/repositories/GitProcessSupervisor.ts:559-573 | an unterminated run resolves with all its captured output once the child is gone and nothing is pending |
| ProcessSettlement.FirstCause | src/repositories/GitProcessSupervisor.ts:435-447 | the code of a termination is that of its first cause, and exactly an accepted exit before any termination is a clean close |
| ProcessSettlement.InOrderAndPrompt | src/repositories/GitProcessSupervisor.ts:517-550 | chunks reach the callback one at a time in order; the run is settled exactly when the child is gone and nothing is pending |
| ProcessSettlement.NoneStartsAfter | src/repositories/GitProcessSupervisor.ts:529-533 | after termination no callback starts |
| ProcessSettlement.LateSuccess | src/repositories/GitProcessSupervisor.ts:509-514 | exactly when a terminated run still resolves |
| ProcessSettlement.LateSuccessPossible | src/repositories/GitProcessSupervisor.ts:509-514 | a run that does |
| ProcessSettlement.GitProcess.OnStdout | src/repositories/GitProcessSupervisor.ts:517-528 | the stdout handler |
| ProcessSettlement.GitProcess.OnStderr | src/repositories/GitProcessSupervisor.ts:551-553 | the stderr handler: counted, not captured |
| ProcessSettlement.GitProcess.NextTurn | src/repositories/GitProcessSupervisor.ts:529-533 | a chunk's turn in the callback chain |
| ProcessSettlement.GitProcess.OnChunkHandled | src/repositories/GitProcessSupervisor.ts:534-549 | the end of a callback |
| ProcessSettlement.GitProcess.OnInputEnd | src/repositories/GitProcessSupervisor.ts:501-514 | the end of the input pump |
| ProcessSettlement.GitProcess.FinishPump | src/repositories/GitProcessSupervisor.ts:511-513 | the end of the pump's `finally`: success is tried before failure |
| ProcessSettlement.GitProcess.OnChildError | src/repositories/GitProcessSupervisor.ts:554-558 | the child's error handler |
| ProcessSettlement.GitProcess.OnChildClose | src/repositories/GitProcessSupervisor.ts:559-573 | the child's close handler |
| ProcessSettlement.GitProcess.TerminateRun | src/repositories/GitProcessSupervisor.ts:435-447 | termination: only the first code counts |
| SecretEnvelope.UnframeFrame | src/coordination/backupProtectedSecretEnvelope.ts:19-60 | unframing undoes framing on every valid envelope |
| SecretEnvelope.FrameUnframe | src/coordination/backupProtectedSecretEnvelope.ts:19-60 | framing undoes unframing on every accepted string |
| SecretEnvelope.AcceptedWhen | src/coordination/backupProtectedSecretEnvelope.ts:41-52 | exactly which strings are accepted; no key version above 2^53 - 1 |
| SecretEnvelope.CanonicalWhen | src/coordination/backupProtectedSecretEnvelope.ts:12-17 | a text is canonical exactly when it has no digit too many and no nonzero leftover bits |
| SecretEnvelope.CanonicalMeans | src/coordination/backupProtectedSecretEnvelope.ts:12-17 | canonical texts are exactly the encodings of nonempty octet strings |
| SecretEnvelope.DecodeEncode | src/coordination/backupProtectedSecretEnvelope.ts:12-17 | decoding undoes encoding |
| SecretEnvelope.Alphabet | src/coordination/backupProtectedSecretEnvelope.ts:14-15 | the alphabet is that of section 5 of RFC 4648 |
| SecretEnvelope.EncodeGroup | src/coordination/backupProtectedSecretEnvelope.ts:14-15 | every three octets are written as the same number in four digits of base 64, padded with zero bits |
| SecretEnvelope.FrameLayout | src/coordination/backupProtectedSecretEnvelope.ts:31-38 | the frame octet by octet: version one, the key version with its most significant octet first, ciphertext, tag |
| SecretEnvelope.FrameEnvelope | src/coordination/backupProtectedSecretEnvelope.ts:19-39 | the buffer filled field by field is the frame |
| SecretEnvelope.WriteBigUInt64 | src/coordination/backupProtectedSecretEnvelope.ts:35-35 | the key version in place, everything around it untouched |
| SecretEnvelope.BigEndianBack | src/coordination/backupProtectedSecretEnvelope.ts:35-51 | the key version is read back |
| AuthorityPage.BoundPage | src/project-authority/ProjectAuthorityPage.ts:161-216 | the loop returns the longest prefix all of whose nonempty prefixes fit, its byte count is that of the serialised page, and the final check never fires |
| AuthorityPage.LongestMeans | src/project-authority/ProjectAuthorityPage.ts:174-199 | what that longest prefix is |
| AuthorityPage.Counted | src/project-authority/ProjectAuthorityPage.ts:175-187 | the running count tells exactly whether the page fits |
| AuthorityPage.PastIndex | src/project-authority/ProjectAuthorityPage.ts:179-181 | past the key of an item lie exactly the items after it |
| AuthorityPage.VisitsAll | src/project-authority/ProjectAuthorityPage.ts:161-216 | following cursors over a strictly ordered list visits every item exactly once when each single item fits |

## Left out

- Polling of abort signals and deadlines inside the tree walk, which can only end it early; the progress of time in general.
- Case folding, the character and reserved-name tests on one path segment and UTF-8 decoding are parameters; a byte-order mark is not treated apart.
- The hook's own walk over the trees is the same walk with its rejection codes collapsed into one, so it is not modelled twice.
- A file system that persists unsynced changes out of order: there a retry after a failed sync does not sync the marker again.
- A new tree is placed, and a new repository staged, only where no cleanup marker is left; one publication record at a time. Checks of digests and repository content may refuse at any time.
- The bootstrap sibling of publication splits the same steps into preparing and publishing; it is not modelled apart.
- The byte budgets consumed through a stream permit or a receive permit: plain counters.
- Other writers of the project's expected main, of accept journals and of accept candidates. The canonical form of ids, timestamps and commit metadata is assumed of a journaled plan.
- The coordinator of accepts, which is only assumed to drive the steps of one accept in phase order, with any crash and repetition; an operator who repairs a project by hand is not part of this model.
- Between the commands of a settlement others may change any ref but main; main is moved by accepts alone.
- `fsck`, the object format and the quarantine environment of the hook.
- Signals to the process group and back-pressure on stdin and stdout, which do not decide how a run settles.
- How items and keys become JSON is given, and the cursor codecs are assumed to be inverse to each other.
- File modes, ownership, symbolic links and real paths: the directories are assumed sound.
- `EmptyProjectRepositoryAuthority`, `PostgresCloudProjectCreationPersistence`, composition, configuration, logging, routes and periodic reconciliation: wiring, or siblings easier than what is modelled.
