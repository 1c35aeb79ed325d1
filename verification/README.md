# Azure Disk CSI driver: a Dafny model of its concurrent and decision-making core

The project models the parts of the Azure Disk CSI driver whose correctness depends on interleavings, retries and
environments that no single function body shows, and proves what they keep.

| file | what it models |
|---|---|
| `text.dfy` | the string functions decisions rest on: case folding, substring search, number formatting and parsing; a fact about finite sets |
| `lockmap.dfy` | the per-key lock map, as a class and as interleaved micro-steps with mutual exclusion and deadlock freedom |
| `pending.dfy` | the per-node pending maps that callers fill and one of them drains; trimming a batch |
| `luns.dfy` | `SetDiskLun`: the in-place LUN allocator, against "take the lowest free LUNs" |
| `occupied.dfy` | LUNs already claimed by VolumeAttachments, and the sorted merge that finds them |
| `attach.dfy` | AttachDisk's request and its work under the node lock, on the shared maps and option objects |
| `batching.dfy`, `batching_inv.dfy`, `batching_safety.dfy`, `batching_runs.dfy` | the batched attach/detach protocol of one node as a transition system: any number of AttachDisk, DetachDisk and UpdateVM calls, invariants, and theorems over whole runs |
| `batching_answers.dfy` | when an attach is told its own disk's LUN, and a run in which it is told another's |
| `batching_handoff.dfy` | what becomes of a drained batch and of a pending request over whole runs |
| `batching_refine.dfy` | the allocator on objects takes the protocol's allocation step |
| `detach.dfy` | one DetachDisk call against an arbitrary cloud: batch, early exit, polling, forced detach, verification |
| `sequence.dfy` | the attach-sequence counter kept in a PersistentVolume annotation under optimistic concurrency |
| `sequence_refine.dfy` | calls of the two retry loops, among others, are runs of the counter's protocol |
| `kata.dfy` | host and guest ownership of a disk on a Kata node, across concurrent CSI calls and crashes |
| `kata_staging.dfy` | what a guest publication that is told another staging path does to that ownership |
| `kata_sharing.dfy` | exactly when host and guest share a disk, over whole runs |
| `format.dfy` | the decision to format and mount, over every answer of blkid, fsck and wipefs |
| `formatsem.dfy` | the token protocol that bounds concurrent mkfs runs |
| `migration.dfy` | migration monitoring: one task's events, and the table of active tasks |
| `paging.dfy` | token paging of snapshots and of the cluster's volumes |
| `paging_groups.dfy` | volumes in several resource groups: what a page holds, and what two pages in a row lose |
| `params.dfy` | mutable disk parameters: normalisation, merging, parsing, in any map order |
| `tuning.dfy` | SKU selection and queue-size arithmetic |

## How the model is built

- Code that updates fields, arrays, maps or shared pointers is modelled by classes and methods proved against
  specification functions. Protocols between goroutines, processes or machines are transition systems: one action per
  lock operation, map access, API call or environment change; a run is a sequence of states; theorems hold for all runs.
- In the batching protocol map objects have identities. Whether two parties refer to the same map is part of the state,
  so "a drained batch is private" is proved, not built in. Options objects are identified by the call that made them.
- Everything outside the driver is an environment: it may answer anything a type allows, apply any part of a batch,
  report errors for updates that were committed, remove disks from the VM, or crash the driver. `World` and
  `Surroundings` values, `Action` arguments and `method` parameters carry its choices.
- History variables (`enqAt`, `seen`, `trimmed`, `born`, `pushes`, `pops`, `consumed`) are recorded by transitions and never
  consulted by guards.
- The batching protocol follows one node. Nodes share only the lock map, which `lockmap.dfy` treats for all keys at once.

## What the code does differently from its comments

- The comment at `pkg/azuredisk/azure_controller_common.go:458-459` says that verification succeeds for a disk in the
  ToBeDetached state. The code returns the "detach in progress" error; the model follows the code.
- Verification after an attach looks a disk up by resource ID or by name, and names repeat across resource groups and
  subscriptions. An attach that never reached the VM can therefore succeed with the LUN of another disk:
  `BatchingAnswers.TrimmedDiskSucceedsUnlisted` is such a run. `BatchingAnswers.OwnAnswersExactlyWithoutNamesakes` gives
  the exact condition: at its verification a call can only be told its own disk's LUN if and only if the VM lists no
  other disk of that name.
- Detach success is recognised by looking for the words "cannot find Lun" in an error's text. A failed read whose text
  contains them is taken for a detached disk. `Detach.AcceptsExactly` gives the exact condition,
  `Detach.FailedReadCanPassForDetached` a whole call that reports an attached disk as detached, and
  `Detach.PlainNamesDoNotMislead` shows that names without spaces never cause it.
- `pkg/optimization/device_perf_linux.go:190-192` falls back to the disk's bandwidth without the conversion from MB to
  kB that the line before applies. `DeviceTuning.BandwidthIsConvertedExactly` says when the conversion happens: if and
  only if the VM size publishes a bandwidth. `DeviceTuning.GetOptimalDeviceSettings` says what it does to the settings:
  they carry the bandwidth that disk and VM allow whenever the VM size publishes one, and, for any disk of at least
  2 MB per second and requests of at least 2 kB at 40 per second, only then.
  `DeviceTuning.UnpublishedBandwidthIsNotConverted` is an instance.
- A publication to a guest looks for records of the volume and at its own target (`pkg/azuredisk/kata.go:161-178`), and
  releases the staging mount alone (`pkg/azuredisk/nodeserver.go:700-702`). A volume that the host has mounted at another
  target is given to the guest all the same: `KataSharing.SecondTargetBreaksExclusion` is such a run, with every path told
  as it should be. `KataSharing.OwnershipIsExclusive` gives the exact condition over whole runs: host and guest never share
  a volume if and only if each of its publications to a guest finds it mounted nowhere but at the staging path. For one
  call, told any staging path, `KataStaging.PublishExcludesExactly` says the same.
- With volumes in several resource groups, `pkg/azuredisk/controllerserver.go:1358-1376` adds the groups left out in
  front of a page to its token once more than it should. `PagingGroups.LossIsExact` says which elements two pages in a
  row lose, and `PagingGroups.AnEntryIsLost` shows a listing that does.

## Assumptions

- The disk list read under the node lock is the VM's list, and disks enter it only through the protocol; they may leave
  it at any time.
- Keys of pending maps, URIs and names are compared after ASCII lower-casing.
- For Kata ownership: a volume always has the same staging path, and no path is used for two volumes or for two roles, as
  the Container Storage Interface specification and the kubelet arrange. The first part is needed even for staging mounts:
  `KataStaging.OtherStagingPathBreaksExclusion` reaches a state in which a guest has a staged volume.
- For formatted disks: what a disk holds is changed by `mkfs` alone.
- For the attach sequence: writers other than this driver leave the annotation alone.

## Model

| member | source | states |
|---|---|---|
| Text.AtoiItoa | pkg/azureutils/azure_snapshot_utils.go:96-127 | numbers that travel as text (paging tokens, LUNs, attach sequences) are read back as written, over the whole 64-bit range |
| Text.ItoaInjective | pkg/azuredisk/nodeserver.go:1354 | different sequence numbers are different annotation texts |
| LockMaps.LockMap.LockEntry | pkg/azuredisk/util.go:35-45 | the entry is held afterwards, no other entry changes hands, and existing keys keep their mutex |
| LockMaps.LockMap.UnlockEntry | pkg/azuredisk/util.go:48-57 | exactly this entry is released; the table of mutexes is unchanged |
| LockMaps.StepKeepsInv | pkg/azuredisk/util.go:35-57 | every micro-step of any thread keeps the lock map consistent |
| LockMaps.RunsKeepInv | pkg/azuredisk/util.go:35-57 | so does every run |
| LockMaps.MutualExclusion | pkg/azuredisk/util.go:35-57 | no key is ever held by two threads |
| LockMaps.EntriesAreNeverReplaced | pkg/azuredisk/util.go:38-42 | once created, a key's mutex is the same for the rest of every run |
| LockMaps.StepsRefineAtomicLocks | pkg/azuredisk/util.go:35-57 | the two-mutex implementation refines a set of atomic per-key locks |
| LockMaps.ChainToMover | pkg/azuredisk/util.go:35-57 | from any thread the waits-for chain ends at a thread that can move, because each nested key is longer |
| LockMaps.NoDeadlock | pkg/azuredisk/azure_controller_common.go:233-234 | no reachable state of threads that nest locks as the controller does is deadlocked |
| LockMaps.MoversHaveSteps | pkg/azuredisk/util.go:35-57 | a thread that can move does not block on the map mutex |
| PendingMaps.PendingMap.Batch | pkg/azuredisk/azure_controller_common.go:362-384 | one node's pending requests gain the disk unless it is there already; the first request's options win; other nodes are untouched; the queue length is returned |
| PendingMaps.PendingMap.Retrieve | pkg/azuredisk/azure_controller_common.go:388-407 | a caller whose disk is pending gets the whole map and leaves an empty one behind; otherwise nothing changes; the returned map is referred to by nobody else |
| PendingMaps.HandOff | pkg/azuredisk/azure_controller_common.go:362-407 | no sequence of later requests changes a drained batch, and none of them is lost to it |
| PendingMaps.Trim | pkg/azuredisk/azure_controller_common.go:282-296 | in any map order exactly min(batch size, allowed) entries stay, and those that stay are unchanged |
| Luns.LowestFreeIsLowest | pkg/azuredisk/azure_controller_common.go:759-776 | the allocator's LUNs are free, ascending and below every free LUN it leaves; there are as many as asked for exactly when that many are free |
| Luns.AttachedLun | pkg/azuredisk/azure_controller_common.go:740-750 | a LUN is found exactly when the list has a matching disk, and it is that disk's |
| Luns.MarkUsed | pkg/azuredisk/azure_controller_common.go:737-750 | the array marks exactly the listed LUNs, or the call stops at an index outside it |
| Luns.MarkOccupied | pkg/azuredisk/azure_controller_common.go:759-763 | in-range claimed LUNs are marked too, and nothing else |
| Luns.CollectFree | pkg/azuredisk/azure_controller_common.go:766-776 | the scan yields the lowest free LUNs |
| Luns.WriteLuns | pkg/azuredisk/azure_controller_common.go:783-793 | in every map order the LUNs are written one-to-one through the option pointers, and the returned LUN is the one in the caller's own option |
| Luns.PlanLuns | pkg/azuredisk/azure_controller_common.go:730-781 | each refusal has its exact condition; otherwise as many LUNs as requests are chosen, the lowest free ones |
| Luns.SetDiskLun | pkg/azuredisk/azure_controller_common.go:730-798 | succeeds for a disk in the map exactly when enough LUNs are free; writes the lowest free LUNs; a refusal writes nothing |
| Attach.RequestAttach | pkg/azuredisk/azure_controller_common.go:207-209 | a request is queued under its lower-case URI with options of its own, so waiting requests stay distinct and none is displaced |
| Attach.AscendingLunsAreSafe | pkg/azuredisk/azure_controller_common.go:783-793 | LUNs assigned one-to-one from the lowest free ones are distinct, unused, and below every free LUN left |
| Attach.AllocateLuns | pkg/azuredisk/azure_controller_common.go:298-304 | allocation succeeds exactly when it is not refused, and then what the options hold is safe to send, with the caller's own LUN among it or read from the VM |
| Attach.PrepareBatch | pkg/azuredisk/azure_controller_common.go:282-304 | the same after trimming, for some min(batch size, allowed) of the requests |
| Attach.VerifyAttach | pkg/azuredisk/azure_controller_common.go:604-611 | the answer is the LUN that the first listed disk taken for the call's has, unless it is on its way out |
| Attach.AttachUnderNodeLock | pkg/azuredisk/azure_controller_common.go:233-349 | from any state of the pending map: a failed count leaves requests pending; an empty-handed call only verifies; otherwise the whole map is taken, what reaches the VM is a safe request within capacity, and success exactly when the update succeeds and the disk list read afterwards shows the call's disk, whose LUN is then the answer |
| OccupiedLuns.MergeIsDifference | pkg/util/util.go:165-182 | the merge of sorted inputs is their multiset difference |
| OccupiedLuns.SortInPlace | pkg/util/util.go:162-163 | the array is sorted in place |
| OccupiedLuns.Walk | pkg/util/util.go:165-182 | the loop over two sorted slices computes the merge |
| OccupiedLuns.GetElementsInArray1NotInArray2 | pkg/util/util.go:161-183 | for unsorted inputs the result is the multiset difference, and both inputs are left sorted |
| OccupiedLuns.GetUsedLunsFromVolumeAttachments | pkg/azuredisk/azuredisk.go:791-828 | exactly the LUNs that this driver's attachments to the node claim |
| OccupiedLuns.GetUsedLunsFromNode | pkg/azuredisk/azuredisk.go:831-848 | exactly the LUNs the node lists |
| OccupiedLuns.GetOccupiedLunsFromNode | pkg/azuredisk/controllerserver.go:1198-1231 | node list and result together cover every claim, no LUN is invented, and nothing is reported when the inputs cannot be read |
| OccupiedLuns.ChosenLunsAvoidEveryClaim | pkg/azuredisk/controllerserver.go:1206-1209 | with an unchanged node list, every LUN the allocator takes avoids every listed disk and every in-range claim |
| BatchingInvariant.StepKeepsLockInv | pkg/azuredisk/azure_controller_common.go:233-234 | every step of the protocol keeps locks and positions consistent |
| BatchingInvariant.OneHolder | pkg/azuredisk/azure_controller_common.go:443-444 | the node lock and both map locks have at most one holder |
| BatchingInvariant.ProtocolNestsLocksLegally | pkg/azuredisk/azure_controller_common.go:364-366 | every lock the protocol takes while holding others is one that the deadlock-freedom argument allows |
| BatchingInvariant.StepKeepsMapInv | pkg/azuredisk/azure_controller_common.go:362-407 | every step keeps the reference structure: who may touch which map object, and what became of each request |
| BatchingInvariant.DrainersAreDone | pkg/azuredisk/azure_controller_common.go:272-280 | whoever drained while another call holds the node lock has returned already |
| BatchingInvariant.MissingMeansTaken | pkg/azuredisk/azure_controller_common.go:401-404 | a caller that finds nothing pending was served by a drain made after it queued, of a finished call |
| BatchingSafety.BatchesAreUntouched | pkg/azuredisk/azure_controller_common.go:405-406 | no step of another call and no change of the VM alters a drained batch |
| BatchingSafety.RequestsLeaveByDrain | pkg/azuredisk/azure_controller_common.go:388-407 | a request leaves the pending map only in a swap, by a holder of the node lock that takes all of it |
| BatchingSafety.WriteOptsWrites | pkg/azuredisk/azure_controller_common.go:783-793 | with distinct pointers each option ends with its own LUN |
| BatchingSafety.WrittenLunsAreGood | pkg/azuredisk/azure_controller_common.go:759-793 | in any map order the LUNs written for a batch are distinct, in range, and neither used nor claimed |
| BatchingSafety.SetLunsChoosesWell | pkg/azuredisk/azure_controller_common.go:298-304 | the same for the protocol's allocation step, against the VM's list at that moment |
| BatchingSafety.AttachKeepsDistinct | pkg/azuredisk/azure_controller_common.go:320-338 | applying any part of a good batch keeps the VM's LUNs distinct and in range |
| BatchingSafety.StepKeepsLunInv | pkg/azuredisk/azure_controller_common.go:233-338 | every step keeps LUN safety, including the LUNs not yet applied |
| BatchingRuns.RunsKeepInv | pkg/azuredisk/azure_controller_common.go:132-562 | all invariants hold in every state of every run |
| BatchingRuns.LunsAreSafe | pkg/azuredisk/azure_controller_common.go:233-338 | in every run attached disks have distinct LUNs in [0, 64), even when updates apply only part of a batch |
| BatchingRuns.CapacityIsKept | pkg/azuredisk/azure_controller_common.go:244-304 | in every run the number of attached disks stays within the VM size's limit, unless some attach could not learn the limit |
| BatchingRuns.TrimFits | pkg/azuredisk/azure_controller_common.go:282-296 | what the count left room for is what the trimmed batch holds |
| BatchingRuns.AttachFits | pkg/azuredisk/azure_controller_common.go:320-338 | the update cannot exceed the limit, because the node lock keeps the count valid |
| BatchingRuns.OneCallInFlight | pkg/azuredisk/azure_controller_common.go:443-444 | at most one attach, detach or VM update of a node is between taking and leaving the node lock |
| BatchingRuns.EmptyHandedCallsWereServed | pkg/azuredisk/azure_controller_common.go:277-280 | verification without a batch never runs while the batch that holds the request is in flight |
| BatchingRuns.AnswersAreWitnessed | pkg/azuredisk/azure_controller_common.go:340-348 | no attach succeeds unless, while it held the node lock, the VM listed at that LUN a disk that the call took for its own, by ID or by name; the exception is a call that was not trimmed while the check is off |
| BatchingRuns.SeenWasListed | pkg/azuredisk/azure_controller_common.go:604-611 | what a call saw was in the VM's list in an earlier state in which the call held the node lock |
| BatchingRuns.NeverStuck | pkg/azuredisk/azure_controller_common.go:132-562 | while a call is outstanding, some outstanding call has a step of its own |
| BatchingAnswers.OwnAnswersExactlyWithoutNamesakes | pkg/azuredisk/azure_controller_common.go:692-725 | in every reachable state, a verifying attach can only be told its own disk's LUN if and only if the VM lists no other disk of that name |
| BatchingAnswers.UnconfusedAnswersAreOwn | pkg/azuredisk/azure_controller_common.go:340-348 | in a run without such disks, a successful attach means that the VM listed the call's own disk at that LUN during the call |
| BatchingAnswers.TrimmedDiskSucceedsUnlisted | pkg/azuredisk/azure_controller_common.go:282-296 | a run from the start: a disk trimmed from its batch and never listed is answered with the LUN of another disk of its name |
| BatchingHandOff.BatchesArePrivate | pkg/azuredisk/azure_controller_common.go:388-407 | from its drain until its owner has an answer, over any stretch of any run, a batch stays the owner's own object and only the owner's trimming changes it |
| BatchingHandOff.RequestsAreTakenByDrains | pkg/azuredisk/azure_controller_common.go:388-407 | a request pending at one moment of a run and not at a later one was taken by a drain in between |
| BatchingRefinement.SetDiskLunTakesTheStep | pkg/azuredisk/azure_controller_common.go:730-798 | run on the objects that a protocol state stands for, the in-place allocator takes the protocol's allocation step, or fails as the protocol lets it |
| Detach.GetDiskLun | pkg/azuredisk/azure_controller_common.go:692-725 | the first match decides: a LUN, the in-progress error, or a missing LUN that is dereferenced; without a match, the not-found error |
| Detach.ReplyIsLunReply | pkg/azuredisk/azure_controller_common.go:710-724 | the search agrees with its declarative meaning, and that meaning is unique |
| Detach.VerifyDetach | pkg/azuredisk/azure_controller_common.go:565-577 | one look at the VM fixes the answer |
| Detach.PollForDetachCompletion | pkg/azuredisk/azure_controller_common.go:580-601 | at most seven looks; success only on an accepted one, an error only when the last one was not |
| Detach.WaitForDiskManagedByTobeRemoved | pkg/azuredisk/azure_controller_common.go:813-859 | at most seven reads of the disk; success exactly when the last one shows it free or on another node, or waiting is off |
| Detach.ForceDetach | pkg/azuredisk/azure_controller_common.go:517-520 | a failure leads to one forced detach of the same batch when that is enabled, and stands otherwise |
| Detach.DetachDisk | pkg/azuredisk/azure_controller_common.go:410-536 | against any cloud the requests made are exactly those that the world and the configuration call for, in the permitted order; there are at most twelve, and the answer is one the last reply allows |
| Detach.WholeRunsAreUnique | pkg/azuredisk/azure_controller_common.go:410-536 | a world and a configuration fix the requests of a call |
| Detach.AcceptsExactly | pkg/azuredisk/azure_controller_common.go:569-571 | exactly which replies are read as "detached", right or wrong |
| Detach.SuccessIsWitnessed | pkg/azuredisk/azure_controller_common.go:410-536 | with checking and waiting on, success happens if and only if the last reply is a list without the disk or a disk not on the node, misleading texts aside; on every path |
| Detach.PlainNamesDoNotMislead | pkg/azuredisk/azure_controller_common.go:716 | names without spaces never make the in-progress text look like success |
| Detach.FailedReadCanPassForDetached | pkg/azuredisk/azure_controller_common.go:451-520 | for every attached disk there is a cloud for which DetachDisk reads the disk in the VM's list, fails to read the list twice more, and returns success |
| Detach.EverythingInPlace | pkg/azuredisk/azure_controller_common.go:451-520 | where in a call each kind of request can stand, and that updates are for the drained batch only |
| Detach.ForceIsTheLastResort | pkg/azuredisk/azure_controller_common.go:497-520 | a forced detach follows a plain one that failed on its own, with no look since that showed success, and only the final check follows it |
| Detach.EmptyHandedCallsOnlyVerify | pkg/azuredisk/azure_controller_common.go:456-461 | a call that drained nothing leaves the VM alone |
| AttachSequence.SequenceIsConserved | pkg/azuredisk/nodeserver.go:1342-1354 | the annotation's value is the seed plus the committed increments, and stays representable |
| AttachSequence.SequenceStaysPresent | pkg/azuredisk/controllerserver.go:1075-1081 | once present, the annotation is never removed |
| AttachSequence.InvalidTextIsFrozen | pkg/azuredisk/nodeserver.go:1343-1347 | text that is no count is never changed and never incremented |
| AttachSequence.CommitsAreOrdered | pkg/azuredisk/nodeserver.go:1353-1357 | commits and sequence numbers are in the same order |
| AttachSequence.StepKeepsInv | pkg/azuredisk/nodeserver.go:1323-1365 | every step of incrementers, adopters, other writers and the API server keeps the history well-formed and every returned number committed |
| AttachSequence.RunsKeepInv | pkg/azuredisk/nodeserver.go:1323-1365 | so does every run |
| AttachSequence.CounterIsExact | pkg/azuredisk/controllerserver.go:1050-1100 | in every reachable state, whatever conflicts, stale reads and lost answers there were, nothing is lost or reset |
| AttachSequence.ReturnedNumbersDiffer | pkg/azuredisk/nodeserver.go:1353-1364 | no two operations are given the same number |
| AttachSequence.NumbersFollowTime | pkg/azuredisk/nodeserver.go:1326-1336 | an operation that starts after another returned gets the larger number, however stale its first read |
| AttachSequence.ApiServer.Update | pkg/azuredisk/nodeserver.go:1356 | only an update of the newest version can be committed |
| AttachSequence.IncrementAttachSequence | pkg/azuredisk/nodeserver.go:1323-1365 | with any interference before each request, a number is returned only when this call committed it; with honest answers it commits at most once, and only on success; its requests are steps of the protocol that end as the call does |
| AttachSequence.EnsureQADPVAnnotations | pkg/azuredisk/controllerserver.go:1050-1100 | on success the newest version has a sequence, the supplied blob URL, claim identifier and cache policy, and where none was supplied a non-empty value read from the object; the history is still a chain of legal versions, and the requests are steps of the protocol that end as the call does |
| AttachSequenceRefinement.CallsAreRuns | pkg/azuredisk/nodeserver.go:1323-1365 | a call that starts in a reachable state, while others go on by the protocol, extends the run, and at its end the client stands as the call returns |
| AttachSequenceRefinement.LaterCallsGetLargerNumbers | pkg/azuredisk/nodeserver.go:1326-1336 | so a call that starts after another has returned is given the larger number |
| KataOwnership.KataFindMountInfo | pkg/azuredisk/kata.go:117-142 | the first entry that is broken or names the volume decides; an empty answer means there is none |
| KataOwnership.InventoryReports | pkg/azuredisk/kata.go:117-142 | on a directory that holds still, an empty answer means no usable record of the volume and no torn record at all |
| KataOwnership.VolumeLocks.TryAcquire | pkg/util/util.go:145-153 | acquires exactly when free, without waiting |
| KataOwnership.VolumeLocks.Release | pkg/util/util.go:155-159 | frees exactly this volume |
| KataOwnership.StepKeepsInv | pkg/azuredisk/nodeserver.go:617-842 | every step of stage, unstage, publish and unpublish, every crash, and Kata's own cleanup keep a guest's claim single, with neither its target nor the staging path mounted |
| KataOwnership.RunsKeepInv | pkg/azuredisk/nodeserver.go:617-842 | so does every run |
| KataOwnership.ClaimsAreSingle | pkg/azuredisk/kata.go:161-203 | in every reachable state a volume that a record claims has just that record, nothing mounted at its target, and no staging mount of its own anywhere; mounts at other targets are KataSharing's subject |
| KataOwnership.RepliesAreTrue | pkg/azuredisk/nodeserver.go:234-254 | a successful reply is true when sent: staged or owned by a guest, published, unstaged, gone; only metadata that the runtime removed while this call had the volume's lock excuses it |
| KataOwnership.StepKeepsMode | pkg/azuredisk/kata.go:161-178 | no step but unpublishing that target, or Kata's own removal, changes how a volume is published there |
| KataOwnership.PublishModeIsSticky | pkg/azuredisk/nodeserver.go:619-649 | over any stretch of a run, whatever runtime retries are told to use, a publication keeps its mode |
| KataStaging.PublishExcludesExactly | pkg/azuredisk/nodeserver.go:617-718 | from any reachable state, an undisturbed guest publication ends with a claim; without any host mount of the volume, staged or bound, if and only if the volume was mounted nowhere but at the staging path told; and unstaged if and only if it was staged nowhere else |
| KataStaging.OtherStagingPathBreaksExclusion | pkg/azuredisk/nodeserver.go:700-702 | for any volume and any other staging path, a run stages the volume and a guest publication told that path then leaves host and guest owning the disk |
| KataSharing.OwnershipIsExclusive | pkg/azuredisk/nodeserver.go:617-842 | over whole runs with any interleaving and crashes, host and guest never share a volume if and only if each of its publications to a guest found it mounted nowhere but at the staging path |
| KataSharing.SecondTargetBreaksExclusion | pkg/azuredisk/nodeserver.go:652-721 | for any volume and two targets, three well-addressed calls from the empty node, stage, publish to the host, publish to a guest, leave both with the disk |
| KataSharing.SharingStep | pkg/azuredisk/nodeserver.go:714 | no step but the writing of a guest's record brings host and guest together |
| FormatDecision.DetectFilesystemExistence | pkg/azuredisk/azure_common_linux.go:469-497 | "no filesystem" exactly when fsck found none in the expected words and wipefs printed nothing; an error exactly when the tools leave it open |
| FormatDecision.RepairFilesystem | pkg/azuredisk/azure_common_linux.go:499-513 | a repair run stops the mount exactly when errors were left uncorrected and fsck itself worked |
| FormatDecision.RemoveOptionIfExists | pkg/azureutils/azure_disk_utils.go:908-918 | the first occurrence goes, the rest stays in order |
| FormatDecision.EnsureFormatted | pkg/azuredisk/azure_common_linux.go:162-237 | mkfs runs exactly when allowed, after all three probes and with the arguments of its type; otherwise the detected type is reported |
| FormatDecision.CheckAndMount | pkg/azuredisk/azure_common_linux.go:239-258 | nothing is mounted under another type than requested; repair precedes the mount unless the filesystem is new or read-only |
| FormatDecision.FormatAndMount | pkg/azuredisk/azure_common_linux.go:148-259 | every command of the call, in order: mkfs if and only if every probe allows it; a mount if and only if permitted, and last; read-only and directmount requests never write to the disk |
| FormatDecision.AllToolsDenied | pkg/azuredisk/azure_common_linux.go:170-196 | an mkfs was preceded in its call by a denial of each of the three tools, on the disk as it was then |
| FormatDecision.DataSurvives | pkg/azuredisk/azure_common_linux.go:170-196 | over all the commands of any number of calls, retries and crashes, data on the disk stays and is never formatted, as long as some one of the three tools never denies what is there |
| FormatDecision.FormattedOnce | pkg/azuredisk/azure_common_linux.go:192-222 | after an mkfs that worked no later command is mkfs, as long as some one tool never denies the result |
| FormatDecision.OnlyOperationalErrorsAllowFormatting | pkg/azuredisk/azure_common_linux.go:549-585 | of all fsck outcomes exactly one lets formatting go on: an exit status with the operational-error bit and the words about the superblock |
| FormatDecision.OutputIsHeard | pkg/azuredisk/azure_common_linux.go:556-559 | those words in fsck's output always count |
| FormatDecision.MountedTypeIsRequested | pkg/azuredisk/azure_common_linux.go:239-245 | without directmount, the last command before the mount that reports or makes a filesystem type reported or made the type mounted |
| FormatSemaphore.StepKeepsInv | pkg/azuredisk/azure_common_linux.go:280-301 | every step keeps the tokens equal to the calls that account for them |
| FormatSemaphore.TokensAreAccountedFor | pkg/azuredisk/azure_common_linux.go:285-297 | in every run tokens equal live releasers and calls about to start one, never exceed the capacity, and are all back at the end |
| FormatSemaphore.FormatsInTimeAreBounded | pkg/azuredisk/azure_common_linux.go:280-301 | mkfs runs that have not passed their timeout never exceed the limit |
| FormatSemaphore.TokensComeBack | pkg/azuredisk/azure_common_linux.go:287-297 | whatever other calls do, a token is taken out again after at most five steps of its own call |
| FormatSemaphore.NoTokenIsStuck | pkg/azuredisk/azure_common_linux.go:287-297 | in every reachable state each token can come back within four steps of its own releaser, without mkfs finishing and without any other call |
| FormatSemaphore.ReleasedOnce | pkg/azuredisk/azure_common_linux.go:288 | each call puts its token in once and takes it out once |
| MigrationMonitor.ReportedMilestones | pkg/azuredisk/migration_monitor.go:449-455 | a reported percentage lies in the 20-percent band of its milestone, and there are four |
| MigrationMonitor.ClimbsAreShort | pkg/azuredisk/migration_monitor.go:449-455 | strictly rising milestones end after four |
| MigrationMonitor.MigrationTask.PollCondition | pkg/azuredisk/migration_monitor.go:292-361 | one round keeps the event record in step with the highest milestone reached, for rising and falling percentages alike |
| MigrationMonitor.MigrationTask.Poll | pkg/azuredisk/migration_monitor.go:364 | polling stops at the first round that ends it, with a completion event exactly when a round completed |
| MigrationMonitor.MigrationTask.MonitorMigrationProgress | pkg/azuredisk/migration_monitor.go:283-411 | over both polls: at most four progress events with strictly rising milestones, the last of them the highest reached, and at most one completion event |
| MigrationMonitor.StepKeepsInv | pkg/azuredisk/migration_monitor.go:200-279 | every step of starting, polling and removing keeps table, mutex and goroutines consistent |
| MigrationMonitor.ListedMeansMonitored | pkg/azuredisk/migration_monitor.go:200-279 | whoever can take the mutex sees a disk listed exactly when one goroutine for it is alive |
| MigrationMonitor.OneMonitorPerDisk | pkg/azuredisk/migration_monitor.go:204-208 | two goroutines never poll for one disk |
| Paging.CollectSnapshots | pkg/azureutils/azure_snapshot_utils.go:113-123 | a page is full and ends with an entry, or ends with the list, or stops at an element no entry can be made of |
| Paging.GetEntriesAndNextToken | pkg/azureutils/azure_snapshot_utils.go:88-136 | the one page or error that the token and the limit call for |
| Paging.CollectVolumes | pkg/azuredisk/controllerserver.go:1316-1334 | exactly the resource groups and disks of the PersistentVolumes whose handles parse |
| Paging.CollectDisks | pkg/azuredisk/controllerserver.go:1432-1467 | the same for the disks of a resource group |
| Paging.ListVolumesByResourceGroup | pkg/azuredisk/controllerserver.go:1409-1473 | what a group adds to the entries so far: its page, its length in the list, and whether the list ended; TokenTooLarge when the start is behind it |
| Paging.ListVolumes | pkg/azuredisk/controllerserver.go:1289-1385 | with at most one resource group, the one page or error that the token and the limit call for; with several, the page that visiting them in order gives |
| Paging.WalkDelivers | pkg/azureutils/azure_snapshot_utils.go:125-128 | after any number of pages, everything before the next page's start has been delivered once, in order |
| Paging.WalksAreShort | pkg/azureutils/azure_snapshot_utils.go:125-128 | following tokens ends within max(1, length) pages |
| Paging.TokensAreAccepted | pkg/azureutils/azure_snapshot_utils.go:95-107 | every token handed out is accepted and points into the list |
| Paging.PagingIsLossless | pkg/azureutils/azure_snapshot_utils.go:88-136 | for any per-call page sizes, the pages together are exactly the one-shot listing |
| PagingGroups.PageIsAStretch | pkg/azuredisk/controllerserver.go:1344-1385 | over several groups a page holds the entries of one stretch of the groups' lists, end to end, never more than asked for; it is the last one only at the end; its token is where the stretch stops plus the length of the groups left out in front |
| PagingGroups.LossIsExact | pkg/azuredisk/controllerserver.go:1358-1377 | two pages in a row deliver the stretch from the first one's start to the second one's end if and only if no entry is among the elements right behind the first, as many as it left out in front |
| PagingGroups.AnEntryIsLost | pkg/azuredisk/controllerserver.go:1344-1385 | two groups with one and three volumes, listed one volume at a time: the third volume is on no page |
| DiskParameters.NormalizeMutableDiskParameters | pkg/azuredisk/controllerserver.go:89-104 | accepted exactly when all keys are settings and no two mean the same one, in any map order; each error has its cause |
| DiskParameters.NormalizationIsUnique | pkg/azuredisk/controllerserver.go:89-104 | the normalised map does not depend on the order |
| DiskParameters.Merge | pkg/azuredisk/controllerserver.go:116-125 | in any order, the class's parameters that nothing overrides plus the mutable ones |
| DiskParameters.ParseDiskParameters | pkg/azureutils/azure_disk_utils.go:606-750 | accepted exactly when every parameter is; each field comes from a parameter that sets it |
| DiskParameters.OverriddenOnce | pkg/azuredisk/controllerserver.go:117-125 | in the merged map an overridden setting is set by its canonical key alone |
| DiskParameters.MutableSettingsWin | pkg/azuredisk/controllerserver.go:112-126 | whatever the class says, in any spelling and order, the mutable values are the ones parsed |
| DiskParameters.OtherValuesStay | pkg/azuredisk/controllerserver.go:117-122 | a setting that is not overridden keeps a value the class gives it |
| DiskParameters.CreateVolumeSettings | pkg/azuredisk/controllerserver.go:112-129 | from request to parsed settings: refused for bad mutable parameters, otherwise parsed from the merged map with the requested values in force |
| DeviceTuning.GetMatchingDiskSku | pkg/optimization/device_perf_linux.go:232-267 | in any map order a SKU that meets the request and has the smallest size among those that do; none exactly when there is none |
| DeviceTuning.RequestSizeFits | pkg/optimization/device_perf_linux.go:195-198 | the request size is an integer in [1, 512], enough for the bandwidth at the sequential rate unless capped, and no larger than needed |
| DeviceTuning.GetOptimalDeviceSettings | pkg/optimization/device_perf_linux.go:162-228 | queue depth times request size covers bandwidth times latency, by little, and queue depth covers the random requests in flight; the bandwidth that disk and VM allow is covered if the VM size publishes one, and for disks of ordinary shape only if |
| DeviceTuning.BandwidthIsConvertedExactly | pkg/optimization/device_perf_linux.go:184-192 | the bandwidth used is a thousand times the applicable limit in MB if and only if the VM size publishes one |
| DeviceTuning.UnconvertedIsTooLittle | pkg/optimization/device_perf_linux.go:190-209 | without the conversion, settings for any disk of ordinary shape keep too little under way |
| DeviceTuning.UnpublishedBandwidthIsNotConverted | pkg/optimization/device_perf_linux.go:190-192 | a disk of 100 MB per second on a VM size that publishes nothing gets less than the 330 kB under way that it needs |

## Left out

- Azure, Kubernetes, wireserver, exec and mount calls themselves: they are environment choices or parameters, and their
  cost, caching and tracing are not modelled.
- Real time: delays, deadlines and timers appear only as "may have passed"; no liveness that depends on them is claimed.
- The early part of AttachDisk (dangling-attach detection, options, write accelerator) and the VM size table: the limit
  is a parameter.
- The retry of a preempted attach through UpdateVM: it is part of the attach's one VM update step, which may apply any
  part of the batch whatever it reports.
- A guard against deleting a disk that is being attached: the source keys its record by another value than the guard
  reads, so nothing is claimed.
- The second attach after a dangling detach at `pkg/azuredisk/controllerserver.go:1027`.
- Pending requests that are nil, type assertions on `sync.Map` values and other states only a programming error could
  produce, beyond those that `Luns` and `PendingMaps.Trim` cover.
- BatchingRuns.CapacityIsKept: says nothing once an attach went ahead without a known VM size, because the source then
  applies no limit.
- A managed disk reference without an ID in the VM's list, which the source dereferences.
- KataOwnership: block volumes and nodes without Kata support, which skip all of it; the order of requests that one
  pod's life cycle makes; two host publications of one volume, which are legal.
- FormatDecision: what the tools print beyond the words the code looks for, and whether their answers are true of the disk.
- FormatSemaphore: runs that are past their timeout, which the source lets continue without counting them.
- MigrationMonitor: labels and the events' delivery; an event is what the monitor sends, whether or not a claim to attach
  it to exists. Percentages are reals, so rounding to 32-bit floats is not modelled.
- The listing of the node's own resource group, whose token is relative to the page's start.
- DiskParameters.ParseDiskParameters: keeps the three mutable settings; other keys are judged by a parameter, and the
  write of the `kind` entry into the map being parsed is not modelled.
- DeviceTuning: rounding of 64-bit floats and the `%g` formatting of the results.
- Error-code mapping, caching-mode, network-policy and SKU normalisers, resize, snapshot creation and Windows mounters.
