# Thule, modelled and verified

Thule plans merge requests without ever applying them: an event arrives, is admitted
and queued, a worker renders the projects the change touches, compares them with the
live cluster, and posts one comment and one status check. This project models that
path and proves what its users rely on. `dafny verify dfyconfig.toml` checks all of it.

**The diff engine** (Json, Positions, Projection, AttributeDiff, LinePositions, Views,
Normalize, NormalForm, NoisePaths, Noise, NormalizeInPlace, Compute). Bodies are JSON trees of any size and depth. The
+/- lines of a patch are shown to be a complete edit script from the live to the
desired body; projection, pruning, normal form and lines are each determined position
by position; the three descriptions of a patch are shown to agree; NO-OP is shown to
mean containment; server noise, input order and the order of ignore entries are shown
to be invisible. The maps that `normalize` deletes from are objects on the heap, and
the in-place code is proved against the value-level functions.

**Event admission** (Discovery, DeliveryStore, DedupeStore, Locker, Queue, Admission,
AdmissionSafety, AdmissionLocks, AdmissionDedupe, AdmissionSerial, AdmissionRaces,
AdmissionKeys, Service). Each store operation is one atomic step; calls interleave freely with each
other, with the consumer and with the clock. Results about delivery ids hold in every
interleaving. The invariants behind the lock, window and nil-answer results are kept
by a step exactly when it is not one of three steps that a caller can name, which no
serial run has; AdmissionRaces shows how each of them does harm.
`HandleMergeRequestEvent` itself is a method on the stores, proved to be a run of the
step system, with a contract that determines its outcome.

**Plan and report** (RunStore, Vcs, DiffText, Parts, Sections, Announcements, Report,
Planner, Worker). One plan is a method over the run, comment and status stores with all
its exits, and calls the diff engine; what the file system, the renderer, the cluster
and the policy evaluator answer is an input. The worker's loop carries the result over
any series of jobs. The comment is built as a list of parts beside its text, so that
what it announces cannot be confused with what resource names spell; which parts it has
is a function of the plans and the byte limits.

Where a proof only passes a text, a list or a set of runs along, the predicate that
describes it is stated under a trigger of its own (`Asked`, `TextAsked`, `RunsAsked`
and so on); its meaning is the formula inside.

Findings about the code, all kept as they are in the model:

- The lock documentation (docs/gitlab-setup.md:74-80) speaks of project folders, but
  every ancestor up to "." is locked, so any two merge requests of one repository with
  a relative file exclude each other (`AdmissionSerial.OneMergeRequestAtATime`).
- `normalize` is not idempotent when an ignore entry removes a single annotation
  (`NormalForm.NormalizeIdempotentIff` gives the exact condition).
- A text of exactly 12000 bytes that ends in an empty line is marked as truncated
  (`DiffText.EmptyLastLineIsCut`).
- The stale exit of a plan leaves its runs running and its check pending
  (`Planner.PlanService.IsOutdated`, `Planner.PlanService.PlanForEvent`).
- Locks taken before a conflict or a failed enqueue are kept
  (`Service.LocksKept`; `Service.LocksAsBeforeIff` says when nothing changes).
- Three races between concurrent calls (AdmissionRaces).

## Model

| member | source | states |
|---|---|---|
| `AttributeDiff.LinesAreAnEditScript` | internal/diff/diff.go:363-424 | For all trees d and a: running the +/- lines in order on a, each line checked against what is there, succeeds and gives exactly d. |
| `AttributeDiff.NoLinesIffEqual` | internal/diff/diff.go:363-424 | There are no lines iff the two trees are equal. |
| `AttributeDiff.LinesShape` | internal/diff/diff.go:395-415 | Two trees are either replaced as a whole or get only lines strictly below the root. |
| `LinePositions.LinesAtDifferences` | internal/diff/diff.go:363-424 | A line is among the lines iff its path is a highest position where the two trees differ and cannot be compared further down (not two maps, not two arrays of one length), and it shows the value of its side there. |
| `LinePositions.LinesInKeyOrder` | internal/diff/diff.go:379-392 | The lines of two maps come in the byte order of their keys. |
| `AttributeDiff.ProjectedLinesPaired` | internal/diff/diff.go:305-424 | Against a projected live tree every minus line is followed at once by the plus line of the same path, and the pair is never array/array or map/map. |
| `AttributeDiff.Walker.Walk` | internal/diff/diff.go:366-421 | The recursive closure appends exactly the specified lines, below the given path, to the shared slice. |
| `AttributeDiff.Walker.WalkKeys` | internal/diff/diff.go:384-392 | The loop over the sorted keys appends the lines of each key in order. |
| `AttributeDiff.Walker.WalkItems` | internal/diff/diff.go:404-408 | The loop over array elements of equal length appends the lines of each index in order. |
| `AttributeDiff.Walker.WalkAt` | internal/diff/diff.go:389-419 | A key present on one side only gives a lone plus or minus line. |
| `AttributeDiff.BuildAttributeDiffLines` | internal/diff/diff.go:363-424 | The returned lines are an edit script from a to d, and empty iff d equals a. |
| `Projection.ProjectEqualsIffEmbeds` | internal/diff/diff.go:305-338 | The projection of a on d equals d iff d embeds in a (keys present and embedded, arrays index by index, entries past the live end null). |
| `Projection.ProjectionExact` | internal/diff/diff.go:305-338 | A tree is the projection iff at every position down to which the two trees have maps and arrays alike it has nothing that desired lacks, the live value where the two are not both maps or both arrays, null past the live end of an array, and otherwise a container, an array as long as the desired one. |
| `Projection.ProjectionEmbeds` | internal/diff/diff.go:305-338 | What is projected out is itself contained in the live tree. |
| `Projection.ProjectSelf` | internal/diff/diff.go:305-338 | Projecting a tree on itself gives it back. |
| `Projection.ProjectIdempotent` | internal/diff/diff.go:305-338 | Projecting twice changes nothing. |
| `Projection.ProjectKeepsNoNullFields` | internal/diff/diff.go:305-338 | Projection introduces no null map value. |
| `Views.PathsAreLinePrefixes` | internal/diff/diff.go:244-287 | For null-free trees the changed paths are exactly the line paths cut at their first array index, at every depth. |
| `Views.ViewsAgree` | internal/diff/diff.go:180-196 | For null-free bodies a key is changed iff some changed path starts with it iff some line does; different bodies leave none of the three empty. |
| `Views.NullFieldsSplitTheViews` | internal/diff/diff.go:266-272 | Why the null-free form is needed: a null field the other side lacks is a line but neither a key nor a path. |
| `Views.ChangedTopLevelKeys` | internal/diff/diff.go:180-196 | The loop returns, strictly sorted, exactly the keys whose values differ, a missing key reading as null. |
| `Views.PathWalker.Walk` | internal/diff/diff.go:247-279 | The closure adds exactly the changed paths below the given path to the shared set. |
| `Views.ChangedFieldPaths` | internal/diff/diff.go:244-287 | The changed paths of the two trees, and the strictly sorted list of exactly their dotted texts. |
| `Views.DottedTextsCollide` | internal/diff/diff.go:267-278 | Two different paths can have one dotted text, so there may be fewer texts than paths. |
| `Views.DottedIsJoin` | internal/diff/diff.go:267-270 | The text of a path of non-empty keys is the keys joined by dots. |
| `Normalize.PruneRemovesNulls` | internal/diff/diff.go:340-361 | Pruning leaves no null map value at any depth. |
| `Normalize.PruneExact` | internal/diff/diff.go:340-361 | A tree is the pruned one iff it has exactly the positions of the original to which no key step reads a null, with the same scalars, and arrays of the same length. |
| `Normalize.PruneKeepsNullFree` | internal/diff/diff.go:340-361 | Pruning changes nothing in a tree without null map values. |
| `Normalize.IgnoreLoopIsWithout` | internal/diff/diff.go:157-178 | The ignore loop equals taking out the set of paths at once. |
| `Normalize.IgnoreOrderIrrelevant` | internal/diff/diff.go:157-159 | Lists with the same paths, in any order and with repetitions, delete the same, and deleting again changes nothing. |
| `Normalize.PositionsAfterIgnore` | internal/diff/diff.go:164-178 | Every position afterwards: gone iff a listed path ends on or above it, otherwise its old value without the listed paths below. |
| `Normalize.IgnoreLeavesOthersAlone` | internal/diff/diff.go:164-178 | A position not on, above or below a listed path keeps its value. |
| `NormalizeInPlace.DeletePath` | internal/diff/diff.go:164-178 | Walking down the live map objects and deleting from the last one changes the whole tree as the value-level deletion says, and no map outside it. |
| `NormalizeInPlace.StripAnnotationsInPlace` | internal/diff/diff.go:131-138 | The last-applied annotation is deleted in place, and the annotations map with it when that empties it. |
| `NormalizeInPlace.StripMetadataInPlace` | internal/diff/diff.go:125-143 | Server fields, annotation and Flux labels are deleted from the metadata map in place. |
| `NormalizeInPlace.StripServerInPlace` | internal/diff/diff.go:124-145 | Status and the metadata noise are deleted from the copy in place. |
| `NormalizeInPlace.StripConversionInPlace` | internal/diff/diff.go:147-156 | A defaulted CRD conversion is deleted in place. |
| `NormalizeInPlace.NormalizeInPlace` | internal/diff/diff.go:119-162 | The sequence of in-place deletions turns the pruned private copy into the normal form. |
| `NormalForm.StrippedIsClean` | internal/diff/diff.go:119-156 | The stripped body has no null map value, none of the noise, and no empty annotations map. |
| `NoisePaths.StrippedIsWithoutNoise` | internal/diff/diff.go:119-156 | Before the ignore loop the body is the pruned one without exactly the noise paths: status, five metadata fields, the last-applied annotation (and the map it leaves empty), two labels, a default CRD conversion. |
| `NoisePaths.NormalizedIsWithout` | internal/diff/diff.go:119-162 | The normal form is the pruned body without exactly its noise and the listed paths. |
| `NoisePaths.NormalizedPositions` | internal/diff/diff.go:119-178 | Every position of a normal form: gone iff noise or a listed path ends there or above, otherwise the pruned value without those below. |
| `NoisePaths.IgnorePathsMean` | internal/diff/diff.go:157-165 | The listed paths are the ignore entries taken apart at their dots. |
| `NormalForm.NormalizeIdempotent` | internal/diff/diff.go:119-162 | Normalizing twice equals normalizing once when the ignore list spares single annotations. |
| `NormalForm.NormalizeNotIdempotent` | internal/diff/diff.go:133-138 | Otherwise there is a body for which a second pass also drops the emptied annotations map. |
| `NormalForm.NormalizeIdempotentIff` | internal/diff/diff.go:119-162 | For a given ignore list: idempotent on all kinds and bodies iff no listed path takes a single annotation while the list leaves metadata and metadata.annotations alone. |
| `Noise.NoiseInvisible` | internal/diff/diff.go:124-156 | Setting or removing status, a server field, the last-applied annotation (also where annotations are missing or null), a Flux label or a defaulted CRD conversion does not change the stripped body. |
| `Noise.EditsTakeEffect` | internal/diff/diff.go:124-143 | The edits do set or remove the fields they name. |
| `Noise.AllNoiseInvisible` | internal/diff/diff.go:119-162 | The same for any sequence of such edits and any ignore list. |
| `Compute.Compute` | internal/diff/diff.go:48-117 | The loops return the specified plan, and counters that match it and add up to its length. |
| `Compute.CompareAll` | internal/diff/diff.go:71-114 | The loop over the sorted identities appends one entry each and counts it, skipping live-only ones that are not pruned. |
| `Text.LessIff` | internal/diff/diff.go:69-69 | The order of identities and keys is that of bytes. |
| `Compute.Collect` | internal/diff/diff.go:51-56 | The loop indexes normalized bodies by identity, the last of equal identities winning. |
| `Compute.ChangeFor` | internal/diff/diff.go:74-112 | The switch for one identity, with its three descriptions computed by the loops above. |
| `Compute.TallyCounts` | internal/diff/diff.go:72-111 | Counters are the per-action counts and sum to the length of the plan. |
| `Compute.PlanCoversExactly` | internal/diff/diff.go:58-114 | The plan is strictly sorted by identity and covers exactly the desired identities plus, iff pruning, the live ones. |
| `Compute.PlanActions` | internal/diff/diff.go:77-112 | CREATE, DELETE and PATCH/NO-OP, each iff the identity occurs on the corresponding sides. |
| `Compute.NoOpIffEmbedded` | internal/diff/diff.go:90-103 | With extra live fields ignored, an identity on both sides is NO-OP iff its normalized desired body embeds in the normalized live one, and PATCH otherwise. |
| `Compute.PatchEntriesAreSound` | internal/diff/diff.go:104-111 | Every PATCH of every plan: its lines turn the current body into the desired one, keys, paths and lines are non-empty and agree, and after projection no line is a lone removal. |
| `Compute.EntriesCarryBodies` | internal/diff/diff.go:77-112 | A CREATE carries the desired body, a DELETE the live one, a NO-OP none; a PATCH the desired one and the live one, or position by position what desired mentions of it. |
| `Compute.PatchShowsDifferences` | internal/diff/diff.go:104-111 | The lines of a PATCH are exactly those at the differences between its two bodies, its keys exactly those whose values differ. |
| `Compute.LastWins` | internal/diff/diff.go:51-56 | The body of an identity is the normal form of the last resource that has it. |
| `Compute.SameIdentityIff` | internal/render/render.go:30-36 | Without bars in API version, kind and namespace, two resources share an identity iff all four parts agree, a missing namespace being _cluster. |
| `Compute.NormalBodyNoNull` | internal/diff/diff.go:119-162 | What is compared has no null map value at any depth, whatever the ignore list. |
| `Compute.PlanOfSelf` | internal/diff/diff.go:48-117 | Comparing resources with themselves gives only NO-OP. |
| `Compute.ActsIffUnsatisfied` | internal/diff/diff.go:71-114 | With extra live fields ignored, a plan has an entry that is not NO-OP iff some desired identity is not live or not embedded, or pruning is on and some live identity is not desired. |
| `Compute.PlanLength` | internal/diff/diff.go:58-114 | A plan has no more entries than there are resources on the two sides. |
| `Compute.PlanIgnoresOrder` | internal/diff/diff.go:48-117 | With distinct identities the plan is the same for any permutation of either input. |
| `Compute.PlanIgnoresNoise` | internal/diff/diff.go:48-162 | Server noise on any of the live resources leaves the whole plan unchanged. |
| `Discovery.CleanIsCanonical` | internal/project/discovery.go:21-21 | Cleaning a path gives one without empty, "." or inner ".." components. |
| `Discovery.CleanOfText` | internal/project/discovery.go:21-23 | Cleaning the text of a clean path gives it back, so a root and its text determine each other. |
| `Discovery.DotsVanish` | internal/project/discovery.go:21-21 | Empty and "." components make no difference wherever they stand. |
| `Discovery.UpCancelsName` | internal/project/discovery.go:21-21 | A name and the ".." after it cancel wherever they stand. |
| `Discovery.UpAtTop` | internal/project/discovery.go:21-21 | At the top ".." vanishes from a rooted path and stays in a relative one. |
| `Discovery.CleanByRules` | internal/project/discovery.go:21-21 | A text is cleaned from its components between slashes, and is rooted iff it starts with one. |
| `Discovery.RootIffFileInside` | internal/project/discovery.go:15-34 | A directory is a root iff some non-blank file, cleaned, lies in it at any depth (a file that cleans to the top lies in that). |
| `Discovery.DiscoverFromChangedFiles` | internal/project/discovery.go:15-41 | Terminates and returns, without duplicates, exactly the ancestor directories of the non-blank files, each with its config path. |
| `Discovery.AncestorConfigs` | internal/project/discovery.go:21-32 | The upward walk collects the config paths of a directory and all above it. |
| `Discovery.RootsAncestorClosed` | internal/project/discovery.go:22-32 | With a root every directory above it is a root. |
| `Discovery.RelativeChangeHasDot` | internal/project/discovery.go:25-27 | A change with a non-blank relative path has the root ".". |
| `DeliveryStore.ReserveReleaseRoundTrip` | internal/storage/memory.go:28-52 | Reserve then Release leaves no trace, and a committed id survives both. |
| `DeliveryStore.MemoryDeliveryStore.Reserve` | internal/storage/memory.go:28-36 | Succeeds iff the id is unknown, which is then pending. |
| `DeliveryStore.MemoryDeliveryStore.Commit` | internal/storage/memory.go:38-44 | Commits a known id and ignores any other. |
| `DeliveryStore.MemoryDeliveryStore.Release` | internal/storage/memory.go:46-52 | Forgets a pending id and keeps a committed one. |
| `DedupeStore.MemoryDedupeStore.Reserve` | internal/storage/dedupe_memory.go:18-35 | Refused iff the key is held and unexpired; otherwise held until now plus the TTL; expired keys are swept. |
| `DedupeStore.MemoryDedupeStore.Sweep` | internal/storage/dedupe_memory.go:25-29 | The loop removes exactly the expired reservations. |
| `DedupeStore.MemoryDedupeStore.Release` | internal/storage/dedupe_memory.go:37-42 | Deletes whatever reservation the key has. |
| `DedupeStore.SweepIsInvisible` | internal/storage/dedupe_memory.go:18-42 | With a clock that never goes back, every sequence of operations is answered as by a store that never sweeps. |
| `Locker.OwnerAfter` | internal/lock/memory.go:20-42 | Ownership of every root of every repository after Acquire and after ReleaseByMR. |
| `Locker.MemoryLocker.Acquire` | internal/lock/memory.go:20-32 | Succeeds iff the root is free or already owned by this merge request, and reports the owner. |
| `Locker.MemoryLocker.ReleaseByMR` | internal/lock/memory.go:34-42 | The loop removes exactly the locks of this merge request in this repository. |
| `Locker.MemoryLocker.List` | internal/lock/memory.go:44-52 | Exactly the owned roots of the repository, each with its owner. |
| `Queue.MemoryQueue.Enqueue` | internal/queue/memory.go:28-35 | Adds nothing when the context ended; otherwise appends the job, and on a full queue a receiver takes exactly the oldest (on an unbuffered one the job itself). |
| `Queue.MemoryQueue.Dequeue` | internal/queue/memory.go:37-44 | Takes the oldest job, or waits for the next one sent; nothing when the context ended. |
| `AdmissionSafety.StepSafe` | internal/orchestrator/service.go:53-108 | Every step of every call keeps the invariant: holders exclusive, pending ids held, at most one job per id, outcomes true, queue conserved. |
| `AdmissionSafety.RunSafe` | internal/orchestrator/service.go:45-109 | Every state of every interleaving of any number of calls satisfies the invariant. |
| `AdmissionSafety.AtMostOneJobPerDelivery` | internal/orchestrator/service.go:53-108 | Over any whole run, no two queued jobs have the same delivery id. |
| `AdmissionSafety.PendingHasOneHolder` | internal/orchestrator/service.go:53-107 | A pending id has exactly one call in flight working on it. |
| `AdmissionSafety.CommittedForever` | internal/orchestrator/service.go:61-107 | A committed id stays committed whatever steps follow. |
| `AdmissionLocks.StepKeepsLocksIff` | internal/orchestrator/service.go:57-105 | Calls own what they acquired, jobs own their roots since the last close, jobs of one root are separated: a step keeps this iff it is not a close that finds a call of its merge request with a lock taken and its job not queued. |
| `AdmissionLocks.QuietIffSafeThroughout` | internal/orchestrator/service.go:57-105 | A run has only such closes iff the lock invariant holds at every moment of it. |
| `AdmissionLocks.JobsOfOneRootSeparated` | internal/orchestrator/service.go:57-89 | Two jobs of different merge requests of one repository with a common root have a close or merge of the earlier one between them. |
| `AdmissionDedupe.StepKeepsWindowIff` | internal/orchestrator/service.go:65-102 | A step keeps the reservation window iff it is not a release that deletes the running reservation of another call or job. |
| `AdmissionDedupe.OwnIffSafeThroughout` | internal/orchestrator/service.go:65-102 | A run has no such release iff the window is kept at every moment of it. |
| `AdmissionDedupe.JobsOfOneKeyApart` | internal/orchestrator/service.go:65-76 | Any two queued jobs with one dedupe key were reserved at least the TTL apart. |
| `AdmissionDedupe.TimelyReleaseIsOwn` | internal/orchestrator/service.go:82-102 | A release before the own reservation has run out, or that finds it or none, deletes no other reservation. |
| `AdmissionSerial.SerialRunOrderly` | internal/orchestrator/service.go:45-109 | With one call at a time: one call in flight, its reservation its own, every nil answer settled. |
| `AdmissionSerial.SerialRunMeetsConditions` | internal/orchestrator/service.go:45-109 | A serial run meets the side conditions of the lock and the window results. |
| `AdmissionSerial.OneMergeRequestAtATime` | internal/orchestrator/service.go:78-89 | In a serial run, jobs of two merge requests of one repository that touch relative files always have a close of the earlier one between them, whatever projects they touch. |
| `AdmissionSerial.SerialNilIsCommitted` | internal/orchestrator/service.go:53-108 | In a serial run a nil answer means that the delivery id is committed. |
| `AdmissionSerial.CommittedIffNotHeld` | internal/storage/memory.go:28-52 | An id in the store is committed iff no call holds it. |
| `AdmissionSerial.StepNilSettledIff` | internal/orchestrator/service.go:53-55 | Every nil answer has a committed id: a step keeps this iff it is not a redelivery that finds its id held by a call at work. |
| `AdmissionSerial.TimelyIffNilSettled` | internal/orchestrator/service.go:53-108 | In any interleaving: nil means committed at every moment iff no redelivery comes while a call is at work on its id. |
| `AdmissionKeys.SameKeyIff` | internal/orchestrator/service.go:116-118 | Without colons in repository and commit, two events have one dedupe key iff repository, merge request, commit and event type agree. |
| `AdmissionKeys.ColonsCollide` | internal/orchestrator/service.go:116-118 | With a colon in a repository two different events can have one key. |
| `AdmissionKeys.RunClaimed` | internal/orchestrator/service.go:65-102 | In every state of every run, each reservation was made by a call still at work or for a queued job, its TTL before it runs out. |
| `AdmissionKeys.DedupedOnlyIfRepeated` | internal/orchestrator/service.go:65-76 | An event is answered as a repetition only if one with the same four values reserved less than the TTL before. |
| `AdmissionKeys.JobsComeFromEvents` | internal/orchestrator/service.go:45-108 | Every job ever queued carries all values of a well-formed event that arrived and is no close. |
| `AdmissionKeys.ClosesIff` | internal/orchestrator/service.go:111-114 | An event closes iff its type holds "closed" or "merged" in letters of any case. |
| `AdmissionRaces.RedeliveryDuringFailure` | internal/orchestrator/service.go:53-55 | Concurrent counterexample: a redelivery is answered nil while the first call goes on to fail, and nothing is queued or stored. |
| `AdmissionRaces.CloseOvertakesCall` | internal/orchestrator/service.go:57-63 | Concurrent counterexample: a close that overtakes a call lets two merge requests queue jobs for one root. |
| `AdmissionRaces.SlowCallDropsLaterKey` | internal/orchestrator/service.go:100-104 | Concurrent counterexample: a call slower than the TTL drops a later reservation, so one key is queued twice at once. |
| `Service.AdmissionService.HandleMergeRequestEvent` | internal/orchestrator/service.go:45-109 | One call on the real stores is a run of the step system; its outcome is determined by the stores it finds, and so is what deliveries, expiries, queue and locks are afterwards. |
| `Service.AcceptedIff` | internal/orchestrator/service.go:53-108 | Each outcome as an iff: accepted, deduped, duplicate, closed, and failed (dedupe error, a root of another merge request, or a cancelled context). |
| `Service.AcceptedOwns` | internal/orchestrator/service.go:78-89 | An accepted event owns all its roots. |
| `Service.AdmissionService.AcquireRoots` | internal/orchestrator/service.go:78-89 | The lock loop succeeds iff every root is free or own; it stops at the first that is not, and exactly the roots before it are acquired and stay so. |
| `Service.AdmissionService.LockAndEnqueue` | internal/orchestrator/service.go:78-108 | Accepted iff every root is available and the context lasts; otherwise queue and id are as before and the dedupe key is free; which roots are acquired is stated for each case. |
| `Service.RedeliveryNotDropped` | internal/orchestrator/service.go:68-104 | After an error past validation the delivery id is free, and the dedupe key can be reserved iff not the dedupe store failed while another event holds it. |
| `Service.LocksKept` | internal/orchestrator/service.go:79-104 | A failed call keeps its locks: all roots after a failed enqueue, those before the conflict otherwise. |
| `Service.LocksAsBeforeIff` | internal/orchestrator/service.go:78-105 | A failed call leaves all owners as they were iff its merge request already owned the roots it took; after a failed enqueue, iff it owned all. |
| `RunStore.MemoryStore.Start` | internal/run/store.go:58-67 | A new running record with the next id, filed under its merge request; the index stays a partition. |
| `RunStore.MemoryStore.Complete` | internal/run/store.go:69-80 | Sets state and error of a known run, ignores an unknown one. |
| `RunStore.MemoryStore.List` | internal/run/store.go:82-106 | The requested page of the merge request's history, newest first. |
| `RunStore.MemoryStore.AddArtifact` | internal/run/store.go:108-112 | Appends to the artifacts of the run. |
| `RunStore.MemoryStore.ListArtifacts` | internal/run/store.go:114-135 | The loop copies exactly the artifacts numbered from the start of the page on, as many as there are up to the page size, in order. |
| `RunStore.MemoryStore.SetLatestSHA` | internal/run/store.go:137-141 | Records the commit for the merge request only. |
| `RunStore.PagesListAll` | internal/run/store.go:87-105 | For any page size of at least 1, the pages up to the first empty one list everything once, in order. |
| `RunStore.FirstPageHolds` | internal/run/store.go:87-100 | The first page of size n holds the first n elements or all, a size that is not positive being 20. |
| `RunStore.PagesFollow` | internal/run/store.go:93-97 | Each page starts where the one before it ends. |
| `RunStore.SortOfIncreasing` | internal/run/store.go:85-86 | Sorting the index newest first reverses it. |
| `RunStore.HistoryComplete` | internal/run/store.go:82-106 | In every valid store the history has each run of the merge request exactly once, ids strictly falling. |
| `RunStore.StartIndexes` | internal/run/store.go:62-65 | Starting a run keeps ids unique and increasing and the index a partition. |
| `Vcs.PostedChained` | internal/vcs/comments.go:31-40 | Posting keeps the thread chained: each comment superseded by the next, only the last standing. |
| `Vcs.PostedMeans` | internal/vcs/comments.go:31-40 | The new comment comes last; of an earlier one only that it is superseded changes, by the new one if it was standing. |
| `Vcs.OneStanding` | internal/vcs/comments.go:34-39 | In a chained thread a comment is unsuperseded iff it is the last. |
| `Vcs.MemoryCommentStore.PostOrSupersede` | internal/vcs/comments.go:28-42 | One new comment with the next id, all standing ones of that merge request superseded by it, other threads untouched. |
| `Vcs.MemoryStatusPublisher.SetStatus` | internal/vcs/status.go:33-37 | Appends to the trace. |
| `Vcs.MemoryStatusPublisher.ListStatuses` | internal/vcs/status.go:39-49 | Exactly the checks of this merge request and commit, in order. |
| `Vcs.StatusesMean` | internal/vcs/status.go:42-47 | Exactly the checks of the merge request and commit are listed. |
| `Planner.OutdatedIff` | internal/orchestrator/planner.go:68-71 | A plan is given up as outdated iff a newer commit is seen at some project before any project has failed. |
| `Planner.StaleIff` | internal/run/store.go:143-147 | A check is stale iff the last commit recorded since the plan began is a different one and not empty. |
| `Planner.EndsWhenNewer` | internal/orchestrator/planner.go:68-71 | A different commit recorded before the i-th project ends the plan there. |
| `Planner.ErredIff` | internal/orchestrator/planner.go:77-112 | A plan fails with an error iff that is the error of the first failing project and no check up to there is stale. |
| `Planner.AloneNeverOutdated` | internal/orchestrator/planner.go:43-71 | With nothing newer recorded the stale check never fires, and the plan fails iff some project does. |
| `Planner.StartedArePlanned` | internal/orchestrator/planner.go:94-129 | In a plan that completes, the runs are those of the plans reported, in that order. |
| `Planner.ShownIffToDo` | internal/orchestrator/planner.go:113-129 | A project is shown iff it has a finding, or some desired resource is not live or not contained in the live one, or one is to be pruned. |
| `Planner.NoDiffIff` | internal/orchestrator/planner.go:137-143 | The comment says that there is no diff iff that is so for no project planned. |
| `Planner.PlanService.MakePlan` | internal/orchestrator/planner.go:113-129 | The plan of a project is computed by Compute from its desired and live resources. |
| `Planner.GatherMeans` | internal/orchestrator/planner.go:54-57 | What the loop gathers: planned iff some project has a config, exactly the plans found, and the largest detail limit of the loaded configs. |
| `Planner.FiledUnder` | internal/orchestrator/planner.go:148-156 | Every run of the plan, and no other, gets the comment and its id filed once. |
| `Planner.PlanService.FailRuns` | internal/orchestrator/planner.go:58-67 | All started runs but the current one are failed, each once, in order. |
| `Planner.PlanService.Abort` | internal/orchestrator/planner.go:169-176 | The error exit fails every run of the plan once, with that error, and writes the failed check. |
| `Planner.PlanService.IsOutdated` | internal/orchestrator/planner.go:69-71 | The stale exit leaves every run of the plan running. |
| `Planner.PlanService.Visit` | internal/orchestrator/planner.go:72-129 | One project: nothing, a new run, or the error exit. |
| `Planner.PlanService.PlanNext` | internal/orchestrator/planner.go:68-130 | One turn of the loop: the project is stale, fails, or adds its run and its plan. |
| `Planner.PlanService.PlanProjects` | internal/orchestrator/planner.go:68-130 | The loop ends as its first stale check or error says, with the runs started up to there, and gathers plans and the largest detail limit. |
| `Planner.PlanService.FinishRuns` | internal/orchestrator/planner.go:147-158 | Every run of the plan succeeds once and gets the comment filed. |
| `Planner.PlanService.Publish` | internal/orchestrator/planner.go:132-161 | One comment, its text, and all runs succeeded. |
| `Planner.PlanService.PlanForEvent` | internal/orchestrator/planner.go:42-167 | No error: the last check is Success and all runs started succeeded, one new standing comment with the stated text; error m: the last check is Failed with m, all runs Failed with m, no comment; outdated: only the pending check, runs still running; other runs untouched. |
| `Planner.Discover` | internal/orchestrator/planner.go:50-53 | The projects are looked at in the order of their config paths. |
| `Planner.FindingsMean` | internal/orchestrator/planner.go:50-53 | The config paths looked at are exactly those of a thule.conf in a root, in byte order. |
| `Worker.PlanAlone` | cmd/thule-worker/main.go:168-172 | A plan with no other beside it is never outdated, its last check is Success iff no project failed, and every run is settled. |
| `Worker.RunWorker` | cmd/thule-worker/main.go:115-173 | Over any turns, with jobs arriving in between: the jobs are taken in order, all runs settled and completed exactly once, checks those of the jobs in order, one comment more per completed job. |
| `Worker.FirstInFirstOut` | cmd/thule-worker/main.go:115-120 | Jobs taken and still queued are the initial ones and those that came, in that order, none lost or twice. |
| `Worker.TraceInPairs` | cmd/thule-worker/main.go:115-173 | The checks of any series of jobs are pending/final pairs of one commit. |
| `Worker.EntryTells` | cmd/thule-worker/main.go:168-172 | The checks of a job that was planned are pending, then Success iff no project of its files failed and Failed otherwise. |
| `Worker.LastCheckTells` | cmd/thule-worker/main.go:115-173 | After any number of jobs the last check tells whether the last job planned failed. |
| `Worker.FilesForPrefers` | cmd/thule-worker/main.go:136-158 | A job's own files, else the host's, else git's. |
| `Worker.WorkIsInPairs` | cmd/thule-worker/main.go:115-173 | So are the checks the worker has added. |
| `Worker.LastIsFinal` | internal/vcs/status.go:39-49 | Hence the last check listed for a commit between jobs is never pending. |
| `DiffText.TruncateDiffLines` | internal/report/report.go:255-282 | The trimmed join if the lines fit, otherwise the trimmed first 11999 or 12000 bytes of the join and the marker; the budget never goes below zero. |
| `DiffText.CutIffTooLong` | internal/report/report.go:255-282 | For non-empty lines: cut iff the join is longer than 12000 bytes. |
| `DiffText.EmptyLastLineIsCut` | internal/report/report.go:262-266 | An empty last line is cut with a marker when the join is exactly at the limit. |
| `DiffText.TrimSpaceMeans` | internal/report/report.go:281-281 | Trimming takes spaces off both ends and nothing else. |
| `DiffText.JoinedIsJoin` | internal/report/report.go:260-272 | The text that is cut is the lines joined by newlines. |
| `DiffText.TruncateYAMLBlock` | internal/report/report.go:247-253 | The trimmed text if it fits; never more than the limit plus the marker. |
| `DiffText.LongBlockIsPrefix` | internal/report/report.go:247-253 | A longer text keeps its prefix of at most 12000 bytes, from which only trailing spaces are missing, and the marker. |
| `Sections.StopMeans` | internal/report/report.go:115-146 | As many elements are written as fit: all before the stop fit, and the one at the stop is beyond the limit on their number or would have exceeded the size limit. |
| `Sections.AppendChange` | internal/report/report.go:116-146 | One turn of the loop over the changes: printed in full iff within both limits, otherwise the list ends with the notice called for. |
| `Sections.AppendChanges` | internal/report/report.go:108-149 | The loop writes exactly the changes that fit in full, then at most one headline and the notice of how many are missing. |
| `Sections.CutChangeIncomplete` | internal/report/report.go:134-149 | A change counted as missing is never shown whole. |
| `Sections.ActionableMeans` | internal/report/report.go:116-119 | A plan lists exactly the changes that are not NO-OP. |
| `Sections.ShownInOrder` | internal/report/report.go:116-146 | The changes printed in full are the first ones in order, each headline followed by its details. |
| `Sections.AppendFindings` | internal/report/report.go:155-167 | Exactly the findings that fit, in order, then a notice if there are more. |
| `Sections.AppendPlanSections` | internal/report/report.go:106-168 | The whole section of a project, determined by the bytes before it; it overshoots the limit by at most 159 bytes. |
| `Sections.AppendHeading` | internal/report/report.go:75-91 | The heading lines iff they fit, otherwise the notice. |
| `Sections.AppendProjects` | internal/report/report.go:75-93 | The loop writes exactly the projects whose heading lines fit, up to the first whose do not. |
| `Sections.BuildComment` | internal/report/report.go:70-97 | Exactly which parts a comment consists of, and at most max(900000, preamble) + 512 bytes. |
| `Announcements.SectionAnnounces` | internal/report/report.go:116-149 | A section announces n missing resources iff exactly n non-NO-OP changes, and at least one, are not printed in full. |
| `Announcements.LacksForReason` | internal/report/report.go:120-146 | The first of them is beyond the detail limit or would not have fitted; all before are within both limits. |
| `Announcements.CommentAnnounces` | internal/report/report.go:40-97 | Over the whole comment: a notice of n missing resources appears iff some project shown lacks exactly n. |
| `Announcements.ProjectsShowAsMuch` | internal/report/report.go:75-93 | Of each project shown the comment text holds the first changes in full, and the next would have exceeded the limits. |
| `Announcements.OmittedForSize` | internal/report/report.go:80-89 | A project is left out only where its heading lines would have exceeded the limit, and the comment says so. |
| `Report.ShownIffListsChange` | internal/report/report.go:99-104 | With the summary of its changes, a project is shown iff it lists a change that is not NO-OP or has a finding. |
| `Report.ListedAreCounted` | internal/report/report.go:109-114 | The counters of a plan count the changes listed. |
| `Report.DetailsBounded` | internal/report/report.go:174-204 | Details are empty iff there is nothing to show, and never more than two blocks of 12020 bytes and 47 more. |
| `Report.ReportShowsEntry` | internal/diff/diff.go:77-112 | The report shows of a CREATE the YAML of the desired body, of a DELETE that of the live one, and one line with the right sign and value for each line of a PATCH. |
| `Report.BuildNoChangesComment` | internal/report/report.go:206-233 | The no-changes comment: the reason, and the first files with the exact number of those left out. |
| `Report.ListFiles` | internal/report/report.go:222-228 | The loop lists all files, or the first up to the limit and how many more there are. |
| `Report.CollectVisible` | internal/report/report.go:48-53 | Exactly the projects with changes or findings, in order. |
| `Report.AddUp` | internal/report/report.go:62-68 | The totals over the projects shown. |
| `Report.TotalsAreSums` | internal/report/report.go:62-68 | Each total counter is the sum of that counter over the projects shown. |
| `Report.SortPlansSorts` | internal/report/report.go:58-60 | Projects are sorted by name, none lost or added. |
| `Report.BuildAggregatedPlanComment` | internal/report/report.go:40-97 | Which of the three comments is built, exactly of what it consists, and its size bound for any number and size of projects, changes and findings. |

## Left out

- GitLab client, live cluster reader, Redis queue and dedupe store, git sync and diff: network or library calls.
- Webhook HTTP handling, signature checks and payload decoding.
- YAML and JSON text encoding: the texts of a value and of a body are functions given to the planner.
- Compute.Compute, Compute.ChangeFor: no risk tags; the entries hold bodies in place of YAML texts, and the planner's encoder supplies both.
- Bodies that do not survive the JSON deep copy: the code collapses them to an empty map; the copy itself is not modelled, `NormalizeInPlace` starts from the pruned copy.
- `Compute` normalizes by the value-level function; that the in-place code computes it is `NormalizeInPlace.NormalizeInPlace`.
- Risk tags, policy evaluation, the Flux kind filter, environment parsing and the maintenance counter: easy members.
- Planner.PlanService.Visit: the config loader, `RenderProject`, `filterDesiredByChangedFiles`, the cluster reader and the policy evaluator are an input, one answer per config path and constant during a plan; the resources of a project together are fewer than 2^63.
- `BuildPlanComment`: the one-project comment of the command-line tool; it calls the same section writer with other headings.
- Maps ranged over in arbitrary order are modelled by choosing any next element; `sort` calls are modelled as functions.
- Mutexes: each store operation is one atomic step. The dedupe store reads the clock just before it takes its mutex; the model reads it inside the step.
- Queue.MemoryQueue.Enqueue, Queue.MemoryQueue.Dequeue: a call that would block is modelled up to the moment it can go on, with only the one receiver or sender acting meanwhile; a call that waits for ever is not modelled.
- RunStore.MemoryStore.List: no integer widths; ids, counters and page numbers are unbounded; an overflow of page times page size is not modelled. Slice lengths are assumed to fit 63 bits, which gives counters of at most 20 digits.
- DiffText.TruncateDiffLines: no Unicode spaces; report texts are byte sequences and trimming knows the ASCII spaces only; lower-casing of event types covers ASCII letters; separators and case of Windows paths are not modelled.
- Worker.RunWorker: the endless loop is modelled by any finite number of its turns; jobs that find no room are sent again in a later turn.
- Timestamps of run records and of comments.
- Planner.PlanService.PlanForEvent: a newer commit recorded by another worker during a plan is the only outside interference with the run store that is modelled; concurrent plans of one store are not.
- DeliveryStore.MemoryDeliveryStore.Seen, Vcs.MemoryCommentStore.List: plain reads, with no claim of their own.
