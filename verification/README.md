# Prow, verified in Dafny

Prow runs continuous-integration jobs on Kubernetes and automates GitHub. This project models the parts
of it whose correctness is not visible in any single function, and proves what they promise:

- the **plank controller**, which turns ProwJobs into pods under concurrency limits, with workers that
  interleave freely, API calls that fail and replies that get lost;
- the **aborter**, which cancels superseded presubmits;
- **OWNERS resolution** and the cache of parsed OWNERS files;
- four pieces of **layered configuration** that must mean the same thing in two readings: Tide queries,
  Bugzilla options, branch protection, and required contexts against triggered jobs;
- the GitHub client's **retry loop** and **token-bucket throttler**;
- the one-pass **gitattributes path matcher**;
- the **refspec parser**.

`dafny verify dfyconfig.toml` checks everything.

## How the model is built

| file | source | form |
|---|---|---|
| `Plank.dfy` | `plank/controller.go` | the controller, its workers, the API server and the environment as one transition system |
| `PlankSnapshot.dfy`, `PlankLifecycle.dfy`, `PlankPods.dfy`, `PlankOutcomes.dfy`, `PlankConcurrency.dfy`, `PlankWork.dfy` | the same | invariants and theorems over whole runs; what a worker does in each case |
| `PlankLosses.dfy`, `PlankLostCancel.dfy` | the same | for each exception the theorems make, a run that shows it is needed |
| `PlankQueue.dfy` | the same | cancellations of the aborter and queues of waiting jobs inside runs of the machine |
| `PlankAdmission.dfy` | the same, `pjutil/pjutil.go` | the controller object with its critical sections; what admission does to a queue, in every order of service |
| `ProwJobs.dfy`, `Abort.dfy` | `pjutil/abort.go` | the resource and its merge patches; one pass over an array, in place |
| `Owners.dfy`, `OwnersCache.dfy`, `OwnersCacheRuns.dfy` | `repoowners/repoowners.go` | loops proved against functions on directory chains; a client object with its cache; runs in which pushes and loads interleave |
| `Tide.dfy`, `Bugzilla.dfy`, `Presubmits.dfy`, `BranchProtection.dfy` | `config/`, `plugins/config.go`, `pjutil/filter.go` | loops proved against declarative meanings |
| `Retry.dfy`, `Throttle.dfy` | `github/client.go` | the loop with a trace of what it did; an object, and all interleavings of its operations |
| `GitAttributes.dfy` | `gitattributes/pattern.go` | the nested loops proved against a relation |
| `RefSpec.dfy` | `clonerefs/parse.go` | the parser proved against a printer |
| `Layers.dfy` | `config/branch_protection.go`, `plugins/config.go` | what it means that later settings override earlier ones |
| `Text.dfy`, `Sorting.dfy` | Go's `strings`, `strconv`, `sort` | the library calls in use, each with the law that is relied on |

**The plank machine.** One event is one atomic step: an environment step (a new job, a pod that changes
or disappears), one API call, or one critical section. A Sync lists the jobs, lists the pods, cancels
superseded jobs until a patch returns an error, then runs the round of pending and the round of waiting
jobs, whose workers proceed independently; it may crash at any point. A worker decides from its snapshots
and then issues API calls. Creations and patches succeed, fail, or take effect with their reply lost. A
patch is the JSON merge patch of two local copies, applied to whatever the server holds. The jobs are those
the controller's selector and agent filter let through. Names, which are UUIDs, are numbers. The number of
goroutines is not bounded, which allows more interleavings than `MaxGoroutines` does.

**Parameters.** Regular expressions, `filepath.Match`, YAML, `git diff` (the set of paths on which two
trees differ), the clock, network replies and login normalisation are function parameters. Nil slices
and pointers are `Option`s, apart from slices that the code only ever measures or ranges over.

## What the proofs found

Where the code does not do what its documentation or its surroundings suggest, the model follows the
code; the member named with each point says exactly when the two agree.

- *A cancellation whose reply is lost can be undone.* The aborter's pass ends at the error, Sync goes on with
  the copy it has, and the worker's patch is merged into the aborted job: it becomes successful
  (`PlankLostCancel.TerminalStateIsLeft`), or pending with its completion time set
  (`PlankLostCancel.AbortedJobIsRevived`). A run keeps the life cycle of a job if and only if no patch
  records a new state over such a cancellation (`PlankLifecycle.LifecycleExactly`).
- *Five kinds of loss break the concurrency limits, and no other.* A crash while a waiting job has its pod,
  a lost reply to the creation of that pod, a rejected patch after it, a failed deletion of a pod that timed
  out, and a rejected patch that should finish an uncounted job: each alone exceeds the limit in some run
  (`PlankLosses.EachLossExceedsLimit`); without them the limits hold whatever else fails
  (`PlankConcurrency.ConcurrencyLimits`).
- *Serving waiting jobs oldest first fills only half of the free places.* An admitted job is counted in
  `pendingJobs` and is still seen as an older waiting job in the snapshot, so job number `i` is admitted
  exactly when `pending + 2i < limit` (`PlankAdmission.OldestFirstFillsHalf`).
- *A push inside a load of owners spoils the cache.* The head is read before the lock is taken, but the branch
  is checked out, and the result is stored under the head that was read. If a later push restores that
  head's files, a load with no push inside answers with the other commit's owners
  (`OwnersCacheRuns.TornRun`). Such a push is harmless for every reading of the files if and only if the two
  commits agree on the files that are read (`OwnersCacheRuns.TornLoadsExactly`), and in every run in which
  they do, every answer is fresh (`OwnersCacheRuns.AnswersAreFresh`).
- *`LoadRepoAliases` makes cached owners stale.* It moves the entry to the new commit and keeps the old
  owners (`OwnersCache.AliasesMakeOwnersStale`). In all runs, whatever interleaves, every answer is that of
  the tree last checked out for the entry (`OwnersCacheRuns.AnswersComeFromOrigins`), and an answer from the
  cache is right if and only if that tree gives what the entry's label does
  (`OwnersCacheRuns.CachedAnswerExactly`).
- *An entry with an empty list of Bugzilla statuses* empties the list of states of its own table, but is then
  taken for unset, so that an outer table's states count after all (`Bugzilla.LaterStatesOverride`,
  `Bugzilla.EmptyStatusesExample`).
- *The aborter's identity joins type, job and refs without marking which is which.* For clean names it
  confuses exactly two jobs with the same refs that each have the other's type as their name, such as a
  presubmit named `batch` and a batch named `presubmit` (`Aborter.IdentityMeans`,
  `Aborter.SwappedNamesCollide`).
- *`statesMatch` is containment of sets of equal-length lists*, so with a repeated state it accepts lists
  that differ as sets, and pruning then changes the meaning of a branch. Lists without repetitions are safe,
  and only they are (`Bugzilla.LookupSameMeaning`, `Bugzilla.PruningIsSafeExactly`).
- *The comments promise that `*` applies to all orgs and repos; only branches have a `*` entry*, and entries
  for an org or repo `*` apply to no other (`Bugzilla.WildcardNamesDoNotApply`).
- *An entry that excludes defaults excludes those of its own table only.* Forgetting the exclusion towards
  the outer levels makes no difference if and only if the entry sets every field that they set
  (`Bugzilla.ExclusionStopsAtItsTable`).
- *`pathMatch` does not backtrack*, drops a `**` before an empty segment, and accepts nothing for a pattern
  of `**` alone. For literal segments it is right about every path if and only if the pattern has a plain
  segment, no `**` inside a segment, and after the first `**` only plain segments that come directly after a
  `**` (`GitAttributes.SpacingIsExact`).
- *`pathMatch` accepts as soon as a prefix of the path matches.* The comment at `gitattributes/pattern.go:39`
  denies that a directory's pattern matches the paths inside it; every pattern that accepts a path accepts
  all paths inside it, `a/b` for instance accepts `a/b/c` (`GitAttributes.AcceptsInside`,
  `GitAttributes.DirectoryExample`). Prefix and whole-path reading agree if and only if the pattern ends in
  `**` (`GitAttributes.PrefixIsWholeExactly`).
- *`entriesForFile` overwrites the directory it has just computed* (`repoowners/repoowners.go:689-690`), so
  the walk starts at the path itself. Without an entry for the path itself that makes no difference if and
  only if the path has no directory options that cut off the parents (`Owners.PlainFilesAlike`,
  `Owners.StartsAtThePath`).
- *Leaf owners do not commute with the collaborator filter*: when no leaf owner is a collaborator, the leaf
  moves up (`Owners.LeafFiltered` gives the exact condition).
- *A refspec with a lone colon after the `=` is accepted although it names no ref* (`RefSpec.LoneColonExample`);
  what is parsed from any other text survives being printed and parsed again, and from that one it does not
  (`RefSpec.Reparse`).

## Model

| member | source | states |
|---|---|---|
| `PlankConcurrency.ConcurrencyLimits` | plank/controller.go:125-183 | In every run without one of five kinds of loss, whatever else fails or gets lost and however workers, Syncs, new jobs and pod changes interleave, the pending jobs never exceed a positive global limit, nor those of any name its positive limit. |
| `PlankConcurrency.StepKeepsSafe` | plank/controller.go:253-266 | Every event that is not one of those losses (crashes, rejected patches, failed deletions and lost replies included) keeps the invariant: counters equal the sizes of the counted sets; every pending job is counted, still queued or about to finish; a waiting job has a pod only between its creation and the patch that follows. |
| `PlankConcurrency.CountOne` | plank/controller.go:179-183 | Counting a job once more keeps the counters, per name and in total, equal to the sizes of the sets of counted jobs. |
| `PlankConcurrency.AdmissionFits` | plank/controller.go:125-174 | A job the admission check lets through still fits under both limits together with all the counted ones. |
| `PlankConcurrency.InvMeansWithin` | plank/controller.go:357-543 | In every phase of a Sync the invariant bounds the jobs that are pending on the server. |
| `PlankLosses.EachLossExceedsLimit` | plank/controller.go:357-543 | For each of the five kinds of loss, a run under global limit 1, within the limit at its start, whose only loss is of that kind and in which two jobs end up pending. |
| `PlankLifecycle.Lifecycle` | plank/controller.go:357-543 | Over any stretch of any run that does not overwrite an unnoticed cancellation of the job, with failed patches, failed pod calls, lost replies and crashes: the job keeps its specification, is terminal exactly when its completion time is set, keeps state and completion time once terminal, and moves in one step only from Triggered to Pending, Error or Aborted and from Pending to Success, Failure, Error or Aborted. |
| `PlankLifecycle.LifecycleExactly` | plank/controller.go:243-266 | A run moves a job legally at every step if and only if no patch in it records a new state over a cancellation that took effect unnoticed in the same Sync. |
| `PlankLifecycle.StepLegalExactly` | plank/controller.go:357-543 | Each event moves each job legally or not at all, exactly unless it is such a patch. |
| `PlankLifecycle.StalePatchExactly` | pjutil/abort.go:129-148 | A worker's merge patch over a cancellation it does not know of is legal exactly when it records no new state, or the same abortion again. |
| `PlankLostCancel.TerminalStateIsLeft` | pjutil/abort.go:119-122 | A run in which the reply to a cancellation is lost and the aborted job is then recorded as successful with another completion time. |
| `PlankLostCancel.AbortedJobIsRevived` | pjutil/abort.go:119-122 | A run in which a job aborted that way becomes pending with its completion time still set. |
| `PlankSnapshot.RunKeepsShape` | plank/controller.go:206-266 | In every run, whatever fails or gets lost, the snapshot agrees with the server on all jobs not patched since, except that jobs cancelled unnoticed are aborted there; each round works on exactly the snapshot's jobs in its state. |
| `PlankSnapshot.StepKeepsShape` | plank/controller.go:206-266 | Every event keeps that agreement. |
| `PlankSnapshot.UnnoticedPatchIsPatch` | plank/controller.go:488-489 | A worker's patch whose reply is lost leaves the same state as one that is acknowledged. |
| `PlankSnapshot.WorkerStepsAlone` | plank/controller.go:341-352 | A worker's step moves no other worker and changes no other job, and its own job only as it finishes. |
| `PlankSnapshot.PatchFromSnapshot` | pjutil/abort.go:129-148 | A patch made from an up-to-date copy installs exactly the intended job and changes no other. |
| `PlankSnapshot.OnlyPatchesMove` | plank/controller.go:357-543 | Of all steps of a worker, only its patch changes a job. |
| `PlankOutcomes.EveryChangeIsJustified` | plank/controller.go:357-543 | In every run, whatever fails or gets lost, whenever a job changes, either it is aborted because a rival not started earlier superseded it, or its worker records (over an unnoticed cancellation: merges into the aborted job) what the pod in the same Sync's listing calls for: Success for a succeeded pod, Failure for a failed one that was not evicted, Error for a refused, evicted or stuck one, Aborted for one past the running timeout, Pending for a pod started or adopted with its build id. |
| `PlankOutcomes.StepKeepsVerdicts` | plank/controller.go:362-475 | Every event keeps: whatever a worker is about to record is called for by the pod snapshot (the other direction is `TakePendingExactly`). |
| `PlankOutcomes.TimeoutFollowsDeletion` | plank/controller.go:428-471 | The end of a job whose pod was listed as pending or running is recorded only after its worker, in the same Sync, successfully deleted the pod and did nothing else since. |
| `PlankWork.TakePendingExactly` | plank/controller.go:362-475 | Which stage a pending job's worker goes to, each if and only if: it ends the job as Success, Failure or Error, completed now, for a pod that succeeded, failed unevicted, or was evicted under ErrorOnEviction; deletes an overdue pod first; replaces an unknown or otherwise evicted one; creates one if none is listed; and otherwise waits. The job is counted if and only if it is not about to end. |
| `PlankWork.RoundEndsJob` | plank/controller.go:397-489 | In every run, a round of pending jobs in which no call for a job fails leaves the job terminal on the server if the pod listed for it has ended or is overdue. |
| `PlankWork.ListsExactly` | plank/controller.go:209-230 | A Sync's snapshots are all jobs, and the pods of the clusters whose listing succeeds. |
| `PlankWork.RoundsBegin` | plank/controller.go:249-266 | Each round starts with exactly the snapshot's jobs in its state waiting; the first with nothing counted. |
| `PlankWork.TakeTriggeredExactly` | plank/controller.go:499-540 | A waiting job's worker adopts a listed pod with its build, uncounted; otherwise creates a pod, and counts the job, exactly if there is a place; else leaves it. |
| `PlankWork.StartedExactlyIfPlace` | plank/controller.go:125-174 | In every run, whatever fails or gets lost, a waiting job without a listed pod is started when taken if and only if fewer jobs than a positive global limit are counted and, for a nonzero limit of its own, the counted jobs of its name and the older waiting ones together are below it. |
| `PlankWork.CreatePodExactly` | plank/controller.go:364-383 | The reply to a creation: build and pod name recorded, a waiting job becoming pending; an invalid pod ends the job in error, completed now; a failure changes nothing. |
| `PlankWork.DeletePodExactly` | plank/controller.go:426-471 | A timeout goes on to be recorded exactly after a successful deletion. |
| `PlankWork.PodsVanishOnly` | plank/controller.go:270-291 | A pod disappears only by itself, by its job's worker, or, listed, by a cancellation where cancellations are allowed. |
| `PlankSnapshot.CancelAborts` | pjutil/abort.go:98-123 | A cancellation that takes effect leaves the server with exactly the aborted job. |
| `PlankPods.NeverASecondPod` | plank/controller.go:497-523 | If the pods are always listed completely, no step of any run, whatever else fails or gets lost, asks for a pod for a job whose pod exists, even after a creation whose reply, or whose following patch, was lost. |
| `PlankPods.StepKeepsPodInv` | plank/controller.go:219-230 | Every event keeps: the pod snapshot misses no pod of a job still undecided, and no worker is about to create a pod it has seen. |
| `Plank.SumRemove` | plank/controller.go:130-133 | The total over the counters does not depend on the order in which the map is iterated. |
| `Plank.SumIncrement` | plank/controller.go:179-183 | Incrementing any counter adds one to the total. |
| `PlankAdmission.Controller.constructor` | plank/controller.go:105-121 | A new controller has counted nothing. |
| `PlankAdmission.Controller.CanExecuteConcurrently` | plank/controller.go:125-174 | Admits exactly when the total is under a positive global limit and, for a nonzero limit of the job, its pending and its older waiting jobs together are under it; counts the job exactly when it admits it. |
| `PlankAdmission.Controller.TotalPending` | plank/controller.go:129-133 | The loop over the map computes the total. |
| `PlankAdmission.Controller.OlderMatchingPJs` | plank/controller.go:151-164 | The loop counts the snapshot's waiting jobs of the same name created strictly earlier. |
| `PlankAdmission.Controller.IncrementNumPendingJobs` | plank/controller.go:179-183 | Adds one to the job's counter, and touches no other. |
| `PlankAdmission.PartitionActive` | pjutil/pjutil.go:196-222 | The two channels hold the pending and the triggered jobs, in list order. |
| `PlankAdmission.ChannelsHoldTheSnapshot` | pjutil/pjutil.go:211-218 | A channel holds exactly the names of the jobs that the snapshot has in its state. |
| `PlankAdmission.RoomForTheOldest` | plank/controller.go:145-174 | Until the oldest waiting job of a name is served, no order of service fills the last place. |
| `PlankAdmission.OldestIsAdmitted` | plank/controller.go:145-174 | Every order of service admits the oldest waiting job of a name that has a free place. |
| `PlankAdmission.JuniorsWait` | plank/controller.go:145-174 | No order of service admits a job with as many older waiting jobs as there are free places, or exceeds the limit. |
| `PlankAdmission.OldestFirstFillsHalf` | plank/controller.go:145-174 | Served oldest first, the order Sync sorts them into, job number `i` is admitted exactly when `pending + 2i < limit`. |
| `PlankQueue.RoundServesQueue` | plank/controller.go:328-355 | In every run without a global limit, a stretch of a round of waiting jobs serves exactly the jobs it takes other than those whose listed pod it adopts, in that order: its counters and counted jobs are those of the queue theorems. |
| `PlankQueue.OldestIsCounted` | plank/controller.go:145-174 | So in every such run the oldest waiting job of a name that has a free place is counted once it is taken, whichever were taken before it. |
| `PlankQueue.CancelsAreSteps` | pjutil/abort.go:93-123 | At every point of the aborter's pass, cancelling the next superseded job is an enabled step of the machine, and if acknowledged keeps the snapshot equal to the list. |
| `ProwJobs.PatchUpToDate` | pjutil/abort.go:129-148 | A merge patch applied to the copy it was made from gives exactly the new object, report map included. |
| `ProwJobs.ReportsMerge` | pjutil/abort.go:129-148 | A merge patch changes exactly the reports on which the two copies disagree. |
| `ProwJobs.AbortMeans` | pjutil/abort.go:108-113 | An aborted job is complete now, in state Aborted, reported so to GitHub, and otherwise unchanged. |
| `Aborter.TerminateOlderJobs` | pjutil/abort.go:58-127 | In place: a completed pass aborts exactly the superseded jobs and leaves all others unchanged; a pass ended by a rejected patch has aborted only superseded jobs, and the job whose patch was rejected is unchanged. |
| `Aborter.AbortedExactly` | pjutil/abort.go:61-97 | A completed pass aborts a job if and only if it is an incomplete presubmit or batch and another incomplete presubmit or batch with its identity started later, or at the same time and is listed before; complete jobs, postsubmits and periodics are left alone. |
| `Aborter.OneSurvivorPerIdentity` | pjutil/abort.go:88-124 | After a completed pass each identity keeps exactly one incomplete job, untouched: the latest started, least index among ties; all its rivals are aborted and complete. |
| `Aborter.SupersededHasRival` | pjutil/abort.go:93-97 | Every aborted job has a rival, not started earlier, that is kept. |
| `Aborter.SecondPassCancelsNothing` | pjutil/abort.go:58-127 | A second pass over the result changes nothing. |
| `Aborter.DigestIgnoresPullOrder` | pjutil/abort.go:47-54 | Refs that differ only in the order of pulls have the same digest. |
| `Aborter.DigestFaithful` | pjutil/abort.go:47-54 | For names without the digest's separators, equal digests mean the same org, repo, base and multiset of pulls, and conversely. |
| `Aborter.IdentityFaithful` | pjutil/abort.go:75-87 | For comma-free identifiers, equal identities mean the same identifiers in some order, and conversely. |
| `Aborter.IdentityMeans` | pjutil/abort.go:75-87 | For clean names equal identities mean the same refs, up to the order of refs and pulls, and either the same type and job or each the other's type as its job; and conversely. |
| `Aborter.SwappedNamesCollide` | pjutil/abort.go:75-87 | A presubmit named `batch` and a batch named `presubmit` with the same refs share an identity. |
| `Aborter.IdentityIgnoresOrder` | pjutil/abort.go:75-87 | Reordering extra refs, or pulls inside refs, never changes the identity. |
| `OwnersCacheRuns.AnswersAreFresh` | repoowners/repoowners.go:211-279 | In every run of pushes and loads of both kinds, with git calls that fail, in which no load of the branch checks out a tree that differs from the head it read on a file that is read and no load of aliases moves owners to a commit that disagrees with theirs, every load of owners answers with a fresh load of the head that it read, whether hit, reused or reloaded. |
| `OwnersCacheRuns.QuietAnswersAreCurrent` | repoowners/repoowners.go:211-279 | So in every run of pushes and loads of owners in which no push of the branch falls inside a load, every answer is that of the branch's current tree. |
| `OwnersCacheRuns.ReadsWereHeads` | repoowners/repoowners.go:217-223 | The head that a load read was the branch's head when it was read. |
| `OwnersCacheRuns.AnswersComeFromOrigins` | repoowners/repoowners.go:177-279 | In every run at all, pushes inside loads and both kinds of loads included, every answer is the owners of the tree last checked out for the entry, read with the aliases last loaded for it until then. |
| `OwnersCacheRuns.CachedAnswerExactly` | repoowners/repoowners.go:224-251 | In every run, an answer given without a look at the tree is right if and only if the commits the entry comes from give the same owners as the commit it is labelled with. |
| `OwnersCacheRuns.TornRun` | repoowners/repoowners.go:217-277 | For any two trees, a run in which a push falls inside the first load and in which the last load, with no push inside, answers with the owners of the other tree; both for a branch set back to its first commit and for a revert. |
| `OwnersCacheRuns.TornLoadsExactly` | repoowners/repoowners.go:217-277 | That last answer is right for every reading of the files if and only if the two trees agree on the files that are read. |
| `OwnersCache.Client.LoadRepoOwners` | repoowners/repoowners.go:211-279 | With the head that was read and the head that is checked out: hit, reuse or reload as the source does, the tree of the latter under the label of the former, and no change on failure. |
| `OwnersCache.Client.LoadRepoAliases` | repoowners/repoowners.go:177-207 | Aliases of the head checked out under the label of the head read, with the owners left as they are. |
| `OwnersCache.LoadStepIsFresh` | repoowners/repoowners.go:224-279 | From a right entry, a load answers fresh for the head it read and leaves a right entry, in all three cases, if a reload checks out a tree that agrees on the files that are read. |
| `OwnersCache.UnchangedIsFresh` | repoowners/repoowners.go:232-251 | If no changed path has a relevant suffix, the trees agree on every file that is read, and load to the same owners. |
| `OwnersCache.AgreeingAreFresh` | repoowners/repoowners.go:337-371 | Trees that agree on the files that are read load to the same aliases and the same owners. |
| `OwnersCache.FreshMeans` | repoowners/repoowners.go:337-372 | A load without cache gives the aliases of the tree's OWNERS_ALIASES file and, for each file read, what it says given those aliases. |
| `OwnersCache.OpensExactly` | repoowners/repoowners.go:384-455 | The files read are those, not skipped, whose last path segment is OWNERS or, with markdown headers on, ends in `.md`. |
| `OwnersCache.AnswersExactly` | repoowners/repoowners.go:224-251 | An entry answers without a look at the tree if and only if it is of the same mode and of the same commit, or has aliases and is of a commit that differs in no file whose name ends in OWNERS, OWNERS_ALIASES or, with markdown headers on, `.md`. |
| `OwnersCache.Client.NothingMattersIn` | repoowners/repoowners.go:240-247 | The scan of the diff accepts exactly when no changed path has a relevant suffix. |
| `OwnersCache.AliasesMakeOwnersStale` | repoowners/repoowners.go:177-207 | After a load of aliases at a new commit, owners are answered from the old commit. |
| `OwnersCache.StaleOwnersExample` | repoowners/repoowners.go:200-203 | Two commits for which that answer is wrong. |
| `Owners.OwnersMean` | repoowners/repoowners.go:685-733 | For a clean path, somebody owns it if and only if they have an entry, at the path, a directory containing it or the root, whose pattern, if any, matches the path as seen from there, and no directory strictly between has no_parent_owners. |
| `Owners.LeafOwnersMean` | repoowners/repoowners.go:685-725 | Somebody is a leaf owner if and only if that is so at a directory below which, towards the path, nobody has a matching entry. |
| `Owners.DeepestMeans` | repoowners/repoowners.go:636-655 | The directory found for a file is the deepest below the root where somebody has a matching entry, and the root if there is none. |
| `Owners.ChainIsAncestors` | repoowners/repoowners.go:693-716 | For a clean path the walk visits exactly the path, the directories that contain it and the root, from the longest to the shortest. |
| `Owners.ChainStops` | repoowners/repoowners.go:708-713 | In general it visits those up to the first with no_parent_owners. |
| `Owners.EntriesForFile` | repoowners/repoowners.go:685-718 | The walk ends, and returns the matching entries of every directory of the chain, or of the first that has any. |
| `Owners.FindOwnersForFile` | repoowners/repoowners.go:636-655 | The loop finds the deepest directory with a matching entry, and the root if there is none. |
| `Owners.ParentMeans` | repoowners/repoowners.go:377-382 | The parent of a path is what precedes its last segment, and the root for a single segment. |
| `Owners.Parent` | repoowners/repoowners.go:714-715 | Going up makes a path strictly shorter, so the walks end. |
| `Owners.LeafWithinAll` | repoowners/repoowners.go:720-733 | Leaf owners are owners, and there are none only if there is no owner. |
| `Owners.LeafIsAtDeepest` | repoowners/repoowners.go:636-718 | Leaf owners are the matching entries at the deepest directory found, and nobody when a directory without parent owners lies strictly below it. |
| `Owners.LeafApproversAtFoundOwners` | repoowners/repoowners.go:657-725 | The same for LeafApprovers against FindApproverOwnersForFile, on clean paths. |
| `Owners.StartsAtThePath` | repoowners/repoowners.go:685-691 | Starting at the path instead of its directory gives the same owners, and the same leaf owners, exactly when the path's own entries and options add and cut off nobody. |
| `Owners.PlainFilesAlike` | repoowners/repoowners.go:685-691 | For a path without an entry of its own the two starts give the same owners and leaf owners, for all entries and patterns, if and only if the path has no directory options that cut off the parents. |
| `Owners.FilterCollaborators` | repoowners/repoowners.go:611-632 | Intersects every approver and reviewer entry with the collaborators; labels, required reviewers and options are unchanged. |
| `Owners.OwnersFiltered` | repoowners/repoowners.go:611-632 | Full owners computed after filtering are the unfiltered ones intersected with the collaborators. |
| `Owners.LeafFiltered` | repoowners/repoowners.go:611-632 | Leaf owners commute with filtering if and only if some leaf owner is a collaborator or no owner at all is. |
| `Tide.CoverageAgrees` | config/tide.go:237-299 | For validated queries, some query applies to a repo exactly when its org is listed without it as an exception, or it is listed itself. |
| `Tide.AgreementExactly` | config/tide.go:237-299 | For any queries the two views agree about a repo if and only if it is not shadowed: named only by queries that list its org, and excluded by all that do. |
| `Tide.ValidIsNotShadowed` | config/tide.go:379-405 | Validation rules shadowing out. |
| `Tide.OrgExceptionsAndRepos` | config/tide.go:273-299 | Orgs are those listed; the exceptions of an org are the repos every query listing it excludes and no query names; repos are those named. |
| `Tide.ExceptionsAreOwnRepos` | config/tide.go:259-268 | The exceptions of an org are repos of that org. |
| `Tide.AddOrgs` | config/tide.go:276-287 | The orgs of one more query: exceptions of orgs seen before are intersected, the others are left alone. |
| `Tide.ReposInOrg` | config/tide.go:259-268 | Exactly the repos with the org's prefix. |
| `Tide.QueryForRepo` | config/tide.go:237-257 | Applies exactly when the org is listed and the repo not excluded, or the org is not listed and the repo is. |
| `Tide.Validate` | config/tide.go:347-431 | Accepts exactly the queries that satisfy every declared condition. |
| `Tide.HasDuplicates` | config/tide.go:348-363 | Comparing list length and set size detects exactly the lists with a repetition. |
| `Tide.CheckNames` | config/tide.go:379-405 | Accepts exactly when every element is `org/repo` with its org listed, or not listed, as required. |
| `Tide.QueryMap.ForRepo` | config/tide.go:319-338 | The lazily filled index always answers with the queries that apply, in order; with a slash in a name, to some repo of the same full name. |
| `Tide.QueryMap.MatchingQueries` | config/tide.go:331-335 | The loop collects the applicable queries in order. |
| `Bugzilla.LaterEntriesOverride` | plugins/config.go:1427-1589 | In the options of a branch each single-valued field has the value of the last entry that sets it, among the wildcard's and the branch's own in each configured table from global to repo, leaving out the wildcard's where the branch's own entry excludes defaults; a state counts before a status of the same entry. |
| `Bugzilla.LaterStatesOverride` | plugins/config.go:1427-1589 | A table's list of states is that of its last entry with states or statuses, both together, each once and in order; the innermost configured table whose list is not nil decides. |
| `Bugzilla.EmptyStatusesExample` | plugins/config.go:1521-1527 | An org's empty list of statuses leaves the global list of states in force. |
| `Bugzilla.LookupMatches` | plugins/config.go:1385-1628 | For every branch, named at any level or at none, the options of the cascade match what the pruned table gives with its fallback to `*` and to empty options. |
| `Bugzilla.LookupSameMeaning` | plugins/config.go:1385-1628 | If no list of states configured for the repository repeats one, the table gives every branch options of the same meaning: equal fields and equal sets of states. |
| `Bugzilla.PruningIsSafeExactly` | plugins/config.go:1385-1628 | A branch's list of states survives pruning under every wildcard list if and only if it has no repetition. |
| `Bugzilla.ResolveKeepsClean` | plugins/config.go:1460-1568 | Resolving two levels without repetitions gives lists without repetitions. |
| `Bugzilla.RepetitionLosesMeaning` | plugins/config.go:1617-1625 | Whenever statesMatch accepts a wildcard list that differs as a set, the branch is pruned and looked up with other states. |
| `Bugzilla.MatchIsSameSet` | plugins/config.go:1385-1400 | statesMatch means equality of sets for every second list if and only if the first has no repetition. |
| `Bugzilla.SameMeaningMatches` | plugins/config.go:1402-1420 | Options of the same meaning whose lists have the same lengths always match. |
| `Bugzilla.WildcardNamesDoNotApply` | plugins/config.go:1574-1589 | Adding an org `*`, or a repo `*` to an org, changes the options of no other org or repo. |
| `Bugzilla.ExclusionStopsAtItsTable` | plugins/config.go:1427-1429 | A resolved table entry carries no exclusion and no dependent target release outwards; carrying the exclusion would change nothing exactly when the entry sets every field the outer levels set. |
| `Bugzilla.OptionsForRepo` | plugins/config.go:1595-1628 | The table holds the resolved options of exactly the named branches that do not match the wildcard's, and of the wildcard. |
| `Bugzilla.AddBranches` | plugins/config.go:1597-1613 | One level's branches are added with their resolved options. |
| `Bugzilla.UnnamedIsWildcard` | plugins/config.go:1574-1589 | A branch named at no level resolves to the options of `*`. |
| `Bugzilla.ResolveBugzillaOptions` | plugins/config.go:1460-1568 | The sequence of assignments amounts to: a child's field wins, states and statuses of one level count together, and nothing is inherited under ExcludeDefaults. |
| `Bugzilla.ResolveStates` | plugins/config.go:1518-1538 | A level that sets states or statuses replaces both of its parent's by its own, merged. |
| `Bugzilla.ResolveState` | plugins/config.go:1539-1559 | A state wins over a status on its level; either wins over the parent's. |
| `Bugzilla.MergeKeepsEveryState` | plugins/config.go:1431-1455 | The merged list is sorted, has every state and status exactly once, and nothing else. |
| `BranchProtection.MergedIsSettled` | config/branch_protection.go:81-161 | For all levels, whatever they set: each single-valued field, nested ones included, has the value of the last level that sets it, and is unset only if all leave it unset; contexts, users, teams and exclusions are those of all levels, a single list as it is, several sorted and without repetitions. |
| `BranchProtection.ApplyIsMonoid` | config/branch_protection.go:97-161 | Applying policies is associative, with the empty policy as identity on both sides, nil against empty lists and sorting included. |
| `BranchProtection.UnionIsUnion` | config/branch_protection.go:98-108 | The union has the elements of both sides. |
| `BranchProtection.UnionAssociative` | config/branch_protection.go:98-108 | unionStrings is associative as a function on lists. |
| `BranchProtection.ApplyCollectsContexts` | config/branch_protection.go:110-121 | Required contexts of two levels add up. |
| `BranchProtection.BranchPolicyIsMerged` | config/branch_protection.go:181-226 | The nested lookups give the merge of the levels that apply, and fail only where that merge leaves protection unset. |
| `BranchProtection.GetPolicy` | config/branch_protection.go:249-289 | Which error, no policy, or which policy, each if and only if; a policy that sets no more than excluded branches counts as none. |
| `BranchProtection.GetBranchProtection` | config/branch_protection.go:236-289 | A returned policy has each field as the levels that apply and Prow's own jobs, last, make it; it requires exactly the contexts of all levels plus Prow's always-required ones; protection is off only if there are none of those; and an unset protection is refused exactly for a configured branch for which no level sets it. |
| `BranchProtection.DefinedExactly` | config/branch_protection.go:249-289 | A policy defines something exactly if it sets more than excluded branches. |
| `Presubmits.RequiredContextsAreTriggered` | config/branch_protection.go:357-379 | Every always-required context is posted by a job that any aggregate containing the `/test all` filter triggers, and by no job that is skipped, whatever changed. |
| `Presubmits.RetestCompletesRequired` | pjutil/filter.go:126-130 | After `/retest` every always-required context that failed or has not been reported is posted by a job that is triggered, and by none that is skipped. |
| `Presubmits.RetestRunsExactly` | pjutil/filter.go:135-158 | Which jobs `/retest` runs: the commanded ones, and those that failed or are automatic and unreported unless they are for changes that did not happen; no others. |
| `Presubmits.RunsOnBranch` | config/jobs.go:242-255 | A job runs on a branch exactly if the branch is not skipped and, where branches are listed, is listed. |
| `Presubmits.ShouldRunMeans` | config/jobs.go:347-363 | When a job runs, and when that cannot be decided, in terms of its fields, the changed files and the filter's verdict. |
| `Presubmits.TestAllRunsExactly` | pjutil/filter.go:52-56 | `/test all` runs exactly the jobs that could run on the branch and always run or are for changes that happened. |
| `Presubmits.BucketMeans` | config/branch_protection.go:359-376 | Which bucket a job's context belongs to, in terms of the job's fields, each if and only if. |
| `Presubmits.BranchRequirements` | config/branch_protection.go:357-379 | The three lists are the contexts of the jobs in the three buckets, in order. |
| `Presubmits.ContextHasJob` | config/branch_protection.go:359-376 | A context is in a list exactly when some job of that bucket posts it. |
| `Presubmits.BucketsPartition` | config/branch_protection.go:359-377 | Every job that could run on the branch contributes to exactly one list. |
| `Presubmits.FilterPresubmits` | pjutil/filter.go:73-103 | Fails exactly when some matching job needs changes that cannot be fetched; otherwise splits the matching jobs into those that run and those that decline and whose context no running job posts. |
| `Presubmits.DetermineSkippedPresubmits` | pjutil/filter.go:109-123 | Keeps, in order, exactly the jobs whose context no triggered job posts. |
| `Presubmits.SomeMatch` | pjutil/filter.go:60-69 | An aggregate matches whenever one of its filters does. |
| `Presubmits.FirstDecides` | pjutil/filter.go:60-69 | An aggregate gives the verdict of its first filter that matches, and none if none does. |
| `Presubmits.RunsAgainstChanges` | config/jobs.go:308-315 | True exactly when some changed path matches. |
| `Presubmits.KnownChangesNeverFail` | config/jobs.go:296-363 | With the changes fetched, no job fails to decide. |
| `Retry.RequestRetry` | github/client.go:630-716 | In terms of the replies alone: every reply but the last is a connection error, a server error, an early 404, or a 403 with a readable, short enough wait or no stated reason; the last is none of these unless attempts ran out; the hosts asked advance by one, in range, exactly at connection errors; the response is that of the last attempt, and the error says which way a final 403 failed, or that the connection did; the time slept is within (2^maxRetries - 1) x initialDelay + maxRetries x maxSleepTime; every body is closed exactly once, except the returned one if there is no error. |
| `Retry.DecideMeans` | github/client.go:640-712 | What each reply calls for, each if and only if: to try again with a backoff, at the next host, or after the wait that the headers ask for plus a second; to return; or to fail, and how. |
| `Retry.SleepMeans` | github/client.go:643-713 | The time slept after an attempt: the initial delay doubled once per earlier trouble, the wait asked for, or none. |
| `Retry.WrapMeans` | github/client.go:648-676 | Wrapped durations are within 64 bits and equal modulo two to the 64. |
| `Retry.SleptEnough` | github/client.go:634-714 | All sleeps together are within that bound, even when the doubled 64-bit delay wraps around. |
| `Retry.SleepsAdd` | github/client.go:643-713 | Each doubling pays for the sleep before it; every other sleep is below maxSleepTime. |
| `Retry.BackoffDoubles` | github/client.go:647-648 | Doubling with wrap-around gives the wrapped exact delay, and never sleeps longer than it. |
| `Retry.HostAdvances` | github/client.go:710-710 | The index stepped modulo the number of hosts is the number of connection errors modulo it. |
| `Throttle.RateLimit` | github/client.go:318-372 | In every stretch of every interleaving, requests sent less those answered for free are at most burst plus the ticks in that stretch. |
| `Throttle.Conservation` | github/client.go:318-372 | Tokens, requests and dropped offers always add up to burst, ticks and refunds; tokens stay within 0 and burst. |
| `Throttle.Client.constructor` | github/client.go:309-316 | A new client is not throttled. |
| `Throttle.Client.Throttle` | github/client.go:383-420 | Enabling fills the bucket and wraps the client at most once, disabling unwraps it; the client that finally sends requests never changes. |
| `Throttle.Client.Wait` | github/client.go:318-343 | Takes one token. |
| `Throttle.Client.Offer` | github/client.go:345-352 | Adds one token unless the bucket is full. |
| `GitAttributes.PathMatch` | gitattributes/pattern.go:89-134 | The nested loops compute the one-pass matching function. |
| `GitAttributes.PathMatchSound` | gitattributes/pattern.go:89-134 | Never accepts a path none of whose prefixes matches the declarative reading, for any pattern and globs. |
| `GitAttributes.PathMatchExact` | gitattributes/pattern.go:89-134 | Decides the declarative reading exactly, for patterns with a plain segment and well-formed globs in which every plain segment after the first `**` comes directly after a `**`; empty segments, such as that of a leading slash, included. |
| `GitAttributes.SpacingIsExact` | gitattributes/pattern.go:89-134 | For literal segments, and any pattern at all, it is right about every path if and only if the pattern is of that kind. |
| `GitAttributes.CommitsTooEarly` | gitattributes/pattern.go:112-119 | For every pattern with two plain segments in a row after a `**`, a path that should match and is rejected. |
| `GitAttributes.ForgetsStars` | gitattributes/pattern.go:93-96 | For every pattern with an empty segment between a `**` and a plain segment, a path that should match and is rejected. |
| `GitAttributes.AcceptsInside` | gitattributes/pattern.go:89-134 | Whatever path a pattern accepts, it accepts every longer one. |
| `GitAttributes.DirectoryExample` | gitattributes/pattern.go:36-65 | `a/b` parses to a path pattern that accepts `a/b/c`, which it does not match as a whole. |
| `GitAttributes.PrefixIsWholeExactly` | gitattributes/pattern.go:97-100 | For literal segments, prefix and whole-path reading agree on every path if and only if the last nonempty segment is `**`. |
| `GitAttributes.StarsMatchWhole` | gitattributes/pattern.go:97-100 | For any globs they agree if the last nonempty segment is `**`. |
| `GitAttributes.NameMatchExact` | gitattributes/pattern.go:77-87 | A name pattern matches exactly the paths with a segment it globs. |
| `GitAttributes.ParsePatternExactly` | gitattributes/pattern.go:41-65 | A text is refused exactly if it starts with `!` or, without its trailing spaces, ends in `/`; the segments joined by slashes are the text without them, which are kept after a backslash. |
| `GitAttributes.ParsedPatternMeaning` | gitattributes/pattern.go:41-75 | A parsed pattern is one segment exactly when it is a name pattern; then it matches any segment, otherwise a prefix of the path. |
| `RefSpec.ParseRefs` | clonerefs/parse.go:41-91 | The field-by-field parser computes the grammar's value, or the first error. |
| `RefSpec.RoundTripExactly` | clonerefs/parse.go:27-91 | The documented text of any refs parses back to them if and only if no field has a conflicting separator, pull numbers fit in 64 bits and there is some ref. |
| `RefSpec.RoundTrip` | clonerefs/parse.go:27-91 | The forward half, for any number of pulls with optional sha and ref. |
| `RefSpec.ParsedIsClean` | clonerefs/parse.go:41-91 | The parser never produces a field with a conflicting separator. |
| `RefSpec.Reparse` | clonerefs/parse.go:41-91 | Printing what was parsed and parsing it again gives the same if and only if the text after the `=` was not a lone colon. |
| `RefSpec.NamesNoRef` | clonerefs/parse.go:57-68 | An accepted text names no ref exactly when a lone colon follows the `=`. |
| `RefSpec.LoneColonExample` | clonerefs/parse.go:57-68 | `o,r=:` is accepted with no ref at all, and its refs print to `o,r=`, which is refused. |

## Left out

- Writers of ProwJobs other than the controller and the creation of new ones (manual aborts, other reporters).
- Reporting: `reports`, `setPreviousReportState`, job URLs, descriptions, comment text and metrics.
- Liveness of the controller: only what every run keeps is proved, not that a Sync ends or that a job is eventually served.
- The error text and the partial result that accompany an error, in every parser and validator.
- `jenkins/controller.go`, which repeats the plank design but leaves builds with unrecognised results uncounted.
- Reading OWNERS files: YAML, aliases expansion, the `.md` headers and the walk over the work tree enter as one function from a file and the aliases to its entries.
- A git mirror that lags behind the server: a checkout and a diff see every commit pushed before them.
- Paths that are not clean and relative, on which `filepath.Rel` and `filepath.Dir` do more than the model's `Relative` and `Dir`.
- Reconfiguration of the throttler while requests are waiting, the tick rate, and the GraphQL wrapper, which waits on the same channel.
- Time passing during one `requestRetry` call: the time left until a reset is a function of that reset time only.
- GitAttributes.SpacingIsExact: the only-if half is for segments without special characters, because with arbitrary globs two adjacent segments may be interchangeable and harmless.
- PlankAdmission.OldestFirstFillsHalf: for jobs of one name with one limit and no global limit, as are the other queue theorems.
- PlankConcurrency.ConcurrencyLimits: limits are constant during the run and equal for jobs of one name, because a limit lowered under running jobs is exceeded at once.
- `Brancher.Intersects`, which compares pattern texts and is a disjointness test only for literal branch names.
- Postsubmits, periodics, presets, defaulting and the loading of configuration files; single-table lookups such as merge methods and batch limits.
- The servers, plugins, flags, OAuth, spyglass and pod decoration around this core.
