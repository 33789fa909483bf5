# Apply-buckets catch-up work, modelled in Dafny

This project models stellar-core's `ApplyBucketsWork`. It is the catch-up
work item that rebuilds the live bucket list so that it matches the bucket
hashes of a target history-archive state. It walks the levels from the
coarsest (`kNumLevels - 1`) down to level 0. At each level it compares the
live `snap` and `curr` hashes with the target, resolves the target buckets,
writes them to the database in bounded chunks through bucket applicators,
and commits them into the level. After level 0 it hands the target state to
the bucket manager's `assumeState`.

Modules:

- `Options` (`options.dfy`): the optional value standing for a nullable pointer.
- `Buckets` (`buckets.dfy`): hashes, content-addressed buckets, bucket levels and target hash pairs. Also `GetBucket`, the resolution of a target hash to a bucket.
- `ApplyBucketsWork` (`apply_buckets_work.dfy`): the engine state and the lifecycle hooks `OnReset`, `OnStart`, `OnRun`, `OnSuccess` and `OnFailure`, written as pure transition functions. It also holds lemmas about single hooks.
- `Cascade` (`cascade.dfy`): a reference description of a whole run. It is stated over the bucket list as it was when the run began, with no cursor. Its only flag is `carry`, the cascade flag as the walk enters the coarsest level. It is false after a plain reset. A level's curr bucket is replaced when the flag was carried in, or that level or a coarser one differs from the target. Its snap bucket is replaced when the flag was carried in, a coarser level differs, or its own snap hash does.
- `Driver` (`driver.dfy`): the work scheduler as a loop. It resets the engine, then calls `OnStart` while pending and `OnRun` and `OnSuccess` each round, until Success. `Drive` proves that the loop terminates and that its final state is the one the reference describes. `DriveAfterRetry` is the same loop after the corrected reset of the finding below.

Abstractions:

- A hash is an opaque value with a distinguished all-zero `ZeroHash`.
- A bucket is its hash plus the number of chunks an applicator needs to write it.
- An applicator and the bucket it writes are created and discarded together by the C++ work item, so they are one optional `Job`. Its `remaining` is the number of chunks still to write, and advancing decrements it.
- The live bucket list is a sequence of `(snap, curr)` levels, level 0 first. The number of levels is a parameter of at least 1, and the target has the same length.
- The pool handed to the constructor and the bucket manager's store are partial maps from hash to bucket.
- The three meters are plain counters. `assumeState` is recorded as the installed head plus a count of calls.

## Model

| member | source | states |
|---|---|---|
| Buckets.GetBucket | src/catchup/ApplyBucketsWork.cpp:53-75 | The zero hash resolves to the empty bucket. Any other hash resolves to the pool entry when the pool has it, and otherwise to the store entry. A hash found nowhere is excluded by the precondition. With content-addressed pool and store, the result carries the requested hash. |
| Buckets.ZeroHashIgnoresLookups | src/catchup/ApplyBucketsWork.cpp:57-60 | Resolving the zero hash gives the same empty, zero-chunk bucket whatever the pool and store hold, so neither is consulted. |
| Buckets.PoolShadowsStore | src/catchup/ApplyBucketsWork.cpp:63-71 | On a pool hit the result does not depend on the store: the store is consulted only on a pool miss. |
| ApplyBucketsWork.Initial | src/catchup/ApplyBucketsWork.cpp:24-40 | A new work item starts at the coarsest level, with the flag clear and nothing in flight. Its counters start at zero, which is a modelling choice (see "Left out"). |
| ApplyBucketsWork.OnReset | src/catchup/ApplyBucketsWork.cpp:77-86 | Reset restores exactly the construction-time cursor, flag and empty bucket/applicator state. It leaves the committed levels, the head and the counters alone. |
| ApplyBucketsWork.ResetIsIdempotent | src/catchup/ApplyBucketsWork.cpp:77-86 | Resetting twice equals resetting once. Resetting a freshly constructed work item changes nothing. |
| ApplyBucketsWork.OnResetKeepingCascade | src/catchup/ApplyBucketsWork.cpp:77-86 | The corrected reset. It is `onReset` except that the cascade flag keeps its value, so it equals `onReset` whenever the flag is clear. |
| ApplyBucketsWork.OnStart | src/catchup/ApplyBucketsWork.cpp:88-113 | If the flag is set on entry or the snap hash differs, both target buckets get fresh applicators and two start events. If only curr differs, only curr does, with one event. If both match and the flag is clear, nothing changes. The flag afterwards is "set before, or this level differs". Nothing outside the flag, the applicators and the start counter changes. |
| ApplyBucketsWork.ApplyingIsSticky | src/catchup/ApplyBucketsWork.cpp:77-113 | Once the cascade flag is set, start, run, success and failure all keep it set. Only reset clears it. |
| ApplyBucketsWork.NewJob | src/catchup/ApplyBucketsWork.cpp:95-97 | A freshly created applicator holds the resolved bucket with all of its chunks still to write. It is truthy exactly when that bucket has something to write, so the empty bucket's applicator starts exhausted. |
| ApplyBucketsWork.Job.Advance | src/catchup/ApplyBucketsWork.cpp:118-125 | Advancing is allowed only while the applicator is truthy. It keeps the applicator's bucket and lowers the chunks left by exactly one. |
| ApplyBucketsWork.OnRun | src/catchup/ApplyBucketsWork.cpp:115-127 | Each run writes exactly one chunk when some applicator has work left, and none otherwise. It advances snap while snap has work and touches curr only after that. It keeps each applicator's bucket and never changes the bucket list, cursor, flag or counters. |
| ApplyBucketsWork.OnSuccess | src/catchup/ApplyBucketsWork.cpp:129-167 | While an applicator has work left, it returns Running and changes nothing. Otherwise it commits each held bucket into the current level and leaves every other bucket unchanged. It records one success per committed bucket and clears the in-flight state. Then it either steps the cursor down by one (Pending) or, only at level 0, installs the target head once (Success). |
| ApplyBucketsWork.OnFailure | src/catchup/ApplyBucketsWork.cpp:169-181 | A failure hook records exactly one failure event and changes nothing else. |
| ApplyBucketsWork.CountersDoNotSteer | src/catchup/ApplyBucketsWork.cpp:88-167 | States that differ only in their counters go through every hook to states that differ only in their counters, with the same scheduler result. |
| ApplyBucketsWork.MatchingLevelIsNoOp | src/catchup/ApplyBucketsWork.cpp:88-167 | A level already matching the target, with the flag clear, goes through start, run and success with no applicator, no event and no change to the bucket list. The cursor still moves on. |
| Cascade.CascadeFromIsSomeMismatch | src/catchup/ApplyBucketsWork.cpp:93-112 | The recursively defined cascade flag at level i holds exactly when some level i or coarser differs from the target. Both directions are proved. |
| Cascade.CascadeReplacesFinerLevels | src/catchup/ApplyBucketsWork.cpp:93-112 | If level j differs from the target, every finer level has both buckets replaced by the target buckets, even where its own hashes already match. That is two replacements per such level. |
| Cascade.ExpectedLevelMatchesTarget | src/catchup/ApplyBucketsWork.cpp:140-150 | With content-addressed pool and store, every level a run commits carries exactly the target snap and curr hashes. |
| Cascade.MatchingListIsUntouched | src/catchup/ApplyBucketsWork.cpp:93-112 | If every level already matches the target, no flag is ever raised, no bucket is replaced and every level stays as it was. |
| Cascade.CoarsestCurrMismatchCascades | src/catchup/ApplyBucketsWork.cpp:93-112 | If only the coarsest level's curr hash differs, a run over n levels replaces 2n - 1 buckets. |
| Cascade.NoCascadeKeepsLevels | src/catchup/ApplyBucketsWork.cpp:93-112 | With no cascade from level i up, no level from i up differs from the target. None of them has a bucket replaced, and each ends as it was. |
| Cascade.CarriedFlagReplacesAll | src/catchup/ApplyBucketsWork.cpp:93-112 | A walk that starts with the flag already set replaces both buckets at every level with the target buckets, 2n replacements over n levels, whatever the live hashes are. |
| Cascade.ThreeLevelExample | src/catchup/ApplyBucketsWork.cpp:93-112 | With three levels and only the coarsest curr differing, five buckets are replaced, not one. |
| Driver.StartEntersLevel | src/catchup/ApplyBucketsWork.cpp:88-113 | At a pending level, start creates an applicator exactly for the buckets the reference replaces, holding the resolved target buckets, and its lookups cannot fail. |
| Driver.RunStaysInLevel | src/catchup/ApplyBucketsWork.cpp:115-127 | Running a chunk preserves the in-level correspondence with the reference. |
| Driver.SuccessCommitsLevel | src/catchup/ApplyBucketsWork.cpp:129-167 | Once both applicators are exhausted, success commits the level as the reference describes. It leaves the next finer level pending, or at level 0 completes with the head installed. |
| Driver.ResetStartsWalk | src/catchup/ApplyBucketsWork.cpp:77-86 | After a reset from any earlier state, the coarsest level is pending. Nothing is in flight, no level is counted as committed, and the flag is clear. |
| Driver.RetryResetStartsWalk | src/catchup/ApplyBucketsWork.cpp:77-86 | After the corrected reset, the coarsest level is pending with nothing in flight and nothing committed, and the flag of the failed attempt is carried into the walk. |
| Driver.RoundKeepsInvariant | src/catchup/ApplyBucketsWork.cpp:88-167 | One scheduler round (start if pending, one run, one success) keeps the correspondence with the reference and makes progress. Either the cursor goes down, or the level leaves its pending phase, or one chunk is written. |
| Driver.Walk | src/catchup/ApplyBucketsWork.cpp:88-167 | The scheduler loop from a pending coarsest level always terminates, in the state the reference describes for the flag the walk began with. |
| Driver.FinishedConsequences | src/catchup/ApplyBucketsWork.cpp:129-167 | A finished run has both buckets replaced at every level finer than a differing level, leaves a list that already matched the target unchanged with no events, and, with content addressing, leaves every level at the target hashes. |
| Driver.Drive | src/catchup/ApplyBucketsWork.cpp:77-167 | A reset followed by the scheduler loop always terminates. Each level ends as the reference describes. Every level finer than a differing level holds both target buckets. A list already matching the target is left unchanged with no events. With content-addressed pool and store, every level ends with the target hashes. One start and one success are recorded per replaced bucket, and `assumeState` is called exactly once, at the end, with the target. |
| Driver.DriveAfterRetry | src/catchup/ApplyBucketsWork.cpp:77-167 | A retry after the corrected reset terminates with each level as the reference describes for the carried flag. When the failed attempt had raised the flag, every level ends with both target buckets and 2n starts and successes are recorded over n levels. The head is installed once. |
| Driver.UnflaggedWalkKeepsList | src/catchup/ApplyBucketsWork.cpp:93-161 | While the flag is clear at a pending level, no coarser level differed from the target, so nothing has been committed and the bucket list is the one the walk began with. |
| Driver.RetryCoversInterruptedWalk | src/catchup/ApplyBucketsWork.cpp:77-113 | At any point of a walk from a plain reset, the flag is set or the bucket list is unchanged. So a retry that keeps the flag replaces, at the cursor's level and every finer one, at least each bucket the interrupted walk would still have replaced. |
| Driver.ThreeLevelRun | src/catchup/ApplyBucketsWork.cpp:88-167 | Running the machine itself on three levels where only the coarsest curr differs records five starts and five successes, installs the head once, and leaves every level at the target hashes. |
| Driver.InterruptedAttempt | src/catchup/ApplyBucketsWork.cpp:88-181 | The first attempt of that three-level run, cut short: level 2's curr is applied and committed, level 1 is started with the flag set, and the attempt fails. Three starts, one success and one failure are recorded. |
| Driver.ResetAfterCommitDropsCascade | src/catchup/ApplyBucketsWork.cpp:77-86 | As written: retrying the interrupted attempt after `onReset` records no further start or success. Levels 1 and 0 are never applied after level 2's bucket. |
| Driver.RetryKeepingCascadeReappliesAll | src/catchup/ApplyBucketsWork.cpp:77-113 | Corrected: retrying after `OnResetKeepingCascade` re-applies both buckets of all three levels, six more starts and successes, and leaves every level at the target buckets. |

## Left out

- Missing buckets: the source only asserts that resolution produced a bucket, so the model makes resolvability a precondition (`CanStart` for one level, `RunResolvable` for a run). No typed, non-retryable "missing bucket" error is modelled, because the code has no such path.
- The no-op level: after a level where nothing was replaced, `onSuccess` commits nothing and records no success, but it still decrements the cursor (lines 156-161). The model follows the code here.
- Hex encoding and decoding of hashes and the hashing itself: hashes are opaque, and comparing hex texts is modelled as comparing hashes.
- Bucket applicator internals and the database writes: an applicator is only a count of chunks left. The chunk size is a property of the bucket's `chunks`.
- Bucket manager internals: the store is a partial map. `assumeState` is recorded, not modelled (restarting merges and installing future buckets are not part of this model).
- The generic work scheduler: retry and backoff, `scheduleSuccess`, `clearChildren`, the destructor, and the delegation in the failure hooks. The driver is a plain loop, and a failure hook only bumps its counter.
- Metrics registry details, logging and catch-up status reporting: side effects only. The three meters are plain counts. In the source they are registry-wide meters, looked up by fixed name (lines 33-38), so they are shared and cumulative across work items. `Initial` starts them at zero only for convenience, and every contract of `Drive` is stated relative to the counts it starts from.
- The number of levels: `BucketList::kNumLevels` is not part of this model. The level count is a parameter of at least 1.

## Findings

| source | as written | input that shows it | evidently intended | confidence | as-written member | corrected member |
|---|---|---|---|---|---|---|
| src/catchup/ApplyBucketsWork.cpp:77-86 | `onReset` clears `mApplying`, and `onStart` then recomputes it from the live list. Levels committed before a failure now match the target, so the retry's cascade never starts. | Three levels `[(e,e),(e,e),(e,a)]`, target `[(0,0),(0,0),(0,D2)]`, pool `{D2}`. The first attempt commits level 2's curr, starts level 1 and fails; the retry then resets. | Once a coarser level's bucket has been applied, every finer level must be applied again, or the coarser bucket's older entries stay over the finer levels' entries in the database. A retry must keep the flag once it is raised. | medium, not executed | Driver.ResetAfterCommitDropsCascade | ApplyBucketsWork.OnResetKeepingCascade, Driver.DriveAfterRetry, Driver.RetryKeepingCascadeReappliesAll, Driver.RetryCoversInterruptedWalk |

`Drive` starts from `OnReset` as written. That reset is the same as the corrected one whenever the flag is clear, as it is for a work item that has not yet run. A retry after a failure loses the cascade for the finer levels. `DriveAfterRetry` models that retry with the corrected reset.
