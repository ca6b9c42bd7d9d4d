# Verified models of the release pipeline's stored guarantees

The repository keeps its hardest promises in two places: in database triggers that guard and
apply row updates, and in command-line scripts that must survive a crash at any point. This
project models both in Dafny and proves what they keep over every run.

| module | source | what it models |
|---|---|---|
| Provisioning | scripts/runpod_anatomy_endpoint.py | the journaled provisioner: memory journal, state file, ambiguous remote, crash anywhere |
| Preseed | scripts/runpod_i2v_seed_volume.py | the restart-safe multipart pre-seed of a volume |
| Mirror | scripts/mirror-i2v-models.py | the one-shot range mirror and its nested retry loop |
| ReviewLog, Review | migrations 0006, 0008, 0009, 0018, 0039 | decisions, review tasks, frozen selections, approval |
| Scoring | migrations 0004, 0008, 0042 | scoring runs, scores, rankings and their freeze |
| Jobs, Heads, Rendering | migrations 0009, 0014, 0026, 0027 | derivative jobs, outputs, X-teaser heads, promotion |
| Readiness | migration 0027 | when a head leaves a ready release without promotion |
| Completing | migrations 0002, 0009, 0018, 0039 | which open reviews some run can still complete |
| Finishing, Promoting, Proposals | migrations 0009, 0026, 0027 | which jobs some run can still finish, gating or not, and which versions it can promote |
| Publication | migration 0010 | the effect-event log and the provider guard |
| SelectionBackfill, RevisionBackfill | migrations 0009, 0027 | the loops that establish the invariants before the triggers exist |
| Assets, Releases | migrations 0001, 0002 | asset rows with their unique stored object, releases and their phase |
| Sql, ReviewSql, RenderingSql, ScoringSql, PublicationSql | migrations 0002, 0004, 0006, 0008, 0009, 0010, 0014, 0018, 0027, 0039, 0042 | the text of the CHECKs and triggers, column by column in three-valued logic, and the proof that the guards above are equal to it |
| Basics, Multipart | | options, counting arguments, part assembly |

A statement of the database is one step: the BEFORE triggers, CHECKs, keys and the foreign keys
that a property needs decide whether it is accepted, the AFTER triggers complete it, and an aborted
statement changes nothing. `Execute` is that step, `Run` a sequence of them, and the classes named
`Database` carry the same statements as methods that update their fields. Comparisons follow SQL's
three-valued logic: a comparison with NULL is not true, and a CHECK passes when it is unknown. The
guards are written as the proofs need them; the modules ending in `Sql` restate the modelled triggers and
CHECKs as they stand in the migrations (joins, EXISTS, CASE, min and max) and prove the two equal on
all rows.

In the scripts every primitive (state file write, request, upload call) may crash the command; a
method then returns at once, so a postcondition that covers `Crashed` covers a crash at every point.
A crash discards the memory copy, and the next command starts from the file.

## What the code does not promise

These are results, each with the exact condition under which the promise holds, and most with a
concrete input for which it fails.

- The linear revision chain of migration 0006 can have gaps, because its CHECK is unknown, hence
  passes, when supersedes_revision is NULL. A log is contiguous exactly when each revision above 1
  finds the one before it; the chain end is the newest revision exactly when each row starts its
  chain or supersedes the newest row of it.
- "Completed scoring runs reject new scores" holds of INSERT only: an UPDATE can move a pending
  score into a completed run. The set stays the same exactly when no update moves a score in;
  rankings and the scores they name are frozen all the same.
- "Active derivative job lease cannot be stolen" holds exactly when the reclaim records claimed_at:
  with NULL the comparison is unknown.
- The backfill validation of migration 0008 joins rankings with scores, so a ranking whose score
  belongs elsewhere is not seen. The trigger of the same migration would accept a validated run
  exactly when every ranking joins its score.
- The pre-seed of two models with one SHA-256 never completes: their volume keys coincide. A
  fault-free run completes exactly when the hashes are distinct and every recorded upload of a
  missing object can be aborted.
- "A skipped score has aggregate 0" (migration 0042) holds exactly of the skipped scores that have an
  aggregate: the CHECK is unknown for NULL. Such a score keeps its ranking from completing a run.
- A job outside the gate that failed is stuck for good, alive as it may be, exactly when its version
  number was promoted in its release: the rearm asks for the rendering phase that is over.
- A head that lets go of the last unfinished gating job leaves its release ready but unpromoted:
  exactly when the new row points at no unfinished gating job and the old row pointed at every
  relevant one. Job statements never do.
- On SQLite the publication log has no sequence trigger. Its starts count up and its completions
  follow their starts exactly when each event was in sequence when it was inserted.

## Assumptions

- Rows are inserted in their initial state (reviews open, scoring runs running, jobs requested);
  no trigger checks this. No job is inserted as failed before its first attempt.
- A statement with its triggers is atomic, and writing a state file is atomic and durable.
- One command runs at a time on a state file, and nobody else writes to the pre-seeded volume.
- An application moves releases freely, but does not put one back into rendering with a version
  that the trigger has promoted.
- Consistent lists, where a clause says so, show exactly the live resources, and no one else creates a
  resource under the plan's name once a create of that kind was attempted. The provider never
  reuses an id, and a foreign endpoint refers to an id that was handed out. Clauses about a calm
  run assume no fault, crash, drift or interference.
- Text columns have no width and integer columns no range.
- SHA-256 and the name-based UUIDs are parameters: an unknown function and injective functions.
- Foreign keys with RESTRICT keep referenced rows; a version belongs to one release and never changes.

## Model

| member | source | states |
|---|---|---|
| Provisioning.Provisioner.Run | scripts/runpod_anatomy_endpoint.py:672-812 | over every sequence of apply, recover and destroy with a crash anywhere: at most one resource per kind is ever created without --retry-create; at most one is live with consistent lists; the file counts every POST that was ever sent; destroyed means nothing created is left, for good; only destroy begins a destruction, and after that only DELETEs are sent; only own resources are deleted and no template while its endpoint exists |
| Provisioning.Provisioner.Save | scripts/runpod_anatomy_endpoint.py:434-452 | the journal in memory gets the next revision, and the file holds either that journal or, after a crash, the old one |
| Provisioning.Provisioner.Reconcile | scripts/runpod_anatomy_endpoint.py:357-376 | with consistent lists, None means that nothing matches and an id is the only match; in a calm world it fails only on two matches or an endpoint lookup without template |
| Provisioning.Provisioner.Announce | scripts/runpod_anatomy_endpoint.py:530-551 | the write-ahead record is in the file before the one POST leaves; without it nothing is sent |
| Provisioning.Provisioner.Post | scripts/runpod_anatomy_endpoint.py:548-558 | the outcome of a POST: a definite rejection created nothing, an answer with an id names the only live resource of the kind, and anything else may have created one |
| Provisioning.Provisioner.AfterError | scripts/runpod_anatomy_endpoint.py:552-597 | after a failed POST: a first, definite rejection clears `create_attempted`, nothing else does, and without a match the outcome is journaled as rejected or unknown; a normal return names the only live resource of the kind, found by listing |
| Provisioning.Provisioner.CreateOnce | scripts/runpod_anatomy_endpoint.py:530-597 | a normal return names a resource this journal created, the only one of its kind that is live; a calm run sends one POST, gets the next id and counts one attempt |
| Provisioning.Provisioner.Settle | scripts/runpod_anatomy_endpoint.py:514-601 | in a calm world, after the first reconciliation: the entry adopts the match of an attempted create, refuses a foreign match, an unknown outcome or a rejection, each in its phase, or gets the one resource it creates |
| Provisioning.Provisioner.Acquire | scripts/runpod_anatomy_endpoint.py:511-602 | in a calm world with consistent lists an entry without id gets one exactly when `CanHave` held before, with the phase, id, attempts, live resources and requests of the branch it took |
| Provisioning.Provisioner.Ensure | scripts/runpod_anatomy_endpoint.py:503-604 | returns the journaled id of a live, verified resource; in a calm, consistent world exactly when `CanHave` held before, with the entry verified or in the phase of its refusal, and nothing else changed but the resource it may create |
| Provisioning.Provisioner.Checkpoint | scripts/runpod_anatomy_endpoint.py:482-490 | the id is journaled as created, durably or not at all |
| Provisioning.Provisioner.Discover | scripts/runpod_anatomy_endpoint.py:607-625 | creates and deletes nothing; in a calm, consistent world it finds an id exactly when one is journaled or an attempted create is listed |
| Provisioning.Provisioner.DestroyOne | scripts/runpod_anatomy_endpoint.py:746-782 | with consistent lists a normal return leaves no created resource of the kind; in a calm world it returns normally exactly when the entry is resolvable, deletes exactly that resource and marks the entry deleted; it sends no POST |
| Provisioning.Provisioner.RemoveKnown | scripts/runpod_anatomy_endpoint.py:763-782 | deletes exactly the journaled resource: in a calm, consistent world the live resources lose that id and no other |
| Provisioning.Provisioner.DeleteAndConfirm | scripts/runpod_anatomy_endpoint.py:773-780 | after a normal return the resource is gone, whatever the DELETE answered |
| Provisioning.Provisioner.BeginApply | scripts/runpod_anatomy_endpoint.py:672-682 | raises exactly on a journal whose destruction began, changing nothing; otherwise the first checkpoint is the loaded or new journal in status applying |
| Provisioning.Provisioner.ApplyPlan | scripts/runpod_anatomy_endpoint.py:672-700 | ready only with both ids journaled, recovery_required whenever it raises, and never the beginning of a destruction, crashes included; refuses a journal whose destruction began without touching file or provider; in a calm, consistent world it becomes ready exactly when `CanApply` holds of the state file and the live resources, and both entries, the live resources and the requests sent are those of `BothEnsured` |
| Provisioning.Provisioner.RecoverPlan | scripts/runpod_anatomy_endpoint.py:710-743 | creates and deletes nothing and never starts or undoes a destruction; it records ready or recovery_required, crashes aside; in a calm, consistent world ready exactly when both resources were visible, raising exactly when a journaled resource is missing, with both entries as in `BothRecovered` |
| Provisioning.Provisioner.DestroyPlan | scripts/runpod_anatomy_endpoint.py:790-812 | in a calm, consistent world it completes exactly when both entries are resolvable, with the entries and the live resources of `BothRemoved`: an unresolved endpoint keeps its template; completed means destroyed with nothing created left, and an error is recorded as destroy_recovery_required |
| Provisioning.Provisioner.RecordError | scripts/runpod_anatomy_endpoint.py:493-500 | exactly the given error status is written, or after a crash the file stays as it was |
| Provisioning.CanApplyIsBoth | scripts/runpod_anatomy_endpoint.py:684-692 | what an apply needs, stated of the resources it found, is what its two steps need one after the other: the endpoints that count are those bound to the template the first step adopts or creates |
| Preseed.Seeder.Run | scripts/runpod_i2v_seed_volume.py:452-581 | over every sequence of runs with a crash anywhere: with distinct hashes an object at a model key has the size and SHA-256 of its model, `completed` means it is there, and a marker means all models are there, verified and distinct |
| Preseed.Seeder.Apply | scripts/runpod_i2v_seed_volume.py:452-581 | with distinct hashes the branches for a foreign writer are never taken; in a fault-free run it reaches ready exactly when the state is `Convergent`, and leaves no new upload open whatever the source serves; adopting uploads nothing, succeeds fault-free exactly on a marked volume, and refuses an unmarked one without a trace; ready means every entry completed without an upload |
| Preseed.Seeder.UploadAll | scripts/runpod_i2v_seed_volume.py:541-569 | all models are stored when it returns normally; fault-free it does so exactly when the state is `Convergent` |
| Preseed.Seeder.UploadModel | scripts/runpod_i2v_seed_volume.py:317-449 | never succeeds on a repeated hash; fault-free a first hash succeeds exactly when its object is there or its recorded upload can be aborted, and a failing source leaves no new upload open; only its own entry, key and upload change |
| Preseed.Seeder.UploadFresh | scripts/runpod_i2v_seed_volume.py:364-449 | a fresh upload of one model: completed means stored, fault-free it completes, and when the source fails the open upload is the one that the state file names |
| Preseed.Seeder.Stream | scripts/runpod_i2v_seed_volume.py:379-416 | the part loop with running digest and size into the upload that the state file names: on success the parts assemble to bytes of the declared size and SHA-256, and at every exit no part is empty or too large and their sum never exceeds that size |
| Preseed.Seeder.Finish | scripts/runpod_i2v_seed_volume.py:417-434 | `completion_attempted` is durable before the completion, so an object that appears is always accounted for |
| Preseed.Seeder.GiveUp | scripts/runpod_i2v_seed_volume.py:436-449 | the failure path aborts and forgets the open upload of a missing object, keeps everything once the object is there, and touches only its own entry |
| Preseed.Seeder.RemoteReady | scripts/runpod_i2v_seed_volume.py:274-301 | fault-free: not ready without a marker, ready when the marker is that of these models and every object has its size, and otherwise an error for a volume that drifted |
| Preseed.Seeder.AbortUpload | scripts/runpod_i2v_seed_volume.py:304-314 | removes at most the given upload; fault-free it succeeds exactly when aborting is idempotent or the upload exists |
| Mirror.RangesAreConsecutive | scripts/mirror-i2v-models.py:261-263 | no range is empty, the first starts at 0, each starts where the last ended, the last ends at n - 1 |
| Mirror.RangesPartition | scripts/mirror-i2v-models.py:261-263 | every byte of the source lies in exactly one range |
| Mirror.ReadPart | scripts/mirror-i2v-models.py:198-207 | the chunks in order, or an error when they are not exactly as many bytes as expected |
| Mirror.Bucket.TransferPart | scripts/mirror-i2v-models.py:265-289 | at most eight attempts; the result is that of the first successful one, and part n + 1 holds it whatever the failed attempts uploaded |
| Mirror.FirstOfEight | scripts/mirror-i2v-models.py:265-289 | that result is the body of the first of eight attempts to succeed, and an error when none of the eight does |
| Mirror.Bucket.TransferAll | scripts/mirror-i2v-models.py:257-300 | when all parts transfer, the numbered parts concatenate to exactly the digested bytes |
| Mirror.Bucket.MirrorOne | scripts/mirror-i2v-models.py:229-315 | the object appears exactly when all parts transfer, the digest matches and the completion is applied; it is then the digested bytes, of the expected size and SHA-256; a present object is never replaced and passes exactly when size, SHA-256 and filename agree; no open upload is left |
| Mirror.GatheredLength | scripts/mirror-i2v-models.py:290-299 | successful parts always add up to the size of the source |
| Mirror.GatheredContent | scripts/mirror-i2v-models.py:257-300 | from a source that serves the ranges it is asked for, the parts are the content, under any pattern of retries |
| ReviewLog.ChainsCanHaveGaps | migrations/versions/20260728_0006_human_review.py:168-173 | the CHECK passes on NULL: revision 2 can be inserted with supersedes_revision NULL over nothing, so a chain need not be contiguous |
| ReviewLog.ChainEndCanBeOutdated | migrations/versions/20260728_0006_human_review.py:168-173 | over such a gap the end of the chain and the newest revision differ |
| ReviewLog.ContiguousExactlyWithPredecessors | migrations/versions/20260728_0006_human_review.py:168-173 | a log has the revisions 1..k of every chain exactly when each revision above 1 finds the one before it |
| ReviewLog.InsertKeepsContiguous | migrations/versions/20260728_0006_human_review.py:195-212 | one INSERT keeps that exactly when the new row is revision 1 or finds the revision before its own, whatever its link columns say |
| ReviewLog.ContiguousThroughout | migrations/versions/20260728_0006_human_review.py:195-212 | a log was contiguous after every INSERT exactly when each row found its predecessor when it was inserted |
| ReviewLog.InsertKeepsAgreement | migrations/versions/20260728_0008_ranking_manifest_freeze.py:690-698 | one INSERT keeps NOT EXISTS newer and the chain end in agreement exactly when the new row starts its chain or supersedes the newest row of it; once they disagree they do so for good |
| ReviewLog.EndsAreNewestExactly | migrations/versions/20260728_0008_ranking_manifest_freeze.py:690-698 | over whole logs the two agree exactly when every row extended the newest of its chain |
| ReviewLog.LinkedExactlyWhenColumnsSet | migrations/versions/20260728_0006_human_review.py:168-173 | every revision but the first names the one before it exactly when no row left supersedes_revision NULL |
| ReviewLog.InsertKeepsLinked | migrations/versions/20260728_0006_human_review.py:195-212 | one INSERT keeps the chains linked exactly when the new row sets the column |
| ReviewLog.LinkedIsContiguous | migrations/versions/20260728_0006_human_review.py:213-234 | linked chains have exactly the revisions 1..k |
| ReviewLog.ChainSizeIsMaxRevision | migrations/versions/20260728_0006_human_review.py:213-234 | in a contiguous log the greatest revision of a task and asset is the number of its rows |
| ReviewLog.NoNewerIsGroupMax | migrations/versions/20260728_0009_derivative_pipeline.py:810-846 | NOT EXISTS newer and the group-by-max join pick the same rows of every log |
| ReviewLog.NoNewerIsChainEnd | migrations/versions/20260728_0008_ranking_manifest_freeze.py:690-698 | in a linked log NOT EXISTS newer picks exactly the ends of the chains |
| ReviewLog.LatestByOverwrite | migrations/versions/20260728_0008_ranking_manifest_freeze.py:351-357 | the dictionary loop maps each decided asset to its decision without a newer one |
| ReviewLog.CountAccepted | migrations/versions/20260728_0008_ranking_manifest_freeze.py:358-360 | its count of accepts is the number of rows that the triggers count |
| ReviewLog.AcceptedRowsBijectWithAssets | migrations/versions/20260728_0008_ranking_manifest_freeze.py:690-698 | one accepted row for each asset whose latest decision is accept |
| Releases.SwapSucceeds | migrations/versions/20260728_0009_derivative_pipeline.py:1212-1228 | the compare-and-swap changes one row exactly when the version is its release's current one in the old phase, and then only phase and lock version of that release |
| Review.Guard0018WeakensExactlyByShrinking | migrations/versions/20260805_0018_atomic_review_target_shrink.py:348-417 | on rows the table can hold, 0008 accepts exactly what 0018 accepts without changing the target |
| Review.Guard0039WeakensExactlyByGrowing | migrations/versions/20260822_0039_open_review_target_expansion.py:18-96 | 0018 accepts exactly what 0039 accepts without growing an open target, and the guard that the downgrade of 0039 installs is that of 0018 |
| Review.OrdersFillTheRange | migrations/versions/20260805_0018_atomic_review_target_shrink.py:116-133 | count, min and max with the unique display order give exactly 1..n |
| Review.CompletionFreezes | migrations/versions/20260805_0018_atomic_review_target_shrink.py:112-223 | an update that passes the completion triggers leaves the frozen snapshot: selections are the accepted assets, shown 1..target in strictly increasing rank, frozen when the review completed |
| Review.CompletionMatchesAssets | migrations/versions/20260805_0018_atomic_review_target_shrink.py:144-181 | at that moment the asset of every selection is an available raw master of the release whose ten storage columns and availability time are the copied ones |
| Review.SelectionCopiesMaster | migrations/versions/20260728_0009_derivative_pipeline.py:1008-1066 | so it is when the selection is inserted |
| Review.ChangedAssetAborts | migrations/versions/20260805_0018_atomic_review_target_shrink.py:144-181 | an asset of which any of that no longer holds, availability included, keeps the completing update from changing anything |
| ReviewSql.DecisionInsertIsSql | migrations/versions/20260728_0009_derivative_pipeline.py:991-1007 | INSERT of a decision is admitted exactly when the CHECKs pass in three-valued logic, the unique and foreign keys hold and the trigger finds the open review |
| ReviewSql.SelectionInsertIsSql | migrations/versions/20260728_0009_derivative_pipeline.py:1008-1066 | INSERT of a selection is admitted exactly when CHECKs and keys hold and the trigger finds the join of task, version, decision, ranking and asset, column by column |
| ReviewSql.TaskGuardIsSql | migrations/versions/20260822_0039_open_review_target_expansion.py:18-66 | the update guards of migrations 0008, 0018, 0039 and of the downgrade are the negated CASE expressions in three-valued logic |
| ReviewSql.CompletionGuardIsSql | migrations/versions/20260805_0018_atomic_review_target_shrink.py:112-223 | the completion guard is count, min and max, the release in review, and the three NOT EXISTS over joined rows |
| ReviewSql.TaskUpdateIsSql | migrations/versions/20260822_0039_open_review_target_expansion.py:18-66 | UPDATE of a review is admitted exactly when CHECKs and both BEFORE triggers let it pass |
| Review.StepKeepsValid | migrations/versions/20260728_0009_derivative_pipeline.py:991-1080 | every statement with its triggers keeps the invariant of decisions, selections, rankings and review tasks |
| Review.CompletedTaskSnapshot | migrations/versions/20260805_0018_atomic_review_target_shrink.py:112-223 | in every state reachable from empty tables a completed review has the frozen snapshot |
| Review.CompletedForever | migrations/versions/20260728_0009_derivative_pipeline.py:1067-1080 | the row, the selections and the accepted decisions of a completed review never change again |
| Review.OutdatedSelectionBlocks | migrations/versions/20260728_0009_derivative_pipeline.py:1067-1080 | a selection whose decision was superseded keeps its review from ever completing: it can be neither removed nor repaired |
| Review.UnevenFreezeBlocks | migrations/versions/20260805_0018_atomic_review_target_shrink.py:155-157 | so do two selections frozen at different times |
| Review.TargetHistory | migrations/versions/20260822_0039_open_review_target_expansion.py:18-66 | over every run the target never decreases while the review is open or is cancelled, never exceeds the ranked assets, and on completion is the accepted count |
| Review.CompletionApproves | migrations/versions/20260728_0009_derivative_pipeline.py:1208-1230 | an update that passed the BEFORE triggers never aborts in the AFTER trigger, and approves exactly the release of its version |
| Review.Database.RecordDecision | migrations/versions/20260728_0009_derivative_pipeline.py:991-1007 | INSERT of a decision: accepted exactly when constraints and trigger admit it (see ReviewSql), and then appended |
| Review.Database.Select | migrations/versions/20260728_0009_derivative_pipeline.py:1008-1066 | INSERT of a selection: accepted exactly when keys and trigger admit it (see ReviewSql), and then added |
| Review.Database.Update | migrations/versions/20260822_0039_open_review_target_expansion.py:18-66 | UPDATE of a review: accepted exactly when the BEFORE triggers and CHECKs admit it (see ReviewSql), with the new row and release phase of `Step` |
| Review.Database.ExecuteAll | migrations/versions/20260728_0009_derivative_pipeline.py:989-1230 | any sequence of statements leaves the state that `Run` computes |
| Completing.CompletedCould | migrations/versions/20260805_0018_atomic_review_target_shrink.py:112-223 | only a review whose selections are current, frozen at one time, of different stored objects, and extend to a display list of raw masters in rank order is ever completed by a steady run, one that ranks nothing more in its scoring run and changes no release or kind of an asset |
| Completing.CompletableExactly | migrations/versions/20260805_0018_atomic_review_target_shrink.py:112-223 | and every such open review is completed by some steady run of accepted statements: decide as planned, put each copied asset back or freeze a new one, put the release in review, grow the target, complete |
| Completing.CompletableLinked | migrations/versions/20260728_0006_human_review.py:168-212 | over a linked log that run sets every link column, so that the chains stay linked |
| Assets.PutKeepsSound | migrations/versions/20260728_0002_generation_assets.py:273-278 | an accepted row keeps the stored objects of assets different and every available asset complete |
| Jobs.RearmIsTheOnlyAddition | migrations/versions/20260808_0026_derivative_owner_retry.py:18-90 | the guard of 0026 and 0027 accepts what that of 0009 accepts, plus exactly the rearm of a failed job |
| Jobs.ReclaimRespectsLease | migrations/versions/20260728_0009_derivative_pipeline.py:1375-1390 | an accepted reclaim from an active state starts no earlier than the recorded expiry exactly when it records claimed_at |
| Jobs.UnrecordedClaimStealsLease | migrations/versions/20260728_0009_derivative_pipeline.py:1375-1390 | with claimed_at NULL the comparison is unknown and an unexpired lease is taken |
| Jobs.UpdateDecreasesMeasure | migrations/versions/20260808_0026_derivative_owner_retry.py:18-90 | every accepted update lowers the measure of attempts left and stage, and keeps the attempt budget |
| Jobs.UpdatesAreFinite | migrations/versions/20260808_0026_derivative_owner_retry.py:18-90 | a job sees at most 4 * max(10, max_attempts) updates; lock_version counts them, attempt_count counts the claims, the identity stays |
| Jobs.BoundIsReached | migrations/versions/20260808_0026_derivative_owner_retry.py:18-90 | a job inserted with one allowed attempt can be updated exactly 40 times, so the bound is tight |
| Heads.PointersAlternate | migrations/versions/20260808_0027_x_teaser_revisions.py:1081-1091 | pending alternates, so the parity of lock_version determines it; the active revision is the first one or was pending before it became active, and never becomes NULL again |
| Heads.ActiveMovesOnlyToPending | migrations/versions/20260808_0027_x_teaser_revisions.py:1081-1091 | an update that moves the active revision moves it to the proposed one and clears the proposal |
| Rendering.StepKeepsValid | migrations/versions/20260808_0027_x_teaser_revisions.py:39-185 | every statement with its triggers keeps the invariant of jobs, outputs, members, heads and promoted versions |
| Rendering.TargetsCountOutputs | migrations/versions/20260728_0009_derivative_pipeline.py:685-693 | outputs of one job have different targets |
| Rendering.SucceededJobIsComplete | migrations/versions/20260728_0009_derivative_pipeline.py:1453-1511 | a succeeded job has exactly the expected number of outputs with different targets of its recipe, and each target once when that is the number of recipe targets |
| Rendering.SucceededForever | migrations/versions/20260808_0027_x_teaser_revisions.py:63-66 | neither a succeeded job nor its outputs change again |
| Rendering.PromotionNeverAborts | migrations/versions/20260808_0027_x_teaser_revisions.py:178-184 | the AFTER trigger never aborts for an update that passed the BEFORE triggers |
| Rendering.PromotesExactlyWhenReady | migrations/versions/20260808_0027_x_teaser_revisions.py:152-185 | an update promotes its version exactly when it is a gating success after which every relevant gating job has succeeded with all outputs; the release was rendering and is then ready to publish |
| Rendering.PromotedWhenReady | migrations/versions/20260808_0027_x_teaser_revisions.py:152-185 | a version that a run promotes is promoted by one of its statements, which leaves it ready |
| Rendering.PromotedOnce | migrations/versions/20260808_0027_x_teaser_revisions.py:178-184 | over every run no version is promoted twice |
| Rendering.PromotedVersionIsSealed | migrations/versions/20260808_0027_x_teaser_revisions.py:129-143 | after a promotion no gating job of the version appears and none that was unfinished ever succeeds, while its full-target gating jobs outside X revisions are all complete, for good |
| Rendering.FailedJobRevives | migrations/versions/20260808_0027_x_teaser_revisions.py:106-124 | in a rendering release a failed job can be updated again exactly when it is not dead |
| Rendering.DeadJobBlocksPromotion | migrations/versions/20260808_0027_x_teaser_revisions.py:152-177 | one dead full-target gating job keeps its version from ever being promoted |
| Rendering.JobStops | migrations/versions/20260808_0027_x_teaser_revisions.py:63-105 | over every run of the whole database the bounds and counts of `Jobs.UpdatesAreFinite` hold of every job |
| Rendering.HeadPointersAlternate | migrations/versions/20260808_0027_x_teaser_revisions.py:1081-1091 | over every run of the whole database the alternation and the order of proposal and activation hold of every head |
| Rendering.HeadServesOwnRevision | migrations/versions/20260808_0027_x_teaser_revisions.py:561-668 | a head that serves a revision always serves one, of its own review and version |
| Rendering.Database.CreateJob | migrations/versions/20260808_0027_x_teaser_revisions.py:39-61 | INSERT of a job: accepted exactly when keys, CHECKs and trigger admit it (see RenderingSql) |
| Rendering.Database.Update | migrations/versions/20260808_0027_x_teaser_revisions.py:63-185 | UPDATE of a job with its promotion: accepted exactly when the BEFORE triggers admit it (see RenderingSql), with the state of `Step` |
| Rendering.Database.Record | migrations/versions/20260728_0009_derivative_pipeline.py:1453-1511 | INSERT of an output: accepted exactly when CHECKs, keys and trigger admit it (see RenderingSql) |
| Rendering.Database.MoveHead | migrations/versions/20260808_0027_x_teaser_revisions.py:1081-1091 | UPDATE of a head: accepted exactly when CHECKs, foreign keys and trigger admit it (see RenderingSql) |
| Rendering.Database.ExecuteAll | migrations/versions/20260808_0027_x_teaser_revisions.py:39-185 | any sequence of statements leaves the state that `Run` computes |
| RenderingSql.JobInsertIsSql | migrations/versions/20260808_0027_x_teaser_revisions.py:39-61 | INSERT of a job is admitted exactly when the CHECKs pass, the keys are free and the trigger finds the joined rows: gating in a rendering release, or proposed by a head in one of four phases, with an active revision while rendering |
| RenderingSql.JobUpdateIsSql | migrations/versions/20260808_0027_x_teaser_revisions.py:63-145 | UPDATE of a job is admitted exactly when none of the CASE expressions of the trigger holds, in three-valued logic |
| RenderingSql.PromotionIsSql | migrations/versions/20260808_0027_x_teaser_revisions.py:152-177 | the promotion fires exactly on a gating success without a pending gating job, as the NOT EXISTS says row by row |
| RenderingSql.RecipeInsertIsSql | migrations/versions/20260729_0014_watermark_registry.py:35-62 | INSERT of a recipe is admitted exactly when its watermark copies, column by column, an available PNG kept as a watermark |
| RenderingSql.OutputInsertIsSql | migrations/versions/20260728_0009_derivative_pipeline.py:1453-1511 | INSERT of an output is admitted exactly when job, recipe, selection, version, asset and lineage join to an available derivative whose columns the row copies |
| RenderingSql.HeadStatementsAreSql | migrations/versions/20260808_0027_x_teaser_revisions.py:1081-1091 | INSERT and UPDATE of a head are admitted exactly on CHECKs, foreign keys, the unique key and the two transitions |
| RenderingSql.MemberInsertIsSql | migrations/versions/20260808_0027_x_teaser_revisions.py:1052-1074 | INSERT of a member is admitted exactly when CHECKs and keys hold and revision, selection and recipe join with the job or the reused output |
| Proposals.ProposalInserted | migrations/versions/20260808_0027_x_teaser_revisions.py:39-61 | an orderly job outside the gate is inserted exactly when a head of its review and version proposes its revision and the release, current, is ready to publish, publishing or published, or rendering under an active revision |
| Proposals.ProposalsStaySound | migrations/versions/20260808_0027_x_teaser_revisions.py:53-60 | over every run the revision of such a job is one of its own review and version, which has a head |
| Proposals.ProposalSucceedsInSomeRun | migrations/versions/20260808_0027_x_teaser_revisions.py:106-143 | such a job succeeds in some run exactly when it is not stuck and, if it failed, no version with its number was promoted in its release; the run puts the release in place, lets the head serve a new revision and propose the old one again, rearms and finishes |
| Readiness.HeadUpdateReadies | migrations/versions/20260808_0027_x_teaser_revisions.py:152-177 | an accepted update of a head leaves a version ready exactly when the new row points at no unfinished gating job of it and the old row pointed at every relevant one; it never moves the release |
| Readiness.HeadUpdateStrands | migrations/versions/20260808_0027_x_teaser_revisions.py:152-185 | so it leaves a ready version with a gating success behind in rendering exactly when the release renders it and that condition holds |
| Readiness.HeadInsertReadies | migrations/versions/20260808_0027_x_teaser_revisions.py:152-177 | the same for the insert of a head: every unfinished gating job must be taken over or irrelevant |
| Readiness.HeadInsertStrands | migrations/versions/20260808_0027_x_teaser_revisions.py:152-185 | when the insert of a head leaves a ready version behind in rendering |
| Readiness.WithdrawnProposalStrands | migrations/versions/20260808_0027_x_teaser_revisions.py:1081-1091 | from valid tables where one requested teaser job holds the version back, an update that withdraws the proposed revision makes it ready, and the release stays in rendering |
| Readiness.OnlyHeadsAndReleasesStrand | migrations/versions/20260808_0027_x_teaser_revisions.py:152-185 | no other statement of the database, a job update least of all, leaves a ready version behind in rendering |
| Finishing.StuckForever | migrations/versions/20260808_0027_x_teaser_revisions.py:63-105 | over every run a job without a way left to processing, or whose outputs or recipe rule out the expected count, never succeeds |
| Finishing.SucceedsInSomeRun | migrations/versions/20260808_0027_x_teaser_revisions.py:63-143 | a gating job of a rendering release succeeds in some run exactly when it is not stuck: not cancelled or failed for good, an attempt left when it waits, a recipe digest that is not blank, and outputs <= expected <= recipe targets that a CHECK lets an output have |
| Promoting.StuckJobBars | migrations/versions/20260808_0027_x_teaser_revisions.py:152-177 | a stuck job outside X revisions that renders the full target, or whose review has its head in another version, keeps its version from ever being promoted |
| Promoting.PromotableExactly | migrations/versions/20260808_0027_x_teaser_revisions.py:152-185 | a rendering version with a selection is promoted by some run exactly when every such gating job can succeed; heads can be moved away from all others, and a new job can be asked for while some logical key is free |
| Promoting.SmallTablesHaveFreeKey | migrations/versions/20260728_0009_derivative_pipeline.py:542-545 | that is so while there are fewer than 2^64 recipes and jobs |
| Scoring.CompletionRanks | migrations/versions/20260728_0008_ranking_manifest_freeze.py:617-644 | count, min and max with the unique keys make the rankings of a completing run a permutation of 1..asset_count, each paired with a terminal score that agrees |
| Scoring.CompletedRunIsRanked | migrations/versions/20260728_0008_ranking_manifest_freeze.py:611-672 | in every state reachable from empty tables a completed run has that snapshot, and each ranking repeats the aggregate of a finished score of its run and asset under the same three versions |
| ScoringSql.CompletionGuardIsSql | migrations/versions/20260728_0008_ranking_manifest_freeze.py:617-644 | the completion guard is count, min and max in three-valued logic and the EXISTS over the left join, whose missing score is a row of NULLs |
| ScoringSql.RunStatementsAreSql | migrations/versions/20260728_0008_ranking_manifest_freeze.py:611-644 | INSERT, UPDATE and DELETE of a run are admitted exactly when CHECKs, foreign keys and triggers let them pass |
| ScoringSql.ScoreStatementsAreSql | migrations/versions/20260728_0008_ranking_manifest_freeze.py:645-672 | so are INSERT, UPDATE and DELETE of a score and INSERT of a ranking |
| ScoringSql.SkippedCanLackAggregate | migrations/versions/20260909_0042_manual_review.py:19-26 | the CHECK passes on NULL: a skipped score has aggregate 0 exactly when it has an aggregate |
| ScoringSql.LoopTestsColumns | migrations/versions/20260728_0008_ranking_manifest_freeze.py:430-447 | the loop of the backfill raises on exactly the sixteen comparisons of its columns |
| Scoring.CompletedRunIsFrozen | migrations/versions/20260728_0008_ranking_manifest_freeze.py:611-672 | the run, its rankings and the scores they name never change again |
| Scoring.CompletedScoresOnlyGrow | migrations/versions/20260728_0008_ranking_manifest_freeze.py:645-661 | scores of a completed run never leave or change, and their set stays the same exactly when no update moves one in |
| Scoring.CompletedScoresAreFrozen | migrations/versions/20260728_0008_ranking_manifest_freeze.py:645-661 | over runs whose updates keep each score in its run, the scores of a completed run are frozen as a set |
| Scoring.ScoreJoinsCompletedRun | migrations/versions/20260728_0008_ranking_manifest_freeze.py:645-650 | the trigger looks at OLD only: from empty tables a sequence of accepted statements completes one run, opens another, and then moves its pending score into the completed one |
| Scoring.ValidateRanking | migrations/versions/20260728_0008_ranking_manifest_freeze.py:418-448 | the validation of the backfill accepts exactly ranks 1..asset_count with agreeing scores and object documents |
| Scoring.ValidationMeansCompletion | migrations/versions/20260728_0008_ranking_manifest_freeze.py:418-448 | it accepts a run all of whose rankings join their scores exactly when the trigger's completion guard holds and the documents are objects |
| Scoring.ValidatedRunCompletesExactly | migrations/versions/20260728_0008_ranking_manifest_freeze.py:418-448 | the trigger would accept a run that the backfill accepted exactly when every ranking joins its score |
| Scoring.StrayRankingPassesValidation | migrations/versions/20260728_0008_ranking_manifest_freeze.py:267-282 | it accepts a run that the trigger refuses: the inner join drops a ranking whose score belongs to another run |
| Scoring.Database.Apply | migrations/versions/20260728_0008_ranking_manifest_freeze.py:609-672 | one statement: accepted exactly when keys, CHECKs and triggers admit it, with the state of `Step` |
| Publication.StartsCountUp | migrations/versions/20260728_0010_publication_orchestration.py:1250-1254 | the starts of every step are recorded as 1, 2, ..., k |
| Publication.CompletionFollowsStart | migrations/versions/20260728_0010_publication_orchestration.py:1255-1260 | a completion comes after a start of the same request under the same guard epoch |
| Publication.RequestPhasesUnique | migrations/versions/20260728_0010_publication_orchestration.py:986-991 | the table alone gives a request one start and at most one completion |
| Publication.CompletionsWithinStarts | migrations/versions/20260728_0010_publication_orchestration.py:986-991 | a step never has more completions than starts |
| Publication.InsertKeepsOrder | migrations/versions/20260728_0010_publication_orchestration.py:1242-1261 | one INSERT keeps the starts counting up and every completion after its start exactly when its event is in sequence |
| Publication.OrderedExactlyWhenSequential | migrations/versions/20260728_0010_publication_orchestration.py:1242-1261 | of the logs that the table alone admits exactly those are in order whose every event was in sequence when it was inserted |
| Publication.TableAloneAllowsGaps | migrations/versions/20260728_0010_publication_orchestration.py:1084-1109 | on SQLite, without the insert trigger, the table admits a first start numbered 7 and a completion that never started |
| Publication.EffectLog.Record | migrations/versions/20260728_0010_publication_orchestration.py:1242-1261 | INSERT of an event: accepted exactly when constraints and trigger admit it, and then appended |
| PublicationSql.EventInsertIsSql | migrations/versions/20260728_0010_publication_orchestration.py:954-991 | the table admits exactly the events whose CHECKs pass in three-valued logic under a free key |
| PublicationSql.EventGuardIsSql | migrations/versions/20260728_0010_publication_orchestration.py:1242-1261 | the trigger admits exactly the events over which none of its three conditions raises, with COALESCE of the maximal started request |
| PublicationSql.GuardUpdateIsSql | migrations/versions/20260728_0010_publication_orchestration.py:1262-1279 | the provider guard admits exactly the updates that its disjunction does not raise on |
| Publication.EpochIsLockVersion | migrations/versions/20260728_0010_publication_orchestration.py:1262-1279 | epoch and lock version are both the number of the row, times increase strictly, and only an active owner enables publication |
| SelectionBackfill.FreezeTask | migrations/versions/20260728_0009_derivative_pipeline.py:846-885 | the selections are the rows enumerated from 1; it raises exactly when the count is not the target or a source is unsound |
| SelectionBackfill.RowsAreAccepted | migrations/versions/20260728_0009_derivative_pipeline.py:810-842 | the rows of the group-by-max query are exactly the decisions the triggers count |
| SelectionBackfill.ValuesAreSnapshot | migrations/versions/20260728_0009_derivative_pipeline.py:846-885 | the enumerated values are the frozen snapshot of their review |
| SelectionBackfill.FreezeCompleted | migrations/versions/20260728_0009_derivative_pipeline.py:791-907 | succeeds exactly when every completed review has as many accepted decisions as its target, each about an asset with the columns of `SourceColumns`, and then establishes the invariant that the triggers keep; each selection copies its decision, rank and asset; exactly the releases in review with the version of a completed review are approved, with one more lock version |
| SelectionBackfill.FreezableExactly | migrations/versions/20260728_0009_derivative_pipeline.py:846-948 | the loop raises on a review exactly when the count of its accepted decisions or a column of one of their assets is wrong |
| RevisionBackfill.GroupByTask | migrations/versions/20260808_0027_x_teaser_revisions.py:844-846 | each review is mapped to its rows in their order |
| RevisionBackfill.LatestBySetdefault | migrations/versions/20260808_0027_x_teaser_revisions.py:847-849 | over descending rows setdefault keeps the latest X-teaser output of each selection |
| RevisionBackfill.CheckTask | migrations/versions/20260808_0027_x_teaser_revisions.py:887-904 | a review is converted exactly when every row has an output, all with one watermark, at known positions |
| RevisionBackfill.MemberForIsSound | migrations/versions/20260808_0027_x_teaser_revisions.py:1052-1074 | an inserted member satisfies the guard created after the backfill |
| RevisionBackfill.BackfillRevisions | migrations/versions/20260808_0027_x_teaser_revisions.py:759-965 | every insert would pass the later guards and keys; exactly the reviews all of whose X selections have a latest teaser, with one watermark and known positions, get revision 1, an active head and one member per X selection, column by column; nothing else is inserted |
| RevisionBackfill.LatestIsTeaser | migrations/versions/20260808_0027_x_teaser_revisions.py:811-849 | the dictionary has a candidate exactly for the selections with a teaser of a succeeded job under a watermark, and it is the latest by time and id |
| RevisionBackfill.ConvertibleIsConverts | migrations/versions/20260808_0027_x_teaser_revisions.py:887-904 | the three checks over the ordered rows say just that of the set of X selections |

## Left out

- RevisionBackfill.BackfillRevisions: request_sha256, created_by and created_at of the inserted rows are not modelled, and reviews are converted in an arbitrary order.
- Provisioning.Provisioner.ApplyPlan: nothing is claimed about a second POST after a rejection, because the rejected phase is overwritten before the reconciliation.
- Provisioning.Provisioner.ReadVerified: the comparison of single fields of a template or endpoint is an outcome that may report drift at any time.
- Mirror.Bucket.MirrorOne: waiting between attempts has no effect and is not modelled; an abort after a failure is taken to succeed.
- Completing.CompletableExactly: a run that changes the release or the kind of an asset is not considered; within that, assets and releases are set as the tables admit, as the application services that write them are not modelled.
- Proposals.ProposalSucceedsInSomeRun: the run also moves the release, heads and revisions as the tables admit them, whatever an application would ask for.
- Finishing.SucceedsInSomeRun: column widths, which PostgreSQL enforces and SQLite does not, are not modelled: there a target of more than 50 characters cannot be recorded.
- Promoting.PromotableExactly: the run also adds revisions, heads, a recipe and a job as the tables admit them, whatever an application would ask for.
- Columns that no modelled guard or key reads (users, notes, reasons, request digests of revisions, renderer versions, creation and approval times): a row can hold any value that its own CHECK and foreign key admit, such as the user who created the review.
- scripts/runpod_i2v_endpoint.py, the simpler sibling of the provisioner, would repeat its theorems with easier proofs.
- HTTP, S3, JSON, argument parsing, environment reads, file locks, fsync and os.replace: outcomes of nondeterministic calls, or the atomicity assumed above.
- The manifest digest of migration 0008 and the canonical JSON it hashes.
- Index, foreign-key and column DDL, and the dialect dispatch that assembles trigger text: the predicate each guard expresses is modelled, not its string.
- The insert guards of publication inputs, approvals, packages and reconciliations in migration 0010: single joins without a property that spans statements.
- Migrations that add only columns, constraints or append-only triggers, and the application services under src: their steps appear as environment statements.
- Updates in place are modelled on map and set fields of the database classes; aliasing between rows does not arise in SQL tables.
