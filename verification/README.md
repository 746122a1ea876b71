# TrainingJob operator, simulated GPU fleet and artifact names: a Dafny model

This project models three cooperating parts of the ML platform and proves what they promise.

1. **The TrainingJob operator** (`operator/internal/controller`). A reconciler drives the TrainingJobs of a
   namespace through ""/Pending/Queued/Running/Succeeded/Failed. The jobs share a GPU quota, every admitted
   attempt creates an Argo Workflow, and the operator handles retries, finalizer cleanup and deletion after a
   time to live. The store (jobs, Workflows, quota, work queue, timers, clock) is modelled in two layers:
   - **Interleaved** (`SplitWorker`, `SplitInvariant`, `SplitSafety`, `SplitQuota`, `SplitTheorems`,
     `SplitWorkflows`, `SplitLedger`): each API call is a step of its own. Users, Argo, the clock and restarts
     act between any two calls; a call may be refused (conflict, outage) or take effect while its reply is lost.
     `Interruptions` names the four kinds of fault that theorems about runs allow or exclude. `Sightings` records
     what a reconcile has seen, and `StatusChanges` and `StatusTheorems` prove that every status says just that.
   - **Atomic** (`Operator`, `Atomic`, `Effects`, `Accounting`, `AtomicTheorems`, `QuotaTheorems`, `Packing`):
     one whole reconcile is one step. `Atomic` proves that atomic runs are interleaved runs.
   - **Progress** (`ReconcileSteps`, `Termination`, `Fairness`): uninterrupted reconciles from any store that
     interleaved runs can leave, lost writes included.
   - `Controller` is the reconciler as written: methods that change a fetched job field by field and call a
     mutable API client whose every call may be refused or lose its reply. `Driver` says what such a reconcile
     must leave behind, and proves it a stretch of an interleaved run.
   - Eight tempting claims fail, and the exact conditions are proved over all interleaved runs, each with a
     failing run: the quota holds for any int32 request (`QuotaOverflow`), attempts are counted for any limit
     (`AttemptOverflow`), a job never has two Workflows at a time (`LostWrites`), attempts count submissions and
     submissions stay within the limit (`LedgerTheorems`), no step exceeds the quota in force however it is
     edited (`QuotaEdits`), a job that runs does not say it was refused (`GateCondition`), and GPUs really in use
     stay within the quota (`RealUsage`, with `LiveUsage` and `UncutRuns` for what survives). `StrayLoop` shows
     the most one lost write can cost. `SingleJob` and `CutShort` hold the steps those runs share.
   - `Publishing` says what the quota status tells, and after which reconciles.
2. **The simulated GPU fleet** (`Fleet.dfy`, `Metrics.dfy`; `components/fake-dcgm-exporter/main.py`): a
   first-fit allocator in two dictionaries, its relist-and-watch loop, and the metrics tick.
3. **The naming contract** (`Naming`, `WorkflowBuilder`; `workflow_builder.go` and `training/src/upload.py`):
   Workflow names, artifact paths and the uploader that splits them.

`Int32` writes out Go's wrapping addition; `Sums` is the theory of sums over maps behind the GPU accounting;
`Model` holds the API objects; `ClusterState` the API calls and everything that happens outside a reconcile.
`dfyconfig.toml` lists the files, so `dafny verify dfyconfig.toml` checks the project.

What is assumed about the environment: one worker reconciles at a time
(`operator/internal/controller/trainingjob_controller.go:301-309` sets no concurrency); a write to a job, a
change to an owned Workflow, or a restart puts the job's key in the queue; the CRD markers on spec fields hold
and a spec is immutable; Argo never leaves a final phase; only the operator creates Workflows.

## Where the code and its documentation differ

The model follows the code.

- `docs/architecture.md:59` shows Queued going back to Pending when capacity frees. The code goes from Queued
  straight to Running in one reconcile (`trainingjob_controller.go:83-120`).
- `docs/architecture.md:63` retries while `attempts <= backoffLimit+1`. The code tests
  `Attempts <= BackoffLimit` (`trainingjob_controller.go:167`), which gives the `backoffLimit + 1` attempts that
  `trainingjob_types.go:36-37` promises; `AttemptsSurviveLostWrites` states that number.
- `trainingjob_types.go:85-86` says `attempts` counts the Workflows created. But for outside removals, that is so
  whenever the operator is idle, in all interleaved runs, exactly if no call is refused, no reply is lost, the
  operator is not restarted and no job is deleted (`LedgerTheorems.AttemptsCountSubmissionsIff`): a reconcile cut
  short after creating a Workflow leaves it uncounted, to be adopted or dropped later.
- `trainingjob_types.go:36-37` promises `backoffLimit + 1` attempts in total. Submissions stay within that
  number, outside removals apart, exactly if no call is refused, no reply is lost and the operator is not
  restarted (`LedgerTheorems.SubmissionsWithinLimitIff`). This holds for every limit below the largest
  int32, zero included; deletions do no harm here. `SplitWorkflows` proves what survives, and `LostWrites`,
  `RealUsage` and `StrayLoop` what else does not.
- The quota is enforced with a wrapping int32 addition, and `attempts` wraps after 2^31 - 1.
  `QuotaOverflow.QuotaSafeIff` and `AttemptOverflow.AttemptsStayCountedIff` give the exact limits.

## Model

| member | source | states |
|---|---|---|
| Controller.UsedGPUs | operator/internal/controller/quota.go:10-22 | The loop over a listing returns, modulo 2^32, the GPUs of the listing's Running jobs other than the excluded one |
| Controller.CountQueued | operator/internal/controller/quota.go:25-33 | The loop returns, modulo 2^32, the number of Queued jobs listed |
| Controller.ListingUsage | operator/internal/controller/quota.go:10-22 | Whatever order the jobs are listed in, the loop's sum is the store's sum over Running jobs |
| Controller.ListingQueued | operator/internal/controller/quota.go:25-33 | Whatever the order, the count is the size of the set of Queued jobs in the store |
| Controller.NothingWraps | operator/internal/controller/quota.go:10-22 | When usage is within a quota that the request cannot overflow, no partial sum wraps and the gate's sum is the true one |
| Exactness.SumsAreExact | operator/internal/controller/trainingjob_controller.go:209-215 | In every state of every run under a fixed quota, lost writes included, all sums are exact and the gate refuses iff request plus peers' usage exceeds the quota |
| Controller.Cluster.ListJobs | operator/internal/controller/trainingjob_controller.go:209-212 | A listing that gets through names every job once, as stored; a failed call is reported |
| Controller.Cluster.CreateWorkflow | operator/internal/controller/trainingjob_controller.go:111-116 | A creation that is not refused stores the Workflow and wakes its owner unless the name exists; it is reported done only if its reply arrives |
| Controller.Cluster.UpdateStatus | operator/internal/controller/trainingjob_controller.go:132 | A status write replaces the status of the object that was read, and fails without effect if that is gone or has changed, or the call is refused |
| Controller.Cluster.RequestDeletion | operator/internal/controller/trainingjob_controller.go:247 | A deletion that is not refused marks a job that holds the finalizer and removes any other at once; a missing job counts as deleted |
| Controller.Cluster.DeleteAllWorkflows | operator/internal/controller/trainingjob_controller.go:253-263 | Unless refused, exactly the Workflows that carry the job's label go, and their owners are woken |
| Controller.TrainingJobReconciler.Reconcile | operator/internal/controller/trainingjob_controller.go:47-195 | Whatever fates its calls meet, the imperative reconcile leaves the store, ending (result or error) and remaining fates of the driver; if all get through, those of the reconcile function |
| Controller.TrainingJobReconciler.QuotaGate | operator/internal/controller/trainingjob_controller.go:199-235 | Either nothing is written and the reconcile goes on, with QuotaGranted set to True/QuotaAvailable in the copy if there is a quota and nothing else changed; or the job is parked and the quota status refreshed, or a failed call ends it |
| Controller.TrainingJobReconciler.EnsureWorkflow | operator/internal/controller/trainingjob_controller.go:90-154 | From the attempt's name on, store, ending and remaining fates are the driver's, a failed Get included |
| Controller.TrainingJobReconciler.SubmitWorkflow | operator/internal/controller/trainingjob_controller.go:106-136 | An existing name asks for another look, a create error ends the reconcile, and a created Workflow is recorded, as the driver says |
| Controller.TrainingJobReconciler.Propagate | operator/internal/controller/trainingjob_controller.go:142-194 | Adoption, success, retry and giving up by field updates, with failed deletes and writes, as the driver says |
| Controller.TrainingJobReconciler.ReconcileTtl | operator/internal/controller/trainingjob_controller.go:238-251 | Requeue for the remaining time, or request the deletion and pass its error on, and nothing without a time to live |
| Controller.TrainingJobReconciler.UpdateQuotaStatus | operator/internal/controller/trainingjob_controller.go:265-287 | What is published is the GPUs of the Running jobs and the number of Queued jobs in the store, modulo 2^32, under the limit as it was; if its calls are refused nothing changes and nobody is told |
| Publishing.WorkPublishes | operator/internal/controller/trainingjob_controller.go:135-193 | An undisturbed reconcile that parks, submits, completes or gives up publishes the usage and queue length it leaves; any other leaves the quota object as it is |
| Publishing.PublishingNeverFails | operator/internal/controller/trainingjob_controller.go:265-287 | Whatever becomes of the call, the reconcile ends as it would have, with only the quota status different |
| Driver.DriveIsRun | operator/internal/controller/trainingjob_controller.go:47-195 | A reconcile whose calls meet any fates is a stretch of worker steps of an interleaved run that meets these fates in order, and what is left of the fates is what it did not need |
| Driver.DriveWithoutFaults | operator/internal/controller/trainingjob_controller.go:47-195 | When every call gets through it computes the reconcile function |
| Atomic.CallsFinish | operator/internal/controller/trainingjob_controller.go:47-195 | From any API call on, undisturbed calls end, and end with what the rest of the reconcile computes |
| Atomic.WorkIsUninterrupted | operator/internal/controller/trainingjob_controller.go:47-195 | Taking a key and making the calls undisturbed ends in the state of one atomic reconcile |
| Atomic.AtomicRefinesSplit | operator/internal/controller/trainingjob_controller.go:301-309 | Every atomic run is an interleaved run with the same outside events |
| SplitSafety.PerformKeeps | operator/internal/controller/trainingjob_controller.go:47-287 | Whatever API call is made in whatever store it meets, the store invariant holds, everything changed is woken, and the next call is justified |
| SplitSafety.RunKeeps | operator/internal/controller/trainingjob_controller.go:47-195 | The invariant of store, worker and wake-ups holds in every run, with any refusals, lost replies, deletions and restarts |
| SplitTheorems.NoOrphans | operator/internal/controller/trainingjob_controller.go:55-75 | Every Workflow carries the label of a job that exists and holds the finalizer; a name without a job has no Workflow, labelled or named after it |
| SplitTheorems.NoLostWakeUp | operator/internal/controller/trainingjob_controller.go:299-309 | A job neither queued nor in the worker's hands is Queued with a re-check due within 15 s, Running with a watched unfinished Workflow, or finished with its expiry armed |
| SplitTheorems.AttemptsSurviveLostWrites | operator/internal/controller/trainingjob_controller.go:166-188 | Attempts stay within 0 and backoffLimit + 1, a waiting job has one left, and Failed means all were used |
| SplitTheorems.StepRespectsJob | operator/internal/controller/trainingjob_controller.go:77-80 | From any state that satisfies the invariant, no step takes back an attempt, moves the start time or changes a finished job's status or any spec |
| SplitTheorems.OutcomesAreFinal | operator/internal/controller/trainingjob_controller.go:77-80 | The same from any reachable state over any continuation in which the job stays |
| SplitTheorems.OutcomeIsConsistent | operator/internal/controller/trainingjob_controller.go:156-188 | Phase, completion time, model URI and Complete condition agree; start time and WorkflowSubmitted come with the first attempt; Queued carries the refusal |
| StatusChanges.StatusSaysWhatWasSeen | operator/internal/controller/trainingjob_controller.go:82-192 | In every interleaved run a status changes only by the write of the job's own reconcile, and every field of it follows from what that reconcile saw: gate verdict, clock and Workflow phase at the lookup, clock at the creation |
| StatusTheorems.WorkSaysWhatIsSeen | operator/internal/controller/trainingjob_controller.go:82-192 | An undisturbed reconcile of a claimed, unmarked and unfinished job leaves every status field as the gate, the Workflow of its current attempt and the clock demand |
| StatusTheorems.CompletionIsTheLookup | operator/internal/controller/trainingjob_controller.go:156-182 | In every interleaved run the completion time of a finished job, succeeded or failed, is the clock's second at the lookup of the reconcile that finished it |
| StatusTheorems.FinishedNow | operator/internal/controller/trainingjob_controller.go:156-182 | When each reconcile is one step, that is the current second |
| StatusTheorems.NeverMarkedEarly | operator/internal/controller/trainingjob_controller.go:238-251 | In every interleaved run the operator marks a job for deletion only once it is finished and more than its time to live less a second has passed since the lookup that finished it |
| StatusTheorems.AdmittedIsGranted | operator/internal/controller/trainingjob_controller.go:231-234 | A waiting job that an undisturbed reconcile under a quota leaves Running has QuotaGranted True/QuotaAvailable |
| GateCondition.RefusalsTakenBackIff | operator/internal/controller/trainingjob_controller.go:199-235 | In all interleaved runs no Running or finished job has QuotaGranted false iff no quota is ever removed |
| GateCondition.StaleRefusal | operator/internal/controller/trainingjob_controller.go:199-235 | The failing run otherwise, in which no call fails: a refused job runs once the quota is gone, and still says it was refused |
| StatusTheorems.RefusedIsRechecked | operator/internal/controller/trainingjob_controller.go:28-228 | A refused job is looked at again after exactly 15 seconds, or when an earlier appointment is due |
| SplitTheorems.OperatorDeletesOnlyExpired | operator/internal/controller/trainingjob_controller.go:238-251 | The operator marks a job only at or after completion plus time to live, and lets only marked jobs disappear |
| SplitTheorems.TtlFiresOnTime | operator/internal/controller/trainingjob_controller.go:242-247 | A finished job is marked at its first look at or after expiry; an earlier look leaves it alone, with an appointment by its expiry whatever timer it had; the next look comes iff that is due |
| SplitTheorems.JobsAreSubmitted | operator/api/v1alpha1/trainingjob_types.go:120-122 | Every job of every run has the spec somebody submitted |
| SplitWorkflows.WorkflowsStayNearby | operator/internal/controller/trainingjob_controller.go:90-151 | Whatever is lost, a job that counts a attempts has no Workflow but those of attempts a and a + 1: only the latter while waiting, only the first while running uncounted, only the former once the limit is used up |
| SplitTheorems.TtlArithmetic | operator/internal/controller/trainingjob_controller.go:242-244 | Second-resolution timestamps cost less than a second of life, the delay is positive and at most the time to live, and every int32 time to live fits an int64 of nanoseconds |
| SplitQuota.GateDecides | operator/internal/controller/trainingjob_controller.go:214-215 | For usage within the quota the wrapped comparison refuses iff the true sum exceeds the quota but not an int32 |
| SplitQuota.GateIsExactIff | operator/internal/controller/trainingjob_controller.go:214-215 | The gate decides as unbounded integers would, for all usages within the quota, iff quota plus request is an int32 |
| SplitQuota.RunningSumWithinQuota | operator/internal/controller/trainingjob_controller.go:199-235 | In every interleaved run under a fixed quota the Running jobs hold at most the quota, whatever fails or is lost |
| QuotaOverflow.RecheckBreaksQuotaIff | operator/internal/controller/trainingjob_controller.go:214-215 | From any reachable state within its quota, re-checking a job breaks the quota iff usage plus request overflows an int32 |
| QuotaOverflow.QuotaSafeIff | operator/internal/controller/trainingjob_controller.go:214-215 | All interleaved runs under a fixed quota with requests up to a bound respect it, whatever fails or is lost, iff quota plus bound is an int32 |
| QuotaOverflow.BreakQuota | operator/internal/controller/quota.go:10-22 | The failing run otherwise, in which no call fails: usage ends at quota plus bound |
| Effects.ReconcileEffect | operator/internal/controller/trainingjob_controller.go:47-195 | A reconcile does one of five things: nothing, remove a marked job with its Workflows, rewrite one job, submit one Workflow, or drop a failed one for a retry |
| Effects.AdmitEffect | operator/internal/controller/trainingjob_controller.go:82-136 | A waiting job is submitted iff the gate admits it, with one more attempt, and parked unchanged in attempts otherwise |
| Effects.RunningEffect | operator/internal/controller/trainingjob_controller.go:142-194 | A Running job changes iff its Workflow is final: retried within the limit, else finished |
| Accounting.EffectIsLocal | operator/internal/controller/trainingjob_controller.go:47-195 | A reconcile of one job leaves every other job and its Workflows alone |
| Accounting.ExecExact | operator/internal/controller/trainingjob_controller.go:90-136 | In every atomic run a job has no Workflow but that of its counted attempt, and none while it waits |
| AtomicTheorems.AttemptsAreExact | operator/internal/controller/trainingjob_controller.go:90-136 | In every atomic run Workflows ever submitted for a job equal its attempts plus at most one per outside removal, so at most backoffLimit + 1 without removals |
| SplitLedger.UncutAttemptsAreExact | operator/internal/controller/trainingjob_controller.go:90-136 | In every interleaved run in which nothing cuts a reconcile short: whenever the operator is idle, submissions equal attempts plus at most one per outside removal, the job has no Workflow but that of its counted attempt, and none while it waits |
| SplitLedger.SubmissionsStayCapped | operator/api/v1alpha1/trainingjob_types.go:36-37 | With deletions too, at every moment a job has been submitted at most backoffLimit + 1 times plus one per outside removal |
| LedgerTheorems.AttemptsCountSubmissionsIff | operator/api/v1alpha1/trainingjob_types.go:85-86 | For every backoff limit below the largest int32: attempts equal submissions net of outside removals, in all interleaved runs whenever the operator is idle, iff refused calls, lost replies, restarts and deletions are all excluded |
| LedgerTheorems.MiscountedRun | operator/internal/controller/trainingjob_controller.go:111-134 | The failing run otherwise, by any one kind of fault: a first submission that nobody counts |
| LedgerTheorems.SubmissionsWithinLimitIff | operator/api/v1alpha1/trainingjob_types.go:36-37 | For every backoff limit below the largest int32: submissions never exceed backoffLimit + 1 plus outside removals, at every moment of all interleaved runs, iff refused calls, lost replies and restarts are excluded, deletions or not |
| LedgerTheorems.OversubmittedRun | operator/internal/controller/trainingjob_controller.go:111-180 | The failing run otherwise: submissions that are each cut short, fail uncounted and are made again |
| CutShort.CutRoundLeaves | operator/internal/controller/trainingjob_controller.go:111-134 | A refused status write, a lost reply to the creation, a restart or a deletion in between: each leaves the new Workflow there and the job's status as it was |
| AtomicTheorems.AttemptsMoveWithCreation | operator/internal/controller/trainingjob_controller.go:120-124 | The count changes only by one, only in the job's own reconcile, and only with a new Workflow of that number |
| AtomicTheorems.StepRetriesConsumeNothing | operator/internal/controller/workflow_status.go:9-25 | Over any history in which the Workflow is not finished, lost or deleted, the job object does not change at all |
| AtomicTheorems.LiveWithinUsed | operator/internal/controller/quota.go:7-22 | GPUs of unfinished Workflows are at most those of Running jobs |
| AtomicTheorems.RealUsageWithinQuota | operator/internal/controller/trainingjob_controller.go:199-235 | In every atomic run under a fixed quota: GPUs of unfinished Workflows, at most those of Running jobs, at most the quota |
| QuotaTheorems.QuotaEditsAreSafeIff | operator/internal/controller/trainingjob_controller.go:209-215 | When each reconcile is one step, with quota edits between steps and any usage: a step takes usage above what it was and above the quota iff it admits a job whose sum with its peers wraps past the gate |
| QuotaEdits.AdmissionsFollowTheGate | operator/internal/controller/trainingjob_controller.go:199-235 | In every interleaved run, quota edits between any two calls included: a call that raises the Running sum is the status write of one admitted job, and ends within the sum its gate compared, which is within the quota that gate read iff it did not wrap, unless that gate found no quota |
| QuotaEdits.QuotaInForceIff | operator/internal/controller/trainingjob_controller.go:199-235 | No call in any interleaved run takes the Running sum above both what it was and the quota in force iff requests are zero or the quota is not edited |
| QuotaTheorems.RecheckDecides | operator/internal/controller/trainingjob_controller.go:199-235 | One re-check adds exactly the job's GPUs or parks it, and leaves every other job alone |
| Packing.PassPacksMaximally | operator/internal/controller/trainingjob_controller.go:209-234 | A pass over waiting jobs in any order raises usage by exactly what it admits and leaves Queued only jobs that no longer fit |
| Packing.ReachablePassPacks | operator/internal/controller/trainingjob_controller.go:209-234 | The same from any state uninterrupted reconciles lead to, queued, unclaimed or marked jobs included: after a look at every Queued job, whoever is Queued would not fit |
| QuotaTheorems.StaleSnapshotBound | operator/internal/controller/trainingjob_controller.go:209-215 | Admission on any snapshot exceeds the sum it saw by at most the Running GPUs the snapshot misses, and not at all if it only misses releases; that sum is within the quota iff it did not wrap |
| Termination.StepRaisesNothing | operator/internal/controller/trainingjob_controller.go:82-194 | From any store of an idle worker without a stray Workflow, no step raises a job's rank of attempts left and stage, while there are no new jobs, quota edits and outside removals |
| Termination.StepOnStray | operator/internal/controller/trainingjob_controller.go:90-151 | No uninterrupted step leaves a stray Workflow that was not there, under the same count |
| Termination.WorkMoves | operator/internal/controller/trainingjob_controller.go:82-194 | A reconcile of a job that can move lowers its rank and the total |
| Termination.SomebodyMoves | operator/internal/controller/trainingjob_controller.go:82-194 | While a job is unfinished, some unfinished job can move or has an unfinished Workflow |
| Fairness.FairRunsFinish | operator/internal/controller/trainingjob_controller.go:82-194 | From any store interleaved runs can leave, lost writes included, whose jobs each fit the quota: every fair run of uninterrupted reconciles reaches a point after which all remaining jobs are finished |
| Fairness.MovesAreBounded | operator/internal/controller/trainingjob_controller.go:166-180 | If no stray Workflow is about, such a run makes at most the sum over jobs of 8 (backoffLimit + 1) + 6 moves, and a step that is no move leaves every unfinished job's stage and attempts |
| Fairness.AttainableIsTame | operator/internal/controller/trainingjob_controller.go:106-136 | No stray Workflow is about after any run of uninterrupted reconciles |
| AttemptOverflow.AttemptsStayCountedIff | operator/internal/controller/trainingjob_controller.go:91-95 | Attempts stay within 0 and backoffLimit + 1 in all interleaved runs with limits up to a bound, whatever fails or is lost, iff the bound is below the largest int32 |
| AttemptOverflow.CountOver | operator/internal/controller/trainingjob_controller.go:91-95 | The failing run otherwise, in which no call fails: one retry too many makes the count the least int32 |
| LostWrites.LostRoundLeaves | operator/internal/controller/trainingjob_controller.go:106-134 | A reconcile whose status write fails after the creation leaves the Workflow there and the job as it was, queued |
| LostWrites.OneWorkflowIff | operator/internal/controller/trainingjob_controller.go:106-154 | In all interleaved runs with backoff limits up to a bound a job never has more than one Workflow at a time iff the bound is zero |
| LostWrites.LostWriteDoublesWorkflows | operator/internal/controller/trainingjob_controller.go:106-154 | How two come about: from any state reached without lost writes, one lost status write and two undisturbed reconciles leave two live Workflows iff an attempt had been counted |
| StrayLoop.OneLossManySubmissions | operator/internal/controller/trainingjob_controller.go:106-151 | For every n there is a run with one lost write in which a job that counts one attempt is submitted n times more, so the bound on moves does need that no stray Workflow is about |
| RealUsage.RealUsageSafeIff | operator/internal/controller/trainingjob_controller.go:106-134 | In all interleaved runs under a fixed quota with requests up to a bound that no sum overflows, GPUs of live Workflows stay within the quota iff quota or bound is zero, or refused calls, lost replies, restarts and deletions are all excluded |
| RealUsage.BreakRealUsage | operator/internal/controller/trainingjob_controller.go:106-134 | The failing run otherwise, by any one kind of fault alone |
| UncutRuns.UncutRunsAreSafe | operator/internal/controller/trainingjob_controller.go:199-235 | If no call fails, nobody restarts the operator and nobody deletes a job, real usage is within the quota at every moment, with everything else interleaved |
| LiveUsage.OnlyStraysExceed | operator/internal/controller/quota.go:7-22 | Whatever fails or is lost, real usage exceeds a fixed quota by at most the GPUs of live Workflows that no Running job waits for |
| LostWrites.LostWriteBreaksQuota | operator/internal/controller/trainingjob_controller.go:106-154 | A special case of the failing side: a job that is alone, fits and has failed once is served twice after one lost write |
| Model.MapWorkflowPhase | operator/internal/controller/workflow_status.go:16-25 | Terminal iff Succeeded, Failed or Error; anything else is Running; success iff Succeeded |
| WorkflowBuilder.BuildWorkflow | operator/internal/controller/workflow_builder.go:69-111 | The loop over the hyperparameters builds the Workflow whose parameters the next row describes |
| WorkflowBuilder.PipelineContract | operator/internal/controller/workflow_builder.go:25-110 | Name, labels, owner and template of the Workflow, and its seven parameters literally: epochs from epochs or 2, batch-size from batchSize or 128, lr from learningRate or 0.001, with missing and empty values alike, and the s3-path that the model URI records |
| Naming.ParsePrinted | operator/internal/controller/workflow_builder.go:51 | Printed decimals read back |
| Naming.NoLeadingZero | operator/internal/controller/workflow_builder.go:51 | and have no leading zero |
| Naming.WorkflowNamesInjective | operator/internal/controller/workflow_builder.go:50-52 | Two jobs or two attempts never share a Workflow name, for all strings and all integers |
| Naming.UploadFiles | training/src/upload.py:15-37 | Rejected iff bucket or prefix is empty; otherwise every file goes to the bucket under the prefix and its base name, at the URL that is the path, or the model URI of a job with that path, followed by that name |
| Naming.UploadRejection | training/src/upload.py:22-24 | A job's path is rejected iff its bucket is empty or starts with a slash |
| Naming.S3PathRoundTrip | operator/internal/controller/workflow_builder.go:57-59 | Splitting gives back the bucket and namespace/name iff the bucket has no slash |
| Naming.S3PathsInjective | operator/internal/controller/workflow_builder.go:57-59 | Jobs with the same path have the same bucket, namespace and name |
| Naming.UploadedObjectsDisjoint | training/src/upload.py:34-36 | No two jobs write the same object, and one job writes one object per base name |
| FleetModel.Fleet.AssignGpu | components/fake-dcgm-exporter/main.py:53-69 | The loop gives an unknown pod the first free GPU, or does nothing, and keeps the dictionaries mirrored |
| FleetModel.Fleet.ReleaseGpu | components/fake-dcgm-exporter/main.py:71-76 | Both entries of a held pod go; an unknown pod changes nothing |
| FleetModel.Fleet.Snapshot | components/fake-dcgm-exporter/main.py:78-80 | A snapshot is the assignment table at that moment |
| FleetModel.Fleet.RelistPods | components/fake-dcgm-exporter/main.py:88-98 | Offering a GPU to every listed pod in order, each stamped with its own clock reading, and then releasing the unlisted ones, is the relist function, in place |
| FleetModel.Fleet.HandleEvent | components/fake-dcgm-exporter/main.py:105-113 | Finished or deleted pods let go, running ones are offered a GPU, others are ignored |
| FleetModel.EventOutcome | components/fake-dcgm-exporter/main.py:105-113 | A deleted, Succeeded or Failed pod holds nothing after the event; a Running one not being deleted holds a GPU, under its own record if it is new, or the fleet is full; any other event changes nothing; nobody else is touched |
| FleetModel.RelistOutcome | components/fake-dcgm-exporter/main.py:88-98 | Whoever holds a GPU after a listing is listed as Running and not being deleted; a newcomer has the record its entry shows, with the clock at that entry; a listed running pod is served unless the assigning half filled the fleet |
| FleetModel.AssignIsFirstFit | components/fake-dcgm-exporter/main.py:54-68 | A new pod gets the least free GPU, and fails only when every GPU is taken |
| FleetModel.ReleaseUndoesAssign | components/fake-dcgm-exporter/main.py:71-76 | Releasing a pod just assigned restores the state |
| FleetModel.HeldCount | components/fake-dcgm-exporter/main.py:50-51 | As many GPUs are taken as pods are held, never more than exist |
| FleetModel.HistoryConsistent | components/fake-dcgm-exporter/main.py:53-80 | The two dictionaries mirror each other after any history |
| FleetModel.SnapshotsAreConsistent | components/fake-dcgm-exporter/main.py:83-113 | Any mix of listings and events is a sequence of single assigns and releases, every intermediate state of which is mirrored and within the fleet |
| FleetModel.RelistStable | components/fake-dcgm-exporter/main.py:88-98 | After a relist only listed running pods hold GPUs, and a pod held before keeps its GPU and record |
| FleetModel.RelistCount | components/fake-dcgm-exporter/main.py:88-98 | How many pods hold a GPU after one relist: those kept plus newcomers while GPUs free before the pass last |
| FleetModel.OnePassSufficesIff | components/fake-dcgm-exporter/main.py:88-98 | One relist serves as many pods as possible iff nobody had to let go or there was room for all newcomers before |
| FleetModel.RelistConverges | components/fake-dcgm-exporter/main.py:86-98 | A second relist of the same pods serves as many as possible, and a third changes nothing |
| Metrics.Exporter.UpdateMetrics | components/fake-dcgm-exporter/main.py:119-161 | A tick publishes one sample per GPU from one snapshot, with all eight labels: utilization within 0 and 100 for every GPU and at most 2 for an idle one, power and temperature in their ranges, the clock, and framebuffer parts that add up; the assigned series sum to the pods served and no two GPUs share a UUID |
| Metrics.MetricsAgreeWithAllocator | components/fake-dcgm-exporter/main.py:128-130 | The assigned series of any consistent fleet sum to the number of pods held, and UUIDs and devices differ |
| Metrics.ClampIsNearest | components/fake-dcgm-exporter/main.py:144 | Of all values from 0 to 100 the one nearest to the raw utilization is shown |
| Metrics.RampFills | components/fake-dcgm-exporter/main.py:145-146 | A taken GPU's framebuffer grows from 1000 MB by 100 MB a second for two minutes, to 13000 MB |
| Metrics.RoundedPartsAddUpIff | components/fake-dcgm-exporter/main.py:157-158 | Rounding used and free memory, ties to even, preserves the total for all values iff the total is even |

## Left out

- Other namespaces: every call the reconciler makes is confined to one namespace, so the model has one.
- Condition messages, transition times and observed generations, Kubernetes events and logging. A write that changes only a message is a spurious wake-up (`Resync`).
- resourceVersion: an update goes through when the stored job equals the one read, which allows more runs than the version check does.
- The delay of rate-limited requeues: a failed or repeated reconcile is queued at once.
- A lagging informer cache, except for the peer listing bounded by `QuotaTheorems.StaleSnapshotBound`; reads otherwise see the store.
- Workflows created, relabelled or re-owned by hand, status fields or finalizers edited by hand, and finalizers of other controllers.
- Garbage collection through owner references: the label cleanup under the finalizer comes first.
- `GPUQuota.status` as an invariant: it is best effort, so only what a refresh writes is proved.
- First-in-first-out order and freedom from starvation among Queued jobs: the gate has no order.
- Termination while calls go on failing: `Fairness` takes uninterrupted reconciles from some point on.
- Kubernetes limits on names: only the empty name is refused, and all theorems hold for any other string.
- Fields of the Workflow object that never vary (apiVersion, kind, namespace).
- A negative GPU count, and an exception in the middle of a relist.
- Floating-point error in the gauges: values are reals. Random draws are any values in the ranges asked for, the sine any value between -1 and 1, the Gaussian noise any real.
- Training, evaluation and serving code, the cost report, Terraform, GitOps manifests, dashboards and scripts: configuration, I/O or plain sums.
- Controller.TrainingJobReconciler.UpdateQuotaStatus: its three API calls succeed or fail as one, because nothing it does depends on which of them failed.
- SplitTheorems.NoLostWakeUp: its 15-second bound is on the appointment, not on when the worker is free to keep it.
