/**
 One reconcile as a function from cluster states to cluster states
 (operator/internal/controller/trainingjob_controller.go).
 */
module Operator {
  import opened Int32
  import opened Model
  import opened Naming
  import opened WorkflowBuilder
  import opened ClusterState

  const QUEUED_REQUEUE: int := 15 * SECOND

  // ----- decisions that only look at what was read -----

  /** When a finished job's time to live runs out. */
  function Expiry(job: Job): int
    requires job.spec.ttlSeconds.Some? && job.status.completionTime.Some?
  {
    (job.status.completionTime.value + job.spec.ttlSeconds.value) * SECOND
  }

  predicate HasTtl(job: Job) {
    job.spec.ttlSeconds.Some? && job.status.completionTime.Some?
  }

  /** The quota gate's comparison, in Go's wrapping arithmetic. */
  predicate GateRefuses(usedByPeers: nat, gpus: nat32, hard: nat32) {
    Wrap(Wrap(usedByPeers) + gpus) > hard
  }

  function Granted(job: Job): Job {
    job.WithCondition(QuotaGranted, true, QuotaAvailable)
  }

  /** The job as it leaves the gate. */
  function AtGate(s: State, j: Job): Job {
    if s.quota.None? then j else Granted(j)
  }

  function Parked(job: Job): Job {
    job.WithCondition(QuotaGranted, false, QuotaExceeded).(status :=
      job.WithCondition(QuotaGranted, false, QuotaExceeded).status.(phase := Queued))
  }

  /** The attempt whose Workflow should exist, and whether this reconcile starts it. */
  function CurrentAttempt(job: Job): (int32, bool) {
    var attempt := if job.IsRunning() then job.status.attempts else Wrap(job.status.attempts + 1);
    if attempt == 0 then (1, true) else (attempt, !job.IsRunning())
  }

  function CurrentWorkflow(job: Job): string {
    WorkflowName(job.name, CurrentAttempt(job).0)
  }

  function Seconds(now: nat): nat {
    now / SECOND
  }

  function Started(job: Job, now: nat): Job {
    var (attempt, creating) := CurrentAttempt(job);
    var j := job.WithCondition(WorkflowSubmitted, true, Submitted);
    j.(status := j.status.(
      phase := Running,
      attempts := if creating then attempt else job.status.attempts,
      workflowName := CurrentWorkflow(job),
      startTime := if job.status.startTime.None? then Some(Seconds(now)) else job.status.startTime))
  }

  function Adopted(job: Job): Job {
    job.(status := job.status.(phase := Running, workflowName := CurrentWorkflow(job)))
  }

  function Completed(job: Job, now: nat): Job {
    var j := job.WithCondition(Complete, true, TrainingSucceeded);
    j.(status := j.status.(phase := Succeeded, completionTime := Some(Seconds(now)), modelURI := ModelURI(job)))
  }

  function GivenUp(job: Job, now: nat): Job {
    var j := job.WithCondition(Complete, false, BackoffLimitExceeded);
    j.(status := j.status.(phase := Failed, completionTime := Some(Seconds(now))))
  }

  function BackToPending(job: Job): Job {
    job.(status := job.status.(phase := Pending))
  }

  // ----- the reconcile -----

  ghost function Reconcile(s: State, key: string): (State, Result) {
    if key !in s.jobs then (s, Done) else
      var job := s.jobs[key];
      if job.deleting then
        if job.finalizer then (DropJob(DropLabelled(s, key), key), Done) else (s, Done)
      else if !job.finalizer then (PutJob(s, job.(finalizer := true)), Done)
      else if job.IsTerminal() then ReconcileTtl(s, job)
      else if job.IsWaiting() then AdmitOrPark(s, job)
      else EnsureWorkflow(s, job)
  }

  /** The quota gate: without a quota everybody passes. */
  ghost function AdmitOrPark(s: State, job: Job): (State, Result) {
    match s.quota
    case None => EnsureWorkflow(s, job)
    case Some(q) => AdmitUnder(s, job, q.hardGPUs)
  }

  ghost function AdmitUnder(s: State, job: Job, hard: nat32): (State, Result) {
    if GateRefuses(UsedBesides(s.jobs, job.name), job.spec.gpus, hard)
    then (RefreshQuota(PutJob(s, Parked(job))), RequeueAfter(QUEUED_REQUEUE))
    else EnsureWorkflow(s, Granted(job))
  }

  function ReconcileTtl(s: State, job: Job): (State, Result) {
    if !HasTtl(job) then (s, Done)
    else if s.now < Expiry(job) then (s, RequeueAfter(Expiry(job) - s.now))
    else (DeleteJob(s, job.name), Done)
  }

  /** `job` is the in-memory copy: as read, or with the quota condition the gate has just set. */
  ghost function EnsureWorkflow(s: State, job: Job): (State, Result) {
    var name := CurrentWorkflow(job);
    if name !in s.workflows then
      var wf := WorkflowFor(job, CurrentAttempt(job).0, s.templateName);
      (RefreshQuota(PutJob(PutWorkflow(s, name, wf), Started(job, s.now))), Done)
    else Propagate(s, job, name)
  }

  ghost function Propagate(s: State, job: Job, name: string): (State, Result)
    requires name in s.workflows
  {
    var (phase, final) := MapWorkflowPhase(s.workflows[name].phase);
    if !final then
      if job.IsRunning() && job.status.workflowName == name then (s, Done)
      else (PutJob(s, Adopted(job)), Done)
    else if phase == Succeeded then (RefreshQuota(PutJob(s, Completed(job, s.now))), Requeue)
    else if job.status.attempts <= job.spec.backoffLimit then
      (PutJob(DropWorkflow(s, name), BackToPending(job)), Requeue)
    else (RefreshQuota(PutJob(s, GivenUp(job, s.now))), Requeue)
  }

  /** A worker takes `key` from the queue and reconciles it without interruption. */
  ghost function Work(s: State, key: string): State {
    if key !in s.queue then s else
      var (t, result) := Reconcile(Dequeue(s, key), key);
      Settle(t, key, result)
  }
}
