/** A namespace with one job: how it starts, fails and starts again. */
module SingleJob {
  import opened Int32
  import opened Model
  import opened Sums
  import opened Naming
  import opened WorkflowBuilder
  import opened ClusterState
  import opened Operator
  import opened SplitQuota
  import opened Atomic
  import opened Effects
  import opened QuotaTheorems
  import opened QuotaOverflow

  /** The only job, which fits into the quota, has counted `a` attempts. */
  predicate Alone(s: State, k: string, spec: JobSpec, a: int32) {
    && k != "" && s.jobs.Keys == {k}
    && var j := s.jobs[k];
       && j.name == k && j.finalizer && !j.deleting
       && j.spec == spec && j.status.attempts == a
       && (s.quota.Some? ==> spec.gpus <= s.quota.value.hardGPUs)
  }

  predicate Waits(s: State, k: string, spec: JobSpec, a: int32) {
    Alone(s, k, spec, a) && s.jobs[k].IsWaiting() && s.workflows == map[] && k in s.queue
  }

  predicate Runs(s: State, k: string, spec: JobSpec, a: int32, phase: string) {
    && Alone(s, k, spec, a) && s.jobs[k].IsRunning()
    && var w := WorkflowName(k, a);
       s.workflows.Keys == {w} && s.workflows[w].phase == phase && s.workflows[w].owner == k
  }

  lemma FailStep(s: State, k: string, spec: JobSpec, a: int32)
    requires Runs(s, k, spec, a, "")
    ensures var t := Happen(s, SetPhase(WorkflowName(k, a), "Failed"));
            Runs(t, k, spec, a, "Failed") && k in t.queue
  {
    hide WorkflowName;
  }

  lemma RetryStep(s: State, k: string, spec: JobSpec, a: int32)
    requires Runs(s, k, spec, a, "Failed") && k in s.queue && a != 0 && a <= spec.backoffLimit
    ensures Waits(Work(s, k), k, spec, a)
  {
    hide WorkflowName, AdmitOrPark, ReconcileTtl, DropLabelled, RefreshQuota;
    var before := Dequeue(s, k);
    var j := s.jobs[k];
    assert CurrentWorkflow(j) == WorkflowName(k, a);
    var u := PutJob(DropWorkflow(before, WorkflowName(k, a)), BackToPending(j));
    assert Operator.EnsureWorkflow(before, j) == (u, Requeue);
    assert u.workflows == map[];
  }

  lemma GateIsOpen(s: State, k: string, spec: JobSpec, a: int32)
    requires Alone(s, k, spec, a) && s.jobs[k].IsWaiting()
    ensures var j := s.jobs[k];
            AdmitOrPark(s, j) == Operator.EnsureWorkflow(s, if s.quota.None? then j else Granted(j))
  {
    hide Operator.EnsureWorkflow, Granted, RefreshQuota, GateRefuses, Parked;
    assert s.jobs - {k} == map[];
    SumZero(RunningGpus(map[]));
    if s.quota.Some? {
      GateWithoutOverflow(0, spec.gpus, s.quota.value.hardGPUs);
    }
  }

  lemma SubmitStep(s: State, k: string, spec: JobSpec, a: int32, job: Job)
    requires Alone(s, k, spec, a) && s.jobs[k].IsWaiting() && s.workflows == map[] && 0 <= a
    requires job == s.jobs[k].(status := job.status) && job.IsWaiting() && job.status.attempts == a
    ensures Runs(Operator.EnsureWorkflow(s, job).0, k, spec, Wrap(a + 1), "")
  {
    var next := Wrap(a + 1);
    assert CurrentAttempt(job) == (next, true);
    var w := WorkflowName(k, next);
    assert CurrentWorkflow(job) == w;
    var u := PutJob(PutWorkflow(s, w, WorkflowFor(job, next, s.templateName)), Started(job, s.now));
    assert Operator.EnsureWorkflow(s, job) == (RefreshQuota(u), Done);
    hide CurrentAttempt, CurrentWorkflow, WorkflowName, RefreshQuota, Operator.EnsureWorkflow, Parameters;
    RefreshKeepsJobs(u);
    assert Runs(u, k, spec, next, "");
    hide PutJob, PutWorkflow, WorkflowFor;
  }

  lemma StartStep(s: State, k: string, spec: JobSpec, a: int32)
    requires Waits(s, k, spec, a) && 0 <= a
    ensures Runs(Work(s, k), k, spec, Wrap(a + 1), "")
  {
    var before := Dequeue(s, k);
    GateIsOpen(before, k, spec, a);
    SubmitStep(before, k, spec, a, s.jobs[k]);
    SubmitStep(before, k, spec, a, Granted(s.jobs[k]));
    var (t, result) := AdmitOrPark(before, s.jobs[k]);
    assert Runs(t, k, spec, Wrap(a + 1), "");
    hide AdmitOrPark, Operator.EnsureWorkflow, ReconcileTtl, DropLabelled, WorkflowName;
  }

  /** The gate admits it, and its next Workflow is not there. */
  lemma WaitingPasses(s: State, k: string, spec: JobSpec, a: int32)
    requires Waits(s, k, spec, a) && 0 <= a < MAX
    ensures CanRecheck(s, k) && Admits(s, s.jobs[k])
    ensures s.jobs[k].name == k && s.jobs[k].status.attempts == a && s.jobs[k].spec == spec
    ensures CurrentWorkflow(AtGate(s, s.jobs[k])) == WorkflowName(k, a + 1) && s.workflows == map[]
    ensures Used(s.jobs) == UsedBesides(s.jobs, k) == 0
  {
    WrapExact(a + 1);
    assert CurrentAttempt(AtGate(s, s.jobs[k])) == (a + 1, true);
    assert s.jobs - {k} == map[];
    SumZero(RunningGpus(map[]));
    UsedSplit(s.jobs, k);
    if s.quota.Some? {
      hide Used, UsedBesides, WorkflowName;
      GateWithoutOverflow(0, spec.gpus, s.quota.value.hardGPUs);
    }
  }

  lemma ClaimKeepsWorkflows(t: State, name: string, spec: JobSpec)
    requires name != "" && name !in t.jobs && spec.Valid()
    ensures Work(Happen(t, Create(name, spec)), name).workflows == t.workflows
  {
    hide AdmitOrPark, Operator.EnsureWorkflow, ReconcileTtl, DropLabelled;
  }

  lemma ClaimedWaits(s: State, k: string, spec: JobSpec)
    requires IsInitial(s) && k != "" && spec.Valid()
    requires s.quota.Some? ==> spec.gpus <= s.quota.value.hardGPUs
    ensures Waits(Work(Happen(s, Create(k, spec)), k), k, spec, 0)
  {
    ClaimStep(s, k, spec);
    ClaimKeepsWorkflows(s, k, spec);
    hide Work, Happen;
  }

  lemma ExecThree(s: State, past: seq<AtomicEvent>, a: AtomicEvent, b: AtomicEvent, c: AtomicEvent)
    ensures Exec(s, past + [a, b, c]) == Apply(Apply(Apply(Exec(s, past), a), b), c)
  {
    hide Exec, Apply;
    ExecSnoc(s, past, a);
    ExecSnoc(s, past + [a], b);
    ExecSnoc(s, past + [a] + [b], c);
    assert past + [a] + [b] + [c] == past + [a, b, c];
  }

  /** A submitted job that fits starts its first attempt. */
  lemma FirstAttempt(s: State, k: string, spec: JobSpec)
    requires IsInitial(s) && k != "" && spec.Valid()
    requires s.quota.Some? ==> spec.gpus <= s.quota.value.hardGPUs
    ensures Runs(Exec(s, Submission(k, spec)), k, spec, 1, "")
  {
    hide Work, Happen, Runs, Waits;
    assert Exec(s, []) == s;
    hide Exec;
    assert [] + Submission(k, spec) == Submission(k, spec);
    ClaimedWaits(s, k, spec);
    ExecThree(s, [], World(Create(k, spec)), Reconciled(k), Reconciled(k));
    StartStep(Work(Happen(s, Create(k, spec)), k), k, spec, 0);
  }

  /** The attempt fails and the next one starts. */
  function RetryRound(k: string, a: int32): seq<AtomicEvent> {
    [World(SetPhase(WorkflowName(k, a), "Failed")), Reconciled(k), Reconciled(k)]
  }

  lemma NextAttempt(s: State, past: seq<AtomicEvent>, k: string, spec: JobSpec, a: int32)
    requires 1 <= a <= spec.backoffLimit && Runs(Exec(s, past), k, spec, a, "")
    ensures Runs(Exec(s, past + RetryRound(k, a)), k, spec, Wrap(a + 1), "")
  {
    hide Exec, Work, Happen, Runs, Waits, WorkflowName;
    var fails := SetPhase(WorkflowName(k, a), "Failed");
    ExecThree(s, past, World(fails), Reconciled(k), Reconciled(k));
    FailStep(Exec(s, past), k, spec, a);
    RetryStep(Happen(Exec(s, past), fails), k, spec, a);
    StartStep(Work(Happen(Exec(s, past), fails), k), k, spec, a);
  }
}
