/**
 What one atomic reconcile can do, and the exact bookkeeping it keeps: with no lost writes a job has
 at most one Workflow, the one of its current attempt.
 */
module Effects {
  import opened Int32
  import opened Model
  import opened Naming
  import opened WorkflowBuilder
  import opened ClusterState
  import opened Operator
  import opened SplitInvariant
  import opened SplitSafety
  import opened SplitQuota

  /** The name of the Workflow of the last counted attempt. */
  function CountedWorkflow(j: Job): string {
    WorkflowName(j.name, j.status.attempts)
  }

  predicate ExactJob(s: State, k: string, j: Job) {
    && WorkflowsOf(s, k) <= {CountedWorkflow(j)}
    && (j.IsWaiting() ==> WorkflowsOf(s, k) == {})
    && (!j.IsWaiting() ==> 1 <= j.status.attempts)
    && (j.IsRunning() ==> j.status.workflowName == CountedWorkflow(j))
    && (j.IsTerminal() ==> forall w :: w in WorkflowsOf(s, k) ==> IsFinalPhase(s.workflows[w].phase))
  }

  ghost predicate Exact(s: State) {
    forall k :: k in s.jobs ==> ExactJob(s, k, s.jobs[k])
  }

  // ----- the possible effects -----

  ghost predicate Unchanged(s: State, t: State) {
    t.jobs == s.jobs && t.workflows == s.workflows
  }

  /** A marked job is let go, together with its Workflows. */
  ghost predicate Removed(s: State, t: State, key: string) {
    && key in s.jobs && s.jobs[key].deleting
    && t.jobs == s.jobs - {key}
    && t.workflows == s.workflows - WorkflowsOf(s, key)
  }

  /** Only the job object changes: claimed, marked, parked or finished. */
  ghost predicate Rewrote(s: State, t: State, key: string) {
    && key in s.jobs && key in t.jobs
    && t.jobs == s.jobs[key := t.jobs[key]]
    && t.workflows == s.workflows
    && var j, j' := s.jobs[key], t.jobs[key];
       && j'.name == key && j'.spec == j.spec && j'.status.attempts == j.status.attempts
       && (Claimed(j, j') || Marked(s, j, j') || ParkedBy(s, j, j') || Finished(s, j, j'))
  }

  predicate Claimed(j: Job, j': Job) {
    !j.finalizer && j' == j.(finalizer := true)
  }

  predicate Marked(s: State, j: Job, j': Job) {
    j.IsTerminal() && HasTtl(j) && Expiry(j) <= s.now && j' == j.(deleting := true)
  }

  ghost predicate ParkedBy(s: State, j: Job, j': Job) {
    && j.finalizer && !j.deleting && j.IsWaiting() && j' == Parked(j)
    && s.quota.Some? && GateRefuses(UsedBesides(s.jobs, j.name), j.spec.gpus, s.quota.value.hardGPUs)
  }

  predicate Finished(s: State, j: Job, j': Job) {
    && j.finalizer && !j.deleting && j.IsRunning()
    && CountedWorkflow(j) in s.workflows
    && var phase := s.workflows[CountedWorkflow(j)].phase;
       && IsFinalPhase(phase)
       && (if phase == "Succeeded" then j' == Completed(j, s.now)
           else j.status.attempts > j.spec.backoffLimit && j' == GivenUp(j, s.now))
  }

  /** A Workflow is submitted: for a new attempt of an admitted job, or again for a lost one. */
  ghost predicate Launched(s: State, t: State, key: string) {
    && key in s.jobs && key in t.jobs
    && t.jobs == s.jobs[key := t.jobs[key]]
    && var j, j' := s.jobs[key], t.jobs[key]; var w := CountedWorkflow(j');
       && j.finalizer && !j.deleting
       && j'.name == key && j'.spec == j.spec && j'.finalizer && !j'.deleting
       && j'.status.phase == Running && j'.status.workflowName == w
       && WorkflowsOf(s, key) == {}
       && w !in s.workflows && w in t.workflows
       && t.workflows == s.workflows[w := t.workflows[w]]
       && t.workflows[w].owner == key && t.workflows[w].phase == ""
       && (if j.IsWaiting() then j'.status.attempts == j.status.attempts + 1 && Admits(s, j)
           else j.IsRunning() && j'.status.attempts == j.status.attempts)
  }

  ghost predicate Admits(s: State, j: Job) {
    s.quota.Some? ==> !GateRefuses(UsedBesides(s.jobs, j.name), j.spec.gpus, s.quota.value.hardGPUs)
  }

  /** A failed Workflow is removed and the job waits for another attempt. */
  ghost predicate Retried(s: State, t: State, key: string) {
    && key in s.jobs && key in t.jobs
    && t.jobs == s.jobs[key := BackToPending(s.jobs[key])]
    && var j := s.jobs[key]; var w := CountedWorkflow(j);
       && j.name == key && j.finalizer && !j.deleting && j.IsRunning() && j.status.attempts <= j.spec.backoffLimit
       && w in s.workflows && IsFinalPhase(s.workflows[w].phase) && s.workflows[w].phase != "Succeeded"
       && t.workflows == s.workflows - {w}
  }

  ghost predicate Effect(s: State, t: State, key: string) {
    || Unchanged(s, t)
    || Removed(s, t, key)
    || Rewrote(s, t, key)
    || Launched(s, t, key)
    || Retried(s, t, key)
  }

  lemma OwnIsLabelled(s: State, k: string)
    requires StoreFits(s)
    ensures Labelled(s, k) == WorkflowsOf(s, k)
  {
    forall w | w in s.workflows
      ensures HasLabel(s.workflows[w], k) <==> s.workflows[w].owner == k
    {
      assert WorkflowFits(s, w, s.workflows[w]);
    }
  }

  lemma OwnNames(s: State, j: Job)
    requires StoreFits(s) && CurrentWorkflow(j) in s.workflows
    ensures CurrentWorkflow(j) in WorkflowsOf(s, j.name)
  {
    CurrentWorkflowIsOwn(s, j);
  }

  lemma RemovalEffect(s: State, key: string)
    requires StoreFits(s) && key in s.jobs && s.jobs[key].deleting
    ensures Removed(s, DropJob(DropLabelled(s, key), key), key)
  {
    OwnIsLabelled(s, key);
  }

  lemma TtlEffect(s: State, job: Job)
    requires StoreFits(s) && job.name in s.jobs && s.jobs[job.name] == job
    requires job.finalizer && !job.deleting && job.IsTerminal()
    ensures Effect(s, ReconcileTtl(s, job).0, job.name)
  {
    hide JobFits;
    assert HasTtl(job) && Expiry(job) <= s.now ==> Marked(s, job, job.(deleting := true));
  }

  /** Submitting a Workflow touches one job and adds one object. */
  lemma EnsureSubmits(s: State, job: Job)
    requires CurrentWorkflow(job) !in s.workflows && job.name != ""
    ensures var t := EnsureWorkflow(s, job).0; var w := CurrentWorkflow(job);
            && t.jobs == s.jobs[job.name := Started(job, s.now)]
            && t.workflows == s.workflows[w := WorkflowFor(job, CurrentAttempt(job).0, s.templateName)]
  {
    var w := CurrentWorkflow(job);
    var t := PutJob(PutWorkflow(s, w, WorkflowFor(job, CurrentAttempt(job).0, s.templateName)), Started(job, s.now));
    hide CurrentWorkflow, WorkflowFor, CurrentAttempt, RefreshQuota;
    RefreshKeepsJobs(t);
    assert t.jobs == s.jobs[job.name := Started(job, s.now)];
  }

  lemma StartedShape(read: Job, job: Job, now: nat)
    requires 0 <= read.status.attempts <= read.spec.backoffLimit + 1 && read.spec.backoffLimit < MAX
    requires read.IsWaiting() ==> read.status.attempts <= read.spec.backoffLimit
    requires read.IsRunning() ==> 1 <= read.status.attempts
    requires !read.IsTerminal() && SameButQuota(read, job)
    ensures var j' := Started(job, now);
            && j'.name == read.name && j'.spec == read.spec
            && j'.finalizer == read.finalizer && j'.deleting == read.deleting
            && j'.status.phase == Running
            && j'.status.workflowName == CurrentWorkflow(job) == CountedWorkflow(j')
            && j'.status.attempts == read.status.attempts + if read.IsWaiting() then 1 else 0
  {
    CurrentIsNext(job);
  }

  /** Submitting the Workflow for `job`, the in-memory copy of `read`. */
  lemma LaunchEffect(s: State, key: string, read: Job, job: Job)
    requires StoreFits(s) && ExactJob(s, key, read) && key in s.jobs && s.jobs[key] == read
    requires read.finalizer && !read.deleting && !read.IsTerminal() && SameButQuota(read, job)
    requires read.IsWaiting() ==> Admits(s, read)
    requires CurrentWorkflow(job) !in s.workflows
    ensures Launched(s, EnsureWorkflow(s, job).0, key)
  {
    assert JobFits(s, key, read);
    var w := CurrentWorkflow(job);
    hide StoreFits, OutcomeFits, RecordFits;
    StartedShape(read, job, s.now);
    NoWorkflowLeft(s, key, read, job);
    hide JobFits, ExactJob, CurrentWorkflow, Started;
    EnsureSubmits(s, job);
    assert WorkflowFor(job, CurrentAttempt(job).0, s.templateName).owner == key;
    assert WorkflowFor(job, CurrentAttempt(job).0, s.templateName).phase == "";
    hide EnsureWorkflow, CurrentAttempt, WorkflowFor, WorkflowName, Admits, WorkflowsOf;
  }

  /** A job that is about to submit has no Workflow. */
  lemma NoWorkflowLeft(s: State, key: string, read: Job, job: Job)
    requires ExactJob(s, key, read) && AttemptsFit(read) && read.spec.backoffLimit < MAX && !read.IsTerminal()
    requires SameButQuota(read, job) && CurrentWorkflow(job) !in s.workflows
    ensures WorkflowsOf(s, key) == {}
  {
    if read.IsRunning() {
      CurrentIsNext(job);
    }
    hide WorkflowName;
  }

  /** Without wrap-around the current attempt is the next one, or the one under way. */
  lemma CurrentIsNext(job: Job)
    requires 0 <= job.status.attempts <= job.spec.backoffLimit + 1 && job.spec.backoffLimit < MAX
    requires job.IsWaiting() ==> job.status.attempts <= job.spec.backoffLimit
    requires job.IsRunning() ==> 1 <= job.status.attempts
    ensures job.IsWaiting() ==> CurrentAttempt(job) == (job.status.attempts + 1, true)
    ensures job.IsRunning() ==> CurrentAttempt(job) == (job.status.attempts, false)
  {
    WrapExact(job.status.attempts + 1);
  }

  lemma FinishEffect(s: State, key: string, job: Job, job': Job)
    requires key in s.jobs && s.jobs[key] == job && job.name == key
    requires Finished(s, job, job') && job'.name == key && job'.spec == job.spec
    requires job'.status.attempts == job.status.attempts
    ensures var t := RefreshQuota(PutJob(s, job')).jobs; key in t && t[key] == job'
    ensures Rewrote(s, RefreshQuota(PutJob(s, job')), key)
  {
    hide Finished, RefreshQuota;
    RefreshKeepsJobs(PutJob(s, job'));
    assert PutJob(s, job').jobs == s.jobs[key := job'];
  }

  lemma RetryEffect(s: State, key: string, job: Job)
    requires key in s.jobs && s.jobs[key] == job && job.name == key
    requires job.finalizer && !job.deleting && job.IsRunning() && job.status.attempts <= job.spec.backoffLimit
    requires var w := CountedWorkflow(job);
             w in s.workflows && IsFinalPhase(s.workflows[w].phase) && s.workflows[w].phase != "Succeeded"
    ensures Retried(s, PutJob(DropWorkflow(s, CountedWorkflow(job)), BackToPending(job)), key)
  {
    hide CountedWorkflow;
  }

  /** A Running job with its Workflow in place. */
  lemma RunningEffect(s: State, key: string, job: Job)
    requires StoreFits(s) && key in s.jobs && s.jobs[key] == job && ExactJob(s, key, job)
    requires job.finalizer && !job.deleting && job.IsRunning()
    requires CountedWorkflow(job) in s.workflows && CurrentWorkflow(job) == CountedWorkflow(job)
    ensures var t := EnsureWorkflow(s, job).0;
            if IsFinalPhase(s.workflows[CountedWorkflow(job)].phase)
            then Retried(s, t, key) || (Rewrote(s, t, key) && Finished(s, job, t.jobs[key]))
            else Unchanged(s, t)
  {
    var name := CountedWorkflow(job);
    var phase := s.workflows[name].phase;
    assert job.name == key && job.status.workflowName == name;
    hide StoreFits, ExactJob, CountedWorkflow, CurrentWorkflow, RefreshQuota, PutJob, DropWorkflow, Retried, Rewrote;
    assert EnsureWorkflow(s, job) == Propagate(s, job, name);
    hide EnsureWorkflow;
    if IsFinalPhase(phase) {
      if phase == "Succeeded" {
        FinishEffect(s, key, job, Completed(job, s.now));
      } else if job.status.attempts > job.spec.backoffLimit {
        FinishEffect(s, key, job, GivenUp(job, s.now));
      } else {
        RetryEffect(s, key, job);
      }
      hide Completed, GivenUp, BackToPending, Finished;
    }
  }

  lemma ParkEffect(s: State, key: string, job: Job)
    requires StoreFits(s) && key in s.jobs && s.jobs[key] == job
    requires job.finalizer && !job.deleting && job.IsWaiting()
    requires s.quota.Some? && GateRefuses(UsedBesides(s.jobs, job.name), job.spec.gpus, s.quota.value.hardGPUs)
    ensures var t := RefreshQuota(PutJob(s, Parked(job)));
            Rewrote(s, t, key) && t.jobs[key] == Parked(job)
  {
    assert job.name == key;
    RefreshKeepsJobs(PutJob(s, Parked(job)));
    hide StoreFits, RefreshQuota, GateRefuses, UsedBesides;
    var t := PutJob(s, Parked(job));
    assert t.jobs == s.jobs[key := Parked(job)];
  }

  lemma GrantedKeepsName(job: Job)
    ensures CurrentWorkflow(Granted(job)) == CurrentWorkflow(job)
    ensures job.IsWaiting() ==> SameButQuota(job, Granted(job))
  {
  }

  /** The gate decides: parked, or submitted. */
  lemma AdmitEffect(s: State, key: string, job: Job)
    requires StoreFits(s) && key in s.jobs && s.jobs[key] == job && ExactJob(s, key, job)
    requires job.finalizer && !job.deleting && job.IsWaiting()
    ensures var t := AdmitOrPark(s, job).0;
            if Admits(s, job) then Launched(s, t, key) else Rewrote(s, t, key) && t.jobs[key] == Parked(job)
  {
    assert job.name == key;
    if CurrentWorkflow(job) in s.workflows {
      OwnNames(s, job);
    }
    GrantedKeepsName(job);
    hide StoreFits, ExactJob, EnsureWorkflow, CurrentWorkflow, RefreshQuota, GateRefuses, UsedBesides, Rewrote;
    hide Launched, Granted, Parked;
    if Admits(s, job) {
      LaunchEffect(s, key, job, job);
      LaunchEffect(s, key, job, Granted(job));
    } else {
      ParkEffect(s, key, job);
    }
  }

  /** Every atomic reconcile does one of five things. */
  lemma ReconcileEffect(s: State, key: string)
    requires StoreFits(s) && Exact(s)
    ensures Effect(s, Reconcile(s, key).0, key)
  {
    if key in s.jobs {
      var job := s.jobs[key];
      assert job.name == key && ExactJob(s, key, job) && JobFits(s, key, job);
      hide StoreFits, Exact, ExactJob, EnsureWorkflow, AdmitOrPark, ReconcileTtl, CurrentWorkflow, DropLabelled;
      hide Rewrote, Launched, Removed, Retried;
      if job.deleting {
        RemovalEffect(s, key);
      } else if !job.finalizer {
        ClaimEffect(s, key);
      } else if job.IsTerminal() {
        TtlEffect(s, job);
      } else if job.IsWaiting() {
        AdmitEffect(s, key, job);
      } else {
        CurrentIsNext(job);
        hide JobFits, CountedWorkflow;
        if CountedWorkflow(job) in s.workflows {
          RunningEffect(s, key, job);
        } else {
          LaunchEffect(s, key, job, job);
        }
      }
    }
  }

  lemma ClaimEffect(s: State, key: string)
    requires key in s.jobs && s.jobs[key].name == key && !s.jobs[key].finalizer
    ensures Rewrote(s, PutJob(s, s.jobs[key].(finalizer := true)), key)
  {
    assert Claimed(s.jobs[key], s.jobs[key].(finalizer := true));
  }
}
