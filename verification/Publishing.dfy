/** The quota status: what is published, and by which reconciles. */
module Publishing {
  import opened Int32
  import opened Model
  import opened Naming
  import opened WorkflowBuilder
  import opened ClusterState
  import opened Operator
  import opened SplitWorker
  import opened SplitInvariant
  import opened SplitQuota
  import opened Accounting

  /** The GPUs of the Running jobs and the number of Queued ones, as int32s; the limit is as it was. */
  ghost predicate Publishes(before: Quota, after: Option<Quota>, jobs: map<string, Job>) {
    && after.Some?
    && after.value.hardGPUs == before.hardGPUs
    && after.value.usedGPUs == Wrap(Used(jobs))
    && after.value.queuedJobs == Wrap(|set k | k in jobs && jobs[k].status.phase == Queued|)
  }

  lemma RefreshPublishes(s: State)
    requires s.quota.Some? && "" !in s.jobs
    ensures Publishes(s.quota.value, RefreshQuota(s).quota, s.jobs)
  {
    assert s.jobs - {""} == s.jobs;
    assert QueuedJobs(s.jobs) == set k | k in s.jobs && s.jobs[k].status.phase == Queued;
  }

  /** Parked, whether it was so before or not. */
  predicate Parks(s: State, t: State, k: string) {
    && k in s.jobs && k in t.jobs && s.jobs[k].IsWaiting() && s.jobs[k].finalizer && !s.jobs[k].deleting
    && t.jobs[k].status.phase == Queued
  }

  predicate Submits(s: State, t: State) {
    !(t.workflows.Keys <= s.workflows.Keys)
  }

  predicate Finishes(s: State, t: State, k: string) {
    k in s.jobs && k in t.jobs && !s.jobs[k].IsTerminal() && t.jobs[k].IsTerminal()
  }

  lemma DraftPhases(job: Job, now: nat)
    ensures Started(job, now).status.phase == Adopted(job).status.phase == Running
    ensures Completed(job, now).status.phase == Succeeded && GivenUp(job, now).status.phase == Failed
    ensures BackToPending(job).status.phase == Pending && Parked(job).status.phase == Queued
    ensures Started(job, now).name == Adopted(job).name == Completed(job, now).name == job.name
    ensures GivenUp(job, now).name == BackToPending(job).name == Parked(job).name == job.name
    ensures Granted(job).name == job.name && Granted(job).status.phase == job.status.phase
  {
    hide CurrentWorkflow, CurrentAttempt, ModelURI;
  }

  lemma WritePublishes(s: State, job: Job)
    requires s.quota.Some? && "" !in s.jobs && job.name != ""
    ensures var t := RefreshQuota(PutJob(s, job));
            && Publishes(s.quota.value, t.quota, t.jobs)
            && t.workflows == s.workflows && job.name in t.jobs && t.jobs[job.name] == job
  {
    RefreshPublishes(PutJob(s, job));
    RefreshKeepsJobs(PutJob(s, job));
    hide RefreshQuota, Publishes;
  }

  /** From the lookup on: a submission and an outcome are published, and nothing else is. */
  lemma EnsurePublishes(s: State, read: Job, job: Job)
    requires s.quota.Some? && "" !in s.jobs && read.name in s.jobs && s.jobs[read.name] == read
    requires job.name == read.name && !read.IsTerminal()
    ensures var t := Operator.EnsureWorkflow(s, job).0;
            && read.name in t.jobs
            && (!job.IsRunning() ==> t.jobs[read.name].status.phase != Queued)
            && if Submits(s, t) || Finishes(s, t, read.name)
               then Publishes(s.quota.value, t.quota, t.jobs) else t.quota == s.quota
  {
    DraftPhases(job, s.now);
    hide CurrentWorkflow, CurrentAttempt, WorkflowFor, Started, Adopted, Completed, GivenUp, BackToPending;
    hide RefreshQuota, Publishes;
    var w := CurrentWorkflow(job);
    if w !in s.workflows {
      var created := PutWorkflow(s, w, WorkflowFor(job, CurrentAttempt(job).0, s.templateName));
      assert w in created.workflows && created.jobs == s.jobs && created.quota == s.quota;
      WritePublishes(created, Started(job, s.now));
      hide PutWorkflow;
    } else {
      WritePublishes(s, Completed(job, s.now));
      WritePublishes(s, GivenUp(job, s.now));
    }
  }

  lemma AdmitPublishes(s: State, read: Job)
    requires s.quota.Some? && "" !in s.jobs && read.name in s.jobs && s.jobs[read.name] == read && read.IsWaiting()
    ensures var t := AdmitOrPark(s, read).0;
            && read.name in t.jobs
            && if t.jobs[read.name].status.phase == Queued || Submits(s, t) || Finishes(s, t, read.name)
               then Publishes(s.quota.value, t.quota, t.jobs) else t.quota == s.quota
  {
    DraftPhases(read, s.now);
    hide Operator.EnsureWorkflow, GateRefuses, UsedBesides, RefreshQuota, Publishes, Parked, Submits, Granted;
    WritePublishes(s, Parked(read));
    EnsurePublishes(s, read, Granted(read));
  }

  lemma SameObjectsPublish(s: State, t: State, s': State, t': State, k: string)
    requires s'.jobs == s.jobs && s'.workflows == s.workflows
    requires t'.jobs == t.jobs && t'.workflows == t.workflows
    ensures Parks(s', t', k) <==> Parks(s, t, k)
    ensures Submits(s', t') <==> Submits(s, t)
    ensures Finishes(s', t', k) <==> Finishes(s, t, k)
  {
  }

  lemma SettleKeepsQuota(t: State, k: string, result: Result)
    ensures Settle(t, k, result).quota == t.quota
  {
  }

  /**
   An undisturbed reconcile that parks, submits or finishes a job publishes the usage and the queue
   length that it leaves; any other leaves the quota's status as it is.
   */
  lemma WorkPublishes(s: State, k: string)
    requires StoreFits(s) && s.quota.Some? && k in s.queue && k in s.jobs
    ensures var t := Work(s, k);
            if Parks(s, t, k) || Submits(s, t) || Finishes(s, t, k)
            then Publishes(s.quota.value, t.quota, t.jobs) else t.quota == s.quota
  {
    var before, j := Dequeue(s, k), s.jobs[k];
    var (t, result) := Reconcile(before, k);
    assert JobFits(s, k, j) && "" !in s.jobs;
    SettleKeepsObjects(t, k, result);
    SettleKeepsQuota(t, k, result);
    SameObjectsPublish(before, t, s, Settle(t, k, result), k);
    hide StoreFits, JobFits, Settle, Publishes, Parks, Submits, Finishes, AdmitOrPark, Operator.EnsureWorkflow;
    if j.deleting || !j.finalizer || j.IsTerminal() {
      ClosedPublishesNothing(before, k);
    } else if j.IsWaiting() {
      AdmitPublishes(before, j);
      OpenParks(before, t, k);
    } else {
      EnsurePublishes(before, j, j);
      OpenParks(before, t, k);
    }
  }

  lemma ClosedPublishesNothing(s: State, k: string)
    requires k in s.jobs && s.jobs[k].name == k
    requires s.jobs[k].deleting || !s.jobs[k].finalizer || s.jobs[k].IsTerminal()
    ensures var t := Reconcile(s, k).0;
            t.quota == s.quota && !Parks(s, t, k) && !Submits(s, t) && !Finishes(s, t, k)
  {
    hide AdmitOrPark, Operator.EnsureWorkflow;
  }

  lemma OpenParks(s: State, t: State, k: string)
    requires k in s.jobs && k in t.jobs && s.jobs[k].finalizer && !s.jobs[k].deleting && !s.jobs[k].IsTerminal()
    ensures Parks(s, t, k) <==> s.jobs[k].IsWaiting() && t.jobs[k].status.phase == Queued
  {
  }

  /** Publishing is best effort: whatever becomes of the call, the reconcile ends as it would have. */
  lemma PublishingNeverFails(s: State, k: string, result: Result, outcome: Outcome)
    ensures var sys := Step(System(s, Busy(k, PublishQuota(result))), Invoke(outcome));
            sys.worker.Idle? && sys.store.(quota := s.quota) == Settle(s, k, result)
  {
    RefreshKeepsJobs(s);
    hide RefreshQuota;
  }
}
