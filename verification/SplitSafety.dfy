/** The invariant of the interleaved system holds in every run, whatever fails and whenever. */
module SplitSafety {
  import opened Int32
  import opened Model
  import opened Naming
  import opened WorkflowBuilder
  import opened ClusterState
  import opened Operator
  import opened SplitWorker
  import opened SplitInvariant

  /** The one bound on what users may create: the attempt counter must be able to pass the limit. */
  predicate Countable(e: Event) {
    e.Create? ==> e.spec.backoffLimit < MAX
  }

  predicate AllCountable(es: seq<SplitEvent>) {
    forall i :: 0 <= i < |es| && es[i].Outside? ==> Countable(es[i].e)
  }

  predicate LimitsWithin(es: seq<SplitEvent>, limit: nat32) {
    forall i :: 0 <= i < |es| && es[i].Outside? && es[i].e.Create? ==> es[i].e.spec.backoffLimit <= limit
  }

  // ----- the store under single writes -----

  lemma JobFitsLater(s: State, t: State, k: string, j: Job)
    requires JobFits(s, k, j) && t.namespace == s.namespace && s.now <= t.now
    ensures JobFits(t, k, j)
  {
  }

  lemma StorePutJob(s: State, j: Job)
    requires StoreFits(s) && JobFits(s, j.name, j)
    requires j.name in s.jobs && s.jobs[j.name].finalizer ==> j.finalizer
    ensures StoreFits(PutJob(s, j))
  {
  }

  lemma StoreDropJob(s: State, k: string)
    requires StoreFits(s)
    requires forall w :: w in s.workflows ==> s.workflows[w].owner != k
    ensures StoreFits(DropJob(s, k))
  {
  }

  /** Time passes and Workflows come, go or change phase, but the jobs stay. */
  lemma StoreSameJobs(s: State, t: State)
    requires StoreFits(s)
    requires t.jobs == s.jobs && t.namespace == s.namespace && s.now <= t.now
    requires forall w :: w in t.workflows ==>
      || (w in s.workflows && t.workflows[w].owner == s.workflows[w].owner
          && t.workflows[w].labels == s.workflows[w].labels)
      || WorkflowFits(s, w, t.workflows[w])
    ensures StoreFits(t)
  {
  }

  lemma NewJobFits(s: State, name: string, spec: JobSpec)
    requires name != "" && spec.backoffLimit < MAX
    ensures JobFits(s, name, Job(s.namespace, name, spec, NEW_STATUS, false, false))
  {
  }

  lemma MarkedJobFits(s: State, k: string, j: Job)
    requires JobFits(s, k, j) && j.finalizer
    ensures JobFits(s, k, j.(deleting := true))
  {
    assert ModelURI(j.(deleting := true)) == ModelURI(j);
  }

  lemma DeleteKeepsStore(s: State, name: string)
    requires StoreFits(s)
    ensures StoreFits(DeleteJob(s, name))
  {
    if name in s.jobs {
      if s.jobs[name].finalizer {
        MarkedJobFits(s, name, s.jobs[name]);
        StorePutJob(s, s.jobs[name].(deleting := true));
      } else {
        StoreDropJob(s, name);
      }
    }
  }

  lemma OtherEventsKeepStore(s: State, e: Event)
    requires StoreFits(s) && !e.Create? && !e.Delete?
    ensures StoreFits(Happen(s, e))
  {
    OutsideWorkflows(s, e);
    OutsideJobs(s, e);
    hide Happen, JobFits, WorkflowFits;
    StoreSameJobs(s, Happen(s, e));
  }

  lemma HappenKeepsStore(s: State, e: Event)
    requires StoreFits(s) && Countable(e)
    ensures StoreFits(Happen(s, e))
  {
    hide StoreFits, JobFits;
    if e.Create? {
      if e.name != "" && e.name !in s.jobs && e.spec.Valid() {
        NewJobFits(s, e.name, e.spec);
        StorePutJob(s, Job(s.namespace, e.name, e.spec, NEW_STATUS, false, false));
      }
    } else if e.Delete? {
      DeleteKeepsStore(s, e.name);
    } else {
      OtherEventsKeepStore(s, e);
    }
  }

  lemma DeleteOnJob(s: State, name: string, k: string)
    requires name in s.jobs ==> s.jobs[name].name == name
    requires k in s.jobs && k in DeleteJob(s, name).jobs
    ensures DeleteJob(s, name).jobs[k] == s.jobs[k] || DeleteJob(s, name).jobs[k] == s.jobs[k].(deleting := true)
  {
  }

  /** From outside, a job can only be marked for deletion. */
  lemma HappenOnJob(s: State, e: Event, k: string)
    requires StoreFits(s) && k in s.jobs && k in Happen(s, e).jobs
    ensures Happen(s, e).jobs[k] == s.jobs[k] || Happen(s, e).jobs[k] == s.jobs[k].(deleting := true)
  {
    if e.Delete? {
      DeleteOnJob(s, e.name, k);
    } else {
      hide StoreFits;
    }
  }

  lemma NoOwnerNoWorkflows(s: State, k: string)
    requires StoreFits(s) && k !in s.jobs
    ensures WorkflowsOf(s, k) == {}
  {
    forall w | w in s.workflows
      ensures s.workflows[w].owner != k
    {
      assert WorkflowFits(s, w, s.workflows[w]);
    }
  }

  // ----- wake-ups under any change -----

  /** Whatever changed between two states, the job it belongs to is in the queue. */
  ghost predicate ChangesWake(s: State, t: State) {
    && s.queue <= t.queue
    && s.now <= t.now
    && (forall k :: k in t.jobs ==> k in t.queue || (k in s.jobs && t.jobs[k] == s.jobs[k]))
    && (forall k :: k in s.timers ==> k in t.queue || (k in t.timers && t.timers[k] == s.timers[k]))
    && (forall w :: w in s.workflows ==>
          s.workflows[w].owner in t.queue || (w in t.workflows && t.workflows[w] == s.workflows[w]))
  }

  lemma HappenWakes(s: State, e: Event)
    requires !e.Restart?
    ensures ChangesWake(s, Happen(s, e))
  {
  }

  lemma RestingCarries(s: State, t: State, k: string)
    requires ChangesWake(s, t) && k in t.jobs && t.jobs[k].name == k
    requires k in s.jobs ==> k in s.queue || Resting(s, k, s.jobs[k])
    ensures k in t.queue || Resting(t, k, t.jobs[k])
  {
  }

  lemma HappenKeepsAwake(sys: System, e: Event)
    requires StoreFits(sys.store) && AllAwake(sys) && Countable(e)
    ensures AllAwake(Step(sys, Outside(e)))
  {
    var t := Happen(sys.store, e);
    HappenKeepsStore(sys.store, e);
    if !e.Restart? {
      HappenWakes(sys.store, e);
      forall k | k in t.jobs
        ensures Awake(Step(sys, Outside(e)), k, t.jobs[k])
      {
        if !(sys.worker.Busy? && sys.worker.key == k) {
          assert k in sys.store.jobs ==> Awake(sys, k, sys.store.jobs[k]);
          RestingCarries(sys.store, t, k);
        }
      }
    }
  }

  // ----- the worker under outside events -----

  /** What the world can do to the job in hand: mark it for deletion, which wakes it, and no more. */
  ghost predicate Drifts(s: State, t: State, key: string) {
    && t.namespace == s.namespace && s.now <= t.now
    && s.queue <= t.queue
    && Labelled(t, key) <= Labelled(s, key)
    && (key in t.jobs ==> key in t.queue || (key in s.jobs && t.jobs[key] == s.jobs[key]))
    && (key in s.jobs && s.jobs[key].finalizer ==>
          && key in t.jobs
          && (t.jobs[key] == s.jobs[key] || (t.jobs[key] == s.jobs[key].(deleting := true) && key in t.queue)))
  }

  lemma DeleteDrifts(s: State, name: string, key: string)
    requires StoreFits(s)
    ensures Drifts(s, DeleteJob(s, name), key)
  {
    assert name in s.jobs ==> s.jobs[name].name == name;
    hide StoreFits;
  }

  lemma HappenDrifts(s: State, e: Event, key: string)
    requires StoreFits(s) && !e.Restart?
    ensures Drifts(s, Happen(s, e), key)
  {
    hide StoreFits;
    if e.Delete? {
      DeleteDrifts(s, e.name, key);
    }
  }

  lemma DriftKeepsHeld(s: State, t: State, key: string, read: Job)
    requires Held(s, key, read) && Drifts(s, t, key)
    ensures Held(t, key, read)
  {
  }

  lemma DriftKeepsProgress(s: State, t: State, key: string, read: Job, job: Job)
    requires InProgress(s, key, read, job) && Drifts(s, t, key)
    ensures InProgress(t, key, read, job)
  {
    DriftKeepsHeld(s, t, key, read);
    JobFitsLater(s, t, key, read);
  }

  lemma DriftKeepsCall(s: State, t: State, key: string, call: Call)
    requires CallFits(s, key, call) && Drifts(s, t, key)
    ensures CallFits(t, key, call)
  {
    match call
    case FetchJob =>
    case CleanWorkflows(read) => DriftKeepsHeld(s, t, key, read);
    case RemoveFinalizer(read) => DriftKeepsHeld(s, t, key, read);
    case AddFinalizer(read) =>
    case ExpireJob(read) => DriftKeepsHeld(s, t, key, read);
    case FetchQuota(read) => DriftKeepsProgress(s, t, key, read, read);
    case ListPeers(read, hard) => DriftKeepsProgress(s, t, key, read, read);
    case FetchWorkflow(read, job) => DriftKeepsProgress(s, t, key, read, job);
    case CreateWorkflow(read, job) => DriftKeepsProgress(s, t, key, read, job);
    case DropFailed(read, job) => DriftKeepsProgress(s, t, key, read, job);
    case WriteStatus(read, job, result, refresh) =>
      DriftKeepsProgress(s, t, key, read, read);
      JobFitsLater(s, t, key, job);
    case PublishQuota(result) =>
  }

  // ----- one call of the worker -----

  /** The worker may stop here: its own key stays awake once the result is settled. */
  predicate MayFinish(s: State, key: string, result: Result) {
    key in s.jobs ==> Awake(System(Settle(s, key, result), Idle), key, s.jobs[key])
  }

  ghost predicate NextFits(s: State, key: string, next: Next) {
    match next
    case Continue(call) => CallFits(s, key, call)
    case Finish(result) => MayFinish(s, key, result)
    case Abort => true
  }

  lemma CurrentWorkflowIsOwn(s: State, job: Job)
    requires StoreFits(s) && CurrentWorkflow(job) in s.workflows
    ensures s.workflows[CurrentWorkflow(job)].owner == job.name
  {
    var w := CurrentWorkflow(job);
    assert WorkflowFits(s, w, s.workflows[w]);
    var a: int :| w == WorkflowName(s.workflows[w].owner, a);
    WorkflowNamesInjective(job.name, CurrentAttempt(job).0, s.workflows[w].owner, a);
  }

  lemma FetchFits(s: State, key: string)
    requires StoreFits(s)
    ensures NextFits(s, key, AfterFetch(s, key))
  {
    if key in s.jobs {
      assert JobFits(s, key, s.jobs[key]) && s.jobs[key].name == key;
    }
    hide StoreFits, JobFits;
  }

  lemma GrantedJobFits(s: State, k: string, read: Job, job: Job)
    requires JobFits(s, k, read) && SameButQuota(read, job) && read.finalizer
    ensures DraftFits(s, k, job) && Onward(read, job)
    ensures CurrentWorkflow(job) == CurrentWorkflow(read)
  {
    assert ModelURI(job) == ModelURI(read);
  }

  lemma ParkedJobFits(s: State, k: string, job: Job)
    requires JobFits(s, k, job) && job.IsWaiting() && job.finalizer
    ensures JobFits(s, k, Parked(job))
  {
    assert ModelURI(Parked(job)) == ModelURI(job);
  }

  lemma StartedJobFits(s: State, k: string, job: Job)
    requires DraftFits(s, k, job) && !job.IsTerminal() && job.finalizer
    ensures JobFits(s, k, Started(job, s.now))
    ensures Onward(job, Started(job, s.now))
  {
    assert ModelURI(Started(job, s.now)) == ModelURI(job);
    WrapExact(job.status.attempts + 1);
  }

  lemma AdoptedJobFits(s: State, k: string, job: Job)
    requires DraftFits(s, k, job) && !job.IsTerminal() && job.finalizer
    ensures JobFits(s, k, Adopted(job))
  {
    assert ModelURI(Adopted(job)) == ModelURI(job);
  }

  lemma CompletedJobFits(s: State, k: string, job: Job)
    requires DraftFits(s, k, job) && !job.IsTerminal() && job.finalizer
    ensures JobFits(s, k, Completed(job, s.now))
  {
    assert ModelURI(Completed(job, s.now)) == ModelURI(job);
  }

  lemma GivenUpJobFits(s: State, k: string, job: Job)
    requires DraftFits(s, k, job) && !job.IsTerminal() && job.finalizer
    requires job.status.attempts > job.spec.backoffLimit
    ensures JobFits(s, k, GivenUp(job, s.now))
  {
    assert ModelURI(GivenUp(job, s.now)) == ModelURI(job);
  }

  lemma RetriedJobFits(s: State, k: string, job: Job)
    requires DraftFits(s, k, job) && !job.IsTerminal() && job.finalizer
    requires job.status.attempts <= job.spec.backoffLimit
    ensures JobFits(s, k, BackToPending(job))
  {
    assert ModelURI(BackToPending(job)) == ModelURI(job);
  }

  /** A status write prepared from a job in progress. */
  lemma WriteFits(s: State, key: string, read: Job, job: Job, next: Job, result: Result, refresh: bool)
    requires InProgress(s, key, read, job)
    requires JobFits(s, key, next) && next == job.(status := next.status)
    requires Onward(read, next)
    requires (result == Done && (next != read || key in s.queue)) || result == Requeue
    ensures CallFits(s, key, WriteStatus(read, next, result, refresh))
  {
  }

  lemma AdoptionFits(s: State, key: string, read: Job, job: Job)
    requires InProgress(s, key, read, job)
    requires !(job.IsRunning() && job.status.workflowName == CurrentWorkflow(job))
    ensures CallFits(s, key, WriteStatus(read, Adopted(job), Done, false))
  {
    GrantedJobFits(s, key, read, job);
    AdoptedJobFits(s, key, job);
    WriteFits(s, key, read, job, Adopted(job), Done, false);
  }

  lemma OutcomeWriteFits(s: State, key: string, read: Job, job: Job)
    requires InProgress(s, key, read, job)
    ensures CallFits(s, key, WriteStatus(read, Completed(job, s.now), Requeue, true))
    ensures job.status.attempts > job.spec.backoffLimit ==>
              CallFits(s, key, WriteStatus(read, GivenUp(job, s.now), Requeue, true))
  {
    GrantedJobFits(s, key, read, job);
    CompletedJobFits(s, key, job);
    WriteFits(s, key, read, job, Completed(job, s.now), Requeue, true);
    if job.status.attempts > job.spec.backoffLimit {
      GivenUpJobFits(s, key, job);
      WriteFits(s, key, read, job, GivenUp(job, s.now), Requeue, true);
    }
  }

  /** A Running job whose Workflow is still going needs no write and may be left to the watch. */
  lemma WatchedMayFinish(s: State, key: string, read: Job)
    requires StoreFits(s) && Held(s, key, read) && !read.deleting && read.IsRunning()
    requires CurrentWorkflow(read) in s.workflows
    requires !IsFinalPhase(s.workflows[CurrentWorkflow(read)].phase)
    ensures MayFinish(s, key, Done)
  {
    CurrentWorkflowIsOwn(s, read);
  }

  lemma WorkflowFetchFits(s: State, key: string, read: Job, job: Job)
    requires StoreFits(s) && CallFits(s, key, FetchWorkflow(read, job))
    ensures NextFits(s, key, AfterWorkflow(s, read, job))
  {
    hide JobFits, StoreFits, CurrentWorkflow, Adopted, Completed, GivenUp;
    var name := CurrentWorkflow(job);
    OutcomeWriteFits(s, key, read, job);
    if name in s.workflows && !IsFinalPhase(s.workflows[name].phase) {
      if job.IsRunning() && job.status.workflowName == name {
        WatchedMayFinish(s, key, read);
      } else {
        AdoptionFits(s, key, read, job);
      }
    }
  }

  // Each of the remaining calls, with what it leaves behind.

  lemma CleanWorkflowsKeeps(s: State, key: string, read: Job)
    requires StoreFits(s) && CallFits(s, key, CleanWorkflows(read))
    ensures read.name == key
    ensures var t := DropLabelled(s, key);
            StoreFits(t) && ChangesWake(s, t) && CallFits(t, key, RemoveFinalizer(read))
  {
    StoreSameJobs(s, DropLabelled(s, key));
  }

  lemma RemoveFinalizerKeeps(s: State, key: string, read: Job)
    requires StoreFits(s) && CallFits(s, key, RemoveFinalizer(read))
    ensures read.name == key
    ensures var t := DropJob(s, key);
            StoreFits(t) && ChangesWake(s, t) && MayFinish(t, key, Done)
  {
    forall w | w in s.workflows
      ensures s.workflows[w].owner != key
    {
      assert WorkflowFits(s, w, s.workflows[w]);
      assert w !in Labelled(s, key);
    }
    StoreDropJob(s, key);
  }

  lemma AddFinalizerKeeps(s: State, key: string, read: Job)
    requires StoreFits(s) && CallFits(s, key, AddFinalizer(read)) && IsCurrent(s, read)
    ensures read.name == key
    ensures var t := PutJob(s, read.(finalizer := true));
            StoreFits(t) && ChangesWake(s, t) && MayFinish(t, key, Done)
  {
    assert JobFits(s, key, read);
    assert ModelURI(read.(finalizer := true)) == ModelURI(read);
    StorePutJob(s, read.(finalizer := true));
  }

  lemma ExpireJobKeeps(s: State, key: string, read: Job)
    requires StoreFits(s) && CallFits(s, key, ExpireJob(read))
    ensures read.name == key
    ensures var t := DeleteJob(s, key);
            StoreFits(t) && ChangesWake(s, t) && MayFinish(t, key, Done)
  {
    DeleteKeepsStore(s, key);
    HappenWakes(s, Delete(key));
  }

  lemma FetchQuotaFits(s: State, key: string, read: Job, hard: nat32)
    requires CallFits(s, key, FetchQuota(read))
    ensures CallFits(s, key, ListPeers(read, hard)) && CallFits(s, key, FetchWorkflow(read, read))
  {
  }

  lemma ListPeersFits(s: State, key: string, read: Job, hard: nat32)
    requires CallFits(s, key, ListPeers(read, hard))
    ensures CallFits(s, key, WriteStatus(read, Parked(read), RequeueAfter(QUEUED_REQUEUE), true))
    ensures CallFits(s, key, FetchWorkflow(read, Granted(read)))
  {
    ParkedJobFits(s, key, read);
  }

  lemma CreateWorkflowKeeps(s: State, key: string, read: Job, job: Job)
    requires StoreFits(s) && CallFits(s, key, CreateWorkflow(read, job))
    requires CurrentWorkflow(job) !in s.workflows
    ensures var t := PutWorkflow(s, CurrentWorkflow(job), WorkflowFor(job, CurrentAttempt(job).0, s.templateName));
            StoreFits(t) && ChangesWake(s, t) && CallFits(t, key, WriteStatus(read, Started(job, s.now), Done, true))
  {
    var wf := WorkflowFor(job, CurrentAttempt(job).0, s.templateName);
    GrantedJobFits(s, key, read, job);
    StartedJobFits(s, key, job);
    assert NamedAfter(CurrentWorkflow(job), key);
    hide JobFits, StoreFits, CurrentWorkflow, Started, WorkflowFor, NamedAfter, CurrentAttempt;
    NewWorkflowKeeps(s, key, read, job, CurrentWorkflow(job), wf, Started(job, s.now));
  }

  lemma NewWorkflowKeeps(s: State, key: string, read: Job, job: Job, w: string, wf: Workflow, next: Job)
    requires StoreFits(s) && InProgress(s, key, read, job)
    requires w !in s.workflows && NamedAfter(w, key) && wf.owner == key && HasLabel(wf, key)
    requires JobFits(s, key, next) && next == job.(status := next.status)
    requires Onward(read, next)
    ensures var t := PutWorkflow(s, w, wf);
            StoreFits(t) && ChangesWake(s, t) && CallFits(t, key, WriteStatus(read, next, Done, true))
  {
    hide JobFits;
    var t := PutWorkflow(s, w, wf);
    assert WorkflowFits(s, w, wf);
    StoreSameJobs(s, t);
    JobFitsLater(s, t, key, read);
    JobFitsLater(s, t, key, next);
    WriteFits(t, key, read, job, next, Done, true);
  }

  lemma DropFailedKeeps(s: State, key: string, read: Job, job: Job)
    requires StoreFits(s) && CallFits(s, key, DropFailed(read, job))
    ensures var t := DropWorkflow(s, CurrentWorkflow(job));
            StoreFits(t) && ChangesWake(s, t) && CallFits(t, key, WriteStatus(read, BackToPending(job), Requeue, false))
  {
    GrantedJobFits(s, key, read, job);
    RetriedJobFits(s, key, job);
    hide JobFits, StoreFits, CurrentWorkflow, BackToPending;
    LostWorkflowKeeps(s, key, read, job, CurrentWorkflow(job), BackToPending(job));
  }

  lemma LostWorkflowKeeps(s: State, key: string, read: Job, job: Job, w: string, next: Job)
    requires StoreFits(s) && InProgress(s, key, read, job)
    requires JobFits(s, key, next) && next == job.(status := next.status)
    requires Onward(read, next)
    ensures var t := DropWorkflow(s, w);
            StoreFits(t) && ChangesWake(s, t) && CallFits(t, key, WriteStatus(read, next, Requeue, false))
  {
    hide JobFits;
    var t := DropWorkflow(s, w);
    StoreSameJobs(s, t);
    JobFitsLater(s, t, key, read);
    JobFitsLater(s, t, key, next);
    WriteFits(t, key, read, job, next, Requeue, false);
  }

  lemma WriteStatusKeeps(s: State, key: string, call: Call)
    requires StoreFits(s) && call.WriteStatus? && CallFits(s, key, call) && IsCurrent(s, call.read)
    ensures var t := PutJob(s, call.read.(status := call.job.status));
            && StoreFits(t) && ChangesWake(s, t)
            && CallFits(t, key, PublishQuota(call.result)) && MayFinish(t, key, call.result)
  {
    StorePutJob(s, call.job);
  }

  lemma PublishQuotaKeeps(s: State, key: string, result: Result)
    requires StoreFits(s) && CallFits(s, key, PublishQuota(result))
    ensures var t := RefreshQuota(s);
            StoreFits(t) && ChangesWake(s, t) && MayFinish(t, key, result) && MayFinish(s, key, result)
  {
    var t := RefreshQuota(s);
    assert t == s.(quota := t.quota);
    hide RefreshQuota, StoreFits, MayFinish, ChangesWake;
    QuotaOnlyKeeps(s, t, key, result);
  }

  lemma QuotaOnlyKeeps(s: State, t: State, key: string, result: Result)
    requires StoreFits(s) && CallFits(s, key, PublishQuota(result)) && t == s.(quota := t.quota)
    ensures StoreFits(t) && ChangesWake(s, t) && MayFinish(t, key, result) && MayFinish(s, key, result)
  {
    hide JobFits;
    StoreSameJobs(s, t);
  }

  ghost predicate CallKeeps(s: State, key: string, call: Call) {
    var (t, next) := Perform(s, key, call);
    StoreFits(t) && ChangesWake(s, t) && NextFits(t, key, next)
  }

  lemma DeletionCallKeeps(s: State, key: string, call: Call)
    requires StoreFits(s) && CallFits(s, key, call)
    requires call.CleanWorkflows? || call.RemoveFinalizer? || call.AddFinalizer? || call.ExpireJob?
    ensures CallKeeps(s, key, call)
  {
    assert ChangesWake(s, s);
    match call
    case CleanWorkflows(read) => CleanWorkflowsKeeps(s, key, read);
    case RemoveFinalizer(read) => RemoveFinalizerKeeps(s, key, read);
    case AddFinalizer(read) =>
      if IsCurrent(s, read) {
        AddFinalizerKeeps(s, key, read);
      }
    case ExpireJob(read) => ExpireJobKeeps(s, key, read);
    hide StoreFits, ChangesWake, CallFits, MayFinish, DropLabelled, PutJob, DropJob, DeleteJob;
  }

  lemma ReadingCallKeeps(s: State, key: string, call: Call)
    requires StoreFits(s) && CallFits(s, key, call)
    requires call.FetchJob? || call.FetchQuota? || call.ListPeers? || call.FetchWorkflow?
    ensures CallKeeps(s, key, call)
  {
    assert ChangesWake(s, s);
    hide StoreFits, ChangesWake, CallFits, MayFinish, AfterFetch, AfterWorkflow, GateRefuses;
    match call
    case FetchJob => FetchFits(s, key);
    case FetchQuota(read) =>
      FetchQuotaFits(s, key, read, if s.quota.Some? then s.quota.value.hardGPUs else 0);
    case ListPeers(read, hard) => ListPeersFits(s, key, read, hard);
    case FetchWorkflow(read, job) => WorkflowFetchFits(s, key, read, job);
  }

  lemma CreateCallKeeps(s: State, key: string, read: Job, job: Job)
    requires StoreFits(s) && CallFits(s, key, CreateWorkflow(read, job))
    ensures CallKeeps(s, key, CreateWorkflow(read, job))
  {
    hide StoreFits, ChangesWake, CallFits, InProgress, MayFinish, WorkflowFor, CurrentWorkflow, CurrentAttempt;
    hide Started, PutWorkflow, NextFits;
    if CurrentWorkflow(job) in s.workflows {
      ExistingKeeps(s, key);
    } else {
      CreateWorkflowKeeps(s, key, read, job);
      WriteIsNext(PutWorkflow(s, CurrentWorkflow(job), WorkflowFor(job, CurrentAttempt(job).0, s.templateName)),
                  key, WriteStatus(read, Started(job, s.now), Done, true));
    }
  }

  lemma ExistingKeeps(s: State, key: string)
    ensures ChangesWake(s, s) && NextFits(s, key, Finish(Requeue))
  {
  }

  lemma WriteIsNext(t: State, key: string, call: Call)
    requires CallFits(t, key, call)
    ensures NextFits(t, key, Continue(call))
  {
    hide CallFits;
  }

  lemma DropCallKeeps(s: State, key: string, read: Job, job: Job)
    requires StoreFits(s) && CallFits(s, key, DropFailed(read, job))
    ensures CallKeeps(s, key, DropFailed(read, job))
  {
    hide StoreFits, ChangesWake, CallFits, MayFinish, CurrentWorkflow, BackToPending, DropWorkflow;
    DropFailedKeeps(s, key, read, job);
  }

  lemma WorkflowCallKeeps(s: State, key: string, call: Call)
    requires StoreFits(s) && CallFits(s, key, call) && (call.CreateWorkflow? || call.DropFailed?)
    ensures CallKeeps(s, key, call)
  {
    hide StoreFits, CallFits, CallKeeps;
    match call
    case CreateWorkflow(read, job) => CreateCallKeeps(s, key, read, job);
    case DropFailed(read, job) => DropCallKeeps(s, key, read, job);
  }

  lemma StatusCallKeeps(s: State, key: string, call: Call)
    requires StoreFits(s) && CallFits(s, key, call) && (call.WriteStatus? || call.PublishQuota?)
    ensures CallKeeps(s, key, call)
  {
    assert ChangesWake(s, s);
    hide StoreFits, ChangesWake, CallFits, MayFinish, RefreshQuota, PutJob;
    match call
    case WriteStatus(read, job, result, refresh) =>
      if IsCurrent(s, read) {
        WriteStatusKeeps(s, key, call);
      }
    case PublishQuota(result) => PublishQuotaKeeps(s, key, result);
  }

  /** Whatever the call, the store stays fit, changes wake their jobs, and the worker can go on. */
  lemma PerformKeeps(s: State, key: string, call: Call)
    requires StoreFits(s) && CallFits(s, key, call)
    ensures CallKeeps(s, key, call)
  {
    hide StoreFits, CallFits, CallKeeps;
    if call.CleanWorkflows? || call.RemoveFinalizer? || call.AddFinalizer? || call.ExpireJob? {
      DeletionCallKeeps(s, key, call);
    } else if call.FetchJob? || call.FetchQuota? || call.ListPeers? || call.FetchWorkflow? {
      ReadingCallKeeps(s, key, call);
    } else if call.CreateWorkflow? || call.DropFailed? {
      WorkflowCallKeeps(s, key, call);
    } else {
      StatusCallKeeps(s, key, call);
    }
  }

  // ----- whole runs -----

  lemma ProceedKeeps(s: State, t: State, key: string, call: Call, next: Next)
    requires AllAwake(System(s, Busy(key, call)))
    requires StoreFits(t) && ChangesWake(s, t) && NextFits(t, key, next)
    ensures Inv(Proceed(t, key, next))
  {
    hide JobFits, WorkflowFits;
    var sys := Proceed(t, key, next);
    if next.Finish? || next.Abort? {
      StoreSameJobs(t, sys.store);
    }
    OthersStayAwake(s, t, key, call);
    forall k | k in t.jobs
      ensures Awake(sys, k, t.jobs[k])
    {
    }
  }

  lemma OthersStayAwake(s: State, t: State, key: string, call: Call)
    requires AllAwake(System(s, Busy(key, call)))
    requires StoreFits(t) && ChangesWake(s, t)
    ensures forall k :: k in t.jobs && k != key ==> k in t.queue || Resting(t, k, t.jobs[k])
  {
    forall k | k in t.jobs && k != key
      ensures k in t.queue || Resting(t, k, t.jobs[k])
    {
      assert t.jobs[k].name == k;
      assert k in s.jobs ==> Awake(System(s, Busy(key, call)), k, s.jobs[k]);
      RestingCarries(s, t, k);
    }
  }

  lemma FailureFits(s: State, key: string, call: Call)
    requires StoreFits(s) && CallFits(s, key, call)
    ensures NextFits(s, key, AfterFailure(call))
    ensures NextFits(Perform(s, key, call).0, key, AfterFailure(call))
  {
    if call.PublishQuota? {
      PublishQuotaKeeps(s, key, call.result);
    }
  }

  lemma InvokeKeeps(s: State, key: string, call: Call, outcome: Outcome)
    requires StoreFits(s) && CallFits(s, key, call) && AllAwake(System(s, Busy(key, call)))
    ensures Inv(Step(System(s, Busy(key, call)), Invoke(outcome)))
  {
    assert ChangesWake(s, s);
    hide StoreFits, CallFits, ChangesWake, Perform, AllAwake, Inv, NextFits, Proceed, AfterFailure;
    var (t, next) := Perform(s, key, call);
    PerformKeeps(s, key, call);
    FailureFits(s, key, call);
    match outcome
    case Ok => ProceedKeeps(s, t, key, call, next);
    case Refused => ProceedKeeps(s, s, key, call, AfterFailure(call));
    case ReplyLost => ProceedKeeps(s, t, key, call, AfterFailure(call));
  }

  lemma OutsideKeeps(sys: System, e: Event)
    requires Inv(sys) && Countable(e)
    ensures Inv(Step(sys, Outside(e)))
  {
    HappenKeepsStore(sys.store, e);
    HappenKeepsAwake(sys, e);
    if sys.worker.Busy? && !e.Restart? {
      hide StoreFits, CallFits, AllAwake, Happen;
      HappenDrifts(sys.store, e, sys.worker.key);
      DriftKeepsCall(sys.store, Happen(sys.store, e), sys.worker.key, sys.worker.call);
    }
  }

  lemma BeginKeeps(sys: System, key: string)
    requires Inv(sys)
    ensures Inv(Step(sys, Begin(key)))
  {
    if sys.worker.Idle? && key in sys.store.queue {
      StoreSameJobs(sys.store, Dequeue(sys.store, key));
    }
  }

  lemma StepKeeps(sys: System, e: SplitEvent)
    requires Inv(sys) && (e.Outside? ==> Countable(e.e))
    ensures Inv(Step(sys, e))
  {
    match e
    case Outside(ev) => OutsideKeeps(sys, ev);
    case Begin(key) => BeginKeeps(sys, key);
    case Invoke(outcome) =>
      if sys.worker.Busy? {
        InvokeKeeps(sys.store, sys.worker.key, sys.worker.call, outcome);
      }
  }

  /** From any state that satisfies the invariant, every run keeps it. */
  lemma {:induction false} RunKeepsInv(sys: System, es: seq<SplitEvent>)
    requires Inv(sys) && AllCountable(es)
    ensures Inv(Run(sys, es))
  {
    if es != [] {
      RunKeepsInv(sys, es[..|es| - 1]);
      StepKeeps(Run(sys, es[..|es| - 1]), es[|es| - 1]);
    }
  }

  /** Every run from an empty namespace, with any failures, losses, deletions and restarts. */
  lemma RunKeeps(s: State, es: seq<SplitEvent>)
    requires IsInitial(s) && AllCountable(es)
    ensures Inv(Run(System(s, Idle), es))
  {
    RunKeepsInv(System(s, Idle), es);
  }
}
