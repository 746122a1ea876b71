/** The quota gate across steps: quota edits, packing, and stale reads. */
module QuotaTheorems {
  import opened Int32
  import opened Model
  import opened Sums
  import opened ClusterState
  import opened Operator
  import opened SplitWorker
  import opened SplitInvariant
  import opened SplitSafety
  import opened SplitQuota
  import opened Atomic
  import opened Effects
  import opened Accounting

  lemma GateWithoutOverflow(used: nat, gpus: nat32, hard: nat32)
    requires used + gpus <= MAX
    ensures GateRefuses(used, gpus, hard) <==> used + gpus > hard
  {
    WrapExact(used);
    WrapExact(used + gpus);
  }

  // ----- one step, whatever the quota has become -----

  lemma NobodyStarts(s: State, t: State, key: string)
    requires Unchanged(s, t) || Removed(s, t, key) || Rewrote(s, t, key) || Retried(s, t, key)
    requires key in s.jobs ==> JobFits(s, key, s.jobs[key])
    ensures NoNewRunning(s.jobs, t.jobs)
  {
    hide CountedWorkflow, WorkflowsOf, UsedBesides, GateRefuses, OutcomeFits;
  }

  /** A waiting job that a reconcile would take to the gate. */
  predicate CanRecheck(s: State, k: string) {
    k in s.queue && k in s.jobs && s.jobs[k].IsWaiting() && s.jobs[k].finalizer && !s.jobs[k].deleting
  }

  /** The wrapped sum passes the gate, though the true one exceeds the quota. */
  predicate SlipsThrough(used: nat, gpus: nat32, hard: nat32) {
    0 < gpus && MAX < used + gpus && Wrap(used + gpus) <= hard
  }

  lemma GateOnAnyUsage(used: nat, gpus: nat32, hard: nat32)
    ensures !GateRefuses(used, gpus, hard) && used + gpus > hard && gpus > 0 <==> SlipsThrough(used, gpus, hard)
  {
    WrapAdd(used, gpus);
    WrapExact(used + gpus);
  }

  /**
   However the quota was edited, and whatever the usage has become: a step takes usage above both what
   it was and the quota now in force iff it admits a job whose sum with its peers wraps past the gate.
   */
  lemma QuotaEditsAreSafeIff(s: State, e: AtomicEvent, hard: nat32)
    requires Attainable(s) && Plain(e)
    requires s.quota.Some? && s.quota.value.hardGPUs == hard
    ensures Used(Apply(s, e).jobs) > Used(s.jobs) && Used(Apply(s, e).jobs) > hard <==>
            e.Reconciled? && CanRecheck(s, e.key) && SlipsThrough(Used(s.jobs), s.jobs[e.key].spec.gpus, hard)
  {
    AttainableFits(s);
    hide Attainable, Used;
    match e
    case World(ev) =>
      HappenAdmitsNobody(s, ev);
      NoNewRunningUsesNoMore(s.jobs, Happen(s, ev).jobs, "");
    case Reconciled(key) =>
      hide Inv, Exact;
      if CanRecheck(s, key) {
        WaitingUses(s, key);
        RecheckDecides(s, key);
        GateOnAnyUsage(Used(s.jobs), s.jobs[key].spec.gpus, hard);
        hide GateRefuses, SlipsThrough, Work, UsedBesides;
      } else {
        NoRecheckNoUsage(s, key);
      }
  }

  lemma WaitingUses(s: State, k: string)
    requires StoreFits(s) && k in s.jobs && s.jobs[k].IsWaiting()
    ensures s.jobs[k].name == k && UsedBesides(s.jobs, k) == Used(s.jobs)
  {
    UsedSplit(s.jobs, k);
    hide Used, UsedBesides;
  }

  /** Only a re-check adds usage. */
  lemma NoRecheckNoUsage(s: State, key: string)
    requires Inv(System(s, Idle)) && Exact(s) && !CanRecheck(s, key)
    ensures Used(Work(s, key).jobs) <= Used(s.jobs)
  {
    if key in s.queue {
      WorkEffect(s, key);
      if Launched(s, Work(s, key), key) {
        var j, j' := s.jobs[key], Work(s, key).jobs[key];
        assert j.IsRunning();
        UsedSplit(s.jobs, key);
        UsedPut(s.jobs, key, j');
        hide Inv, Exact, Work, Used, UsedBesides, CountedWorkflow, WorkflowsOf;
      } else {
        assert key in s.jobs ==> JobFits(s, key, s.jobs[key]);
        hide Inv, Exact, Work, Launched, Used, JobFits;
        NobodyStarts(s, Work(s, key), key);
        NoNewRunningUsesNoMore(s.jobs, Work(s, key).jobs, "");
      }
    }
  }

  // ----- one re-check -----

  /** One re-check either admits the job, with its GPUs, or parks it; everybody else is left alone. */
  ghost predicate Decided(s: State, t: State, k: string, admitted: bool)
    requires k in s.jobs
  {
    var j := s.jobs[k];
    && k in t.jobs && t.jobs[k].spec == j.spec
    && (if admitted then t.jobs[k].IsRunning() && Used(t.jobs) == Used(s.jobs) + j.spec.gpus
        else t.jobs[k].status.phase == Queued && Used(t.jobs) == Used(s.jobs))
    && (forall n :: n != k ==> (n in t.jobs <==> n in s.jobs) && (n in s.queue ==> n in t.queue))
    && (forall n :: n != k && n in s.jobs ==> t.jobs[n] == s.jobs[n])
    && (s.quota.Some? ==> t.quota.Some? && t.quota.value.hardGPUs == s.quota.value.hardGPUs)
  }

  lemma RecheckDecides(s: State, k: string)
    requires Inv(System(s, Idle)) && Exact(s) && CanRecheck(s, k)
    ensures Decided(s, Work(s, k), k, Admits(s, s.jobs[k]))
  {
    var j := s.jobs[k];
    assert j.name == k && ExactJob(s, k, j);
    var before := Dequeue(s, k);
    StoreSameJobs(s, before);
    assert WorkflowsOf(before, k) == WorkflowsOf(s, k);
    AdmitEffect(before, k, j);
    assert Admits(before, j) == Admits(s, j);
    WorkOfWaiting(s, k);
    hide StoreFits, Exact, ExactJob, JobFits, Used, UsedBesides, Admits, AdmitOrPark, WorkflowsOf, Work;
    hide CountedWorkflow, Finished;
    hide ParkedBy;
    GateOutcome(s, Work(s, k), k, Admits(s, j));
  }

  lemma GateOutcome(s: State, t: State, k: string, admitted: bool)
    requires k in s.jobs && s.jobs[k].IsWaiting() && k in t.jobs && t.jobs == s.jobs[k := t.jobs[k]]
    requires t.jobs[k].spec == s.jobs[k].spec
    requires if admitted then t.jobs[k].IsRunning() else t.jobs[k].status.phase == Queued
    requires s.queue - {k} <= t.queue
    requires s.quota.Some? ==> t.quota.Some? && t.quota.value.hardGPUs == s.quota.value.hardGPUs
    ensures Decided(s, t, k, admitted)
  {
    UsedSplit(s.jobs, k);
    UsedPut(s.jobs, k, t.jobs[k]);
    hide Used, UsedBesides;
  }

  /** Wake-ups, timers, the clock and the quota's limit stay; a job that goes is looked at again. */
  ghost predicate Framed(s: State, u: State) {
    && s.queue <= u.queue
    && u.timers == s.timers && u.now == s.now
    && (s.quota.Some? <==> u.quota.Some?)
    && (s.quota.Some? ==> u.quota.value.hardGPUs == s.quota.value.hardGPUs)
    && (forall k :: k in s.jobs ==> k in u.jobs || k in u.queue)
  }

  /** A waiting job's reconcile is the gate; the rest of the store is framed. */
  lemma WorkOfWaiting(s: State, k: string)
    requires CanRecheck(s, k) && s.jobs[k].name == k
    ensures var t := Work(s, k); var u := AdmitOrPark(Dequeue(s, k), s.jobs[k]).0;
            && t.jobs == u.jobs && t.workflows == u.workflows
            && s.queue - {k} <= t.queue
            && (s.quota.Some? ==> t.quota.Some? && t.quota.value.hardGPUs == s.quota.value.hardGPUs)
  {
    var (u, result) := AdmitOrPark(Dequeue(s, k), s.jobs[k]);
    AdmitFrame(Dequeue(s, k), s.jobs[k]);
    SettleKeepsObjects(u, k, result);
    hide AdmitOrPark;
  }

  lemma AdmitFrame(s: State, job: Job)
    ensures Framed(s, AdmitOrPark(s, job).0)
  {
    EnsureFrame(s, job);
    EnsureFrame(s, Granted(job));
    RefreshFrame(s, PutJob(s, Parked(job)));
    hide EnsureWorkflow, RefreshQuota, GateRefuses, UsedBesides, Framed, PutJob;
  }

  lemma RefreshFrame(s: State, u: State)
    requires Framed(s, u)
    ensures Framed(s, RefreshQuota(u))
  {
    RefreshKeepsJobs(u);
    hide RefreshQuota;
  }

  lemma EnsureFrame(s: State, job: Job)
    ensures Framed(s, EnsureWorkflow(s, job).0)
  {
    var w := CurrentWorkflow(job);
    if w !in s.workflows {
      var wf := WorkflowBuilder.WorkflowFor(job, CurrentAttempt(job).0, s.templateName);
      var u := PutJob(PutWorkflow(s, w, wf), Started(job, s.now));
      hide CurrentWorkflow, CurrentAttempt, WorkflowBuilder.WorkflowFor, Started, RefreshQuota, Propagate;
      RefreshFrame(s, u);
    } else {
      PropagateFrame(s, job, w);
      hide CurrentWorkflow, CurrentAttempt, Propagate, Framed;
    }
  }

  lemma PutFrame(s: State, job: Job)
    ensures Framed(s, PutJob(s, job))
  {
  }

  lemma RetryFrame(s: State, job: Job, w: string)
    ensures Framed(s, PutJob(DropWorkflow(s, w), job))
  {
  }

  lemma PropagateFrame(s: State, job: Job, w: string)
    requires w in s.workflows
    ensures Framed(s, Propagate(s, job, w).0)
  {
    PutFrame(s, Adopted(job));
    PutFrame(s, Completed(job, s.now));
    PutFrame(s, GivenUp(job, s.now));
    RefreshFrame(s, PutJob(s, Completed(job, s.now)));
    RefreshFrame(s, PutJob(s, GivenUp(job, s.now)));
    RetryFrame(s, BackToPending(job), w);
    assert Framed(s, s);
    hide Framed, RefreshQuota, PutJob, DropWorkflow, Completed, GivenUp, Adopted, BackToPending;
  }

  lemma DeletionFrame(s: State, k: string)
    ensures Framed(s, DropJob(DropLabelled(s, k), k))
  {
  }

  lemma TtlFrame(s: State, job: Job)
    ensures Framed(s, ReconcileTtl(s, job).0)
  {
  }

  lemma ReconcileFrame(s: State, k: string)
    ensures Framed(s, Reconcile(s, k).0)
  {
    assert Framed(s, s);
    if k in s.jobs {
      var job := s.jobs[k];
      AdmitFrame(s, job);
      EnsureFrame(s, job);
      DeletionFrame(s, k);
      PutFrame(s, job.(finalizer := true));
      TtlFrame(s, job);
    }
    hide Framed, AdmitOrPark, EnsureWorkflow, DropJob, DropLabelled, PutJob, ReconcileTtl;
  }

  /** Who may use how much. */
  predicate SameLimit(s: State, t: State) {
    && (s.quota.Some? <==> t.quota.Some?)
    && (s.quota.Some? ==> t.quota.value.hardGPUs == s.quota.value.hardGPUs)
  }

  /** A reconcile does not touch the limit. */
  lemma WorkKeepsLimit(s: State, k: string)
    ensures SameLimit(s, Work(s, k))
  {
    ReconcileFrame(Dequeue(s, k), k);
    hide Reconcile;
  }

  // ----- stale reads -----

  /** Running in the store, but not, or not with that request, in the snapshot the gate summed over. */
  function Unseen(jobs: map<string, Job>, snapshot: map<string, Job>): map<string, nat> {
    map k | k in jobs ::
      if jobs[k].IsRunning() &&
         !(k in snapshot && snapshot[k].IsRunning() && snapshot[k].spec.gpus >= jobs[k].spec.gpus)
      then jobs[k].spec.gpus else 0
  }

  lemma UnseenSplit(jobs: map<string, Job>, snapshot: map<string, Job>, k: string)
    requires k in jobs
    ensures Sum(Unseen(jobs, snapshot))
            + (if k in snapshot && snapshot[k].IsRunning() then snapshot[k].spec.gpus else 0)
         >= Sum(Unseen(jobs - {k}, snapshot - {k})) + (if jobs[k].IsRunning() then jobs[k].spec.gpus else 0)
  {
    SumPick(Unseen(jobs, snapshot), k);
    assert Unseen(jobs, snapshot) - {k} == Unseen(jobs - {k}, snapshot - {k});
  }

  lemma {:induction false} UsedBySeenAndUnseen(jobs: map<string, Job>, snapshot: map<string, Job>)
    ensures Used(jobs) <= Used(snapshot) + Sum(Unseen(jobs, snapshot))
    decreases |jobs|
  {
    if jobs == map[] {
      assert RunningGpus(jobs) == map[];
    } else {
      var k :| k in jobs;
      UsedSplit(jobs, k);
      UnseenSplit(jobs, snapshot, k);
      if k in snapshot {
        UsedSplit(snapshot, k);
      } else {
        assert snapshot - {k} == snapshot;
      }
      assert |jobs - {k}| < |jobs|;
      hide Unseen, Used, Sum;
      UsedBySeenAndUnseen(jobs - {k}, snapshot - {k});
    }
  }

  /**
   If the gate admits `job` on any snapshot of its peers, real usage afterwards exceeds the sum it saw
   by at most what the snapshot has missed, and not at all if that is only releases; and the sum it saw
   is within the quota iff it did not wrap.
   */
  lemma StaleSnapshotBound(jobs: map<string, Job>, snapshot: map<string, Job>, job: Job, hard: nat32)
    requires !GateRefuses(UsedBesides(snapshot, job.name), job.spec.gpus, hard) && job.IsRunning()
    ensures var seen := UsedBesides(snapshot, job.name) + job.spec.gpus;
            && (seen <= hard <==> seen <= MAX)
            && Used(jobs[job.name := job]) <= seen + Sum(Unseen(jobs - {job.name}, snapshot - {job.name}))
            && (OnlyReleasesMissed(jobs, snapshot, job.name) ==> Used(jobs[job.name := job]) <= seen)
  {
    hide Used, Unseen;
    AdmittedSum(UsedBesides(snapshot, job.name), job.spec.gpus, hard);
    UsedPut(jobs, job.name, job);
    UsedBySeenAndUnseen(jobs - {job.name}, snapshot - {job.name});
    hide GateRefuses;
    if OnlyReleasesMissed(jobs, snapshot, job.name) {
      NothingUnseen(jobs, snapshot, job.name);
    }
  }

  /** Whoever runs besides `name` runs in the snapshot too. */
  predicate OnlyReleasesMissed(jobs: map<string, Job>, snapshot: map<string, Job>, name: string) {
    forall k :: k in jobs && k != name && jobs[k].IsRunning() ==>
      k in snapshot && snapshot[k].IsRunning() && snapshot[k].spec == jobs[k].spec
  }

  lemma NothingUnseen(jobs: map<string, Job>, snapshot: map<string, Job>, name: string)
    requires OnlyReleasesMissed(jobs, snapshot, name)
    ensures Sum(Unseen(jobs - {name}, snapshot - {name})) == 0
  {
    SumZero(Unseen(jobs - {name}, snapshot - {name}));
  }

  lemma AdmittedSum(used: nat, gpus: nat32, hard: nat32)
    requires !GateRefuses(used, gpus, hard)
    ensures used + gpus <= hard <==> used + gpus <= MAX
  {
    WrapAdd(used, gpus);
    WrapExact(used + gpus);
  }
}
