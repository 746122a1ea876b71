/**
 Real usage in interleaved runs in which nothing cuts a reconcile short: no call fails, nobody restarts
 the operator and no user deletes a job. Everything else may still happen between any two calls.
 */
module UncutRuns {
  import opened Int32
  import opened Model
  import opened Sums
  import opened ClusterState
  import opened SplitWorker
  import opened SplitInvariant
  import opened SplitSafety
  import opened SplitQuota
  import opened Interruptions
  import opened Atomic
  import opened Effects
  import opened LiveUsage
  import opened AtomicTheorems
  import opened SplitLedger

  /** The store as it will be once the worker's pending status write is through. */
  function AsWritten(sys: System): State {
    if sys.worker.Busy? && sys.worker.call.WriteStatus?
    then sys.store.(jobs := sys.store.jobs[sys.worker.key := sys.worker.call.job])
    else sys.store
  }

  lemma AsWrittenJob(sys: System, k: string, l: Ledger)
    requires Inv(sys) && Books(sys, k, l, NO_FAULTS) && k in AsWritten(sys).jobs
    ensures ExactJob(AsWritten(sys), k, AsWritten(sys).jobs[k])
  {
    var s, u := sys.store, AsWritten(sys);
    hide StoreFits, AllAwake, JobFits, ExactJob, LedgerFits;
    SameWorkflowsSameBooks(s, u, k, u.jobs[k]);
  }

  lemma SameWorkflowsSameBooks(s: State, u: State, k: string, j: Job)
    requires u.workflows == s.workflows
    ensures ExactJob(u, k, j) <==> ExactJob(s, k, j)
  {
    assert WorkflowsOf(u, k) == WorkflowsOf(s, k);
    hide CountedWorkflow;
  }

  lemma UncutIsExact(s: State, es: seq<SplitEvent>)
    requires IsInitial(s) && AllCountable(es) && AllUncut(es)
    ensures Inv(Run(System(s, Idle), es)) && Exact(AsWritten(Run(System(s, Idle), es)))
  {
    var sys := Run(System(s, Idle), es);
    RunKeeps(s, es);
    hide Inv, Run, Books, ExactJob;
    forall k | k in AsWritten(sys).jobs
      ensures ExactJob(AsWritten(sys), k, AsWritten(sys).jobs[k])
    {
      RunBooks(s, es, k, NO_FAULTS);
      AsWrittenJob(sys, k, SplitLedgerOf(System(s, Idle), es, k));
    }
  }

  /** A pending status write is already counted against the quota. */
  lemma UncutUsage(sys: System, hard: nat32)
    requires Inv(sys) && Exact(AsWritten(sys)) && QuotaFits(sys, hard)
    requires sys.worker.Busy? && sys.worker.call.WriteStatus? ==> IsCurrent(sys.store, sys.worker.call.read)
    ensures Sum(LiveGpus(sys.store)) <= hard
  {
    if sys.worker.Busy? && sys.worker.call.WriteStatus? {
      PendingFits(sys.store, sys.worker.key, sys.worker.call, hard);
    }
    hide StoreFits, CallFits, AllAwake, LiveGpus, Used, AdmissionFits, Exact, RequestFits;
    LiveWithinUsed(AsWritten(sys));
  }

  lemma PendingFits(s: State, key: string, call: Call, hard: nat32)
    requires StoreFits(s) && CallFits(s, key, call) && call.WriteStatus? && IsCurrent(s, call.read)
    requires AdmissionFits(s, call, hard) && Used(s.jobs) <= hard
    ensures var u := s.(jobs := s.jobs[key := call.job]);
            StoreFits(u) && Used(u.jobs) <= hard && LiveGpus(u) == LiveGpus(s)
  {
    hide StoreFits, CallFits, Used, LiveGpus, AdmissionFits, JobFits;
    PendingWrite(s, key, call);
    WriteUsage(s, key, call, hard);
    hide IsCurrent;
    var t := PutJob(s, call.job);
    StorePutJob(s, call.job);
    assert t.jobs == s.jobs[key := call.job] && t.workflows == s.workflows;
    hide PutJob;
    StoreSameJobs(t, s.(jobs := t.jobs));
    SameSpecSameLive(s, key, call.job);
  }

  lemma SameSpecSameLive(s: State, key: string, j: Job)
    requires key in s.jobs && j.spec == s.jobs[key].spec
    ensures LiveGpus(s.(jobs := s.jobs[key := j])) == LiveGpus(s)
  {
  }

  lemma PendingWrite(s: State, key: string, call: Call)
    requires call.WriteStatus? && CallFits(s, key, call) && IsCurrent(s, call.read)
    ensures key in s.jobs && call.read.name == key && call.job.name == key
    ensures call.job == call.read.(status := call.job.status)
    ensures s.jobs[key] == call.read && JobFits(s, key, call.job) && call.job.finalizer
    ensures call.job.spec == call.read.spec
  {
    hide JobFits;
  }

  /** In every uncut run under a fixed quota the Workflows still going stay within it at every moment. */
  lemma UncutRunsAreSafe(s: State, es: seq<SplitEvent>, hard: nat32)
    requires IsInitial(s) && s.quota.Some? && s.quota.value.hardGPUs == hard
    requires SplitUnderQuota(es, hard) && AllUncut(es)
    ensures Sum(LiveGpus(Run(System(s, Idle), es).store)) <= hard
  {
    var sys := Run(System(s, Idle), es);
    assert AllCountable(es);
    hide Run, QuotaFits, Inv, Exact;
    UncutIsExact(s, es);
    RunningSumWithinQuota(s, es, hard);
    if sys.worker.Busy? {
      RunBooks(s, es, sys.worker.key, NO_FAULTS);
    }
    hide SplitLedgerOf, Tallied, LiveGpus;
    UncutUsage(sys, hard);
  }
}
