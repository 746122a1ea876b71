/** The quota under interleaving: even lost writes never take the Running sum past a fixed quota. */
module SplitQuota {
  import opened Int32
  import opened Model
  import opened Sums
  import opened WorkflowBuilder
  import opened ClusterState
  import opened Operator
  import opened SplitWorker
  import opened SplitInvariant
  import opened SplitSafety

  /**
   What the gate's comparison decides, for every sum that itself respects the quota: it admits what
   fits, and, because the addition wraps, also what overflows an `int32`.
   */
  lemma GateDecides(used: nat, gpus: nat32, hard: nat32)
    requires used <= hard
    ensures GateRefuses(used, gpus, hard) <==> hard < used + gpus <= MAX
  {
    WrapExact(used);
    WrapExact(used + gpus);
    if used + gpus > MAX {
      assert Wrap(used + gpus) == used + gpus - SPAN;
    }
  }

  /** The gate decides as unbounded arithmetic would, for all sums within the quota, iff no sum can overflow. */
  lemma GateIsExactIff(gpus: nat32, hard: nat32)
    ensures (forall used: nat :: used <= hard ==> (GateRefuses(used, gpus, hard) <==> used + gpus > hard))
            <==> hard + gpus <= MAX
  {
    forall used: nat | used <= hard
      ensures GateRefuses(used, gpus, hard) <==> hard < used + gpus <= MAX
    {
      GateDecides(used, gpus, hard);
    }
    if hard + gpus > MAX {
      assert !GateRefuses(hard, gpus, hard);
    }
  }

  /** No request can overflow next to a full quota. */
  predicate RequestFits(gpus: nat32, hard: nat32) {
    hard + gpus <= MAX
  }

  ghost predicate Room(s: State, read: Job, hard: nat32) {
    UsedBesides(s.jobs, read.name) + read.spec.gpus <= hard
  }

  /** A waiting job that has passed the gate still fits, until the worker is done with it. */
  ghost predicate AdmissionFits(s: State, call: Call, hard: nat32) {
    match call
    case ListPeers(read, h) => h == hard && RequestFits(read.spec.gpus, hard)
    case FetchQuota(read) => RequestFits(read.spec.gpus, hard)
    case FetchWorkflow(read, job) => read.IsWaiting() ==> Room(s, read, hard)
    case CreateWorkflow(read, job) => read.IsWaiting() ==> Room(s, read, hard)
    case DropFailed(read, job) => read.IsWaiting() ==> Room(s, read, hard)
    case WriteStatus(read, job, result, refresh) => read.IsWaiting() && job.IsRunning() ==> Room(s, read, hard)
    case _ => true
  }

  ghost predicate UsageFits(s: State, hard: nat32) {
    && s.quota.Some?
    && s.quota.value.hardGPUs == hard
    && (forall k :: k in s.jobs ==> RequestFits(s.jobs[k].spec.gpus, hard))
    && Used(s.jobs) <= hard
  }

  ghost predicate QuotaFits(sys: System, hard: nat32) {
    && UsageFits(sys.store, hard)
    && (sys.worker.Busy? ==> AdmissionFits(sys.store, sys.worker.call, hard))
  }

  /** Events of a namespace whose quota is `hard` and stays so. */
  predicate UnderQuota(e: SplitEvent, hard: nat32) {
    e.Outside? ==>
      && Countable(e.e)
      && !e.e.SetQuota?
      && (e.e.Create? ==> RequestFits(e.e.spec.gpus, hard))
  }

  /** The worker alone admits jobs: everything else can only shrink the set of Running jobs. */
  ghost predicate NoNewRunning(jobs: map<string, Job>, jobs': map<string, Job>) {
    forall k :: k in jobs' && jobs'[k].IsRunning() ==>
      k in jobs && jobs[k].IsRunning() && jobs'[k].spec == jobs[k].spec
  }

  lemma NoNewRunningUsesNoMore(jobs: map<string, Job>, jobs': map<string, Job>, k: string)
    requires NoNewRunning(jobs, jobs')
    ensures Used(jobs') <= Used(jobs)
    ensures UsedBesides(jobs', k) <= UsedBesides(jobs, k)
  {
    UsedMono(jobs', jobs);
    UsedMono(jobs' - {k}, jobs - {k});
  }

  lemma DeleteAdmitsNobody(s: State, name: string)
    requires name in s.jobs ==> s.jobs[name].name == name
    ensures NoNewRunning(s.jobs, DeleteJob(s, name).jobs)
  {
  }

  lemma CreateAdmitsNobody(s: State, name: string, spec: JobSpec)
    ensures NoNewRunning(s.jobs, Happen(s, Create(name, spec)).jobs)
  {
  }

  lemma HappenAdmitsNobody(s: State, e: Event)
    requires StoreFits(s)
    ensures NoNewRunning(s.jobs, Happen(s, e).jobs)
  {
    if e.Delete? {
      assert e.name in s.jobs ==> s.jobs[e.name].name == e.name;
      DeleteAdmitsNobody(s, e.name);
    } else if e.Create? {
      CreateAdmitsNobody(s, e.name, e.spec);
    } else {
      OutsideJobs(s, e);
      hide Happen, StoreFits;
    }
  }

  lemma HappenKeepsRequests(s: State, e: Event, hard: nat32)
    requires StoreFits(s) && UnderQuota(Outside(e), hard)
    requires forall k :: k in s.jobs ==> RequestFits(s.jobs[k].spec.gpus, hard)
    ensures forall k :: k in Happen(s, e).jobs ==> RequestFits(Happen(s, e).jobs[k].spec.gpus, hard)
    ensures s.quota.Some? && s.quota.value.hardGPUs == hard ==> Happen(s, e).quota == s.quota
  {
    assert e.Delete? && e.name in s.jobs ==> s.jobs[e.name].name == e.name;
    OutsideJobs(s, e);
    HappenKeepsLimit(s, e);
    if !e.Create? && !e.Delete? {
      hide Happen, StoreFits;
    } else {
      hide StoreFits;
    }
  }

  lemma HappenKeepsLimit(s: State, e: Event)
    requires !e.SetQuota?
    ensures Happen(s, e).quota == s.quota
  {
  }

  lemma AdmissionCarries(s: State, t: State, key: string, call: Call, hard: nat32)
    requires CallFits(s, key, call) && AdmissionFits(s, call, hard)
    requires UsedBesides(t.jobs, key) <= UsedBesides(s.jobs, key)
    ensures AdmissionFits(t, call, hard)
  {
    hide JobFits;
  }

  lemma OutsideKeepsQuota(sys: System, e: Event, hard: nat32)
    requires Inv(sys) && QuotaFits(sys, hard) && UnderQuota(Outside(e), hard)
    ensures QuotaFits(Step(sys, Outside(e)), hard)
  {
    hide StoreFits, CallFits, AllAwake, AdmissionFits, NoNewRunning, Happen;
    var s, t := sys.store, Happen(sys.store, e);
    HappenAdmitsNobody(s, e);
    NoNewRunningUsesNoMore(s.jobs, t.jobs, "");
    HappenKeepsRequests(s, e, hard);
    if sys.worker.Busy? {
      NoNewRunningUsesNoMore(s.jobs, t.jobs, sys.worker.key);
      AdmissionCarries(s, t, sys.worker.key, sys.worker.call, hard);
    }
  }

  // ----- one call -----

  lemma WriteUsage(s: State, key: string, call: Call, hard: nat32)
    requires StoreFits(s) && CallFits(s, key, call) && call.WriteStatus? && IsCurrent(s, call.read)
    requires AdmissionFits(s, call, hard) && Used(s.jobs) <= hard
    ensures Used(PutJob(s, call.read.(status := call.job.status)).jobs) <= hard
  {
    hide StoreFits, JobFits, Used, UsedBesides, RunningGpus;
    var read, next := call.read, call.read.(status := call.job.status);
    WriteJobs(s, key, read, next);
    hide PutJob;
    RewrittenUsage(s.jobs, key, next, hard);
  }

  lemma WriteJobs(s: State, key: string, read: Job, next: Job)
    requires key in s.jobs && s.jobs[key] == read && next.name == key
    ensures PutJob(s, next).jobs == s.jobs[key := next]
  {
  }

  lemma RewrittenUsage(jobs: map<string, Job>, key: string, next: Job, hard: nat32)
    requires key in jobs && jobs[key].spec == next.spec && Used(jobs) <= hard
    requires next.IsRunning() && !jobs[key].IsRunning() ==> UsedBesides(jobs, key) + next.spec.gpus <= hard
    ensures Used(jobs[key := next]) <= hard
  {
    UsedSplit(jobs, key);
    UsedPut(jobs, key, next);
    hide Used, UsedBesides;
  }

  /** A call that is no status write starts no job. */
  lemma OtherCallsAdmitNobody(s: State, key: string, call: Call)
    requires CallFits(s, key, call) && !call.WriteStatus?
    ensures NoNewRunning(s.jobs, Perform(s, key, call).0.jobs)
  {
    hide JobFits, AfterFetch, AfterWorkflow, WorkflowFor, RefreshQuota;
    if call.PublishQuota? {
      RefreshKeepsJobs(s);
    }
  }

  lemma RefreshKeepsJobs(s: State)
    ensures RefreshQuota(s) == s.(quota := RefreshQuota(s).quota)
    ensures RefreshQuota(s).quota.Some? <==> s.quota.Some?
    ensures s.quota.Some? ==> RefreshQuota(s).quota.value.hardGPUs == s.quota.value.hardGPUs
  {
  }

  lemma GateLeavesRoom(s: State, read: Job, hard: nat32)
    requires RequestFits(read.spec.gpus, hard) && Used(s.jobs) <= hard
    requires !GateRefuses(UsedBesides(s.jobs, read.name), read.spec.gpus, hard)
    ensures Room(s, read, hard)
  {
    UsedDrop(s.jobs, read.name);
    GateDecides(UsedBesides(s.jobs, read.name), read.spec.gpus, hard);
  }

  lemma CallKeepsAdmission(s: State, key: string, call: Call, hard: nat32)
    requires CallFits(s, key, call) && QuotaFits(System(s, Busy(key, call)), hard)
    ensures var (t, next) := Perform(s, key, call);
            next.Continue? ==> AdmissionFits(t, next.call, hard)
  {
    hide JobFits, CurrentWorkflow, WorkflowFor, GateRefuses, Used, UsedBesides, RefreshQuota;
    if call.ListPeers? && !GateRefuses(UsedBesides(s.jobs, key), call.read.spec.gpus, hard) {
      GateLeavesRoom(s, call.read, hard);
    }
  }

  lemma CallKeepsUsage(s: State, key: string, call: Call, hard: nat32)
    requires StoreFits(s) && CallFits(s, key, call) && QuotaFits(System(s, Busy(key, call)), hard)
    ensures Used(Perform(s, key, call).0.jobs) <= hard
  {
    if call.WriteStatus? && IsCurrent(s, call.read) {
      WriteUsage(s, key, call, hard);
    } else if !call.WriteStatus? {
      OtherCallsAdmitNobody(s, key, call);
      NoNewRunningUsesNoMore(s.jobs, Perform(s, key, call).0.jobs, "");
    }
  }

  lemma CallKeepsRequests(s: State, key: string, call: Call, hard: nat32)
    requires StoreFits(s) && CallFits(s, key, call) && QuotaFits(System(s, Busy(key, call)), hard)
    ensures var t := Perform(s, key, call).0;
            && (forall k :: k in t.jobs ==> RequestFits(t.jobs[k].spec.gpus, hard))
            && t.quota.Some? && t.quota.value.hardGPUs == hard
  {
    RefreshKeepsJobs(s);
    hide JobFits, AfterFetch, AfterWorkflow, WorkflowFor, RefreshQuota, GateRefuses;
  }

  lemma InvokeKeepsQuota(s: State, key: string, call: Call, outcome: Outcome, hard: nat32)
    requires StoreFits(s) && CallFits(s, key, call) && QuotaFits(System(s, Busy(key, call)), hard)
    ensures QuotaFits(Step(System(s, Busy(key, call)), Invoke(outcome)), hard)
  {
    hide StoreFits, CallFits, Perform, Proceed, AdmissionFits, AfterFailure;
    var (t, next) := Perform(s, key, call);
    CallKeepsAdmission(s, key, call, hard);
    CallKeepsUsage(s, key, call, hard);
    CallKeepsRequests(s, key, call, hard);
    FailureContinuesNothing(call);
    match outcome
    case Ok => ProceedKeepsQuota(t, key, next, hard);
    case Refused => ProceedKeepsQuota(s, key, AfterFailure(call), hard);
    case ReplyLost => ProceedKeepsQuota(t, key, AfterFailure(call), hard);
  }

  lemma FailureContinuesNothing(call: Call)
    ensures !AfterFailure(call).Continue?
  {
  }

  lemma ProceedKeepsQuota(t: State, key: string, next: Next, hard: nat32)
    requires UsageFits(t, hard)
    requires next.Continue? ==> AdmissionFits(t, next.call, hard)
    ensures QuotaFits(Proceed(t, key, next), hard)
  {
  }

  lemma StepKeepsQuota(sys: System, e: SplitEvent, hard: nat32)
    requires Inv(sys) && QuotaFits(sys, hard) && UnderQuota(e, hard)
    ensures QuotaFits(Step(sys, e), hard)
  {
    match e
    case Outside(ev) => OutsideKeepsQuota(sys, ev, hard);
    case Begin(key) =>
    case Invoke(outcome) =>
      if sys.worker.Busy? {
        InvokeKeepsQuota(sys.store, sys.worker.key, sys.worker.call, outcome, hard);
      }
  }

  /**
   In every run under a fixed quota, with calls refused, replies lost, jobs deleted and the operator
   restarted at any point, the Running jobs never hold more than the quota.
   */
  lemma {:induction false} RunningSumWithinQuota(s: State, es: seq<SplitEvent>, hard: nat32)
    requires IsInitial(s) && s.quota.Some? && s.quota.value.hardGPUs == hard
    requires forall i :: 0 <= i < |es| ==> UnderQuota(es[i], hard)
    ensures QuotaFits(Run(System(s, Idle), es), hard)
    ensures Used(Run(System(s, Idle), es).store.jobs) <= hard
  {
    if es == [] {
      SumZero(RunningGpus(s.jobs));
    } else {
      var rest := es[..|es| - 1];
      assert forall i :: 0 <= i < |es| && es[i].Outside? ==> UnderQuota(es[i], hard) && Countable(es[i].e);
      RunKeeps(s, rest);
      RunningSumWithinQuota(s, rest, hard);
      StepKeepsQuota(Run(System(s, Idle), rest), es[|es| - 1], hard);
    }
  }
}
