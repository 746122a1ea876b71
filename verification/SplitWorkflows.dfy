/** Which Workflows a job can have, whatever is lost: those of its counted attempt and of the next one. */
module SplitWorkflows {
  import opened Int32
  import opened Model
  import opened Naming
  import opened WorkflowBuilder
  import opened ClusterState
  import opened Operator
  import opened SplitWorker
  import opened SplitInvariant
  import opened SplitSafety
  import opened SplitQuota
  import opened SplitTheorems

  /**
   While a job waits, or runs without a counted attempt, only the next attempt's Workflow; else that
   of the counted attempt, and beside it that of the next one if the limit allows one.
   */
  function NearbyWorkflows(j: Job): set<string> {
    var a := j.status.attempts;
    if j.IsWaiting() || a <= 0 then {WorkflowName(j.name, a + 1)}
    else if a <= j.spec.backoffLimit then {WorkflowName(j.name, a), WorkflowName(j.name, a + 1)}
    else {WorkflowName(j.name, a)}
  }

  ghost predicate Nearby(s: State) {
    forall k :: k in s.jobs ==> WorkflowsOf(s, k) <= NearbyWorkflows(s.jobs[k])
  }

  /** A status about to be written accounts for the Workflows that are there. */
  ghost predicate CallNearby(s: State, key: string, call: Call) {
    call.WriteStatus? ==> WorkflowsOf(s, key) <= NearbyWorkflows(call.job)
  }

  ghost predicate NearbyInv(sys: System) {
    && Inv(sys) && Nearby(sys.store)
    && (sys.worker.Busy? ==> CallNearby(sys.store, sys.worker.key, sys.worker.call))
  }

  // ----- outside events -----

  lemma HappenOnNearby(s: State, e: Event, k: string)
    requires StoreFits(s) && Nearby(s) && k in Happen(s, e).jobs
    ensures WorkflowsOf(Happen(s, e), k) <= NearbyWorkflows(Happen(s, e).jobs[k])
  {
    hide Happen, StoreFits, WorkflowName, WorkflowsOf;
    OutsideWorkflowsOf(s, e, k);
    if k in s.jobs {
      HappenOnJob(s, e, k);
    } else {
      hide Nearby, NearbyWorkflows;
      NoOwnerNoWorkflows(s, k);
    }
  }

  lemma OutsideKeepsNearby(sys: System, e: Event)
    requires NearbyInv(sys) && Countable(e)
    ensures NearbyInv(Step(sys, Outside(e)))
  {
    hide StoreFits, AllAwake, CallFits, Happen, WorkflowsOf, NearbyWorkflows, Countable;
    OutsideKeeps(sys, e);
    var s, t := sys.store, Happen(sys.store, e);
    forall k | k in t.jobs
      ensures WorkflowsOf(t, k) <= NearbyWorkflows(t.jobs[k])
    {
      HappenOnNearby(s, e, k);
    }
    if sys.worker.Busy? {
      OutsideWorkflowsOf(s, e, sys.worker.key);
    }
  }

  // ----- the jobs a worker prepares -----

  lemma DraftsNearby(read: Job, job: Job, now: nat)
    requires AttemptsFit(read) && !read.IsTerminal() && SameButQuota(read, job)
    ensures NearbyWorkflows(read) <= NearbyWorkflows(Adopted(job))
    ensures NearbyWorkflows(read) <= NearbyWorkflows(Completed(job, now))
    ensures job.status.attempts > job.spec.backoffLimit ==> NearbyWorkflows(read) <= NearbyWorkflows(GivenUp(job, now))
    ensures read.IsWaiting() ==> NearbyWorkflows(read) <= NearbyWorkflows(Parked(read))
  {
    hide WorkflowName, CurrentWorkflow, ModelURI;
  }

  /** The Workflow a reconcile looks for, and what starting or dropping it leaves. */
  lemma CurrentNearby(read: Job, job: Job, now: nat)
    requires AttemptsFit(read) && !read.IsTerminal() && SameButQuota(read, job) && read.spec.backoffLimit < MAX
    ensures CurrentWorkflow(job) in NearbyWorkflows(read)
    ensures NearbyWorkflows(read) + {CurrentWorkflow(job)} <= NearbyWorkflows(Started(job, now))
    ensures job.status.attempts <= job.spec.backoffLimit ==>
              NearbyWorkflows(read) - {CurrentWorkflow(job)} <= NearbyWorkflows(BackToPending(job))
  {
    WrapExact(job.status.attempts + 1);
    hide WorkflowName;
  }

  // ----- one call -----

  /** Only the job in hand can get or lose a Workflow. */
  lemma CallOnOthers(s: State, key: string, call: Call, k: string)
    requires CallFits(s, key, call) && k != key
    ensures WorkflowsOf(Perform(s, key, call).0, k) <= WorkflowsOf(s, k)
  {
    hide JobFits, AfterFetch, AfterWorkflow, GateRefuses, UsedBesides, RefreshQuota, CurrentWorkflow, Parameters;
    RefreshKeepsWorkflows(s);
  }

  lemma RefreshKeepsWorkflows(s: State)
    ensures RefreshQuota(s).workflows == s.workflows && RefreshQuota(s).jobs == s.jobs
  {
  }

  /** What one call leaves of the job in hand and its Workflows. */
  ghost predicate OwnNearby(s: State, key: string, call: Call) {
    var (t, next) := Perform(s, key, call);
    && (key in t.jobs ==> WorkflowsOf(t, key) <= NearbyWorkflows(t.jobs[key]))
    && (next.Continue? ==> CallNearby(t, key, next.call))
  }

  lemma HeldNearby(s: State, key: string, read: Job)
    requires Held(s, key, read) && Nearby(s)
    ensures WorkflowsOf(s, key) <= NearbyWorkflows(read)
    ensures NearbyWorkflows(s.jobs[key]) == NearbyWorkflows(read)
  {
    hide WorkflowName, WorkflowsOf;
  }

  lemma LookupNearby(s: State, key: string, read: Job, job: Job)
    requires Nearby(s) && CallFits(s, key, FetchWorkflow(read, job))
    ensures OwnNearby(s, key, FetchWorkflow(read, job))
  {
    hide CurrentWorkflow, Adopted, Completed, GivenUp, WorkflowsOf, NearbyWorkflows, Held, OutcomeFits, RecordFits;
    HeldNearby(s, key, read);
    DraftsNearby(read, job, s.now);
    hide JobFits, Nearby;
  }

  lemma PutOwn(s: State, w: string, wf: Workflow, k: string)
    ensures WorkflowsOf(PutWorkflow(s, w, wf), k) <= WorkflowsOf(s, k) + {w}
  {
  }

  lemma DropOwn(s: State, w: string, k: string)
    ensures WorkflowsOf(DropWorkflow(s, w), k) == WorkflowsOf(s, k) - {w}
  {
  }

  lemma CreateNearby(s: State, key: string, read: Job, job: Job)
    requires Nearby(s) && CallFits(s, key, CreateWorkflow(read, job))
    ensures OwnNearby(s, key, CreateWorkflow(read, job))
  {
    hide CurrentWorkflow, CurrentAttempt, WorkflowFor, Started, WorkflowsOf, NearbyWorkflows, Held, OutcomeFits;
    hide RecordFits;
    HeldNearby(s, key, read);
    CurrentNearby(read, job, s.now);
    hide JobFits, Nearby;
    PutOwn(s, CurrentWorkflow(job), WorkflowFor(job, CurrentAttempt(job).0, s.templateName), key);
  }

  lemma DropNearby(s: State, key: string, read: Job, job: Job)
    requires Nearby(s) && CallFits(s, key, DropFailed(read, job))
    ensures OwnNearby(s, key, DropFailed(read, job))
  {
    hide CurrentWorkflow, BackToPending, WorkflowsOf, NearbyWorkflows, Held, OutcomeFits, RecordFits;
    HeldNearby(s, key, read);
    CurrentNearby(read, job, s.now);
    hide JobFits, Nearby;
    DropOwn(s, CurrentWorkflow(job), key);
  }

  lemma WriteNearby(s: State, key: string, call: Call)
    requires Nearby(s) && call.WriteStatus? && CallFits(s, key, call) && CallNearby(s, key, call)
    ensures OwnNearby(s, key, call)
  {
    hide WorkflowName;
  }

  lemma GateNearby(s: State, key: string, read: Job, hard: nat32)
    requires Nearby(s) && CallFits(s, key, ListPeers(read, hard))
    ensures OwnNearby(s, key, ListPeers(read, hard))
  {
    HeldNearby(s, key, read);
    DraftsNearby(read, read, s.now);
    hide JobFits, Parked, Granted, WorkflowsOf, NearbyWorkflows, Held, GateRefuses, UsedBesides;
  }

  lemma PlainCallNearby(s: State, key: string, call: Call)
    requires Nearby(s) && CallFits(s, key, call)
    requires !call.FetchWorkflow? && !call.CreateWorkflow? && !call.DropFailed? && !call.WriteStatus?
    requires !call.ListPeers?
    ensures OwnNearby(s, key, call)
  {
    RefreshKeepsWorkflows(s);
    hide JobFits, RefreshQuota, WorkflowName;
  }

  lemma CallKeepsOwn(s: State, key: string, call: Call)
    requires StoreFits(s) && Nearby(s) && CallFits(s, key, call) && CallNearby(s, key, call)
    ensures OwnNearby(s, key, call)
  {
    hide StoreFits, Nearby, CallFits, CallNearby, OwnNearby;
    match call
    case FetchWorkflow(read, job) => LookupNearby(s, key, read, job);
    case CreateWorkflow(read, job) => CreateNearby(s, key, read, job);
    case DropFailed(read, job) => DropNearby(s, key, read, job);
    case ListPeers(read, hard) => GateNearby(s, key, read, hard);
    case WriteStatus(_, _, _, _) => WriteNearby(s, key, call);
    case _ => PlainCallNearby(s, key, call);
  }

  lemma CallKeepsNearby(s: State, key: string, call: Call)
    requires StoreFits(s) && Nearby(s) && CallFits(s, key, call) && CallNearby(s, key, call)
    ensures Nearby(Perform(s, key, call).0)
  {
    var t := Perform(s, key, call).0;
    CallKeepsOwn(s, key, call);
    forall k | k in t.jobs
      ensures WorkflowsOf(t, k) <= NearbyWorkflows(t.jobs[k])
    {
      if k != key {
        CallOnOthers(s, key, call, k);
        CallLeavesOthers(s, key, call, k);
      }
      hide StoreFits, CallFits, Perform, WorkflowsOf, NearbyWorkflows, CallNearby;
    }
    hide StoreFits, CallFits, Perform, WorkflowsOf, NearbyWorkflows, CallNearby, OwnNearby;
  }

  lemma ProceedNearby(t: State, key: string, next: Next)
    requires Nearby(t) && (next.Continue? ==> CallNearby(t, key, next.call))
    ensures var u := Proceed(t, key, next);
            Nearby(u.store) && (u.worker.Busy? ==> CallNearby(u.store, u.worker.key, u.worker.call))
  {
    hide NearbyWorkflows;
    var u := Proceed(t, key, next);
    assert u.store.jobs == t.jobs && u.store.workflows == t.workflows;
    assert forall k :: WorkflowsOf(u.store, k) == WorkflowsOf(t, k);
  }

  lemma InvokeKeepsNearby(s: State, key: string, call: Call, outcome: Outcome)
    requires NearbyInv(System(s, Busy(key, call)))
    ensures NearbyInv(Step(System(s, Busy(key, call)), Invoke(outcome)))
  {
    hide StoreFits, CallFits, AllAwake, Perform, Proceed, AfterFailure, Nearby, CallNearby, OwnNearby;
    InvokeKeeps(s, key, call, outcome);
    var (t, next) := Perform(s, key, call);
    CallKeepsNearby(s, key, call);
    OwnContinues(s, key, call);
    FailureContinuesNothing(call);
    match outcome
    case Ok => ProceedNearby(t, key, next);
    case Refused => ProceedNearby(s, key, AfterFailure(call));
    case ReplyLost => ProceedNearby(t, key, AfterFailure(call));
  }

  lemma OwnContinues(s: State, key: string, call: Call)
    requires StoreFits(s) && Nearby(s) && CallFits(s, key, call) && CallNearby(s, key, call)
    ensures var (t, next) := Perform(s, key, call); next.Continue? ==> CallNearby(t, key, next.call)
  {
    hide StoreFits, Nearby, CallFits, CallNearby, Perform, NearbyWorkflows, WorkflowsOf;
    CallKeepsOwn(s, key, call);
  }

  // ----- whole runs -----

  lemma StepKeepsNearby(sys: System, e: SplitEvent)
    requires NearbyInv(sys) && (e.Outside? ==> Countable(e.e))
    ensures NearbyInv(Step(sys, e))
  {
    match e
    case Outside(ev) => OutsideKeepsNearby(sys, ev);
    case Begin(key) =>
      BeginKeeps(sys, key);
      hide Inv, WorkflowName;
    case Invoke(outcome) =>
      if sys.worker.Busy? {
        hide Inv, Nearby, CallNearby;
        InvokeKeepsNearby(sys.store, sys.worker.key, sys.worker.call, outcome);
      }
  }

  lemma {:induction false} RunKeepsNearby(sys: System, es: seq<SplitEvent>)
    requires NearbyInv(sys) && AllCountable(es)
    ensures NearbyInv(Run(sys, es))
  {
    hide NearbyInv, Step;
    if es != [] {
      RunKeepsNearby(sys, es[..|es| - 1]);
      StepKeepsNearby(Run(sys, es[..|es| - 1]), es[|es| - 1]);
    }
  }

  lemma InitialNearby(s: State)
    requires IsInitial(s)
    ensures NearbyInv(System(s, Idle))
  {
  }

  lemma ReachableNearby(sys: System)
    requires Reachable(sys)
    ensures NearbyInv(sys)
  {
    var s: State, es: seq<SplitEvent> :| IsRun(s, es, sys);
    InitialNearby(s);
    hide NearbyInv, Run;
    RunKeepsNearby(System(s, Idle), es);
  }

  /**
   What survives lost writes of "one Workflow per attempt": a job with `a` attempts counted has no
   Workflow but those of attempts `a` and `a + 1`; only the latter while it waits, only the first while
   it runs uncounted, and only the former once the limit is used up.
   */
  lemma WorkflowsStayNearby(sys: System, k: string, w: string)
    requires Reachable(sys) && w in sys.store.workflows && sys.store.workflows[w].owner == k
    ensures k in sys.store.jobs
    ensures var j := sys.store.jobs[k]; var a := j.status.attempts;
            && (w == WorkflowName(k, a) || w == WorkflowName(k, a + 1))
            && (j.IsWaiting() ==> w == WorkflowName(k, a + 1))
            && (j.IsRunning() && a == 0 ==> w == WorkflowName(k, 1))
            && (a > j.spec.backoffLimit ==> w == WorkflowName(k, a))
  {
    ReachableNearby(sys);
    assert WorkflowFits(sys.store, w, sys.store.workflows[w]);
    assert JobFits(sys.store, k, sys.store.jobs[k]);
    assert w in WorkflowsOf(sys.store, k);
    hide Reachable, StoreFits, AllAwake, WorkflowName, WorkflowsOf, OutcomeFits, RecordFits;
  }
}
