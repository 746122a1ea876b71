/**
 The same reconcile, one API call at a time. Users, Argo and the clock act between any two calls,
 and every call may be refused, or take effect while its reply is lost.
 */
module SplitWorker {
  import opened Int32
  import opened Model
  import opened WorkflowBuilder
  import opened ClusterState
  import opened Operator

  /**
   The call the worker makes next. `read` is the job as fetched; `job` is the in-memory copy with
   the changes made so far.
   */
  datatype Call =
    | FetchJob
    | CleanWorkflows(read: Job)
    | RemoveFinalizer(read: Job)
    | AddFinalizer(read: Job)
    | ExpireJob(read: Job)
    | FetchQuota(read: Job)
    | ListPeers(read: Job, hard: nat32)
    | FetchWorkflow(read: Job, job: Job)
    | CreateWorkflow(read: Job, job: Job)
    | DropFailed(read: Job, job: Job)
    | WriteStatus(read: Job, job: Job, result: Result, refresh: bool)
    | PublishQuota(result: Result)

  /** What the worker does after a call that went through. `Abort` is an error return. */
  datatype Next = Continue(call: Call) | Finish(result: Result) | Abort

  datatype Worker = Idle | Busy(key: string, call: Call)

  datatype System = System(store: State, worker: Worker)

  datatype Outcome = Ok | Refused | ReplyLost

  datatype SplitEvent = Outside(e: Event) | Begin(key: string) | Invoke(outcome: Outcome)

  /** An update goes through only if nobody has changed the object since it was fetched. */
  predicate IsCurrent(s: State, read: Job) {
    read.name in s.jobs && s.jobs[read.name] == read
  }

  function AfterFinish(s: State, job: Job): Next {
    if !HasTtl(job) then Finish(Done)
    else if s.now < Expiry(job) then Finish(RequeueAfter(Expiry(job) - s.now))
    else Continue(ExpireJob(job))
  }

  function AfterFetch(s: State, key: string): Next {
    if key !in s.jobs then Finish(Done) else
      var job := s.jobs[key];
      if job.deleting then (if job.finalizer then Continue(CleanWorkflows(job)) else Finish(Done))
      else if !job.finalizer then Continue(AddFinalizer(job))
      else if job.IsTerminal() then AfterFinish(s, job)
      else if job.IsWaiting() then Continue(FetchQuota(job))
      else Continue(FetchWorkflow(job, job))
  }

  function AfterWorkflow(s: State, read: Job, job: Job): Next {
    var name := CurrentWorkflow(job);
    if name !in s.workflows then Continue(CreateWorkflow(read, job)) else
      var (phase, final) := MapWorkflowPhase(s.workflows[name].phase);
      if !final then
        if job.IsRunning() && job.status.workflowName == name then Finish(Done)
        else Continue(WriteStatus(read, Adopted(job), Done, false))
      else if phase == Succeeded then Continue(WriteStatus(read, Completed(job, s.now), Requeue, true))
      else if job.status.attempts <= job.spec.backoffLimit then Continue(DropFailed(read, job))
      else Continue(WriteStatus(read, GivenUp(job, s.now), Requeue, true))
  }

  /** The effect of one call that reaches the API server, and how the worker goes on. */
  ghost function Perform(s: State, key: string, call: Call): (State, Next) {
    match call
    case FetchJob => (s, AfterFetch(s, key))
    case CleanWorkflows(read) => (DropLabelled(s, key), Continue(RemoveFinalizer(read)))
    case RemoveFinalizer(read) =>
      if IsCurrent(s, read) then (DropJob(s, read.name), Finish(Done)) else (s, Abort)
    case AddFinalizer(read) =>
      if IsCurrent(s, read) then (PutJob(s, read.(finalizer := true)), Finish(Done)) else (s, Abort)
    case ExpireJob(read) => (DeleteJob(s, read.name), Finish(Done))
    case FetchQuota(read) =>
      (s, Continue(if s.quota.Some? then ListPeers(read, s.quota.value.hardGPUs) else FetchWorkflow(read, read)))
    case ListPeers(read, hard) =>
      if GateRefuses(UsedBesides(s.jobs, read.name), read.spec.gpus, hard)
      then (s, Continue(WriteStatus(read, Parked(read), RequeueAfter(QUEUED_REQUEUE), true)))
      else (s, Continue(FetchWorkflow(read, Granted(read))))
    case FetchWorkflow(read, job) => (s, AfterWorkflow(s, read, job))
    case CreateWorkflow(read, job) =>
      var name := CurrentWorkflow(job);
      if name in s.workflows then (s, Finish(Requeue)) else
        (PutWorkflow(s, name, WorkflowFor(job, CurrentAttempt(job).0, s.templateName)),
         Continue(WriteStatus(read, Started(job, s.now), Done, true)))
    case DropFailed(read, job) =>
      (DropWorkflow(s, CurrentWorkflow(job)), Continue(WriteStatus(read, BackToPending(job), Requeue, false)))
    case WriteStatus(read, job, result, refresh) =>
      if IsCurrent(s, read)
      then (PutJob(s, read.(status := job.status)), if refresh then Continue(PublishQuota(result)) else Finish(result))
      else (s, Abort)
    case PublishQuota(result) => (RefreshQuota(s), Finish(result))
  }

  /** A bound on the calls a reconcile still makes. */
  function CallsLeft(call: Call): nat {
    match call
    case FetchJob => 7
    case FetchQuota(_) => 6
    case ListPeers(_, _) => 5
    case FetchWorkflow(_, _) => 4
    case CreateWorkflow(_, _) => 3
    case DropFailed(_, _) => 3
    case CleanWorkflows(_) => 2
    case WriteStatus(_, _, _, _) => 2
    case _ => 1
  }

  /** Publishing quota usage is best effort; any other failed call ends the reconcile with an error. */
  function AfterFailure(call: Call): Next {
    if call.PublishQuota? then Finish(call.result) else Abort
  }

  function Proceed(s: State, key: string, next: Next): System {
    match next
    case Continue(call) => System(s, Busy(key, call))
    case Finish(result) => System(Settle(s, key, result), Idle)
    case Abort => System(Settle(s, key, Requeue), Idle)
  }

  ghost function Step(sys: System, e: SplitEvent): System {
    match e
    case Outside(ev) => System(Happen(sys.store, ev), if ev.Restart? then Idle else sys.worker)
    case Begin(key) =>
      if sys.worker.Busy? || key !in sys.store.queue then sys
      else System(Dequeue(sys.store, key), Busy(key, FetchJob))
    case Invoke(outcome) =>
      if sys.worker.Idle? then sys else
        var Busy(key, call) := sys.worker;
        var (s, next) := Perform(sys.store, key, call);
        match outcome
        case Ok => Proceed(s, key, next)
        case Refused => Proceed(sys.store, key, AfterFailure(call))
        case ReplyLost => Proceed(s, key, AfterFailure(call))
  }

  ghost function Run(sys: System, es: seq<SplitEvent>): System {
    if es == [] then sys else Step(Run(sys, es[..|es| - 1]), es[|es| - 1])
  }

  lemma {:induction false} RunAppend(sys: System, xs: seq<SplitEvent>, ys: seq<SplitEvent>)
    ensures Run(sys, xs + ys) == Run(Run(sys, xs), ys)
  {
    if ys == [] {
      assert xs + ys == xs;
    } else {
      var zs := xs + ys;
      assert zs[..|zs| - 1] == xs + ys[..|ys| - 1];
      RunAppend(sys, xs, ys[..|ys| - 1]);
    }
  }
}
