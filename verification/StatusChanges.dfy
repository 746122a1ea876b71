/**
 What a job's status says. Every change of a status, in every interleaved run, says what the reconcile
 that wrote it had seen: the gate's verdict, the Workflow it looked up, and the clock.
 */
module StatusChanges {
  import opened Int32
  import opened Model
  import opened Naming
  import opened ClusterState
  import opened Operator
  import opened SplitWorker
  import opened SplitInvariant
  import opened SplitSafety
  import opened SplitQuota
  import opened SplitTheorems
  import opened Sightings

  // ----- what a status must say, field by field -----

  /** Refused jobs queue; the others follow the Workflow that was found, or was not. */
  ghost predicate PhaseFollows(j: Job, j': Job, v: Seen) {
    && (j.IsWaiting() <==> !v.gate.Unasked?)
    && (v.created.Some? <==> v.found.None? && !RefusedBy(v.gate, j.spec.gpus))
    && j'.status.phase ==
       if RefusedBy(v.gate, j.spec.gpus) then Queued
       else if v.found == Some("Succeeded") then Succeeded
       else if v.found == Some("Failed") || v.found == Some("Error") then
         (if j.status.attempts <= j.spec.backoffLimit then Pending else Failed)
       else Running
  }

  /** The start is the clock's second at the first creation, the completion that of the final lookup. */
  predicate TimesFollow(j: Job, j': Job, v: Seen) {
    && j'.status.startTime ==
       (if j.status.startTime.None? && v.created.Some? then Some(v.created.value / 1_000_000_000)
        else j.status.startTime)
    && j'.status.completionTime ==
       (if j'.status.phase == Succeeded || j'.status.phase == Failed then Some(v.clock / 1_000_000_000)
        else j.status.completionTime)
  }

  /** Attempts count creations; the Workflow is named while the job runs, the model once it succeeds. */
  predicate RecordFollows(j: Job, j': Job, v: Seen) {
    var again := j.status.phase == Running && j.status.attempts > 0;
    && j'.status.attempts == j.status.attempts + (if v.created.Some? && !again then 1 else 0)
    && j'.status.workflowName ==
       (if j'.status.phase == Running
        then j.name + "-attempt-" + Decimal(j.status.attempts + if again then 0 else 1)
        else j.status.workflowName)
    && j'.status.modelURI ==
       (if j'.status.phase == Succeeded
        then "s3://" + (j.spec.bucket + "/" + j.namespace + "/" + j.name) + "/"
        else j.status.modelURI)
  }

  /** What the gate leaves of the conditions. */
  ghost function AfterGate(conditions: map<ConditionType, Condition>, gate: Verdict, gpus: nat32)
    : map<ConditionType, Condition>
  {
    if RefusedBy(gate, gpus) then conditions[QuotaGranted := Condition(false, QuotaExceeded)]
    else if gate.Compared? then conditions[QuotaGranted := Condition(true, QuotaAvailable)]
    else conditions
  }

  ghost predicate ConditionsFollow(j: Job, j': Job, v: Seen) {
    var gated := AfterGate(j.status.conditions, v.gate, j.spec.gpus);
    j'.status.conditions ==
      if v.created.Some? then gated[WorkflowSubmitted := Condition(true, Submitted)]
      else if j'.status.phase == Succeeded then gated[Complete := Condition(true, TrainingSucceeded)]
      else if j'.status.phase == Failed then gated[Complete := Condition(false, BackoffLimitExceeded)]
      else gated
  }

  ghost predicate Justified(j: Job, j': Job, v: Seen) {
    && j' == j.(status := j'.status)
    && PhaseFollows(j, j', v)
    && TimesFollow(j, j', v)
    && RecordFollows(j, j', v)
    && ConditionsFollow(j, j', v)
  }

  // ----- the drafts of a reconcile -----

  /** The in-memory copy of a job the gate has let pass, or has not been asked about. */
  ghost predicate CopyFits(read: Job, job: Job, v: Seen) {
    && (read.IsWaiting() <==> !v.gate.Unasked?)
    && !RefusedBy(v.gate, read.spec.gpus)
    && job == read.(status := read.status.(conditions := AfterGate(read.status.conditions, v.gate, read.spec.gpus)))
  }

  /** The job has an attempt that an int32 can count. */
  predicate Numbered(j: Job) {
    0 <= j.status.attempts < MAX || (j.IsRunning() && 0 <= j.status.attempts)
  }

  lemma ParkedIsJustified(read: Job, v: Seen)
    requires read.IsWaiting() && RefusedBy(v.gate, read.spec.gpus) && v.found.None? && v.created.None?
    ensures Justified(read, Parked(read), v)
  {
    hide GateRefuses;
  }

  lemma CurrentName(read: Job, job: Job)
    requires Numbered(read) && !read.IsTerminal()
    requires job.name == read.name && job.status.phase == read.status.phase
    requires job.status.attempts == read.status.attempts
    ensures var again := read.status.phase == Running && read.status.attempts > 0;
            && CurrentWorkflow(job) == read.name + "-attempt-" + Decimal(read.status.attempts + if again then 0 else 1)
            && CurrentAttempt(job) ==
               (read.status.attempts + (if again then 0 else 1), !again)
  {
    WrapExact(read.status.attempts + 1);
    hide Decimal;
  }

  lemma StartedIsJustified(read: Job, job: Job, v: Seen, now: nat)
    requires CopyFits(read, job, v) && Numbered(read) && !read.IsTerminal()
    requires v.found.None? && v.created == Some(now)
    ensures Justified(read, Started(job, now), v)
  {
    CurrentName(read, job);
    hide CurrentWorkflow, CurrentAttempt, Decimal, GateRefuses;
  }

  lemma AdoptedIsJustified(read: Job, job: Job, v: Seen)
    requires CopyFits(read, job, v) && Numbered(read) && !read.IsTerminal()
    requires v.created.None? && v.found.Some? && !IsFinalPhase(v.found.value)
    ensures Justified(read, Adopted(job), v)
  {
    CurrentName(read, job);
    hide CurrentWorkflow, CurrentAttempt, Decimal, GateRefuses;
  }

  lemma CompletedIsJustified(read: Job, job: Job, v: Seen)
    requires CopyFits(read, job, v) && v.created.None? && v.found == Some("Succeeded")
    ensures Justified(read, Completed(job, v.clock), v)
  {
    hide Decimal, GateRefuses;
  }

  lemma FailureIsJustified(read: Job, job: Job, v: Seen)
    requires CopyFits(read, job, v) && v.created.None? && v.found in {Some("Failed"), Some("Error")}
    ensures read.status.attempts > read.spec.backoffLimit ==> Justified(read, GivenUp(job, v.clock), v)
    ensures read.status.attempts <= read.spec.backoffLimit ==> Justified(read, BackToPending(job), v)
  {
    hide Decimal, GateRefuses;
  }

  // ----- interleaved runs -----

  /** The call was prepared on what has been seen. */
  ghost predicate SeenFits(call: Call, v: Seen) {
    match call
    case FetchJob => v == NOTHING_SEEN
    case FetchQuota(read) => v == NOTHING_SEEN
    case ListPeers(read, _) => v == NOTHING_SEEN
    case FetchWorkflow(read, job) => CopyFits(read, job, v) && v.found.None? && v.created.None?
    case CreateWorkflow(read, job) => CopyFits(read, job, v) && v.found.None? && v.created.None?
    case DropFailed(read, job) =>
      && CopyFits(read, job, v) && v.created.None? && v.found in {Some("Failed"), Some("Error")}
      && read.status.attempts <= read.spec.backoffLimit
    case WriteStatus(read, job, _, _) => Justified(read, job, v)
    case _ => true
  }

  ghost predicate WorkerSees(sys: System, v: Seen) {
    sys.worker.Busy? ==> SeenFits(sys.worker.call, v)
  }

  lemma InProgressIsNumbered(s: State, key: string, read: Job, job: Job)
    requires InProgress(s, key, read, job)
    ensures Numbered(read) && !read.IsTerminal()
  {
    hide OutcomeFits, RecordFits;
  }

  lemma FetchSees(s: State, key: string)
    ensures var next := AfterFetch(s, key); next.Continue? ==> SeenFits(next.call, NOTHING_SEEN)
  {
  }

  lemma GateSees(s: State, key: string, call: Call, v: Seen)
    requires (call.FetchQuota? || call.ListPeers?) && call.read.IsWaiting() && SeenFits(call, v)
    ensures var next := Perform(s, key, call).1;
            next.Continue? ==> SeenFits(next.call, SeenByCall(v, s, call))
  {
    hide GateRefuses, UsedBesides, Decimal;
    if call.ListPeers? && RefusedBy(SeenByCall(v, s, call).gate, call.read.spec.gpus) {
      ParkedIsJustified(call.read, SeenByCall(v, s, call));
    }
    hide Justified, Parked;
  }

  lemma LookupSees(s: State, key: string, read: Job, job: Job, v: Seen)
    requires InProgress(s, key, read, job) && SeenFits(FetchWorkflow(read, job), v)
    ensures var next := AfterWorkflow(s, read, job);
            next.Continue? ==> SeenFits(next.call, SeenByCall(v, s, FetchWorkflow(read, job)))
  {
    InProgressIsNumbered(s, key, read, job);
    hide InProgress, CurrentWorkflow, Adopted, Completed, GivenUp, Justified, RefusedBy, Numbered;
    var u := SeenByCall(v, s, FetchWorkflow(read, job));
    if u.found.Some? {
      if u.found == Some("Succeeded") {
        CompletedIsJustified(read, job, u);
      } else if u.found in {Some("Failed"), Some("Error")} {
        FailureIsJustified(read, job, u);
      } else {
        AdoptedIsJustified(read, job, u);
      }
    }
    hide AfterGate;
  }

  lemma SubmissionSees(s: State, key: string, call: Call, v: Seen)
    requires call.CreateWorkflow? || call.DropFailed?
    requires InProgress(s, key, call.read, call.job) && SeenFits(call, v)
    ensures var next := Perform(s, key, call).1;
            next.Continue? ==> SeenFits(next.call, SeenByCall(v, s, call))
  {
    InProgressIsNumbered(s, key, call.read, call.job);
    hide InProgress, CurrentWorkflow, CurrentAttempt, Started, BackToPending, Justified, RefusedBy, Numbered;
    if call.CreateWorkflow? {
      StartedIsJustified(call.read, call.job, SeenByCall(v, s, call), s.now);
    } else {
      FailureIsJustified(call.read, call.job, v);
    }
    hide AfterGate, PutWorkflow, DropWorkflow;
  }

  lemma CallSees(s: State, key: string, call: Call, v: Seen)
    requires CallFits(s, key, call) && SeenFits(call, v)
    ensures var next := Perform(s, key, call).1;
            next.Continue? ==> SeenFits(next.call, SeenByCall(v, s, call))
  {
    hide JobFits, SeenFits, SeenByCall;
    match call
    case FetchJob =>
      hide AfterFetch;
      FetchSees(s, key);
      NothingMore(s, v);
    case FetchQuota(_) => GateSees(s, key, call, v);
    case ListPeers(_, _) => GateSees(s, key, call, v);
    case FetchWorkflow(read, job) =>
      hide AfterWorkflow;
      LookupSees(s, key, read, job, v);
    case CreateWorkflow(_, _) => SubmissionSees(s, key, call, v);
    case DropFailed(_, _) => SubmissionSees(s, key, call, v);
    case _ => HousekeepingSees(s, key, call, SeenByCall(v, s, call));
  }

  lemma NothingMore(s: State, v: Seen)
    requires SeenFits(FetchJob, v)
    ensures SeenByCall(v, s, FetchJob) == NOTHING_SEEN
  {
  }

  lemma HousekeepingSees(s: State, key: string, call: Call, v: Seen)
    requires call.CleanWorkflows? || call.RemoveFinalizer? || call.AddFinalizer? || call.ExpireJob?
             || call.WriteStatus? || call.PublishQuota?
    ensures var next := Perform(s, key, call).1; next.Continue? ==> SeenFits(next.call, v)
  {
    hide DropLabelled, PutJob, DropJob, DeleteJob, RefreshQuota;
  }

  lemma StepSees(sys: System, e: SplitEvent, v: Seen)
    requires Inv(sys) && WorkerSees(sys, v)
    ensures WorkerSees(Step(sys, e), Noticed(v, sys, e))
  {
    hide SeenFits, SeenByCall;
    match e
    case Outside(ev) => hide Inv, Happen;
    case Begin(key) =>
      hide Inv;
      FetchSeesNothing();
    case Invoke(outcome) =>
      if sys.worker.Busy? {
        CallSees(sys.store, sys.worker.key, sys.worker.call, v);
        FailureContinuesNothing(sys.worker.call);
        hide Inv, Perform, AfterFailure;
      }
  }

  lemma FetchSeesNothing()
    ensures SeenFits(FetchJob, NOTHING_SEEN)
  {
  }

  lemma {:induction false} RunSees(s: State, es: seq<SplitEvent>)
    requires IsInitial(s) && AllCountable(es)
    ensures Inv(Run(System(s, Idle), es))
    ensures WorkerSees(Run(System(s, Idle), es), SeenOf(System(s, Idle), es))
  {
    hide Inv, Step, Noticed;
    RunKeeps(s, es);
    if es == [] {
    } else {
      RunSees(s, es[..|es| - 1]);
      hide WorkerSees;
      StepSees(Run(System(s, Idle), es[..|es| - 1]), es[|es| - 1], SeenOf(System(s, Idle), es[..|es| - 1]));
    }
  }

  // ----- changes of a status -----

  /** The status write of `k`'s own reconcile. */
  predicate IsWriteOf(sys: System, e: SplitEvent, k: string) {
    e.Invoke? && sys.worker.Busy? && sys.worker.key == k && sys.worker.call.WriteStatus?
  }

  lemma OtherCallsKeepStatus(s: State, k: string, call: Call)
    requires CallFits(s, k, call) && !call.WriteStatus? && k in s.jobs && k in Perform(s, k, call).0.jobs
    ensures Perform(s, k, call).0.jobs[k].status == s.jobs[k].status
  {
    RefreshKeepsJobs(s);
    hide JobFits, AfterFetch, AfterWorkflow, GateRefuses, UsedBesides, RefreshQuota, CurrentWorkflow, Labelled;
  }

  lemma WriteReplaces(s: State, k: string, call: Call)
    requires CallFits(s, k, call) && call.WriteStatus? && k in s.jobs
    ensures var t := Perform(s, k, call).0;
            k in t.jobs && (t.jobs[k] == s.jobs[k] || (s.jobs[k] == call.read && t.jobs[k] == call.job))
  {
    hide JobFits, RefreshQuota;
  }

  lemma InvokeStore(sys: System, outcome: Outcome)
    requires sys.worker.Busy?
    ensures var t := Perform(sys.store, sys.worker.key, sys.worker.call).0;
            Step(sys, Invoke(outcome)).store.jobs in {sys.store.jobs, t.jobs}
  {
    hide Perform;
  }

  lemma ChangeIsWrite(sys: System, e: SplitEvent, k: string)
    requires Inv(sys) && k in sys.store.jobs && k in Step(sys, e).store.jobs
    requires Step(sys, e).store.jobs[k].status != sys.store.jobs[k].status
    ensures IsWriteOf(sys, e, k)
    ensures sys.store.jobs[k] == sys.worker.call.read && Step(sys, e).store.jobs[k] == sys.worker.call.job
  {
    match e
    case Outside(ev) =>
      HappenOnJob(sys.store, ev, k);
      hide Inv, Happen;
    case Begin(_) => hide Inv;
    case Invoke(outcome) =>
      var Busy(key, call) := sys.worker;
      InvokeStore(sys, outcome);
      hide Step, Perform;
      if key != k {
        CallLeavesOthers(sys.store, key, call, k);
      } else if call.WriteStatus? {
        WriteReplaces(sys.store, k, call);
      } else {
        OtherCallsKeepStatus(sys.store, k, call);
      }
      hide Inv;
  }

  /** Whatever is interleaved, fails or is lost: a status changes only to what its reconcile has seen. */
  lemma StatusSaysWhatWasSeen(s: State, es: seq<SplitEvent>, e: SplitEvent, k: string)
    requires IsInitial(s) && AllCountable(es)
    requires k in Run(System(s, Idle), es).store.jobs && k in Step(Run(System(s, Idle), es), e).store.jobs
    requires Step(Run(System(s, Idle), es), e).store.jobs[k].status != Run(System(s, Idle), es).store.jobs[k].status
    ensures var sys := Run(System(s, Idle), es);
            && IsWriteOf(sys, e, k)
            && Justified(sys.store.jobs[k], Step(sys, e).store.jobs[k], SeenOf(System(s, Idle), es))
  {
    RunSees(s, es);
    hide Run, SeenOf, Justified, Inv, Step;
    ChangeIsWrite(Run(System(s, Idle), es), e, k);
  }
}
