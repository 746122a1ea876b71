/** What every reachable state of the interleaved system satisfies. */
module SplitInvariant {
  import opened Int32
  import opened Model
  import opened Naming
  import opened ClusterState
  import opened Operator
  import opened SplitWorker

  // ----- jobs -----

  /** Attempts never pass the limit, and the phase says how many there can have been. */
  predicate AttemptsFit(j: Job) {
    && 0 <= j.status.attempts <= j.spec.backoffLimit + 1
    && (j.IsWaiting() ==> j.status.attempts <= j.spec.backoffLimit)
    && (j.status.phase == Failed ==> j.status.attempts == j.spec.backoffLimit + 1)
  }

  /** Completion time, model URI and the Complete condition agree with the phase. */
  predicate OutcomeFits(j: Job, now: nat) {
    && (j.IsTerminal() <==> j.status.completionTime.Some?)
    && (j.IsTerminal() ==> j.status.completionTime.value <= Seconds(now))
    && j.status.modelURI == (if j.status.phase == Succeeded then ModelURI(j) else "")
    && (j.IsTerminal() <==> Complete in j.status.conditions)
    && (j.status.phase == Succeeded ==> j.status.conditions[Complete] == Condition(true, TrainingSucceeded))
    && (j.status.phase == Failed ==> j.status.conditions[Complete] == Condition(false, BackoffLimitExceeded))
  }

  /** The start time is taken, and the Workflow recorded, with the first counted attempt. */
  predicate RecordFits(j: Job, now: nat) {
    && (j.status.startTime.Some? <==> 0 < j.status.attempts)
    && (j.status.startTime.Some? ==> j.status.startTime.value <= Seconds(now))
    && (j.status.startTime.Some? && j.status.completionTime.Some? ==>
          j.status.startTime.value <= j.status.completionTime.value)
    && (0 < j.status.attempts ==>
          && WorkflowSubmitted in j.status.conditions
          && j.status.conditions[WorkflowSubmitted] == Condition(true, Submitted))
  }

  predicate ParkedFits(j: Job) {
    j.status.phase == Queued ==>
      QuotaGranted in j.status.conditions && j.status.conditions[QuotaGranted] == Condition(false, QuotaExceeded)
  }

  /** What a stored job satisfies. */
  predicate JobFits(s: State, k: string, j: Job) {
    DraftFits(s, k, j) && ParkedFits(j)
  }

  /** What the worker's in-memory copy satisfies as well. */
  predicate DraftFits(s: State, k: string, j: Job) {
    && k != ""
    && j.name == k
    && j.namespace == s.namespace
    && j.spec.backoffLimit < MAX
    && AttemptsFit(j)
    && OutcomeFits(j, s.now)
    && RecordFits(j, s.now)
    && (!j.finalizer ==> j.status == NEW_STATUS && !j.deleting)
  }

  /** A Workflow belongs to a job that exists and cannot disappear without cleaning up first. */
  ghost predicate WorkflowFits(s: State, w: string, wf: Workflow) {
    && wf.owner in s.jobs
    && s.jobs[wf.owner].finalizer
    && HasLabel(wf, wf.owner)
    && NamedAfter(w, wf.owner)
  }

  ghost predicate NamedAfter(w: string, owner: string) {
    exists a: int :: w == WorkflowName(owner, a)
  }

  ghost predicate StoreFits(s: State) {
    && (forall k :: k in s.jobs ==> JobFits(s, k, s.jobs[k]))
    && (forall w :: w in s.workflows ==> WorkflowFits(s, w, s.workflows[w]))
  }

  // ----- the worker -----

  /** Only a deletion mark can have been added to the job since it was fetched, and it woke the key. */
  predicate Held(s: State, key: string, read: Job) {
    && read.name == key
    && read.finalizer
    && key in s.jobs
    && (s.jobs[key] == read || (s.jobs[key] == read.(deleting := true) && key in s.queue))
  }

  predicate SameButQuota(read: Job, job: Job) {
    job == read || (read.IsWaiting() && job == Granted(read))
  }

  /** No write takes back an attempt or moves the start. */
  predicate Onward(read: Job, next: Job) {
    && next.status.attempts >= read.status.attempts
    && (read.status.startTime.Some? ==> next.status.startTime == read.status.startTime)
  }

  /** A job on its way to, or in, its current attempt. */
  predicate InProgress(s: State, key: string, read: Job, job: Job) {
    && Held(s, key, read)
    && JobFits(s, key, read)
    && !read.deleting
    && !read.IsTerminal()
    && SameButQuota(read, job)
  }

  predicate IsParked(s: State, key: string) {
    key in s.jobs && s.jobs[key].status.phase == Queued && s.jobs[key].finalizer && !s.jobs[key].deleting
  }

  ghost predicate CallFits(s: State, key: string, call: Call) {
    match call
    case FetchJob => true
    case CleanWorkflows(read) => Held(s, key, read) && read.deleting
    case RemoveFinalizer(read) => Held(s, key, read) && read.deleting && Labelled(s, key) == {}
    case AddFinalizer(read) =>
      read.name == key && !read.finalizer && (IsCurrent(s, read) || key in s.queue || key !in s.jobs)
    case ExpireJob(read) =>
      Held(s, key, read) && !read.deleting && read.IsTerminal() && HasTtl(read) && Expiry(read) <= s.now
    case FetchQuota(read) => InProgress(s, key, read, read) && read.IsWaiting()
    case ListPeers(read, hard) => InProgress(s, key, read, read) && read.IsWaiting()
    case FetchWorkflow(read, job) => InProgress(s, key, read, job)
    case CreateWorkflow(read, job) => InProgress(s, key, read, job)
    case DropFailed(read, job) => InProgress(s, key, read, job) && read.status.attempts <= read.spec.backoffLimit
    case WriteStatus(read, job, result, refresh) =>
      && InProgress(s, key, read, read)
      && job == read.(status := job.status)
      && JobFits(s, key, job)
      && Onward(read, job)
      && (result == Done ==> job != read || key in s.queue)
      && (result.RequeueAfter? ==> result.delay == QUEUED_REQUEUE && job.status.phase == Queued)
    case PublishQuota(result) =>
      && (result == Done ==> key in s.queue || key !in s.jobs)
      && (result.RequeueAfter? ==> result.delay == QUEUED_REQUEUE && (key in s.queue || IsParked(s, key)))
  }

  ghost predicate WorkerFits(sys: System) {
    sys.worker.Busy? ==> CallFits(sys.store, sys.worker.key, sys.worker.call)
  }

  // ----- wake-ups -----

  /** The Workflow a Running job waits for; its next event will wake the job. */
  predicate Watched(s: State, j: Job) {
    var w := CurrentWorkflow(j);
    w in s.workflows && !IsFinalPhase(s.workflows[w].phase) && s.workflows[w].owner == j.name
  }

  predicate ArmedBy(s: State, k: string, deadline: int) {
    k in s.timers && s.timers[k] <= deadline
  }

  /** A job that may be left alone: something is bound to put it in the queue when needed. */
  predicate Resting(s: State, k: string, j: Job) {
    && j.finalizer
    && !j.deleting
    && match j.status.phase
       case Queued => ArmedBy(s, k, s.now + QUEUED_REQUEUE)
       case Running => Watched(s, j)
       case Succeeded => HasTtl(j) ==> ArmedBy(s, k, Expiry(j))
       case Failed => HasTtl(j) ==> ArmedBy(s, k, Expiry(j))
       case _ => false
  }

  predicate Awake(sys: System, k: string, j: Job) {
    || k in sys.store.queue
    || (sys.worker.Busy? && sys.worker.key == k)
    || Resting(sys.store, k, j)
  }

  ghost predicate AllAwake(sys: System) {
    forall k :: k in sys.store.jobs ==> Awake(sys, k, sys.store.jobs[k])
  }

  ghost predicate Inv(sys: System) {
    StoreFits(sys.store) && WorkerFits(sys) && AllAwake(sys)
  }
}
