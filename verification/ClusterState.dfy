/**
 The API server's objects in one namespace, and the controller's work queue. Each API call is one
 function; a call that changes a watched object also puts the owning TrainingJob's key in the queue.
 */
module ClusterState {
  import opened Int32
  import opened Model
  import opened Sums
  import opened WorkflowBuilder

  const SECOND: int := 1_000_000_000

  datatype State = State(
    namespace: string,
    templateName: string,
    now: nat,
    jobs: map<string, Job>,
    workflows: map<string, Workflow>,
    quota: Option<Quota>,
    queue: set<string>,
    timers: map<string, int>)

  // ----- API calls -----

  /** Create or update a TrainingJob. A write that changes nothing wakes nobody. */
  function PutJob(s: State, job: Job): State {
    if job.name in s.jobs && s.jobs[job.name] == job then s
    else s.(jobs := s.jobs[job.name := job], queue := s.queue + {job.name})
  }

  function DropJob(s: State, name: string): State {
    s.(jobs := s.jobs - {name}, queue := s.queue + {name})
  }

  /** A delete request: the object disappears at once unless a finalizer holds it. */
  function DeleteJob(s: State, name: string): State {
    if name !in s.jobs then s
    else if s.jobs[name].finalizer then PutJob(s, s.jobs[name].(deleting := true))
    else DropJob(s, name)
  }

  function PutWorkflow(s: State, name: string, wf: Workflow): State {
    s.(workflows := s.workflows[name := wf], queue := s.queue + {wf.owner})
  }

  function DropWorkflow(s: State, name: string): State {
    if name !in s.workflows then s
    else s.(workflows := s.workflows - {name}, queue := s.queue + {s.workflows[name].owner})
  }

  predicate HasLabel(wf: Workflow, jobName: string) {
    LABEL_TRAINING_JOB in wf.labels && wf.labels[LABEL_TRAINING_JOB] == jobName
  }

  function Labelled(s: State, jobName: string): set<string> {
    set w | w in s.workflows && HasLabel(s.workflows[w], jobName)
  }

  function WorkflowsOf(s: State, k: string): set<string> {
    set w | w in s.workflows && s.workflows[w].owner == k
  }

  /** DeleteAllOf with the job's label. */
  function DropLabelled(s: State, jobName: string): State {
    var gone := Labelled(s, jobName);
    s.(workflows := s.workflows - gone, queue := s.queue + set w | w in gone :: s.workflows[w].owner)
  }

  // ----- GPU accounting (quota.go) -----

  /** What each job holds: its request while Running, nothing otherwise. */
  function RunningGpus(jobs: map<string, Job>): map<string, nat> {
    map k | k in jobs :: if jobs[k].IsRunning() then jobs[k].spec.gpus else 0
  }

  /** GPUs of all Running jobs. */
  ghost function Used(jobs: map<string, Job>): nat {
    Sum(RunningGpus(jobs))
  }

  /** GPUs of all Running jobs but one. */
  ghost function UsedBesides(jobs: map<string, Job>, name: string): nat {
    Used(jobs - {name})
  }

  function QueuedJobs(jobs: map<string, Job>): set<string> {
    set k | k in jobs && jobs[k].status.phase == Queued
  }

  /** The quota status the operator publishes; it reads the jobs but never blocks on the result. */
  ghost function RefreshQuota(s: State): State {
    match s.quota
    case None => s
    case Some(q) =>
      s.(quota := Some(q.(
        usedGPUs := Wrap(UsedBesides(s.jobs, "")),
        queuedJobs := Wrap(|QueuedJobs(s.jobs)|))))
  }

  // ----- the work queue -----

  /** Ask for another look at `key` after `delay`; an earlier appointment stands. */
  function Arm(s: State, key: string, delay: int): State {
    var due := s.now + delay;
    if key in s.timers && s.timers[key] <= due then s else s.(timers := s.timers[key := due])
  }

  function Settle(s: State, key: string, result: Result): State {
    match result
    case Done => s
    case Requeue => s.(queue := s.queue + {key})
    case RequeueAfter(delay) => Arm(s, key, delay)
  }

  function Dequeue(s: State, key: string): State {
    s.(queue := s.queue - {key})
  }

  // ----- everything that happens outside a reconcile -----

  datatype Event =
    | Create(name: string, spec: JobSpec)
    | Delete(name: string)
    | SetPhase(workflow: string, phase: string)
    | RemoveWorkflow(workflow: string)
    | SetQuota(hard: Option<nat32>)
    | Tick(nanos: nat)
    | Resync(name: string)
    | Restart

  function Happen(s: State, e: Event): State {
    match e
    case Create(name, spec) =>
      if name == "" || name in s.jobs || !spec.Valid() then s
      else PutJob(s, Job(s.namespace, name, spec, NEW_STATUS, false, false))
    case Delete(name) => DeleteJob(s, name)
    case SetPhase(w, phase) =>
      // Argo advances a Workflow until it reaches a final phase.
      if w !in s.workflows || IsFinalPhase(s.workflows[w].phase) then s
      else PutWorkflow(s, w, s.workflows[w].(phase := phase))
    case RemoveWorkflow(w) => DropWorkflow(s, w)
    case SetQuota(None) => s.(quota := None)
    case SetQuota(Some(hard)) =>
      s.(quota := Some(if s.quota.Some? then s.quota.value.(hardGPUs := hard) else Quota(hard, 0, 0)))
    case Tick(nanos) =>
      var now := s.now + nanos;
      var due := set k | k in s.timers && s.timers[k] <= now;
      s.(now := now, timers := s.timers - due, queue := s.queue + due)
    case Resync(name) =>
      // A spurious wake-up: the informer lists again, or a write moved only what is not modelled.
      if name in s.jobs then s.(queue := s.queue + {name}) else s
    case Restart =>
      // A restarted operator forgets its timers and looks at every job.
      s.(queue := s.jobs.Keys, timers := map[])
  }

  /** Workflows only advance or go; nobody but the operator creates them. */
  lemma OutsideWorkflows(s: State, e: Event)
    ensures forall w :: w in Happen(s, e).workflows ==>
      w in s.workflows && Happen(s, e).workflows[w] == s.workflows[w].(phase := Happen(s, e).workflows[w].phase)
  {
  }

  lemma OutsideWorkflowsOf(s: State, e: Event, k: string)
    ensures WorkflowsOf(Happen(s, e), k) <= WorkflowsOf(s, k)
    ensures forall w :: w in WorkflowsOf(Happen(s, e), k) && IsFinalPhase(s.workflows[w].phase) ==>
              Happen(s, e).workflows[w] == s.workflows[w]
  {
  }

  /** Jobs are only created and deleted. */
  lemma OutsideJobs(s: State, e: Event)
    ensures !e.Create? && !e.Delete? ==> Happen(s, e).jobs == s.jobs
    ensures Happen(s, e).namespace == s.namespace && s.now <= Happen(s, e).now
  {
  }

  lemma OutsideKeepsJobs(s: State, e: Event)
    requires !e.Delete?
    ensures forall k :: k in s.jobs ==> k in Happen(s, e).jobs && Happen(s, e).jobs[k] == s.jobs[k]
  {
    OutsideJobs(s, e);
  }

  /** A namespace without jobs. */
  predicate IsInitial(s: State) {
    s.jobs == map[] && s.workflows == map[] && s.queue == {} && s.timers == map[]
  }

  // ----- sums under a single change -----

  lemma UsedSplit(jobs: map<string, Job>, k: string)
    requires k in jobs
    ensures Used(jobs) == UsedBesides(jobs, k) + if jobs[k].IsRunning() then jobs[k].spec.gpus else 0
  {
    SumPick(RunningGpus(jobs), k);
    assert RunningGpus(jobs) - {k} == RunningGpus(jobs - {k});
  }

  lemma UsedPut(jobs: map<string, Job>, k: string, j: Job)
    ensures UsedBesides(jobs[k := j], k) == UsedBesides(jobs, k)
    ensures Used(jobs[k := j]) == UsedBesides(jobs, k) + if j.IsRunning() then j.spec.gpus else 0
  {
    assert jobs[k := j] - {k} == jobs - {k};
    UsedSplit(jobs[k := j], k);
  }

  /** Fewer Running jobs use fewer GPUs. */
  lemma UsedMono(jobs: map<string, Job>, jobs': map<string, Job>)
    requires forall k :: k in jobs && jobs[k].IsRunning() ==>
      k in jobs' && jobs'[k].IsRunning() && jobs[k].spec.gpus <= jobs'[k].spec.gpus
    ensures Used(jobs) <= Used(jobs')
  {
    SumMono(RunningGpus(jobs), RunningGpus(jobs'));
  }

  lemma UsedDrop(jobs: map<string, Job>, k: string)
    ensures UsedBesides(jobs, k) <= Used(jobs)
  {
    if k in jobs {
      UsedSplit(jobs, k);
    } else {
      assert jobs - {k} == jobs;
    }
  }
}
