/**
 Attempts counted against Workflows submitted, in interleaved runs. While no call fails and nobody
 restarts the operator, the books of a job are exact until somebody requests its deletion, and what it
 was submitted stays within its limit even then.
 */
module SplitLedger {
  import opened Int32
  import opened Model
  import opened Naming
  import opened WorkflowBuilder
  import opened ClusterState
  import opened Operator
  import opened SplitWorker
  import opened SplitInvariant
  import opened SplitSafety
  import opened SplitQuota
  import opened SplitTheorems
  import opened SplitWorkflows
  import opened Interruptions
  import opened Atomic
  import opened Effects
  import opened Accounting
  import opened AtomicTheorems

  // ----- the ledger -----

  /** The Workflows of `k` submitted, and removed from outside, since `k` was last created. */
  ghost function SplitLedgerOf(sys: System, es: seq<SplitEvent>, k: string): Ledger {
    if es == [] then Ledger(0, 0) else
      var rest, e := es[..|es| - 1], es[|es| - 1];
      if k !in Run(sys, rest).store.jobs then Ledger(0, 0)
      else Entered(SplitLedgerOf(sys, rest, k), Run(sys, rest), e, k)
  }

  /** The ledger after one more step. */
  ghost function Entered(l: Ledger, sys: System, e: SplitEvent, k: string): Ledger {
    Ledger(l.created + CreatedIn(sys.store, Step(sys, e).store, k),
           l.removed + if e.Outside? then RemovedIn(sys.store, World(e.e), k) else 0)
  }

  // ----- the books of one job -----

  /** The worker has read a job it is to start or follow up. */
  predicate IsUnderway(call: Call) {
    || call.FetchQuota? || call.ListPeers? || call.FetchWorkflow?
    || call.CreateWorkflow? || call.DropFailed? || call.WriteStatus?
  }

  /** The job as it was read, or as it is about to be written. */
  function Draft(call: Call): Job
    requires IsUnderway(call)
  {
    if call.WriteStatus? then call.job else call.read
  }

  predicate InHand(sys: System, k: string) {
    sys.worker.Busy? && sys.worker.key == k && IsUnderway(sys.worker.call)
  }

  /** On the strength of `j`: its Workflows, its attempts and the ledger agree. */
  ghost predicate Tallied(s: State, k: string, j: Job, l: Ledger) {
    ExactJob(s, k, j) && LedgerFits(s, j, l)
  }

  predicate Capped(j: Job, l: Ledger) {
    l.created <= j.spec.backoffLimit + 1 + l.removed
  }

  /** A job nobody has in hand: once users can delete it, a marked one need only respect its limit. */
  ghost predicate StoredBooks(s: State, k: string, l: Ledger, f: Faults) {
    k in s.jobs ==>
      && (s.jobs[k].deleting && f.deletions ==> Capped(s.jobs[k], l))
      && (s.jobs[k].deleting && !f.deletions ==> s.jobs[k].IsTerminal())
      && (!s.jobs[k].deleting || !f.deletions ==> Tallied(s, k, s.jobs[k], l))
  }

  /** A job in hand: its books are kept on what was read, even if it has been marked since. */
  ghost predicate CallBooks(s: State, k: string, call: Call, l: Ledger, f: Faults)
    requires IsUnderway(call)
  {
    && Tallied(s, k, Draft(call), l)
    && (f.deletions || IsCurrent(s, call.read))
    && (call.CreateWorkflow? ==> CurrentWorkflow(call.job) !in s.workflows)
    && (call.DropFailed? ==> CurrentWorkflow(call.job) == CountedWorkflow(call.read))
  }

  ghost predicate Books(sys: System, k: string, l: Ledger, f: Faults) {
    if InHand(sys, k) then CallBooks(sys.store, k, sys.worker.call, l, f) else StoredBooks(sys.store, k, l, f)
  }

  lemma TalliedIsCapped(s: State, k: string, j: Job, l: Ledger)
    requires Tallied(s, k, j, l) && AttemptsFit(j)
    ensures Capped(j, l)
  {
    hide ExactJob, Missing;
  }

  lemma SameBooks(s: State, t: State, k: string, l: Ledger, f: Faults)
    requires StoredBooks(s, k, l, f) && t.jobs == s.jobs && t.workflows == s.workflows
    ensures StoredBooks(t, k, l, f)
  {
    assert WorkflowsOf(t, k) == WorkflowsOf(s, k);
    hide CountedWorkflow;
  }

  lemma SameCallBooks(s: State, t: State, k: string, call: Call, l: Ledger, f: Faults)
    requires IsUnderway(call) && CallBooks(s, k, call, l, f) && t.jobs == s.jobs && t.workflows == s.workflows
    ensures CallBooks(t, k, call, l, f)
  {
    assert WorkflowsOf(t, k) == WorkflowsOf(s, k);
    hide CountedWorkflow, CurrentWorkflow;
  }

  // ----- exactness of one job -----

  /** `k` has lost Workflows at most, and finished ones have stayed. */
  ghost predicate Shrinks(s: State, t: State, k: string) {
    && WorkflowsOf(t, k) <= WorkflowsOf(s, k)
    && (forall w :: w in WorkflowsOf(t, k) && IsFinalPhase(s.workflows[w].phase) ==> IsFinalPhase(t.workflows[w].phase))
  }

  lemma ShrinkKeepsExact(s: State, t: State, k: string, j: Job, j': Job)
    requires ExactJob(s, k, j) && Shrinks(s, t, k)
    requires j'.name == j.name && j'.status == j.status
    ensures ExactJob(t, k, j')
  {
    assert CountedWorkflow(j') == CountedWorkflow(j);
    hide WorkflowsOf, CountedWorkflow;
  }

  lemma OutsideShrinks(s: State, e: Event, k: string)
    ensures Shrinks(s, Happen(s, e), k)
  {
    OutsideWorkflowsOf(s, e, k);
    hide Happen, WorkflowsOf;
  }

  /** The drafts a worker prepares without touching Workflows. */
  lemma WaitingHasNone(s: State, k: string, read: Job, job: Job)
    requires StoreFits(s) && ExactJob(s, k, read) && JobFits(s, k, read) && SameButQuota(read, job)
    requires CurrentWorkflow(job) in s.workflows && !read.IsTerminal()
    ensures read.IsRunning() && job == read
    ensures CurrentWorkflow(job) == CountedWorkflow(read) == read.status.workflowName
  {
    hide WorkflowName, WorkflowsOf, OutcomeFits, RecordFits;
    assert CurrentWorkflow(job) == CurrentWorkflow(read);
    OwnNames(s, read);
    hide StoreFits;
    assert read.IsRunning();
    CurrentIsNext(read);
  }

  lemma ParkedIsExact(s: State, k: string, read: Job)
    requires ExactJob(s, k, read) && read.IsWaiting()
    ensures ExactJob(s, k, Parked(read))
  {
    assert CountedWorkflow(Parked(read)) == CountedWorkflow(read);
    hide WorkflowsOf, CountedWorkflow;
  }

  lemma FinishedIsExact(s: State, k: string, job: Job, now: nat)
    requires ExactJob(s, k, job) && job.IsRunning()
    requires CountedWorkflow(job) in s.workflows && IsFinalPhase(s.workflows[CountedWorkflow(job)].phase)
    ensures ExactJob(s, k, Completed(job, now)) && ExactJob(s, k, GivenUp(job, now))
  {
    assert CountedWorkflow(Completed(job, now)) == CountedWorkflow(GivenUp(job, now)) == CountedWorkflow(job);
    hide WorkflowsOf, CountedWorkflow, ModelURI;
  }

  lemma RetriedIsExact(s: State, k: string, job: Job)
    requires ExactJob(s, k, job) && job.IsRunning()
    ensures ExactJob(DropWorkflow(s, CountedWorkflow(job)), k, BackToPending(job))
  {
    var t := DropWorkflow(s, CountedWorkflow(job));
    assert WorkflowsOf(t, k) <= WorkflowsOf(s, k) - {CountedWorkflow(job)};
    hide WorkflowsOf, CountedWorkflow, DropWorkflow;
  }

  lemma StartedIsExact(s: State, k: string, read: Job, job: Job)
    requires ExactJob(s, k, read) && JobFits(s, k, read) && !read.IsTerminal() && SameButQuota(read, job)
    requires CurrentWorkflow(job) !in s.workflows
    ensures ExactJob(PutWorkflow(s, CurrentWorkflow(job), WorkflowFor(job, CurrentAttempt(job).0, s.templateName)), k,
                     Started(job, s.now))
  {
    StartedShape(read, job, s.now);
    var w := CurrentWorkflow(job);
    OwnWithin(s, k, read, job);
    PutOwn(s, w, WorkflowFor(job, CurrentAttempt(job).0, s.templateName), k);
    hide WorkflowsOf, WorkflowName, CurrentWorkflow, CurrentAttempt, WorkflowFor, Started, PutWorkflow, JobFits;
  }

  lemma OwnWithin(s: State, k: string, read: Job, job: Job)
    requires ExactJob(s, k, read) && AttemptsFit(read) && read.spec.backoffLimit < MAX && !read.IsTerminal()
    requires SameButQuota(read, job)
    ensures WorkflowsOf(s, k) <= {CurrentWorkflow(job)}
  {
    if read.IsRunning() {
      CurrentIsNext(job);
    }
    hide WorkflowsOf, WorkflowName;
  }

  lemma CurrentTellsRunning(read: Job, job: Job)
    requires AttemptsFit(read) && read.spec.backoffLimit < MAX && !read.IsTerminal() && SameButQuota(read, job)
    requires CurrentWorkflow(job) == CountedWorkflow(read)
    ensures read.IsRunning() && job == read
  {
    if read.IsWaiting() {
      CurrentIsNext(job);
      WorkflowNamesInjective(read.name, read.status.attempts + 1, read.name, read.status.attempts);
    }
    hide WorkflowName;
  }

  // ----- one call of the job's own reconcile -----

  /** The entry of one call. */
  ghost function Posted(l: Ledger, s: State, t: State, k: string): Ledger {
    Ledger(l.created + CreatedIn(s, t, k), l.removed)
  }

  /** What one call that gets through leaves. */
  ghost predicate LeavesBooks(s: State, k: string, call: Call, l: Ledger, f: Faults) {
    var (t, next) := Perform(s, k, call);
    if next.Continue? && IsUnderway(next.call)
    then CallBooks(t, k, next.call, Posted(l, s, t, k), f)
    else StoredBooks(t, k, Posted(l, s, t, k), f)
  }

  lemma NothingPosted(s: State, t: State, k: string, l: Ledger)
    requires t.workflows.Keys <= s.workflows.Keys
    ensures Posted(l, s, t, k) == l
  {
    CreatedNone(s, t, k);
  }

  /** Letting go of a job without a write. */
  lemma ReleasedBooks(s: State, k: string, call: Call, l: Ledger, f: Faults)
    requires IsUnderway(call) && CallFits(s, k, call) && CallBooks(s, k, call, l, f)
    requires call.WriteStatus? ==> !IsCurrent(s, call.read)
    ensures StoredBooks(s, k, l, f)
  {
    assert AttemptsFit(Draft(call)) && Draft(call).spec == call.read.spec;
    TalliedIsCapped(s, k, Draft(call), l);
    hide Tallied, JobFits, CurrentWorkflow, CountedWorkflow, AttemptsFit;
  }

  lemma FetchBooks(s: State, k: string, l: Ledger, f: Faults)
    requires StoreFits(s) && StoredBooks(s, k, l, f)
    ensures LeavesBooks(s, k, FetchJob, l, f)
  {
    assert k in s.jobs ==> s.jobs[k].name == k;
    NothingPosted(s, s, k, l);
    hide StoreFits, Tallied, CurrentWorkflow, Capped, Posted;
  }

  lemma GateBooks(s: State, k: string, call: Call, l: Ledger, f: Faults)
    requires (call.FetchQuota? || call.ListPeers?) && CallFits(s, k, call) && CallBooks(s, k, call, l, f)
    ensures LeavesBooks(s, k, call, l, f)
  {
    hide Tallied, JobFits, GateRefuses, UsedBesides, Granted, Parked, Posted, CountedWorkflow, CurrentWorkflow;
    NothingPosted(s, s, k, l);
    ParkedTally(s, k, call.read, l);
  }

  lemma ParkedTally(s: State, k: string, read: Job, l: Ledger)
    requires Tallied(s, k, read, l) && read.IsWaiting()
    ensures Tallied(s, k, Parked(read), l)
  {
    hide ExactJob, CountedWorkflow;
    ParkedIsExact(s, k, read);
  }

  lemma FinishedTally(s: State, k: string, job: Job, l: Ledger, now: nat)
    requires Tallied(s, k, job, l) && job.IsRunning()
    requires CountedWorkflow(job) in s.workflows && IsFinalPhase(s.workflows[CountedWorkflow(job)].phase)
    ensures Tallied(s, k, Completed(job, now), l) && Tallied(s, k, GivenUp(job, now), l)
  {
    hide ExactJob, CountedWorkflow, ModelURI;
    FinishedIsExact(s, k, job, now);
  }

  lemma RetriedTally(s: State, k: string, job: Job, l: Ledger)
    requires Tallied(s, k, job, l) && job.IsRunning()
    ensures Tallied(DropWorkflow(s, CountedWorkflow(job)), k, BackToPending(job), l)
  {
    hide ExactJob, CountedWorkflow, DropWorkflow;
    RetriedIsExact(s, k, job);
  }

  lemma LookupBooks(s: State, k: string, read: Job, job: Job, l: Ledger, f: Faults)
    requires StoreFits(s) && CallFits(s, k, FetchWorkflow(read, job)) && CallBooks(s, k, FetchWorkflow(read, job), l, f)
    ensures LeavesBooks(s, k, FetchWorkflow(read, job), l, f)
  {
    hide StoreFits, ExactJob, CurrentWorkflow, CountedWorkflow, Adopted, OutcomeFits, RecordFits, Posted, StoredBooks;
    hide JobFits, Completed, GivenUp, LedgerFits;
    NothingPosted(s, s, k, l);
    ReleasedBooks(s, k, FetchWorkflow(read, job), l, f);
    if CurrentWorkflow(job) in s.workflows {
      WaitingHasNone(s, k, read, job);
      if IsFinalPhase(s.workflows[CurrentWorkflow(job)].phase) {
        FinishedTally(s, k, job, l, s.now);
      }
    }
    hide Tallied;
  }

  lemma CreateBooks(s: State, k: string, read: Job, job: Job, l: Ledger, f: Faults)
    requires CallFits(s, k, CreateWorkflow(read, job)) && CallBooks(s, k, CreateWorkflow(read, job), l, f)
    ensures LeavesBooks(s, k, CreateWorkflow(read, job), l, f)
  {
    hide ExactJob, CurrentWorkflow, CurrentAttempt, WorkflowFor, Started, OutcomeFits, RecordFits, LedgerFits;
    StartedIsExact(s, k, read, job);
    StartedTally(s, k, read, job, l);
    hide JobFits, Posted;
  }

  lemma StartedTally(s: State, k: string, read: Job, job: Job, l: Ledger)
    requires LedgerFits(s, read, l) && ExactJob(s, k, read) && JobFits(s, k, read)
    requires !read.IsTerminal() && SameButQuota(read, job) && CurrentWorkflow(job) !in s.workflows
    ensures var t := PutWorkflow(s, CurrentWorkflow(job), WorkflowFor(job, CurrentAttempt(job).0, s.templateName));
            LedgerFits(t, Started(job, s.now), Posted(l, s, t, k))
  {
    var w := CurrentWorkflow(job);
    var t := PutWorkflow(s, w, WorkflowFor(job, CurrentAttempt(job).0, s.templateName));
    hide Started, OutcomeFits, RecordFits, CreatedIn, WorkflowName, Parameters;
    StartedShape(read, job, s.now);
    CreatedOne(s, t, k, w);
    if read.IsRunning() {
      CurrentIsNext(job);
      assert w == CountedWorkflow(read);
    }
    hide WorkflowsOf, CurrentWorkflow, CurrentAttempt, CountedWorkflow, WorkflowFor, ExactJob;
  }

  lemma DropBooks(s: State, k: string, read: Job, job: Job, l: Ledger, f: Faults)
    requires StoreFits(s) && CallFits(s, k, DropFailed(read, job)) && CallBooks(s, k, DropFailed(read, job), l, f)
    ensures LeavesBooks(s, k, DropFailed(read, job), l, f)
  {
    hide StoreFits, JobFits, Tallied, Posted, CurrentWorkflow, CountedWorkflow, BackToPending, DropWorkflow;
    DropTally(s, k, read, job, l);
  }

  lemma DropTally(s: State, k: string, read: Job, job: Job, l: Ledger)
    requires InProgress(s, k, read, job) && Tallied(s, k, read, l) && CurrentWorkflow(job) == CountedWorkflow(read)
    ensures var t := DropWorkflow(s, CurrentWorkflow(job));
            t.jobs == s.jobs && Posted(l, s, t, k) == l && Tallied(t, k, BackToPending(job), l)
  {
    hide Tallied, CurrentWorkflow, CountedWorkflow, OutcomeFits, RecordFits, Posted, BackToPending;
    NothingPosted(s, DropWorkflow(s, CurrentWorkflow(job)), k, l);
    CurrentTellsRunning(read, job);
    hide JobFits;
    RetriedTally(s, k, read, l);
  }

  lemma WriteBooks(s: State, k: string, call: Call, l: Ledger, f: Faults)
    requires call.WriteStatus? && CallFits(s, k, call) && CallBooks(s, k, call, l, f)
    ensures LeavesBooks(s, k, call, l, f)
  {
    hide JobFits, Tallied, Posted;
    if IsCurrent(s, call.read) {
      WrittenTally(s, k, call.job, l);
      hide PutJob;
    } else {
      NothingPosted(s, s, k, l);
      ReleasedBooks(s, k, call, l, f);
      hide StoredBooks;
    }
  }

  lemma WrittenTally(s: State, k: string, job: Job, l: Ledger)
    requires Tallied(s, k, job, l) && job.name == k
    ensures var t := PutJob(s, job);
            k in t.jobs && t.jobs[k] == job && Posted(l, s, t, k) == l && Tallied(t, k, job, l)
  {
    var t := PutJob(s, job);
    NothingPosted(s, t, k, l);
    assert WorkflowsOf(t, k) == WorkflowsOf(s, k);
    hide CountedWorkflow, Posted, WorkflowsOf;
  }

  predicate IsHousekeeping(call: Call) {
    call.CleanWorkflows? || call.RemoveFinalizer? || call.AddFinalizer? || call.ExpireJob? || call.PublishQuota?
  }

  /** Claiming, marking, cleaning up and releasing a job change no status. */
  lemma HousekeepingBooks(s: State, k: string, call: Call, l: Ledger, f: Faults)
    requires IsHousekeeping(call) && StoreFits(s) && CallFits(s, k, call) && StoredBooks(s, k, l, f)
    ensures LeavesBooks(s, k, call, l, f)
  {
    hide StoreFits, CallFits, Perform, Shrinks, Posted, Tidies, StoredBooks;
    HousekeepingTidies(s, k, call);
    var t := Perform(s, k, call).0;
    NothingPosted(s, t, k, l);
    TidyBooks(s, t, k, l, f);
  }

  /** Only a marked job loses Workflows, and only a finished one is marked. */
  ghost predicate Tidies(s: State, t: State, k: string) {
    && Shrinks(s, t, k)
    && (k in t.jobs ==>
          && k in s.jobs
          && t.jobs[k].name == s.jobs[k].name && t.jobs[k].status == s.jobs[k].status
          && t.jobs[k].spec == s.jobs[k].spec
          && (s.jobs[k].deleting ==> t.jobs[k].deleting)
          && (t.jobs[k].deleting && !s.jobs[k].deleting ==> t.jobs[k].IsTerminal())
          && (t.workflows == s.workflows || s.jobs[k].deleting))
  }

  lemma TidyBooks(s: State, t: State, k: string, l: Ledger, f: Faults)
    requires StoreFits(s) && Tidies(s, t, k) && StoredBooks(s, k, l, f)
    ensures StoredBooks(t, k, l, f)
  {
    assert k in s.jobs ==> AttemptsFit(s.jobs[k]);
    hide StoreFits, AttemptsFit, Shrinks, Tallied;
    if k in t.jobs && (!s.jobs[k].deleting || !f.deletions) {
      KeptTally(s, t, k, s.jobs[k], t.jobs[k], l);
      TalliedIsCapped(s, k, s.jobs[k], l);
    }
  }

  lemma KeptTally(s: State, t: State, k: string, j: Job, j': Job, l: Ledger)
    requires Tallied(s, k, j, l) && Shrinks(s, t, k) && j'.name == j.name && j'.status == j.status
    requires j.IsRunning() ==> t.workflows == s.workflows
    ensures Tallied(t, k, j', l)
  {
    assert CountedWorkflow(j') == CountedWorkflow(j);
    hide CountedWorkflow, ExactJob, Shrinks;
    ShrinkKeepsExact(s, t, k, j, j');
  }

  lemma HousekeepingTidies(s: State, k: string, call: Call)
    requires CallFits(s, k, call) && IsHousekeeping(call)
    ensures var (t, next) := Perform(s, k, call);
            && Tidies(s, t, k) && t.workflows.Keys <= s.workflows.Keys
            && (next.Continue? ==> !IsUnderway(next.call))
  {
    RefreshKeepsJobs(s);
    hide JobFits, RefreshQuota;
    if !call.CleanWorkflows? {
      assert Perform(s, k, call).0.workflows == s.workflows;
    }
  }

  lemma OwnCallBooks(s: State, k: string, call: Call, l: Ledger, f: Faults)
    requires StoreFits(s) && CallFits(s, k, call)
    requires if IsUnderway(call) then CallBooks(s, k, call, l, f) else StoredBooks(s, k, l, f)
    ensures LeavesBooks(s, k, call, l, f)
  {
    hide StoreFits, LeavesBooks, CallBooks, StoredBooks, CallFits;
    match call
    case FetchJob => FetchBooks(s, k, l, f);
    case FetchQuota(_) => GateBooks(s, k, call, l, f);
    case ListPeers(_, _) => GateBooks(s, k, call, l, f);
    case FetchWorkflow(read, job) => LookupBooks(s, k, read, job, l, f);
    case CreateWorkflow(read, job) => CreateBooks(s, k, read, job, l, f);
    case DropFailed(read, job) => DropBooks(s, k, read, job, l, f);
    case WriteStatus(_, _, _, _) => WriteBooks(s, k, call, l, f);
    case _ => HousekeepingBooks(s, k, call, l, f);
  }

  // ----- a call of another job's reconcile -----

  /** It leaves the job and its Workflows as they are. */
  lemma CallIsLocal(s: State, key: string, call: Call, k: string)
    requires StoreFits(s) && CallFits(s, key, call) && k != key
    ensures var t := Perform(s, key, call).0;
            && WorkflowsOf(t, k) == WorkflowsOf(s, k)
            && (forall w :: w in WorkflowsOf(s, k) ==> t.workflows[w] == s.workflows[w])
  {
    RefreshKeepsJobs(s);
    hide StoreFits, JobFits, AfterFetch, AfterWorkflow, GateRefuses, UsedBesides, RefreshQuota, CurrentWorkflow;
    hide OutcomeFits, RecordFits, DropLabelled, DropWorkflow, PutWorkflow, WorkflowFor, WorkflowsOf;
    if call.CleanWorkflows? {
      CleaningIsLocal(s, key, k);
    } else if call.DropFailed? {
      DroppingIsLocal(s, key, call.job, k);
    } else if call.CreateWorkflow? {
      OwnerOfNew(call.job, CurrentAttempt(call.job).0, s.templateName);
      var wf := WorkflowFor(call.job, CurrentAttempt(call.job).0, s.templateName);
      PuttingIsLocal(s, CurrentWorkflow(call.job), wf, k);
    } else {
      assert Perform(s, key, call).0.workflows == s.workflows;
      hide Perform;
      SameWorkflows(s, Perform(s, key, call).0, k);
      OwnAreThere(s, k);
    }
  }

  lemma OwnAreThere(s: State, k: string)
    ensures forall w :: w in WorkflowsOf(s, k) ==> w in s.workflows
  {
  }

  lemma DroppingIsLocal(s: State, key: string, job: Job, k: string)
    requires StoreFits(s) && job.name == key && k != key
    ensures var t := DropWorkflow(s, CurrentWorkflow(job));
            && WorkflowsOf(t, k) == WorkflowsOf(s, k)
            && (forall w :: w in WorkflowsOf(s, k) ==> t.workflows[w] == s.workflows[w])
  {
    if CurrentWorkflow(job) in s.workflows {
      CurrentWorkflowIsOwn(s, job);
    }
    hide StoreFits, CurrentWorkflow;
  }

  lemma OwnerOfNew(job: Job, attempt: int32, templateName: string)
    ensures WorkflowFor(job, attempt, templateName).owner == job.name
  {
  }

  lemma PuttingIsLocal(s: State, w: string, wf: Workflow, k: string)
    requires wf.owner != k
    ensures var t := PutWorkflow(s, w, wf);
            w !in s.workflows ==>
              && WorkflowsOf(t, k) == WorkflowsOf(s, k)
              && (forall v :: v in WorkflowsOf(s, k) ==> t.workflows[v] == s.workflows[v])
  {
  }

  lemma CleaningIsLocal(s: State, key: string, k: string)
    requires StoreFits(s) && k != key
    ensures WorkflowsOf(DropLabelled(s, key), k) == WorkflowsOf(s, k)
    ensures forall w :: w in WorkflowsOf(s, k) ==> DropLabelled(s, key).workflows[w] == s.workflows[w]
  {
    forall w | w in WorkflowsOf(s, k)
      ensures w !in Labelled(s, key)
    {
      assert WorkflowFits(s, w, s.workflows[w]);
    }
  }

  lemma OtherCallBooks(s: State, key: string, call: Call, k: string, l: Ledger, f: Faults)
    requires StoreFits(s) && CallFits(s, key, call) && k != key && StoredBooks(s, k, l, f)
    ensures StoredBooks(Perform(s, key, call).0, k, Posted(l, s, Perform(s, key, call).0, k), f)
  {
    var t := Perform(s, key, call).0;
    hide StoreFits, CallFits, Perform, Tallied, CreatedIn;
    CallIsLocal(s, key, call, k);
    CallLeavesOthers(s, key, call, k);
    NothingCreated(s, t, k);
    if k in s.jobs && (!s.jobs[k].deleting || !f.deletions) {
      LocalTally(s, t, k, l);
    }
    hide WorkflowsOf;
  }

  lemma LocalTally(s: State, t: State, k: string, l: Ledger)
    requires StoreFits(s) && k in s.jobs && Tallied(s, k, s.jobs[k], l) && WorkflowsOf(t, k) == WorkflowsOf(s, k)
    requires forall w :: w in WorkflowsOf(s, k) ==> t.workflows[w] == s.workflows[w]
    ensures Tallied(t, k, s.jobs[k], l)
  {
    assert s.jobs[k].name == k;
    CountedMembership(s, s.jobs[k]);
    hide StoreFits, CountedWorkflow;
  }

  // ----- outside events -----

  lemma OutsideTally(s: State, e: Event, k: string, j: Job, j': Job, l: Ledger)
    requires StoreFits(s) && Tallied(s, k, j, l) && j.name == k
    requires j' == j || j' == j.(deleting := true)
    ensures Tallied(Happen(s, e), k, j', Ledger(l.created, l.removed + RemovedIn(s, World(e), k)))
  {
    OutsideShrinks(s, e, k);
    ShrinkKeepsExact(s, Happen(s, e), k, j, j');
    hide StoreFits, ExactJob, Happen, Shrinks, Missing, RemovedIn;
    HappenMisses(s, e, j, j');
  }

  lemma OutsideStored(s: State, e: Event, k: string, l: Ledger, f: Faults)
    requires StoreFits(s) && k in s.jobs && StoredBooks(s, k, l, f) && Permitted(Outside(e), f)
    ensures StoredBooks(Happen(s, e), k, Ledger(l.created, l.removed + RemovedIn(s, World(e), k)), f)
  {
    var t := Happen(s, e);
    assert JobFits(s, k, s.jobs[k]);
    if Tallied(s, k, s.jobs[k], l) {
      TalliedIsCapped(s, k, s.jobs[k], l);
    }
    if !e.Delete? {
      OutsideKeepsJobs(s, e);
    }
    hide Happen, RemovedIn, Tallied;
    if k in t.jobs {
      HappenOnJob(s, e, k);
      if Tallied(s, k, s.jobs[k], l) {
        OutsideTally(s, e, k, s.jobs[k], t.jobs[k], l);
      }
    }
    hide StoreFits, JobFits;
  }

  lemma OutsideCall(s: State, e: Event, k: string, call: Call, l: Ledger, f: Faults)
    requires StoreFits(s) && CallFits(s, k, call) && IsUnderway(call) && CallBooks(s, k, call, l, f)
    requires Permitted(Outside(e), f)
    ensures CallBooks(Happen(s, e), k, call, Ledger(l.created, l.removed + RemovedIn(s, World(e), k)), f)
  {
    assert Draft(call).name == k;
    OutsideWorkflows(s, e);
    if !e.Delete? {
      OutsideKeepsJobs(s, e);
    }
    hide StoreFits, CallFits, Happen, RemovedIn, Tallied, CurrentWorkflow, CountedWorkflow;
    OutsideTally(s, e, k, Draft(call), Draft(call), l);
  }

  lemma NewBooks(s: State, e: Event, k: string, f: Faults)
    requires StoreFits(s) && k !in s.jobs
    ensures StoredBooks(Happen(s, e), k, Ledger(0, 0), f)
  {
    var t := Happen(s, e);
    NoOwnerNoWorkflows(s, k);
    OutsideWorkflowsOf(s, e, k);
    if k in t.jobs {
      NewJobIsNew(s, e, k);
      NewJobIsUnmarked(s, e, k);
      NewJobIsExact(s, e, k);
    }
    hide StoreFits, Happen, ExactJob, CountedWorkflow, WorkflowsOf;
  }

  lemma NewJobIsUnmarked(s: State, e: Event, k: string)
    requires StoreFits(s) && k !in s.jobs && k in Happen(s, e).jobs
    ensures !Happen(s, e).jobs[k].deleting
    ensures forall n :: n in s.jobs ==> s.jobs[n].name == n
  {
    NewJobSpec(s, e, k);
    hide StoreFits;
  }

  // ----- whole runs -----

  lemma OutsideBooks(sys: System, e: Event, k: string, l: Ledger, f: Faults)
    requires Inv(sys) && Books(sys, k, l, f) && Permitted(Outside(e), f) && !f.CanStop()
    ensures var l' := if k in sys.store.jobs then Entered(l, sys, Outside(e), k) else Ledger(0, 0);
            Books(Step(sys, Outside(e)), k, l', f)
  {
    var s := sys.store;
    HandIsThere(sys, k);
    hide Happen, CallBooks, StoredBooks, RemovedIn, Entered, StoreFits, CallFits, AllAwake;
    if k !in s.jobs {
      NewBooks(s, e, k, f);
    } else {
      EnteredOutside(sys, e, k, l);
      if InHand(sys, k) {
        OutsideCall(s, e, k, sys.worker.call, l, f);
      } else {
        OutsideStored(s, e, k, l, f);
      }
    }
  }

  /** Nobody but the operator submits. */
  lemma EnteredOutside(sys: System, e: Event, k: string, l: Ledger)
    ensures Entered(l, sys, Outside(e), k) == Ledger(l.created, l.removed + RemovedIn(sys.store, World(e), k))
  {
    hide Happen, CreatedIn, RemovedIn;
    OutsideWorkflowsOf(sys.store, e, k);
    NothingCreated(sys.store, Happen(sys.store, e), k);
  }

  lemma HandIsThere(sys: System, k: string)
    requires Inv(sys)
    ensures InHand(sys, k) ==> k in sys.store.jobs
  {
    hide StoreFits, AllAwake, JobFits;
  }

  lemma ProceedBooks(t: State, key: string, next: Next, k: string, l: Ledger, f: Faults)
    requires if key == k && next.Continue? && IsUnderway(next.call) then CallBooks(t, k, next.call, l, f)
             else StoredBooks(t, k, l, f)
    ensures Books(Proceed(t, key, next), k, l, f)
    ensures Proceed(t, key, next).store.workflows == t.workflows
  {
    var u := Proceed(t, key, next);
    assert u.store.jobs == t.jobs && u.store.workflows == t.workflows;
    if InHand(u, k) {
      SameCallBooks(t, u.store, k, next.call, l, f);
    } else {
      SameBooks(t, u.store, k, l, f);
    }
    hide CallBooks, StoredBooks;
  }

  lemma InvokeBooks(s: State, key: string, call: Call, k: string, l: Ledger, f: Faults)
    requires Inv(System(s, Busy(key, call))) && Books(System(s, Busy(key, call)), k, l, f)
    ensures var sys := System(s, Busy(key, call));
            Books(Step(sys, Invoke(Ok)), k, Entered(l, sys, Invoke(Ok), k), f)
  {
    var (t, next) := Perform(s, key, call);
    hide StoreFits, CallFits, AllAwake, Perform, CallBooks, StoredBooks, CreatedIn, Proceed;
    if key == k {
      OwnCallBooks(s, k, call, l, f);
    } else {
      OtherCallBooks(s, key, call, k, l, f);
    }
    ProceedBooks(t, key, next, k, Posted(l, s, t, k), f);
    hide Books;
    SameCreated(s, t, Proceed(t, key, next).store, k);
  }

  lemma SameCreated(s: State, t: State, u: State, k: string)
    requires u.workflows == t.workflows
    ensures CreatedIn(s, u, k) == CreatedIn(s, t, k)
  {
  }

  lemma BeginBooks(sys: System, key: string, k: string, l: Ledger, f: Faults)
    requires Books(sys, k, l, f)
    ensures Books(Step(sys, Begin(key)), k, Entered(l, sys, Begin(key), k), f)
  {
    var t := Step(sys, Begin(key));
    CreatedNone(sys.store, t.store, k);
    hide CreatedIn;
    if t != sys {
      SameBooks(sys.store, t.store, k, l, f);
    }
    hide StoredBooks, CallBooks;
  }

  lemma StepBooks(sys: System, e: SplitEvent, k: string, l: Ledger, f: Faults)
    requires Inv(sys) && Books(sys, k, l, f) && Permitted(e, f) && !f.CanStop()
    ensures Books(Step(sys, e), k, if k in sys.store.jobs then Entered(l, sys, e, k) else Ledger(0, 0), f)
  {
    hide Inv, Books, Entered;
    match e
    case Outside(ev) => OutsideBooks(sys, ev, k, l, f);
    case _ =>
      WorkerBooks(sys, e, k, l, f);
      if k !in sys.store.jobs {
        AbsentBooks(sys, e, k, f);
      }
  }

  lemma WorkerBooks(sys: System, e: SplitEvent, k: string, l: Ledger, f: Faults)
    requires Inv(sys) && Books(sys, k, l, f) && !e.Outside? && Permitted(e, f) && !f.CanStop()
    ensures Books(Step(sys, e), k, Entered(l, sys, e, k), f)
  {
    hide Inv, Books, Entered, Step;
    match e
    case Begin(key) => BeginBooks(sys, key, k, l, f);
    case Invoke(outcome) =>
      assert outcome == Ok;
      if sys.worker.Busy? {
        InvokeBooks(sys.store, sys.worker.key, sys.worker.call, k, l, f);
      } else {
        IdleBooks(sys, k, l);
      }
  }

  lemma IdleBooks(sys: System, k: string, l: Ledger)
    requires sys.worker.Idle?
    ensures Step(sys, Invoke(Ok)) == sys && Entered(l, sys, Invoke(Ok), k) == l
  {
    CreatedNone(sys.store, sys.store, k);
  }

  /** The worker brings no job back. */
  lemma AbsentBooks(sys: System, e: SplitEvent, k: string, f: Faults)
    requires Inv(sys) && !e.Outside? && k !in sys.store.jobs
    ensures Books(Step(sys, e), k, Ledger(0, 0), f)
  {
    if k in Step(sys, e).store.jobs {
      hide Inv, Step;
      StepOnSpecs(sys, e, k);
    }
    StepKeeps(sys, e);
    hide Step;
    HandIsThere(Step(sys, e), k);
    hide Inv;
  }

  lemma {:induction false} RunBooks(s: State, es: seq<SplitEvent>, k: string, f: Faults)
    requires IsInitial(s) && AllCountable(es) && AllPermitted(es, f) && !f.CanStop()
    ensures Inv(Run(System(s, Idle), es))
    ensures Books(Run(System(s, Idle), es), k, SplitLedgerOf(System(s, Idle), es, k), f)
  {
    hide Inv, Step, Entered, Permitted;
    RunKeeps(s, es);
    if es == [] {
    } else {
      var rest := es[..|es| - 1];
      RunBooks(s, rest, k, f);
      hide Books;
      StepBooks(Run(System(s, Idle), rest), es[|es| - 1], k, SplitLedgerOf(System(s, Idle), rest, k), f);
    }
  }

  /**
   When nothing cuts a reconcile short, whatever else happens between two calls: an idle operator has
   counted the submissions of a job but for those an outside removal provoked, and knows its Workflow.
   */
  lemma UncutAttemptsAreExact(s: State, es: seq<SplitEvent>, k: string)
    requires IsInitial(s) && AllCountable(es) && AllUncut(es)
    requires Run(System(s, Idle), es).worker.Idle? && k in Run(System(s, Idle), es).store.jobs
    ensures var t := Run(System(s, Idle), es).store; var j := t.jobs[k];
            && WorkflowsOf(t, k) <= {WorkflowName(k, j.status.attempts)}
            && (j.IsWaiting() ==> WorkflowsOf(t, k) == {})
            && LedgerFits(t, j, SplitLedgerOf(System(s, Idle), es, k))
  {
    var sys := Run(System(s, Idle), es);
    RunBooks(s, es, k, NO_FAULTS);
    assert sys.store.jobs[k].name == k;
    hide Run, SplitLedgerOf, StoreFits, AllAwake, WorkflowsOf, WorkflowName, LedgerFits;
  }

  /** Deletions do no more harm than that: at every moment the submissions stay within the limit. */
  lemma SubmissionsStayCapped(s: State, es: seq<SplitEvent>, k: string, f: Faults)
    requires IsInitial(s) && AllCountable(es) && AllPermitted(es, f) && !f.CanStop()
    requires k in Run(System(s, Idle), es).store.jobs
    ensures Capped(Run(System(s, Idle), es).store.jobs[k], SplitLedgerOf(System(s, Idle), es, k))
  {
    var sys, l := Run(System(s, Idle), es), SplitLedgerOf(System(s, Idle), es, k);
    RunBooks(s, es, k, f);
    hide Run, SplitLedgerOf;
    assert JobFits(sys.store, k, sys.store.jobs[k]);
    hide StoreFits, AllAwake, Tallied;
    if InHand(sys, k) {
      HandIsCapped(sys.store, k, sys.worker.call, l);
    } else if Tallied(sys.store, k, sys.store.jobs[k], l) {
      hide CallFits;
      TalliedIsCapped(sys.store, k, sys.store.jobs[k], l);
    }
  }

  lemma HandIsCapped(s: State, k: string, call: Call, l: Ledger)
    requires IsUnderway(call) && CallFits(s, k, call) && Tallied(s, k, Draft(call), l)
    ensures k in s.jobs && Capped(s.jobs[k], l)
  {
    assert AttemptsFit(Draft(call)) && Draft(call).spec == call.read.spec == s.jobs[k].spec;
    TalliedIsCapped(s, k, Draft(call), l);
    hide Tallied, JobFits, AttemptsFit;
  }
}
