/**
 What follows from statuses that say what was seen: when a job counts as finished and may be deleted,
 what its quota condition means, and what one undisturbed reconcile leaves and publishes.
 */
module StatusTheorems {
  import opened Model
  import opened WorkflowBuilder
  import opened ClusterState
  import opened Operator
  import opened SplitWorker
  import opened SplitInvariant
  import opened SplitSafety
  import opened SplitQuota
  import opened SplitTheorems
  import opened Effects
  import opened Accounting
  import opened QuotaTheorems
  import opened Sightings
  import opened StatusChanges

  // ----- when a job is finished -----

  /** The clock at the lookup of the reconcile that finished `k`. */
  ghost function FinishedAt(sys: System, es: seq<SplitEvent>, k: string): nat {
    if es == [] then 0 else
      var rest := es[..|es| - 1];
      if Finishes(Run(sys, rest).store, Run(sys, es).store, k) then SeenOf(sys, rest).clock
      else FinishedAt(sys, rest, k)
  }

  predicate Finishes(s: State, t: State, k: string) {
    k in s.jobs && k in t.jobs && !s.jobs[k].IsTerminal() && t.jobs[k].IsTerminal()
  }

  lemma FinishedSnoc(sys: System, es: seq<SplitEvent>, e: SplitEvent, k: string)
    ensures Run(sys, es + [e]) == Step(Run(sys, es), e)
    ensures FinishedAt(sys, es + [e], k) ==
            if Finishes(Run(sys, es).store, Step(Run(sys, es), e).store, k) then SeenOf(sys, es).clock
            else FinishedAt(sys, es, k)
  {
    assert (es + [e])[..|es|] == es && (es + [e])[|es|] == e;
    hide Step, SeenOf;
  }

  /** In every run the recorded completion is the second of that lookup, for successes and failures alike. */
  lemma {:induction false} CompletionIsTheLookup(s: State, es: seq<SplitEvent>, k: string)
    requires IsInitial(s) && AllCountable(es)
    requires k in Run(System(s, Idle), es).store.jobs && Run(System(s, Idle), es).store.jobs[k].IsTerminal()
    ensures Run(System(s, Idle), es).store.jobs[k].status.completionTime ==
            Some(FinishedAt(System(s, Idle), es, k) / 1_000_000_000)
  {
    hide FinishedAt, SeenOf, Step;
    assert es != [];
    var rest, e := es[..|es| - 1], es[|es| - 1];
    assert es == rest + [e];
    FinishedSnoc(System(s, Idle), rest, e, k);
    var sys := Run(System(s, Idle), rest);
    RunKeeps(s, rest);
    hide Run, Inv;
    FinishedJobWasThere(sys, e, k);
    if sys.store.jobs[k].IsTerminal() {
      StepRespectsJob(sys, e, k);
      CompletionIsTheLookup(s, rest, k);
    } else {
      StatusSaysWhatWasSeen(s, rest, e, k);
    }
  }

  lemma FinishedJobWasThere(sys: System, e: SplitEvent, k: string)
    requires Inv(sys) && k in Step(sys, e).store.jobs && Step(sys, e).store.jobs[k].IsTerminal()
    ensures k in sys.store.jobs
  {
    hide Inv, Step;
    StepOnSpecs(sys, e, k);
    if k !in sys.store.jobs {
      CreatedIsUnfinished(sys, e, k);
    }
  }

  lemma CreatedIsUnfinished(sys: System, e: SplitEvent, k: string)
    requires Inv(sys) && k !in sys.store.jobs && k in Step(sys, e).store.jobs && e.Outside? && e.e.Create?
    ensures !Step(sys, e).store.jobs[k].IsTerminal()
  {
    hide Inv;
  }

  /**
   Nobody but a user deletes a job early: when the operator marks one, its time to live has run for
   longer than `ttlSeconds - 1` seconds since the lookup that finished it.
   */
  lemma NeverMarkedEarly(s: State, es: seq<SplitEvent>, outcome: Outcome, k: string)
    requires IsInitial(s) && AllCountable(es)
    requires var sys := Run(System(s, Idle), es); var t := Step(sys, Invoke(outcome)).store;
             k in sys.store.jobs && !sys.store.jobs[k].deleting && k in t.jobs && t.jobs[k].deleting
    ensures var sys := Run(System(s, Idle), es); var j := sys.store.jobs[k];
            && j.IsTerminal() && j.spec.ttlSeconds.Some?
            && sys.store.now > FinishedAt(System(s, Idle), es, k) + (j.spec.ttlSeconds.value - 1) * 1_000_000_000
  {
    var sys := Run(System(s, Idle), es);
    hide Run, Step, FinishedAt;
    assert IsRun(s, es, sys);
    OperatorDeletesOnlyExpired(sys, outcome, k, Step(sys, Invoke(outcome)).store);
    CompletionIsTheLookup(s, es, k);
  }

  // ----- one undisturbed reconcile -----

  /** What it looks for, and finds, in the store it starts from. */
  lemma EnsureIsJustified(s: State, read: Job, job: Job, v: Seen)
    requires IsCurrent(s, read) && Numbered(read) && !read.IsTerminal() && CopyFits(read, job, v)
    requires v.clock == s.now && v.found == PhaseOf(s, CurrentWorkflow(job))
    requires v.created == if v.found.None? then Some(s.now) else None
    ensures var t := Operator.EnsureWorkflow(s, job).0;
            && read.name in t.jobs
            && Justified(read, t.jobs[read.name], v)
  {
    hide CurrentWorkflow, CurrentAttempt, WorkflowFor, Started, Adopted, Completed, GivenUp, BackToPending;
    hide Justified, RefusedBy, Numbered;
    DraftsKeepName(job, s.now);
    if v.found.None? {
      StartedIsJustified(read, job, v, s.now);
      RefreshKeepsJobs(PutJob(PutWorkflow(s, CurrentWorkflow(job),
        WorkflowFor(job, CurrentAttempt(job).0, s.templateName)), Started(job, s.now)));
    } else if v.found == Some("Succeeded") {
      CompletedIsJustified(read, job, v);
      RefreshKeepsJobs(PutJob(s, Completed(job, s.now)));
    } else if v.found in {Some("Failed"), Some("Error")} {
      FailureIsJustified(read, job, v);
      RefreshKeepsJobs(PutJob(s, GivenUp(job, s.now)));
    } else {
      AdoptedIsJustified(read, job, v);
      if job.IsRunning() && job.status.workflowName == CurrentWorkflow(job) {
        NothingToAdopt(read, job, v);
      }
    }
    hide RefreshQuota, AfterGate;
  }

  /** A job that runs under the right name would be written as it is. */
  lemma NothingToAdopt(read: Job, job: Job, v: Seen)
    requires CopyFits(read, job, v) && job.IsRunning() && job.status.workflowName == CurrentWorkflow(job)
    ensures Adopted(job) == read
  {
    hide CurrentWorkflow;
  }

  lemma DraftsKeepName(job: Job, now: nat)
    ensures Started(job, now).name == Adopted(job).name == Completed(job, now).name == job.name
    ensures GivenUp(job, now).name == BackToPending(job).name == job.name
  {
    hide CurrentWorkflow, CurrentAttempt;
  }

  lemma AdmitIsJustified(s: State, read: Job)
    requires IsCurrent(s, read) && Numbered(read) && read.IsWaiting()
    ensures var t := AdmitOrPark(s, read).0;
            && read.name in t.jobs
            && Justified(read, t.jobs[read.name], SeenAtOnce(s, read))
  {
    var v := SeenAtOnce(s, read);
    GrantedKeepsName(read);
    hide Operator.EnsureWorkflow, GateRefuses, UsedBesides, Numbered, CurrentWorkflow, Justified;
    if RefusedBy(v.gate, read.spec.gpus) {
      ParkedIsJustified(read, v);
      RefreshKeepsJobs(PutJob(s, Parked(read)));
      hide RefreshQuota;
    } else if s.quota.None? {
      EnsureIsJustified(s, read, read, v);
    } else {
      EnsureIsJustified(s, read, Granted(read), v);
    }
  }

  lemma StoredIsNumbered(s: State, k: string)
    requires StoreFits(s) && k in s.jobs && !s.jobs[k].IsTerminal()
    ensures Numbered(s.jobs[k]) && s.jobs[k].name == k
  {
    assert JobFits(s, k, s.jobs[k]);
    hide StoreFits, OutcomeFits, RecordFits;
  }

  /** The job is claimed, nobody wants it gone, and it is not finished. */
  predicate IsOpen(j: Job) {
    j.finalizer && !j.deleting && !j.IsTerminal()
  }

  /** A reconcile that nobody interrupts leaves an open job as it should be, from any store that runs can leave. */
  lemma WorkSaysWhatIsSeen(s: State, k: string)
    requires StoreFits(s) && k in s.queue && k in s.jobs && IsOpen(s.jobs[k])
    ensures k in Work(s, k).jobs
    ensures Justified(s.jobs[k], Work(s, k).jobs[k], SeenAtOnce(s, s.jobs[k]))
  {
    var before, j := Dequeue(s, k), s.jobs[k];
    var (t, result) := Reconcile(before, k);
    SettleKeepsObjects(t, k, result);
    StoredIsNumbered(s, k);
    SameSight(s, before, j);
    hide StoreFits, Numbered, Settle, AdmitOrPark, Operator.EnsureWorkflow, Justified, SeenAtOnce;
    if j.IsWaiting() {
      AdmitIsJustified(before, j);
    } else {
      RunningSight(before, j);
      EnsureIsJustified(before, j, j, SeenAtOnce(before, j));
    }
  }

  lemma RunningSight(s: State, j: Job)
    requires j.IsRunning()
    ensures var v := SeenAtOnce(s, j);
            && CopyFits(j, j, v) && v.clock == s.now && v.found == PhaseOf(s, CurrentWorkflow(j))
            && v.created == if v.found.None? then Some(s.now) else None
  {
    hide CurrentWorkflow;
  }

  /** Any other job only has its claim, its mark or its Workflows changed. */
  lemma ClosedKeepsStatus(s: State, k: string)
    requires StoreFits(s) && k in s.queue && k in s.jobs && !IsOpen(s.jobs[k]) && k in Work(s, k).jobs
    ensures Work(s, k).jobs[k].status == s.jobs[k].status
  {
    var (t, result) := Reconcile(Dequeue(s, k), k);
    SettleKeepsObjects(t, k, result);
    assert s.jobs[k].name == k;
    hide StoreFits, Reconcile, Settle;
    ClosedReconcile(Dequeue(s, k), k);
  }

  lemma ClosedReconcile(s: State, k: string)
    requires k in s.jobs && s.jobs[k].name == k && !IsOpen(s.jobs[k])
    ensures var t := Reconcile(s, k).0; k in t.jobs ==> t.jobs[k].status == s.jobs[k].status
  {
    hide AdmitOrPark, Operator.EnsureWorkflow, DropLabelled;
  }

  lemma SameSight(s: State, t: State, j: Job)
    requires t == s.(queue := t.queue)
    ensures SeenAtOnce(t, j) == SeenAtOnce(s, j)
  {
    hide CurrentWorkflow, GateRefuses, UsedBesides;
  }

  /** A job that finishes is finished now. */
  lemma FinishedNow(s: State, k: string)
    requires StoreFits(s) && k in s.queue && k in s.jobs && k in Work(s, k).jobs
    requires !s.jobs[k].IsTerminal() && Work(s, k).jobs[k].IsTerminal()
    ensures Work(s, k).jobs[k].status.completionTime == Some(s.now / 1_000_000_000)
  {
    hide Work, StoreFits, CurrentWorkflow, GateRefuses, UsedBesides;
    if IsOpen(s.jobs[k]) {
      WorkSaysWhatIsSeen(s, k);
    } else {
      ClosedKeepsStatus(s, k);
    }
  }

  /** A refused job is looked at again after 15 seconds, unless an earlier look is due. */
  lemma RefusedIsRechecked(s: State, k: string)
    requires CanRecheck(s, k) && s.jobs[k].name == k && !Admits(s, s.jobs[k])
    ensures var due := s.now + 15_000_000_000;
            k in Work(s, k).timers
            && Work(s, k).timers[k] == if k in s.timers && s.timers[k] <= due then s.timers[k] else due
  {
    RefreshKeepsJobs(PutJob(Dequeue(s, k), Parked(s.jobs[k])));
    hide GateRefuses, UsedBesides, RefreshQuota, Parked, Operator.EnsureWorkflow, DropLabelled, ReconcileTtl;
  }

  /** A job that comes to run under a quota says that it was granted. */
  lemma AdmittedIsGranted(s: State, k: string)
    requires StoreFits(s) && k in s.queue && k in s.jobs && k in Work(s, k).jobs
    requires s.quota.Some? && s.jobs[k].IsWaiting() && Work(s, k).jobs[k].IsRunning()
    ensures var conditions := Work(s, k).jobs[k].status.conditions;
            QuotaGranted in conditions && conditions[QuotaGranted] == Condition(true, QuotaAvailable)
  {
    hide Work, StoreFits, CurrentWorkflow, GateRefuses, UsedBesides;
    if IsOpen(s.jobs[k]) {
      WorkSaysWhatIsSeen(s, k);
    } else {
      ClosedKeepsStatus(s, k);
    }
  }
}
