/** What holds in every run whose reconciles are not interrupted. */
module AtomicTheorems {
  import opened Int32
  import opened Model
  import opened Sums
  import opened Naming
  import opened ClusterState
  import opened Operator
  import opened SplitWorker
  import opened SplitInvariant
  import opened SplitSafety
  import opened Atomic
  import opened Effects
  import opened Accounting
  import opened LiveUsage

  // ----- attempts and Workflows created -----

  /** Workflows of `k` submitted, and removed from outside, since `k` was last created. */
  datatype Ledger = Ledger(created: nat, removed: nat)

  ghost function CreatedIn(s: State, t: State, k: string): nat {
    |WorkflowsOf(t, k) - s.workflows.Keys|
  }

  function RemovedIn(s: State, e: AtomicEvent, k: string): nat {
    if e.World? && e.e.RemoveWorkflow? && e.e.workflow in WorkflowsOf(s, k) then 1 else 0
  }

  ghost function LedgerOf(s: State, es: seq<AtomicEvent>, k: string): Ledger {
    if es == [] then Ledger(0, 0) else
      var rest, e := es[..|es| - 1], es[|es| - 1];
      var before, after := Exec(s, rest), Exec(s, es);
      if k !in before.jobs then Ledger(0, 0) else
        var l := LedgerOf(s, rest, k);
        Ledger(l.created + CreatedIn(before, after, k), l.removed + RemovedIn(before, e, k))
  }

  /** A Running job whose Workflow somebody removed; the next reconcile submits it again. */
  function Missing(s: State, j: Job): nat {
    if j.IsRunning() && CountedWorkflow(j) !in s.workflows then 1 else 0
  }

  /** Attempts counted and Workflows created in one step, net of outside removals. */
  ghost predicate Balanced(s: State, t: State, k: string, removed: nat)
    requires k in s.jobs && k in t.jobs
  {
    var j, j' := s.jobs[k], t.jobs[k];
    && j'.spec == j.spec
    && CreatedIn(s, t, k) >= j'.status.attempts - j.status.attempts
    && CreatedIn(s, t, k) + Missing(t, j') - Missing(s, j) <= j'.status.attempts - j.status.attempts + removed
  }

  lemma NothingCreated(s: State, t: State, k: string)
    requires WorkflowsOf(t, k) <= WorkflowsOf(s, k)
    ensures CreatedIn(s, t, k) == 0
  {
    assert WorkflowsOf(t, k) - s.workflows.Keys == {};
  }

  lemma CreatedNone(s: State, t: State, k: string)
    requires t.workflows.Keys <= s.workflows.Keys
    ensures CreatedIn(s, t, k) == 0
  {
    assert WorkflowsOf(t, k) - s.workflows.Keys == {};
  }

  lemma CreatedOne(s: State, t: State, k: string, w: string)
    requires w !in s.workflows && t.workflows.Keys == s.workflows.Keys + {w} && t.workflows[w].owner == k
    ensures CreatedIn(s, t, k) == 1
  {
    assert WorkflowsOf(t, k) - s.workflows.Keys == {w};
  }

  lemma CountedMembership(s: State, j: Job)
    requires StoreFits(s)
    ensures CountedWorkflow(j) in s.workflows <==> CountedWorkflow(j) in WorkflowsOf(s, j.name)
  {
    if CountedWorkflow(j) in s.workflows {
      CountedIsOwn(s, j);
    }
  }

  lemma HappenLoses(s: State, e: Event, w: string)
    requires w in s.workflows && w !in Happen(s, e).workflows
    ensures e == RemoveWorkflow(w)
  {
  }

  /** Only an outside removal makes a job's Workflow go missing. */
  lemma HappenMisses(s: State, e: Event, j: Job, j': Job)
    requires StoreFits(s) && (j' == j || j' == j.(deleting := true))
    ensures Missing(Happen(s, e), j') <= Missing(s, j) + RemovedIn(s, World(e), j.name)
  {
    var w, t := CountedWorkflow(j), Happen(s, e);
    assert CountedWorkflow(j') == w;
    CountedMembership(s, j);
    hide StoreFits, Happen, CountedWorkflow, WorkflowsOf;
    if w in s.workflows && w !in t.workflows {
      HappenLoses(s, e, w);
    }
  }

  lemma HappenBalances(s: State, e: Event, k: string)
    requires StoreFits(s) && k in s.jobs && k in Happen(s, e).jobs
    ensures Balanced(s, Happen(s, e), k, RemovedIn(s, World(e), k))
  {
    var t := Happen(s, e);
    assert s.jobs[k].name == k;
    hide StoreFits, Happen, Missing, RemovedIn, CreatedIn;
    HappenOnJob(s, e, k);
    OutsideWorkflowsOf(s, e, k);
    NothingCreated(s, t, k);
    HappenMisses(s, e, s.jobs[k], t.jobs[k]);
  }

  lemma OtherReconcileBalances(s: State, t: State, key: string, k: string)
    requires StoreFits(s) && StoreFits(t) && Effect(s, t, key) && k != key && k in s.jobs && k in t.jobs
    ensures Balanced(s, t, k, 0)
  {
    EffectIsLocal(s, t, key, k);
    NothingCreated(s, t, k);
    assert s.jobs[k].name == k;
    CountedMembership(s, s.jobs[k]);
    CountedMembership(t, s.jobs[k]);
    hide StoreFits, Effect, CountedWorkflow;
  }

  lemma OwnReconcileBalances(s: State, t: State, k: string)
    requires StoreFits(s) && Exact(s) && Effect(s, t, k) && k in s.jobs && k in t.jobs
    ensures Balanced(s, t, k, 0)
  {
    EffectOnOwnWorkflows(s, t, k);
    assert ExactJob(s, k, s.jobs[k]) && JobFits(s, k, s.jobs[k]);
    hide StoreFits, Exact;
    if Launched(s, t, k) {
      hide Removed, Rewrote, Retried, OutcomeFits;
      LaunchBalances(s, t, k);
    } else {
      NothingCreated(s, t, k);
      hide Launched, Admits, CreatedIn, OutcomeFits, GateRefuses;
      QuietBalances(s, t, k);
    }
  }

  lemma LaunchBalances(s: State, t: State, k: string)
    requires Launched(s, t, k) && WorkflowsOf(t, k) == {CountedWorkflow(t.jobs[k])}
    requires s.jobs[k].name == k
    ensures Balanced(s, t, k, 0)
  {
    var w := CountedWorkflow(t.jobs[k]);
    assert WorkflowsOf(t, k) - s.workflows.Keys == {w};
    assert s.jobs[k].IsRunning() ==> CountedWorkflow(s.jobs[k]) == w;
    hide CountedWorkflow, Admits;
  }

  /** Claiming, marking, parking, finishing and retrying submit nothing and count nothing. */
  lemma QuietBalances(s: State, t: State, k: string)
    requires k in s.jobs && k in t.jobs
    requires Unchanged(s, t) || Rewrote(s, t, k) || Retried(s, t, k)
    requires CreatedIn(s, t, k) == 0 && JobFits(s, k, s.jobs[k])
    ensures Balanced(s, t, k, 0)
  {
    if Rewrote(s, t, k) {
      hide CreatedIn, OutcomeFits, GateRefuses, UsedBesides, Retried, CountedWorkflow;
    } else {
      hide CreatedIn, OutcomeFits, CountedWorkflow;
    }
  }

  lemma StepBalances(s: State, e: AtomicEvent, k: string)
    requires Inv(System(s, Idle)) && Exact(s) && Plain(e) && k in s.jobs && k in Apply(s, e).jobs
    ensures Balanced(s, Apply(s, e), k, RemovedIn(s, e, k))
  {
    match e
    case World(ev) => HappenBalances(s, ev, k);
    case Reconciled(key) =>
      if key !in s.queue {
        NothingCreated(s, s, k);
      } else {
        WorkEffect(s, key);
        ApplyFits(s, e);
        if key == k {
          OwnReconcileBalances(s, Work(s, k), k);
        } else {
          OtherReconcileBalances(s, Work(s, key), key, k);
        }
      }
  }

  ghost predicate LedgerFits(s: State, j: Job, l: Ledger) {
    && j.status.attempts <= l.created
    && l.created + Missing(s, j) <= j.status.attempts + l.removed
  }

  /**
   Over whole runs: a job never has a Workflow but that of its last counted attempt, and none while it
   waits; Workflows submitted for it equal its attempts, plus at most one per outside removal; so there
   are never more than backoffLimit + 1 submissions that nobody provoked.
   */
  lemma {:induction false} AttemptsAreExact(s: State, es: seq<AtomicEvent>, k: string)
    requires IsInitial(s) && AllPlain(es) && k in Exec(s, es).jobs
    ensures var t := Exec(s, es); var j := t.jobs[k]; var l := LedgerOf(s, es, k);
            && WorkflowsOf(t, k) <= {WorkflowName(k, j.status.attempts)}
            && (j.IsWaiting() ==> WorkflowsOf(t, k) == {})
            && LedgerFits(t, j, l)
            && l.created <= j.spec.backoffLimit + 1 + l.removed
  {
    ExecExact(s, es);
    ExecFits(s, es);
    var t := Exec(s, es);
    assert ExactJob(t, k, t.jobs[k]) && JobFits(t, k, t.jobs[k]);
    if es != [] {
      var rest, e := es[..|es| - 1], es[|es| - 1];
      var before := Exec(s, rest);
      ExecExact(s, rest);
      ExecFits(s, rest);
      hide StoreFits, Exact, CreatedIn, RemovedIn, AllAwake, CountedWorkflow;
      if k in before.jobs {
        AttemptsAreExact(s, rest, k);
        StepBalances(before, e, k);
      } else {
        AppearsFresh(before, e, k);
      }
      hide Apply;
    }
  }

  lemma AppearsFresh(s: State, e: AtomicEvent, k: string)
    requires Inv(System(s, Idle)) && Exact(s) && k !in s.jobs && k in Apply(s, e).jobs
    ensures Apply(s, e).jobs[k].status == NEW_STATUS
  {
    match e
    case World(ev) =>
      NewJobIsNew(s, ev, k);
    case Reconciled(key) =>
      WorkEffect(s, key);
      hide StoreFits, Exact;
  }

  lemma NewJobIsNew(s: State, e: Event, k: string)
    requires StoreFits(s) && k !in s.jobs && k in Happen(s, e).jobs
    ensures Happen(s, e).jobs[k].status == NEW_STATUS
  {
    if e.Delete? {
      DeleteAddsNothing(s, e.name, k);
    } else {
      hide StoreFits;
    }
  }

  lemma DeleteAddsNothing(s: State, name: string, k: string)
    requires name in s.jobs ==> s.jobs[name].name == name
    requires k !in s.jobs
    ensures k !in DeleteJob(s, name).jobs
  {
  }

  /** The count moves only in the step that submits a new Workflow, and then by one. */
  lemma AttemptsMoveWithCreation(s: State, e: AtomicEvent, k: string)
    requires Attainable(s) && Plain(e) && k in s.jobs && k in Apply(s, e).jobs
    requires Apply(s, e).jobs[k].status.attempts != s.jobs[k].status.attempts
    ensures var t := Apply(s, e); var w := WorkflowName(k, t.jobs[k].status.attempts);
            && e == Reconciled(k)
            && t.jobs[k].status.attempts == s.jobs[k].status.attempts + 1
            && w !in s.workflows && w in t.workflows && t.workflows[w].owner == k
  {
    AttainableFits(s);
    hide Attainable;
    match e
    case World(ev) => HappenOnJob(s, ev, k);
    case Reconciled(key) =>
      WorkEffect(s, key);
      if key != k {
        EffectIsLocal(s, Work(s, key), key, k);
      }
      hide StoreFits, Exact, Admits, Finished, ParkedBy, Work;
  }

  // ----- retry-layer isolation -----

  /** Argo is still busy with the Workflow the job waits for. */
  predicate Settled(s: State, k: string) {
    && k in s.jobs
    && s.jobs[k].IsRunning() && s.jobs[k].finalizer && !s.jobs[k].deleting
    && CountedWorkflow(s.jobs[k]) in s.workflows
    && !IsFinalPhase(s.workflows[CountedWorkflow(s.jobs[k])].phase)
  }

  /** Anything but the end, or the loss, of that Workflow, and the deletion of the job. */
  predicate Churn(e: AtomicEvent, k: string, w: string) {
    e.World? ==>
      && e.e != Delete(k)
      && e.e != RemoveWorkflow(w)
      && (e.e.SetPhase? && e.e.workflow == w ==> !IsFinalPhase(e.e.phase))
  }

  lemma OnlyDeleteMarks(s: State, e: Event, k: string)
    requires StoreFits(s) && k in s.jobs && e != Delete(k)
    ensures k in Happen(s, e).jobs && Happen(s, e).jobs[k] == s.jobs[k]
  {
    if e.Delete? {
      assert e.name in s.jobs ==> s.jobs[e.name].name == e.name;
      hide StoreFits;
      DeleteLeavesOthers(s, e.name, k);
    } else {
      hide StoreFits;
      OutsideKeepsJobs(s, e);
      hide Happen;
    }
  }

  lemma DeleteLeavesOthers(s: State, name: string, k: string)
    requires k in s.jobs && k != name && (name in s.jobs ==> s.jobs[name].name == name)
    ensures k in DeleteJob(s, name).jobs && DeleteJob(s, name).jobs[k] == s.jobs[k]
  {
  }

  lemma OnlyArgoAdvances(s: State, e: Event, w: string)
    requires w in s.workflows && w in Happen(s, e).workflows
    requires IsFinalPhase(Happen(s, e).workflows[w].phase) && !IsFinalPhase(s.workflows[w].phase)
    ensures e.SetPhase? && e.workflow == w && IsFinalPhase(e.phase)
  {
  }

  lemma HappenIsChurn(s: State, e: Event, k: string)
    requires StoreFits(s) && Settled(s, k) && Churn(World(e), k, CountedWorkflow(s.jobs[k]))
    ensures Settled(Happen(s, e), k) && Happen(s, e).jobs[k] == s.jobs[k]
  {
    var w, t := CountedWorkflow(s.jobs[k]), Happen(s, e);
    OnlyDeleteMarks(s, e, k);
    hide StoreFits, CountedWorkflow, Happen;
    if w !in t.workflows {
      HappenLoses(s, e, w);
    } else if IsFinalPhase(t.workflows[w].phase) {
      OnlyArgoAdvances(s, e, w);
    }
  }

  lemma ReconcileIsChurn(s: State, key: string, k: string)
    requires StoreFits(s) && Exact(s) && Settled(s, k) && key in s.queue
    ensures Settled(Work(s, key), k) && Work(s, key).jobs[k] == s.jobs[k]
  {
    var t := Work(s, key);
    WorkEffect(s, key);
    CountedMembership(s, s.jobs[k]);
    assert s.jobs[k].name == k && JobFits(s, k, s.jobs[k]);
    assert ExactJob(s, k, s.jobs[k]);
    if key != k {
      EffectIsLocal(s, t, key, k);
    }
    hide StoreFits, Exact, Admits, ParkedBy, Work, CountedWorkflow, OutcomeFits;
  }

  lemma {:induction false} ChurnKeepsJob(s: State, es: seq<AtomicEvent>, k: string)
    requires Inv(System(s, Idle)) && Exact(s) && Settled(s, k) && AllPlain(es)
    requires forall i :: 0 <= i < |es| ==> Churn(es[i], k, CountedWorkflow(s.jobs[k]))
    ensures Settled(Exec(s, es), k)
    ensures Exec(s, es).jobs[k] == s.jobs[k]
    ensures Inv(System(Exec(s, es), Idle)) && Exact(Exec(s, es))
  {
    if es != [] {
      var rest, e := es[..|es| - 1], es[|es| - 1];
      ChurnKeepsJob(s, rest, k);
      var before := Exec(s, rest);
      ApplyFits(before, e);
      ApplyKeepsExact(before, e);
      match e
      case World(ev) => HappenIsChurn(before, ev, k);
      case Reconciled(key) =>
        if key in before.queue {
          ReconcileIsChurn(before, key, k);
        }
    }
  }

  /**
   From any reachable state, over any history in which Argo has not finished the job's Workflow,
   whatever its steps do inside and whatever happens to other jobs, the job's whole object stays as
   it is: no attempt is consumed and no status field moves.
   */
  lemma StepRetriesConsumeNothing(s: State, es: seq<AtomicEvent>, k: string)
    requires Attainable(s) && AllPlain(es) && Settled(s, k)
    requires forall i :: 0 <= i < |es| ==> Churn(es[i], k, CountedWorkflow(s.jobs[k]))
    ensures Settled(Exec(s, es), k)
    ensures Exec(s, es).jobs[k] == s.jobs[k]
  {
    AttainableFits(s);
    hide Attainable, Exec, Inv, Exact, Settled, Churn;
    ChurnKeepsJob(s, es, k);
  }

  // ----- GPUs really in use -----

  lemma LiveIsCounted(s: State, w: string)
    requires StoreFits(s) && Exact(s) && w in s.workflows && LiveGpus(s)[w] != 0
    ensures var o := s.workflows[w].owner;
            && o in s.jobs && s.jobs[o].IsRunning() && s.jobs[o].name == o
            && w == CountedWorkflow(s.jobs[o]) && LiveGpus(s)[w] == s.jobs[o].spec.gpus
  {
    var o := s.workflows[w].owner;
    assert w in WorkflowsOf(s, o) && ExactJob(s, o, s.jobs[o]) && JobFits(s, o, s.jobs[o]);
    hide StoreFits, CountedWorkflow, OutcomeFits;
  }

  lemma ExactHasNoStray(s: State, w: string)
    requires StoreFits(s) && Exact(s) && w in s.workflows
    ensures StrayGpus(s)[w] == 0
  {
    if LiveGpus(s)[w] != 0 {
      LiveIsCounted(s, w);
      var j := s.jobs[s.workflows[w].owner];
      assert ExactJob(s, j.name, j) && JobFits(s, j.name, j);
      CurrentIsNext(j);
      hide StoreFits, Exact, WorkflowName, ExactJob, OutcomeFits, RecordFits;
    }
  }

  /** GPUs really in use are among those the quota gate counts. */
  lemma LiveWithinUsed(s: State)
    requires StoreFits(s) && Exact(s)
    ensures Sum(LiveGpus(s)) <= Used(s.jobs)
  {
    forall w | w in s.workflows
      ensures StrayGpus(s)[w] == 0
    {
      ExactHasNoStray(s, w);
    }
    hide StoreFits, Exact, LiveGpus, Used;
    LiveWithinUsedAndStray(s);
    hide Holds;
    SumZero(StrayGpus(s));
  }

  /**
   Quota safety over all atomic runs with a fixed quota: GPUs of Workflows still going never exceed
   those of Running jobs, which never exceed the quota.
   */
  lemma RealUsageWithinQuota(s: State, hard: nat32)
    requires AttainableWithin(s, hard)
    ensures Sum(LiveGpus(s)) <= Used(s.jobs) <= hard
  {
    WithinFits(s, hard);
    AttainableFits(s);
    hide AttainableWithin, Attainable, Exact, StoreFits, LiveGpus, Used;
    LiveWithinUsed(s);
  }
}
