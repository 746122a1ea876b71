/**
 The worst a single lost status write costs: while the Workflow nobody counted is still going, every
 failure of the counted one is followed by another submission under the same count.
 */
module StrayLoop {
  import opened Int32
  import opened Model
  import opened Naming
  import opened WorkflowBuilder
  import opened ClusterState
  import opened Operator
  import opened SplitWorker
  import opened SplitSafety
  import opened SplitQuota
  import opened Atomic
  import opened Effects
  import opened AtomicTheorems
  import opened QuotaTheorems
  import opened QuotaOverflow
  import opened SingleJob
  import opened LostWrites

  /** The only job runs under count `a`, with the next attempt's Workflow going beside it. */
  predicate Doubled(t: State, k: string, spec: JobSpec, a: int32, phase: string) {
    && Alone(t, k, spec, a) && t.jobs[k].IsRunning() && 1 <= a <= spec.backoffLimit < MAX
    && var v, w := WorkflowName(k, a), WorkflowName(k, a + 1);
       && v != w && t.workflows.Keys == {v, w}
       && t.workflows[v].phase == phase && t.workflows[w].phase == ""
       && t.workflows[v].owner == k && t.workflows[w].owner == k
  }

  /** Only that next Workflow is left. */
  predicate StrayOnly(t: State, k: string, spec: JobSpec, a: int32) {
    && Alone(t, k, spec, a) && 1 <= a <= spec.backoffLimit < MAX && k in t.queue
    && WorkflowName(k, a) != WorkflowName(k, a + 1)
    && var w := WorkflowName(k, a + 1);
       t.workflows.Keys == {w} && t.workflows[w].phase == "" && t.workflows[w].owner == k
  }

  lemma LoopFails(t: State, k: string, spec: JobSpec, a: int32)
    requires Doubled(t, k, spec, a, "")
    ensures var u := Happen(t, SetPhase(WorkflowName(k, a), "Failed"));
            Doubled(u, k, spec, a, "Failed") && k in u.queue && u.workflows.Keys == t.workflows.Keys
  {
    hide WorkflowName;
  }

  lemma LoopDrops(t: State, k: string, spec: JobSpec, a: int32)
    requires Doubled(t, k, spec, a, "Failed") && k in t.queue
    ensures StrayOnly(Work(t, k), k, spec, a) && Work(t, k).jobs[k].IsWaiting()
  {
    hide WorkflowName, AdmitOrPark, ReconcileTtl, DropLabelled, RefreshQuota;
    var before, j := Dequeue(t, k), t.jobs[k];
    assert CurrentWorkflow(j) == WorkflowName(k, a);
    var u := PutJob(DropWorkflow(before, WorkflowName(k, a)), BackToPending(j));
    assert Operator.EnsureWorkflow(before, j) == (u, Requeue);
  }

  lemma LoopAdopts(t: State, k: string, spec: JobSpec, a: int32)
    requires StrayOnly(t, k, spec, a) && t.jobs[k].IsWaiting()
    ensures StrayOnly(Work(t, k), k, spec, a) && Work(t, k).jobs[k].IsRunning()
  {
    var before, j := Dequeue(t, k), t.jobs[k];
    GateIsOpen(before, k, spec, a);
    var g := if t.quota.None? then j else Granted(j);
    WrapExact(a + 1);
    assert CurrentWorkflow(g) == WorkflowName(k, a + 1);
    hide WorkflowName, CurrentAttempt, CurrentWorkflow, AdmitOrPark, ReconcileTtl, DropLabelled, RefreshQuota;
    assert Operator.EnsureWorkflow(before, g) == (PutJob(before, Adopted(g)), Done);
    hide Operator.EnsureWorkflow;
  }

  lemma LoopSubmits(t: State, k: string, spec: JobSpec, a: int32)
    requires StrayOnly(t, k, spec, a) && t.jobs[k].IsRunning()
    ensures Doubled(Work(t, k), k, spec, a, "")
    ensures Work(t, k).workflows.Keys == t.workflows.Keys + {WorkflowName(k, a)}
  {
    var before, j := Dequeue(t, k), t.jobs[k];
    var v := WorkflowName(k, a);
    assert CurrentAttempt(j) == (a, false) && CurrentWorkflow(j) == v;
    var wf := WorkflowFor(j, a, t.templateName);
    assert wf.owner == k && wf.phase == "";
    EnsureSubmits(before, j);
    var u := PutJob(PutWorkflow(before, v, wf), Started(j, before.now));
    assert Operator.EnsureWorkflow(before, j) == (RefreshQuota(u), Done);
    RefreshKeepsJobs(u);
    var (x, result) := Operator.EnsureWorkflow(before, j);
    SettleKeepsAll(x, k, result);
    assert Work(t, k) == Settle(x, k, result);
    hide CurrentAttempt, CurrentWorkflow, WorkflowName, WorkflowFor, RefreshQuota, Operator.EnsureWorkflow, Work;
    hide Settle;
    assert Work(t, k).jobs == t.jobs[k := Started(j, before.now)];
  }

  lemma SettleKeepsAll(t: State, key: string, result: Result)
    ensures var u := Settle(t, key, result); u.jobs == t.jobs && u.workflows == t.workflows && u.quota == t.quota
  {
  }

  // ----- round after round -----

  /** The counted Workflow fails; the job drops it, adopts the other one, and submits it again. */
  function Round(k: string, a: int32): seq<AtomicEvent> {
    [World(SetPhase(WorkflowName(k, a), "Failed")), Reconciled(k), Reconciled(k), Reconciled(k)]
  }

  function Rounds(k: string, a: int32, n: nat): seq<AtomicEvent> {
    if n == 0 then [] else Rounds(k, a, n - 1) + Round(k, a)
  }

  lemma LedgerSnoc(t: State, es: seq<AtomicEvent>, e: AtomicEvent, k: string)
    requires k in Exec(t, es).jobs
    ensures Exec(t, es + [e]) == Apply(Exec(t, es), e)
    ensures LedgerOf(t, es + [e], k).created ==
            LedgerOf(t, es, k).created + CreatedIn(Exec(t, es), Apply(Exec(t, es), e), k)
    ensures LedgerOf(t, es + [e], k).removed == LedgerOf(t, es, k).removed + RemovedIn(Exec(t, es), e, k)
  {
    hide Apply, CreatedIn, RemovedIn;
    ExecSnoc(t, es, e);
    assert (es + [e])[..|es|] == es && (es + [e])[|es|] == e;
    hide Exec;
  }

  /** The stores one round goes through. */
  lemma RoundStates(s0: State, k: string, spec: JobSpec, a: int32) returns (s1: State, s2: State, s3: State, s4: State)
    requires Doubled(s0, k, spec, a, "")
    ensures s1 == Happen(s0, SetPhase(WorkflowName(k, a), "Failed"))
    ensures s2 == Work(s1, k) && s3 == Work(s2, k) && s4 == Work(s3, k)
    ensures k in s0.jobs && k in s1.jobs && k in s2.jobs && k in s3.jobs
    ensures Doubled(s4, k, spec, a, "")
    ensures CreatedIn(s0, s1, k) == CreatedIn(s1, s2, k) == CreatedIn(s2, s3, k) == 0 && CreatedIn(s3, s4, k) == 1
  {
    hide Happen, Work, WorkflowName, CreatedIn;
    s1 := Happen(s0, SetPhase(WorkflowName(k, a), "Failed"));
    s2, s3, s4 := Work(s1, k), Work(Work(s1, k), k), Work(Work(Work(s1, k), k), k);
    LoopFails(s0, k, spec, a);
    LoopDrops(s1, k, spec, a);
    LoopAdopts(s2, k, spec, a);
    LoopSubmits(s3, k, spec, a);
    CreatedNone(s0, s1, k);
    CreatedNone(s1, s2, k);
    CreatedNone(s2, s3, k);
    CreatedOne(s3, s4, k, WorkflowName(k, a));
  }

  lemma OneRound(t: State, es: seq<AtomicEvent>, k: string, spec: JobSpec, a: int32)
    requires Doubled(Exec(t, es), k, spec, a, "")
    ensures Doubled(Exec(t, es + Round(k, a)), k, spec, a, "")
    ensures LedgerOf(t, es + Round(k, a), k) == Ledger(LedgerOf(t, es, k).created + 1, LedgerOf(t, es, k).removed)
  {
    hide Exec, Happen, Work, WorkflowName, LedgerOf, CreatedIn, Doubled;
    var s1, s2, s3, s4 := RoundStates(Exec(t, es), k, spec, a);
    var fails := World(SetPhase(WorkflowName(k, a), "Failed"));
    LedgerSnoc(t, es, fails, k);
    LedgerSnoc(t, es + [fails], Reconciled(k), k);
    LedgerSnoc(t, es + [fails] + [Reconciled(k)], Reconciled(k), k);
    LedgerSnoc(t, es + [fails] + [Reconciled(k)] + [Reconciled(k)], Reconciled(k), k);
    assert es + Round(k, a) == es + [fails] + [Reconciled(k)] + [Reconciled(k)] + [Reconciled(k)];
  }

  lemma NoRounds(t: State, k: string)
    ensures Exec(t, []) == t && LedgerOf(t, [], k) == Ledger(0, 0)
  {
  }

  lemma {:induction false} ManyRounds(t: State, k: string, spec: JobSpec, a: int32, n: nat)
    requires Doubled(t, k, spec, a, "")
    ensures Doubled(Exec(t, Rounds(k, a, n)), k, spec, a, "")
    ensures LedgerOf(t, Rounds(k, a, n), k) == Ledger(n, 0)
  {
    hide Doubled, Round, Exec, LedgerOf;
    if n == 0 {
      NoRounds(t, k);
    } else {
      ManyRounds(t, k, spec, a, n - 1);
      OneRound(t, Rounds(k, a, n - 1), k, spec, a);
    }
  }

  lemma OutcomeIsDoubled(u: State, t: State, k: string, spec: JobSpec)
    requires Waits(u, k, spec, 1) && LostOutcome(u, t, k) && SameLimit(u, t) && 1 <= spec.backoffLimit < MAX
    ensures Doubled(t, k, spec, 1, "")
  {
    AttemptNamesDiffer(k, 1);
    hide WorkflowName;
    var v, w := WorkflowName(k, 1), WorkflowName(k, 2);
    assert v in WorkflowsOf(t, k) && w in WorkflowsOf(t, k);
    assert t.jobs.Keys == {k};
    assert forall x :: x in t.workflows ==> x in WorkflowsOf(t, k);
    assert t.workflows.Keys == {v, w};
  }

  /**
   One lost status write, and then no failure at all: for every `n` there is a run of uninterrupted
   reconciles in which a job that counts a single attempt is submitted `n` times more.
   */
  lemma OneLossManySubmissions(s: State, k: string, spec: JobSpec, n: nat) returns (ses: seq<SplitEvent>)
    requires IsInitial(s) && k != "" && spec.Valid() && 1 <= spec.backoffLimit < MAX
    requires s.quota.Some? ==> spec.gpus <= s.quota.value.hardGPUs
    ensures Losses(ses) == 1 && SameOutside(OnceFailed(k, spec), ses)
    ensures var sys := Run(System(s, Idle), ses); var es := Rounds(k, 1, n);
            && sys.worker.Idle?
            && LedgerOf(sys.store, es, k) == Ledger(n, 0)
            && k in Exec(sys.store, es).jobs && Exec(sys.store, es).jobs[k].status.attempts == 1
  {
    hide Run, Exec, LedgerOf, WorkflowName;
    ses := DoubleRun(s, k, spec);
    var t := Run(System(s, Idle), ses).store;
    OutcomeIsDoubled(Exec(s, OnceFailed(k, spec)), t, k, spec);
    hide Rounds, OnceFailed;
    ManyRounds(t, k, spec, 1, n);
    hide Losses, AllCountable;
  }
}
