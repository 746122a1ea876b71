/**
 When attempts count submissions, and when submissions stay within the limit: over all interleaved runs,
 exactly while nothing cuts a reconcile short, and exactly while nothing stops one half way.
 */
module LedgerTheorems {
  import opened Int32
  import opened Model
  import opened Naming
  import opened WorkflowBuilder
  import opened ClusterState
  import opened Operator
  import opened SplitWorker
  import opened SplitInvariant
  import opened SplitSafety
  import opened SplitTheorems
  import opened Interruptions
  import opened Atomic
  import opened Effects
  import opened AtomicTheorems
  import opened QuotaTheorems
  import opened QuotaOverflow
  import opened SingleJob
  import opened LostWrites
  import opened SplitLedger
  import opened CutShort

  // ----- ledgers of runs that are put together -----

  predicate NoCreations(es: seq<SplitEvent>) {
    forall i :: 0 <= i < |es| && es[i].Outside? ==> !es[i].e.Create?
  }

  predicate NoRemovals(es: seq<SplitEvent>) {
    forall i :: 0 <= i < |es| && es[i].Outside? ==> !es[i].e.RemoveWorkflow?
  }

  /** A Workflow that stays keeps its owner. */
  lemma StepKeepsOwners(sys: System, e: SplitEvent, w: string)
    requires w in sys.store.workflows && w in Step(sys, e).store.workflows
    ensures Step(sys, e).store.workflows[w].owner == sys.store.workflows[w].owner
  {
    match e
    case Outside(ev) =>
      OutsideWorkflows(sys.store, ev);
      hide Happen;
    case Begin(_) =>
    case Invoke(_) =>
      if sys.worker.Busy? {
        var Busy(key, call) := sys.worker;
        var (t, next) := Perform(sys.store, key, call);
        PerformKeepsOwners(sys.store, key, call, w);
        hide Perform, Proceed, AfterFailure;
        ProceedKeepsJobs(t, key, next);
        ProceedKeepsJobs(t, key, AfterFailure(call));
        ProceedKeepsJobs(sys.store, key, AfterFailure(call));
      }
  }

  lemma PerformKeepsOwners(s: State, key: string, call: Call, w: string)
    requires w in s.workflows
    ensures var t := Perform(s, key, call).0; w in t.workflows ==> t.workflows[w] == s.workflows[w]
  {
    hide CurrentWorkflow, CurrentAttempt, WorkflowFor, Started, GateRefuses, UsedBesides, AfterFetch, AfterWorkflow;
  }

  /** What appears over a stretch of run appears in one of its steps. */
  lemma NewInOneStep(s: State, sys: System, e: SplitEvent, k: string)
    ensures CreatedIn(s, Step(sys, e).store, k) <=
            CreatedIn(s, sys.store, k) + CreatedIn(sys.store, Step(sys, e).store, k)
  {
    var t, u := sys.store, Step(sys, e).store;
    var early, late := WorkflowsOf(t, k) - s.workflows.Keys, WorkflowsOf(u, k) - t.workflows.Keys;
    forall w | w in WorkflowsOf(u, k) - s.workflows.Keys
      ensures w in early + late
    {
      if w in t.workflows {
        StepKeepsOwners(sys, e, w);
      }
      hide Step;
    }
    hide Step;
    SizeOfCover(WorkflowsOf(u, k) - s.workflows.Keys, early, late);
  }

  lemma SizeOfCover(a: set<string>, b: set<string>, c: set<string>)
    requires a <= b + c
    ensures |a| <= |b| + |c|
  {
    SizeOfSubset(a, b + c);
    assert b + c == b + (c - b);
    SizeOfSubset(c - b, c);
  }

  lemma {:induction false} SizeOfSubset(a: set<string>, b: set<string>)
    requires a <= b
    ensures |a| <= |b|
  {
    if a != {} {
      var x :| x in a;
      SizeOfSubset(a - {x}, b - {x});
    }
  }

  /** Over a stretch without creations, the ledger of a job goes on by at least what appears. */
  lemma {:induction false} LedgerGrows(sys: System, xs: seq<SplitEvent>, ys: seq<SplitEvent>, k: string)
    requires Inv(Run(sys, xs)) && AllCountable(ys) && NoCreations(ys) && NoRemovals(ys)
    requires k in Run(sys, xs + ys).store.jobs
    ensures k in Run(sys, xs).store.jobs && Inv(Run(sys, xs + ys))
    ensures SplitLedgerOf(sys, xs + ys, k).created >=
            SplitLedgerOf(sys, xs, k).created + CreatedIn(Run(sys, xs).store, Run(sys, xs + ys).store, k)
    ensures SplitLedgerOf(sys, xs + ys, k).removed == SplitLedgerOf(sys, xs, k).removed
  {
    hide Inv, Run, Step, CreatedIn, Entered, SplitLedgerOf;
    if ys == [] {
      assert xs + ys == xs;
      CreatedNone(Run(sys, xs).store, Run(sys, xs).store, k);
    } else {
      var rest, e := ys[..|ys| - 1], ys[|ys| - 1];
      assert ys == rest + [e] && xs + ys == xs + rest + [e];
      var before := Run(sys, xs + rest);
      SplitWorker.RunAppend(sys, xs, rest);
      RunKeepsInv(Run(sys, xs), rest);
      RunSnoc(sys, xs + rest, e);
      StepOnSpecs(before, e, k);
      StepKeeps(before, e);
      LedgerGrows(sys, xs, rest, k);
      LedgerSnoc(sys, xs + rest, e, k);
      NewInOneStep(Run(sys, xs).store, before, e, k);
    }
  }

  lemma LedgerSnoc(sys: System, es: seq<SplitEvent>, e: SplitEvent, k: string)
    requires k in Run(sys, es).store.jobs && (e.Outside? ==> !e.e.RemoveWorkflow?)
    ensures var l, l' := SplitLedgerOf(sys, es, k), SplitLedgerOf(sys, es + [e], k);
            l'.removed == l.removed
            && l'.created == l.created + CreatedIn(Run(sys, es).store, Step(Run(sys, es), e).store, k)
  {
    assert (es + [e])[..|es|] == es && (es + [e])[|es|] == e;
    hide Run, Step, CreatedIn;
  }

  // ----- one job, cut short -----

  function LimitedTo(limit: nat32): JobSpec {
    PlainSpec(0).(backoffLimit := limit)
  }

  /** The job waits for its first attempt, and a Workflow of it is there uncounted. */
  predicate Uncounted(s: State, k: string, spec: JobSpec, phase: string) {
    && k != "" && s.jobs.Keys == {k} && k in s.queue
    && (s.quota.Some? ==> spec.gpus <= s.quota.value.hardGPUs)
    && var j, w := s.jobs[k], WorkflowName(k, 1);
       && j.name == k && j.finalizer && j.spec == spec && j.status.attempts == 0 && j.IsWaiting()
       && s.workflows.Keys == {w} && s.workflows[w].phase == phase && s.workflows[w].owner == k
  }

  lemma CutLeavesUncounted(s: State, k: string, spec: JobSpec, cut: Cut)
    requires Waits(s, k, spec, 0)
    ensures var u := AfterCut(s, k, cut);
            Uncounted(u, k, spec, "") && (!cut.Deletion? ==> !u.jobs[k].deleting) && CreatedIn(s, u, k) == 1
  {
    hide WorkflowName, CurrentWorkflow, AfterCut, CreatedIn;
    WaitingPasses(s, k, spec, 0);
    CutShape(s, k, cut);
    CreatedOne(s, AfterCut(s, k, cut), k, WorkflowName(k, 1));
    hide Admits, AtGate;
  }

  /** It fails uncounted, is dropped, and the job waits for its first attempt again. */
  lemma UncountedFails(s: State, k: string, spec: JobSpec)
    requires Uncounted(s, k, spec, "")
    ensures var t := Happen(s, SetPhase(WorkflowName(k, 1), "Failed"));
            Uncounted(t, k, spec, "Failed") && t.jobs == s.jobs
  {
    hide WorkflowName;
  }

  lemma UncountedIsDropped(s: State, k: string, spec: JobSpec)
    requires Uncounted(s, k, spec, "Failed") && !s.jobs[k].deleting
    ensures Waits(Work(s, k), k, spec, 0)
  {
    hide WorkflowName, ReconcileTtl, DropLabelled, RefreshQuota;
    var before, j := Dequeue(s, k), s.jobs[k];
    GateIsOpen(before, k, spec, 0);
    var g := if s.quota.None? then j else Granted(j);
    assert CurrentWorkflow(g) == WorkflowName(k, 1) by {
      assert CurrentAttempt(g) == (1, true);
    }
    hide CurrentWorkflow, CurrentAttempt;
    var u := PutJob(DropWorkflow(before, WorkflowName(k, 1)), BackToPending(g));
    assert Operator.EnsureWorkflow(before, g) == (u, Requeue);
    assert u.workflows == map[];
    hide Operator.EnsureWorkflow, AdmitOrPark;
  }

  // ----- runs -----

  predicate LimitsAre(es: seq<SplitEvent>, limit: nat32) {
    forall i :: 0 <= i < |es| && es[i].Outside? && es[i].e.Create? ==> es[i].e.spec.backoffLimit == limit
  }

  /** Rounds that can be put together. */
  predicate Fine(es: seq<SplitEvent>, limit: nat32, f: Faults) {
    LimitsAre(es, limit) && AllPermitted(es, f) && AllCountable(es) && NoRemovals(es)
  }

  lemma FineAppend(xs: seq<SplitEvent>, ys: seq<SplitEvent>, limit: nat32, f: Faults)
    requires Fine(xs, limit, f) && Fine(ys, limit, f)
    ensures Fine(xs + ys, limit, f)
  {
    hide Permitted, Countable;
  }

  lemma WorkerIsFine(es: seq<SplitEvent>, limit: nat32, f: Faults)
    requires AllWorker(es) && AllUncut(es)
    ensures Fine(es, limit, f) && NoCreations(es)
  {
  }

  lemma CutIsFine(s: State, k: string, limit: nat32, f: Faults, cut: Cut)
    requires Allows(f, cut)
    ensures Fine(CutRound(s, k, cut), limit, f) && NoCreations(CutRound(s, k, cut))
  {
    CutRoundPermitted(s, k, f, cut);
    hide CutRound, Permitted, Allows, Countable;
  }

  /** A job is submitted and claimed. */
  lemma ClaimedRun(s: State, limit: nat32, f: Faults) returns (es: seq<SplitEvent>)
    requires IsInitial(s) && limit < MAX
    ensures Fine(es, limit, f)
    ensures Run(System(s, Idle), es).worker.Idle? && Waits(Run(System(s, Idle), es).store, "job", LimitedTo(limit), 0)
  {
    var k, spec := "job", LimitedTo(limit);
    var created := Happen(s, Create(k, spec));
    assert k in created.queue && created.jobs[k].name == k;
    assert Fine([Outside(Create(k, spec))], limit, f);
    assert Step(System(s, Idle), Outside(Create(k, spec))) == System(created, Idle);
    ClaimedWaits(s, k, spec);
    hide Happen, Run, Waits, Work, Step, Fine, LimitedTo;
    var claim := UndisturbedRound(created, k);
    RunOne(System(s, Idle), Outside(Create(k, spec)));
    SplitWorker.RunAppend(System(s, Idle), [Outside(Create(k, spec))], claim);
    es := [Outside(Create(k, spec))] + claim;
    WorkerIsFine(claim, limit, f);
    FineAppend([Outside(Create(k, spec))], claim, limit, f);
  }

  /** A run that cuts the job's next submission short. */
  lemma CutOnce(s: State, past: seq<SplitEvent>, limit: nat32, f: Faults, cut: Cut) returns (es: seq<SplitEvent>)
    requires IsInitial(s) && limit < MAX && Allows(f, cut) && Fine(past, limit, f)
    requires var sys := Run(System(s, Idle), past); sys.worker.Idle? && Waits(sys.store, "job", LimitedTo(limit), 0)
    ensures Fine(es, limit, f) && Run(System(s, Idle), es).worker.Idle?
    ensures var t := Run(System(s, Idle), es).store;
            Uncounted(t, "job", LimitedTo(limit), "") && (!cut.Deletion? ==> !t.jobs["job"].deleting)
    ensures SplitLedgerOf(System(s, Idle), es, "job").created >= SplitLedgerOf(System(s, Idle), past, "job").created + 1
    ensures SplitLedgerOf(System(s, Idle), es, "job").removed == SplitLedgerOf(System(s, Idle), past, "job").removed
  {
    var k, spec, c := "job", LimitedTo(limit), Run(System(s, Idle), past).store;
    es := past + CutRound(c, k, cut);
    RunKeeps(s, past);
    hide Run, Waits, CutRound, AfterCut, LimitedTo, Inv, SplitLedgerOf, Uncounted, CreatedIn, Allows;
    WaitingPasses(c, k, spec, 0);
    CutIsFine(c, k, limit, f, cut);
    FineAppend(past, CutRound(c, k, cut), limit, f);
    CutRoundLeaves(c, k, cut);
    SplitWorker.RunAppend(System(s, Idle), past, CutRound(c, k, cut));
    CutLeavesUncounted(c, k, spec, cut);
    UncountedHasJob(AfterCut(c, k, cut), k, spec, "");
    hide Fine, CanRecheck, Admits, CurrentWorkflow;
    LedgerGrows(System(s, Idle), past, CutRound(c, k, cut), k);
  }

  lemma UncountedHasJob(s: State, k: string, spec: JobSpec, phase: string)
    requires Uncounted(s, k, spec, phase)
    ensures k in s.jobs && k in s.queue && s.jobs[k].name == k
    ensures s.jobs[k].status.attempts == 0 && s.jobs[k].IsWaiting() && s.jobs[k].spec == spec
  {
    hide WorkflowName;
  }

  // ----- attempts count submissions -----

  /** Whenever the operator is idle, attempts are the Workflows submitted, but for outside removals. */
  ghost predicate CountsSubmissions(s: State, es: seq<SplitEvent>, k: string) {
    var sys := Run(System(s, Idle), es);
    sys.worker.Idle? && k in sys.store.jobs ==>
      LedgerFits(sys.store, sys.store.jobs[k], SplitLedgerOf(System(s, Idle), es, k))
  }

  /**
   Whatever limit, short of the largest int32, its jobs have: a namespace counts its submissions in all
   runs iff no call may be refused, no reply lost, the operator not restarted and no job deleted.
   */
  lemma AttemptsCountSubmissionsIff(s: State, limit: nat32, f: Faults)
    requires IsInitial(s) && limit < MAX
    ensures (forall es, k :: LimitsAre(es, limit) && AllPermitted(es, f) ==> CountsSubmissions(s, es, k))
            <==> f == NO_FAULTS
  {
    hide CountsSubmissions, LimitsAre, AllPermitted;
    if f == NO_FAULTS {
      forall es, k | LimitsAre(es, limit) && AllPermitted(es, f)
        ensures CountsSubmissions(s, es, k)
      {
        UncutCountsSubmissions(s, es, limit, k);
      }
    } else {
      var es := MiscountedRun(s, limit, f);
    }
  }

  lemma UncutCountsSubmissions(s: State, es: seq<SplitEvent>, limit: nat32, k: string)
    requires IsInitial(s) && LimitsAre(es, limit) && limit < MAX && AllPermitted(es, NO_FAULTS)
    ensures CountsSubmissions(s, es, k)
  {
    assert AllCountable(es);
    hide Run, LedgerFits, SplitLedgerOf;
    var sys := Run(System(s, Idle), es);
    if sys.worker.Idle? && k in sys.store.jobs {
      UncutAttemptsAreExact(s, es, k);
    }
  }

  /** The failing run: the first submission is cut short. */
  lemma MiscountedRun(s: State, limit: nat32, f: Faults) returns (es: seq<SplitEvent>)
    requires IsInitial(s) && limit < MAX && f != NO_FAULTS
    ensures LimitsAre(es, limit) && AllPermitted(es, f) && !CountsSubmissions(s, es, "job")
  {
    hide Run, Waits, LimitedTo, SplitLedgerOf, Uncounted, Allows, SomeCut;
    var before := ClaimedRun(s, limit, f);
    es := CutOnce(s, before, limit, f, SomeCut(f));
    UncountedHasJob(Run(System(s, Idle), es).store, "job", LimitedTo(limit), "");
    hide LimitsAre, AllPermitted, AllCountable;
    NothingRemoved(System(s, Idle), es, "job");
  }

  lemma {:induction false} NothingRemoved(sys: System, es: seq<SplitEvent>, k: string)
    requires NoRemovals(es)
    ensures SplitLedgerOf(sys, es, k).removed == 0
  {
    if es != [] {
      NothingRemoved(sys, es[..|es| - 1], k);
      hide Run, CreatedIn;
    }
  }

  // ----- submissions stay within the limit -----

  ghost predicate SubmitsWithinLimit(s: State, es: seq<SplitEvent>, k: string) {
    var sys := Run(System(s, Idle), es);
    k in sys.store.jobs ==> Capped(sys.store.jobs[k], SplitLedgerOf(System(s, Idle), es, k))
  }

  /**
   Whatever limit, short of the largest int32, its jobs have: a namespace submits none more than
   `backoffLimit + 1` times, but for outside removals, at every moment of all runs, iff nothing may stop a
   reconcile half way. Deletions are no matter.
   */
  lemma SubmissionsWithinLimitIff(s: State, limit: nat32, f: Faults)
    requires IsInitial(s) && limit < MAX
    ensures (forall es, k :: LimitsAre(es, limit) && AllPermitted(es, f) ==> SubmitsWithinLimit(s, es, k))
            <==> !f.CanStop()
  {
    hide SubmitsWithinLimit, LimitsAre, AllPermitted;
    if !f.CanStop() {
      forall es, k | LimitsAre(es, limit) && AllPermitted(es, f)
        ensures SubmitsWithinLimit(s, es, k)
      {
        SteadySubmits(s, es, limit, f, k);
      }
    } else {
      var es := OversubmittedRun(s, limit, f);
    }
  }

  lemma SteadySubmits(s: State, es: seq<SplitEvent>, limit: nat32, f: Faults, k: string)
    requires IsInitial(s) && LimitsAre(es, limit) && limit < MAX && AllPermitted(es, f) && !f.CanStop()
    ensures SubmitsWithinLimit(s, es, k)
  {
    assert AllCountable(es);
    hide Run, Capped, SplitLedgerOf;
    if k in Run(System(s, Idle), es).store.jobs {
      SubmissionsStayCapped(s, es, k, f);
    }
  }

  /** The uncounted Workflow fails, and the job is back where it was. */
  lemma FailUncounted(s: State, past: seq<SplitEvent>, limit: nat32, f: Faults) returns (es: seq<SplitEvent>)
    requires IsInitial(s) && limit < MAX && Fine(past, limit, f)
    requires var sys := Run(System(s, Idle), past);
             sys.worker.Idle? && Uncounted(sys.store, "job", LimitedTo(limit), "") && !sys.store.jobs["job"].deleting
    ensures Fine(es, limit, f) && Run(System(s, Idle), es).worker.Idle?
    ensures Waits(Run(System(s, Idle), es).store, "job", LimitedTo(limit), 0)
    ensures SplitLedgerOf(System(s, Idle), es, "job").created >= SplitLedgerOf(System(s, Idle), past, "job").created
  {
    hide Run, Waits, LimitedTo, Inv, SplitLedgerOf, Uncounted, Fine, WorkflowName, AllCountable;
    RunKeeps(s, past) by {
      FineIsCountable(past, limit, f);
    }
    var round := FailRound(Run(System(s, Idle), past).store, LimitedTo(limit), limit, f);
    es := past + round;
    SplitWorker.RunAppend(System(s, Idle), past, round);
    FineAppend(past, round, limit, f);
    StretchGrows(s, past, round, limit, f, LimitedTo(limit));
  }

  lemma FineIsCountable(es: seq<SplitEvent>, limit: nat32, f: Faults)
    requires Fine(es, limit, f)
    ensures AllCountable(es)
  {
  }

  lemma FailRound(c: State, spec: JobSpec, limit: nat32, f: Faults) returns (round: seq<SplitEvent>)
    requires Uncounted(c, "job", spec, "") && !c.jobs["job"].deleting
    ensures Fine(round, limit, f) && NoCreations(round)
    ensures Run(System(c, Idle), round).worker.Idle? && Waits(Run(System(c, Idle), round).store, "job", spec, 0)
  {
    var k, fails := "job", Outside(SetPhase(WorkflowName("job", 1), "Failed"));
    var failed := Happen(c, fails.e);
    assert Step(System(c, Idle), fails) == System(failed, Idle);
    assert Fine([fails], limit, f) && NoCreations([fails]);
    hide Run, Waits, Uncounted, Happen, Step, Work, Fine, WorkflowName;
    UncountedFails(c, k, spec);
    UncountedHasJob(failed, k, spec, "Failed");
    UncountedHasJob(c, k, spec, "");
    UncountedIsDropped(failed, k, spec);
    var drop := UndisturbedRound(failed, k);
    WorkerIsFine(drop, limit, f);
    FineAppend([fails], drop, limit, f);
    round := [fails] + drop;
    RunOne(System(c, Idle), fails);
    SplitWorker.RunAppend(System(c, Idle), [fails], drop);
  }

  lemma StretchGrows(s: State, past: seq<SplitEvent>, ys: seq<SplitEvent>, limit: nat32, f: Faults, spec: JobSpec)
    requires Inv(Run(System(s, Idle), past)) && Fine(ys, limit, f) && NoCreations(ys)
    requires Waits(Run(System(s, Idle), past + ys).store, "job", spec, 0)
    ensures SplitLedgerOf(System(s, Idle), past + ys, "job").created >=
            SplitLedgerOf(System(s, Idle), past, "job").created
  {
    hide Run, Inv, SplitLedgerOf, CreatedIn;
    LedgerGrows(System(s, Idle), past, ys, "job");
  }

  /** Round after round, nothing is ever counted. */
  lemma {:induction false} ManyUncounted(s: State, limit: nat32, f: Faults, cut: Cut, n: nat)
    returns (es: seq<SplitEvent>)
    requires IsInitial(s) && limit < MAX && Allows(f, cut) && !cut.Deletion?
    ensures Fine(es, limit, f) && Run(System(s, Idle), es).worker.Idle?
    ensures Waits(Run(System(s, Idle), es).store, "job", LimitedTo(limit), 0)
    ensures SplitLedgerOf(System(s, Idle), es, "job").created >= n
  {
    hide Run, Waits, LimitedTo, SplitLedgerOf, Uncounted, Allows, Fine;
    if n == 0 {
      es := ClaimedRun(s, limit, f);
    } else {
      var before := ManyUncounted(s, limit, f, cut, n - 1);
      var cutOff := CutOnce(s, before, limit, f, cut);
      es := FailUncounted(s, cutOff, limit, f);
    }
  }

  /** The failing run: every submission is cut short and fails, and so can the next. */
  lemma OversubmittedRun(s: State, limit: nat32, f: Faults) returns (es: seq<SplitEvent>)
    requires IsInitial(s) && limit < MAX && f.CanStop()
    ensures LimitsAre(es, limit) && AllPermitted(es, f) && !SubmitsWithinLimit(s, es, "job")
  {
    hide Run, SplitLedgerOf, Allows, SomeCut;
    es := ManyUncounted(s, limit, f, SomeCut(f), limit + 2);
    hide LimitsAre, AllPermitted, AllCountable;
    NothingRemoved(System(s, Idle), es, "job");
  }
}
