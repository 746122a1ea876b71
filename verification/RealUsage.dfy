/**
 When GPUs really in use can exceed a fixed quota. The Running sum never does; but a reconcile that is
 cut short between creating a Workflow and recording it leaves a Workflow that nobody counts.
 */
module RealUsage {
  import opened Int32
  import opened Model
  import opened Sums
  import opened Naming
  import opened WorkflowBuilder
  import opened ClusterState
  import opened Operator
  import opened SplitWorker
  import opened SplitInvariant
  import opened SplitSafety
  import opened SplitQuota
  import opened SplitTheorems
  import opened Atomic
  import opened LiveUsage
  import opened QuotaTheorems
  import opened QuotaOverflow
  import opened Effects
  import opened SingleJob
  import opened LostWrites
  import opened Interruptions
  import opened CutShort
  import opened UncutRuns

  /** Runs under the quota `hard` with requests up to `largest`. */
  predicate Bounded(es: seq<SplitEvent>, hard: nat32, largest: nat32) {
    && SplitUnderQuota(es, hard)
    && forall i :: 0 <= i < |es| ==> BoundedEvent(es[i], largest)
  }

  predicate BoundedEvent(e: SplitEvent, largest: nat32) {
    e.Outside? && e.e.Create? ==> e.e.spec.gpus <= largest
  }

  // ----- no Workflow asks for more than the quota -----

  ghost predicate Sized(s: State, hard: nat32) {
    forall w :: w in s.workflows && s.workflows[w].owner in s.jobs ==> s.jobs[s.workflows[w].owner].spec.gpus <= hard
  }

  lemma OutsideSizes(s: State, e: Event, hard: nat32)
    requires StoreFits(s) && Sized(s, hard)
    ensures Sized(Happen(s, e), hard)
  {
    var t := Happen(s, e);
    OutsideWorkflows(s, e);
    assert forall w :: w in s.workflows ==> s.workflows[w].owner in s.jobs;
    hide Happen, StoreFits;
    forall k | k in t.jobs && k in s.jobs
      ensures t.jobs[k].spec == s.jobs[k].spec
    {
      HappenOnJob(s, e, k);
    }
  }

  lemma CallOnWorkflows(s: State, key: string, call: Call, w: string)
    requires CallFits(s, key, call) && w in Perform(s, key, call).0.workflows
    ensures var wf := Perform(s, key, call).0.workflows[w];
            || (w in s.workflows && wf.owner == s.workflows[w].owner)
            || (call.CreateWorkflow? && wf.owner == key)
  {
    RefreshKeepsJobs(s);
    hide JobFits, RefreshQuota, AfterFetch, AfterWorkflow, GateRefuses, UsedBesides, CurrentWorkflow, Parameters;
  }

  lemma CreatorFits(s: State, key: string, call: Call, hard: nat32)
    requires CallFits(s, key, call) && call.CreateWorkflow? && AdmissionFits(s, call, hard) && UsageFits(s, hard)
    ensures key in s.jobs && s.jobs[key].spec.gpus <= hard
  {
    if key in s.jobs {
      UsedSplit(s.jobs, key);
    }
    hide JobFits, Used, UsedBesides;
  }

  lemma CallSizes(s: State, key: string, call: Call, hard: nat32)
    requires StoreFits(s) && CallFits(s, key, call) && QuotaFits(System(s, Busy(key, call)), hard)
    requires Sized(s, hard)
    ensures Sized(Perform(s, key, call).0, hard)
  {
    var t := Perform(s, key, call).0;
    assert forall w :: w in s.workflows ==> s.workflows[w].owner in s.jobs;
    if call.CreateWorkflow? {
      CreatorFits(s, key, call, hard);
    }
    hide Perform, StoreFits, CallFits, QuotaFits;
    forall k | k in t.jobs
      ensures k in s.jobs && t.jobs[k].spec == s.jobs[k].spec
    {
      CallOnSpecs(s, key, call, k);
    }
    forall w | w in t.workflows && t.workflows[w].owner in t.jobs
      ensures t.jobs[t.workflows[w].owner].spec.gpus <= hard
    {
      CallOnWorkflows(s, key, call, w);
    }
  }

  lemma SameSizes(s: State, t: State, hard: nat32)
    requires Sized(s, hard) && t.jobs == s.jobs && t.workflows == s.workflows
    ensures Sized(t, hard)
  {
  }

  lemma InvokeSizes(s: State, key: string, call: Call, outcome: Outcome, hard: nat32)
    requires StoreFits(s) && CallFits(s, key, call) && QuotaFits(System(s, Busy(key, call)), hard)
    requires Sized(s, hard)
    ensures Sized(Step(System(s, Busy(key, call)), Invoke(outcome)).store, hard)
  {
    hide Perform, StoreFits, CallFits, QuotaFits, Sized, Proceed, AfterFailure;
    CallSizes(s, key, call, hard);
    var (t, next) := Perform(s, key, call);
    match outcome
    case Ok => ProceedSizes(t, key, next, hard);
    case Refused => ProceedSizes(s, key, AfterFailure(call), hard);
    case ReplyLost => ProceedSizes(t, key, AfterFailure(call), hard);
  }

  lemma StepSizes(sys: System, e: SplitEvent, hard: nat32)
    requires Inv(sys) && QuotaFits(sys, hard) && Sized(sys.store, hard)
    ensures Sized(Step(sys, e).store, hard)
  {
    match e
    case Outside(ev) => OutsideSizes(sys.store, ev, hard);
    case Begin(key) => SameSizes(sys.store, Dequeue(sys.store, key), hard);
    case Invoke(outcome) =>
      if sys.worker.Busy? {
        InvokeSizes(sys.store, sys.worker.key, sys.worker.call, outcome, hard);
      }
  }

  lemma ProceedSizes(t: State, key: string, next: Next, hard: nat32)
    requires Sized(t, hard)
    ensures Sized(Proceed(t, key, next).store, hard)
  {
    SameSizes(t, Proceed(t, key, next).store, hard);
  }

  lemma {:induction false} RunSizes(s: State, es: seq<SplitEvent>, hard: nat32)
    requires IsInitial(s) && s.quota.Some? && s.quota.value.hardGPUs == hard && SplitUnderQuota(es, hard)
    ensures Sized(Run(System(s, Idle), es).store, hard)
  {
    if es != [] {
      var rest := es[..|es| - 1];
      RunSizes(s, rest, hard);
      assert AllCountable(rest);
      hide Step, Sized, QuotaFits;
      RunKeeps(s, rest);
      RunningSumWithinQuota(s, rest, hard);
      StepSizes(Run(System(s, Idle), rest), es[|es| - 1], hard);
    }
  }

  /** With no GPU to ask for, or none to give, no Workflow holds any. */
  lemma NothingInUse(s: State, es: seq<SplitEvent>, hard: nat32, largest: nat32)
    requires IsInitial(s) && s.quota.Some? && s.quota.value.hardGPUs == hard && Bounded(es, hard, largest)
    requires hard == 0 || largest == 0
    ensures Sum(LiveGpus(Run(System(s, Idle), es).store)) == 0
  {
    var t := Run(System(s, Idle), es).store;
    RunSizes(s, es, hard);
    assert AllCountable(es);
    hide Run;
    forall k | k in t.jobs
      ensures t.jobs[k].spec.gpus <= largest
    {
      var i := JobsAreSubmitted(s, es, k);
      assert BoundedEvent(es[i], largest);
    }
    SumZero(LiveGpus(t));
  }

  // ----- stranding one more GPU -----

  /** `n` GPUs are in use, though every job waits. */
  ghost predicate Stranded(t: State, hard: nat32, n: nat) {
    && t.quota.Some? && t.quota.value.hardGPUs == hard
    && (forall k :: k in t.jobs ==> t.jobs[k].IsWaiting())
    && Sum(LiveGpus(t)) == n
    && forall i: nat :: n <= i ==> Digits(i) !in t.jobs
  }

  function Submit(k: string): SplitEvent {
    Outside(Create(k, PlainSpec(1)))
  }

  /** A new one-GPU job is claimed, admitted and cut short. */
  lemma StrandedState(t: State, k: string, hard: nat32, n: nat, cut: Cut)
    requires StoreFits(t) && Stranded(t, hard, n) && hard >= 1 && k == Digits(n)
    ensures var c := Work(Happen(t, Create(k, PlainSpec(1))), k);
            && CanRecheck(c, k) && c.jobs[k].name == k && Admits(c, c.jobs[k])
            && CurrentWorkflow(AtGate(c, c.jobs[k])) !in c.workflows
            && Stranded(AfterCut(c, k, cut), hard, n + 1)
  {
    var c := Work(Happen(t, Create(k, PlainSpec(1))), k);
    ClaimStep(t, k, PlainSpec(1));
    ClaimKeepsWorkflows(t, k, PlainSpec(1));
    FreeNameIsFree(t, k, 1);
    hide Work, Happen, StoreFits, Digits;
    GateOpenToOne(c, k, hard);
    hide WorkflowName, Admits;
    StrandedAfter(t, c, k, hard, n, cut);
  }

  /** A name without a job has no Workflow. */
  lemma FreeNameIsFree(s: State, name: string, a: int)
    requires StoreFits(s) && name !in s.jobs
    ensures WorkflowName(name, a) !in s.workflows
  {
    var v := WorkflowName(name, a);
    if v in s.workflows {
      assert WorkflowFits(s, v, s.workflows[v]);
      var b: int :| v == WorkflowName(s.workflows[v].owner, b);
      WorkflowNamesInjective(name, a, s.workflows[v].owner, b);
    }
  }

  lemma GateOpenToOne(c: State, k: string, hard: nat32)
    requires c.quota.Some? && c.quota.value.hardGPUs == hard >= 1
    requires forall j :: j in c.jobs ==> c.jobs[j].IsWaiting()
    requires k in c.jobs && c.jobs[k].name == k && c.jobs[k].spec.gpus == 1
    ensures Admits(c, c.jobs[k])
  {
    SumZero(RunningGpus(c.jobs - {k}));
    GateWithoutOverflow(0, 1, hard);
  }

  lemma StrandedAfter(t: State, c: State, k: string, hard: nat32, n: nat, cut: Cut)
    requires Stranded(t, hard, n) && k == Digits(n) && c.quota == t.quota && c.workflows == t.workflows
    requires c.jobs == t.jobs[k := Job(t.namespace, k, PlainSpec(1), NEW_STATUS, true, false)]
    requires WorkflowName(k, 1) !in t.workflows && k !in t.jobs
    requires forall w :: w in t.workflows ==> t.workflows[w].owner != k
    ensures CurrentWorkflow(AtGate(c, c.jobs[k])) == WorkflowName(k, 1)
    ensures Stranded(AfterCut(c, k, cut), hard, n + 1)
  {
    var w, j := WorkflowName(k, 1), AtGate(c, c.jobs[k]);
    assert CurrentAttempt(j) == (1, true);
    assert CurrentWorkflow(j) == w;
    hide Stranded, Digits, WorkflowName;
    CutShape(c, k, cut);
    hide CurrentWorkflow, CurrentAttempt, AtGate, AfterCut;
    StrandedGrows(t, AfterCut(c, k, cut), k, w, hard, n);
  }

  lemma StrandedGrows(t: State, u: State, k: string, w: string, hard: nat32, n: nat)
    requires Stranded(t, hard, n) && k == Digits(n) && u.quota == t.quota && k !in t.jobs
    requires k in u.jobs && u.jobs == t.jobs[k := u.jobs[k]] && u.jobs[k].spec.gpus == 1 && u.jobs[k].IsWaiting()
    requires w !in t.workflows && w in u.workflows && u.workflows == t.workflows[w := u.workflows[w]]
    requires u.workflows[w].owner == k && u.workflows[w].phase == ""
    requires forall v :: v in t.workflows ==> t.workflows[v].owner != k
    ensures Stranded(u, hard, n + 1)
  {
    hide Digits;
    LiveWithNew(t, u, k, w);
    hide LiveGpus;
    SumNew(LiveGpus(t), w, 1);
    forall i: nat | n + 1 <= i
      ensures Digits(i) !in u.jobs
    {
      if Digits(i) == Digits(n) {
        DigitsInjective(i, n);
      }
    }
  }

  lemma LiveWithNew(t: State, u: State, k: string, w: string)
    requires k !in t.jobs && k in u.jobs && u.jobs == t.jobs[k := u.jobs[k]]
    requires w !in t.workflows && w in u.workflows && u.workflows == t.workflows[w := u.workflows[w]]
    requires u.workflows[w].owner == k && u.workflows[w].phase == ""
    requires forall v :: v in t.workflows ==> t.workflows[v].owner != k
    ensures LiveGpus(u) == LiveGpus(t)[w := u.jobs[k].spec.gpus as nat]
  {
  }

  /** The three rounds that strand one more GPU: create, claim, and the one that is cut short. */
  lemma StrandOneMore(t: State, hard: nat32, n: nat, f: Faults, cut: Cut) returns (es: seq<SplitEvent>)
    requires StoreFits(t) && Stranded(t, hard, n) && hard >= 1 && RequestFits(1, hard) && Allows(f, cut)
    ensures AllPermitted(es, f) && Bounded(es, hard, 1)
    ensures Run(System(t, Idle), es).worker.Idle? && Stranded(Run(System(t, Idle), es).store, hard, n + 1)
  {
    var k := Digits(n);
    var created := Happen(t, Create(k, PlainSpec(1)));
    var c := Work(created, k);
    CreatedIsQueued(t, k);
    StrandedState(t, k, hard, n, cut);
    hide Stranded, Work, Happen, StoreFits, Digits, Run, CutRound, AfterCut, PlainSpec, Admits, CurrentWorkflow;
    var claim := UndisturbedRound(created, k);
    RunOne(System(t, Idle), Submit(k));
    SplitWorker.RunAppend(System(t, Idle), [Submit(k)], claim);
    SplitWorker.RunAppend(System(t, Idle), [Submit(k)] + claim, CutRound(c, k, cut));
    CutRoundLeaves(c, k, cut);
    es := [Submit(k)] + claim + CutRound(c, k, cut);
    CutRoundPermitted(c, k, f, cut);
    RoundsPermitted(k, claim, CutRound(c, k, cut), f, hard);
  }

  lemma CreatedIsQueued(t: State, k: string)
    requires k != "" && k !in t.jobs
    ensures var u := Happen(t, Create(k, PlainSpec(1)));
            k in u.queue && k in u.jobs && u.jobs[k].name == k
    ensures Step(System(t, Idle), Submit(k)) == System(Happen(t, Create(k, PlainSpec(1))), Idle)
  {
  }

  lemma RoundsPermitted(k: string, claim: seq<SplitEvent>, cut: seq<SplitEvent>, f: Faults, hard: nat32)
    requires AllWorker(claim) && AllUncut(claim) && RequestFits(1, hard) && AllPermitted(cut, f) && OnlyCuts(cut)
    ensures AllPermitted([Submit(k)] + claim + cut, f) && Bounded([Submit(k)] + claim + cut, hard, 1)
  {
    UncutIsPermitted(claim, f);
    assert AllPermitted([Submit(k)], f);
    PermittedAppend([Submit(k)], claim, f);
    PermittedAppend([Submit(k)] + claim, cut, f);
    assert Bounded([Submit(k)], hard, 1) && Bounded(claim, hard, 1) && Bounded(cut, hard, 1);
    BoundedAppend([Submit(k)], claim, hard);
    BoundedAppend([Submit(k)] + claim, cut, hard);
  }

  /** Any number of GPUs can be stranded. */
  lemma {:induction false} StrandMany(s: State, hard: nat32, n: nat, f: Faults, cut: Cut) returns (es: seq<SplitEvent>)
    requires IsInitial(s) && s.quota.Some? && s.quota.value.hardGPUs == hard >= 1 && RequestFits(1, hard)
    requires Allows(f, cut)
    ensures AllPermitted(es, f) && Bounded(es, hard, 1)
    ensures Run(System(s, Idle), es).worker.Idle? && Stranded(Run(System(s, Idle), es).store, hard, n)
  {
    hide Run, AllPermitted, Bounded, Allows;
    if n == 0 {
      es := [];
      NothingStranded(s, hard, f);
    } else {
      var before := StrandMany(s, hard, n - 1, f, cut);
      var t := Run(System(s, Idle), before).store;
      BoundedIsCountable(before, hard);
      RunKeeps(s, before);
      hide Stranded, Inv;
      var after := StrandOneMore(t, hard, n - 1, f, cut);
      es := before + after;
      SplitWorker.RunAppend(System(s, Idle), before, after);
      PermittedAppend(before, after, f);
      BoundedAppend(before, after, hard);
    }
  }

  lemma NothingStranded(s: State, hard: nat32, f: Faults)
    requires IsInitial(s) && s.quota.Some? && s.quota.value.hardGPUs == hard
    ensures Run(System(s, Idle), []) == System(s, Idle) && Stranded(s, hard, 0)
    ensures AllPermitted([], f) && Bounded([], hard, 1)
  {
    SumZero(LiveGpus(s));
  }

  lemma BoundedIsCountable(es: seq<SplitEvent>, hard: nat32)
    requires Bounded(es, hard, 1)
    ensures AllCountable(es)
  {
  }

  lemma BoundedAppend(xs: seq<SplitEvent>, ys: seq<SplitEvent>, hard: nat32)
    requires Bounded(xs, hard, 1) && Bounded(ys, hard, 1)
    ensures Bounded(xs + ys, hard, 1)
  {
    hide UnderQuota, BoundedEvent;
  }

  // ----- the exact condition, over all runs -----

  /**
   GPUs really in use stay within a fixed quota, in every run with requests up to `largest` that no sum
   overflows, iff there is nothing to give, nothing to ask for, or nothing that cuts a reconcile short:
   refused calls, lost replies, restarts and deletions each suffice to break it.
   */
  lemma RealUsageSafeIff(s: State, hard: nat32, largest: nat32, f: Faults)
    requires IsInitial(s) && s.quota.Some? && s.quota.value.hardGPUs == hard && hard + largest <= MAX
    ensures (forall es :: Bounded(es, hard, largest) && AllPermitted(es, f) ==>
               Sum(LiveGpus(Run(System(s, Idle), es).store)) <= hard)
            <==> hard == 0 || largest == 0 || f == NO_FAULTS
  {
    hide Run, LiveGpus, Bounded, AllPermitted;
    if hard == 0 || largest == 0 || f == NO_FAULTS {
      forall es | Bounded(es, hard, largest) && AllPermitted(es, f)
        ensures Sum(LiveGpus(Run(System(s, Idle), es).store)) <= hard
      {
        SafeRun(s, es, hard, largest, f);
      }
    } else {
      var es := BreakRealUsage(s, hard, largest, f);
    }
  }

  lemma SafeRun(s: State, es: seq<SplitEvent>, hard: nat32, largest: nat32, f: Faults)
    requires IsInitial(s) && s.quota.Some? && s.quota.value.hardGPUs == hard
    requires Bounded(es, hard, largest) && AllPermitted(es, f)
    requires hard == 0 || largest == 0 || f == NO_FAULTS
    ensures Sum(LiveGpus(Run(System(s, Idle), es).store)) <= hard
  {
    hide Run, LiveGpus;
    if hard == 0 || largest == 0 {
      NothingInUse(s, es, hard, largest);
    } else {
      UncutRunsAreSafe(s, es, hard);
    }
  }

  /** The failing run: one more one-GPU job than the quota allows, each cut short. */
  lemma BreakRealUsage(s: State, hard: nat32, largest: nat32, f: Faults) returns (es: seq<SplitEvent>)
    requires IsInitial(s) && s.quota.Some? && s.quota.value.hardGPUs == hard && hard + largest <= MAX
    requires 0 < hard && 0 < largest && f != NO_FAULTS
    ensures Bounded(es, hard, largest) && AllPermitted(es, f)
    ensures Sum(LiveGpus(Run(System(s, Idle), es).store)) == hard + 1
  {
    hide Run, LiveGpus;
    es := StrandMany(s, hard, hard + 1, f, SomeCut(f));
  }
}
