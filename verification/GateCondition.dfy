/**
 The quota condition over whole runs. A refusal is taken back when the job is let pass, unless there is no
 quota any more that could let it pass.
 */
module GateCondition {
  import opened Model
  import opened Sums
  import opened Naming
  import opened WorkflowBuilder
  import opened ClusterState
  import opened Operator
  import opened SplitWorker
  import opened SplitInvariant
  import opened SplitSafety
  import opened SplitQuota
  import opened SplitTheorems
  import opened Atomic
  import opened Effects
  import opened Accounting
  import opened QuotaTheorems
  import opened QuotaOverflow
  import SingleJob
  import opened Sightings
  import opened StatusChanges
  import opened StatusTheorems

  /** The job says that it was refused. */
  predicate SaysRefused(j: Job) {
    QuotaGranted in j.status.conditions && !j.status.conditions[QuotaGranted].status
  }

  predicate KeepsQuota(e: SplitEvent) {
    e != Outside(SetQuota(None))
  }

  predicate AllKeepQuota(es: seq<SplitEvent>) {
    forall i :: 0 <= i < |es| ==> KeepsQuota(es[i])
  }

  /** Refused jobs queue, under a quota. */
  predicate RefusalFits(s: State, k: string) {
    k in s.jobs && SaysRefused(s.jobs[k]) ==> s.jobs[k].status.phase == Queued && s.quota.Some?
  }

  /** A verdict is of a quota that is still there, or of a job that was not refused before. */
  predicate VerdictStands(s: State, call: Call, gate: Verdict) {
    && (call.ListPeers? || gate.Compared? ==> s.quota.Some?)
    && (gate.Unlimited? && HasJob(call) ==> !SaysRefused(call.read))
  }

  predicate HasJob(call: Call) {
    call.FetchWorkflow? || call.CreateWorkflow? || call.DropFailed? || call.WriteStatus?
  }

  /** The worker's part of the invariant. */
  ghost predicate WorkerStands(sys: System, v: Seen, k: string) {
    sys.worker.Busy? && sys.worker.key == k ==> VerdictStands(sys.store, sys.worker.call, v.gate)
  }

  ghost predicate GateFits(sys: System, v: Seen, k: string) {
    RefusalFits(sys.store, k) && WorkerStands(sys, v, k)
  }

  lemma QuotaStays(s: State, e: Event)
    requires KeepsQuota(Outside(e)) && s.quota.Some?
    ensures Happen(s, e).quota.Some?
  {
  }

  lemma NewJobSaysNothing(s: State, e: Event, k: string)
    requires StoreFits(s) && k !in s.jobs && k in Happen(s, e).jobs
    ensures !SaysRefused(Happen(s, e).jobs[k])
  {
    NewJobSpec(s, e, k);
    hide StoreFits;
  }

  /** What is read keeps its status while it is in hand. */
  lemma HeldSaysTheSame(s: State, k: string, call: Call)
    requires CallFits(s, k, call) && (call.FetchQuota? || call.ListPeers? || HasJob(call))
    ensures k in s.jobs && (SaysRefused(call.read) <==> SaysRefused(s.jobs[k]))
    ensures s.jobs[k].status == call.read.status
  {
    hide JobFits;
  }

  lemma CallGate(s: State, k: string, call: Call, v: Seen)
    requires CallFits(s, k, call) && SeenFits(call, v) && RefusalFits(s, k) && VerdictStands(s, call, v.gate)
    ensures var (t, next) := Perform(s, k, call);
            next.Continue? ==> VerdictStands(t, next.call, SeenByCall(v, s, call).gate)
  {
    CallKeepsQuota(s, k, call);
    if call.FetchQuota? || call.ListPeers? || HasJob(call) {
      HeldSaysTheSame(s, k, call);
    }
    NextHasTheJob(s, k, call);
    hide CallFits, Perform, SaysRefused, Justified, CopyFits, UsedBesides, GateRefuses;
  }

  /** Which calls follow which, on which job. */
  lemma NextHasTheJob(s: State, k: string, call: Call)
    ensures var next := Perform(s, k, call).1;
            next.Continue? ==>
              && (next.call.ListPeers? ==> call.FetchQuota? && s.quota.Some?)
              && (HasJob(next.call) && !call.FetchJob? ==>
                    (call.FetchQuota? || call.ListPeers? || HasJob(call)) && next.call.read == call.read)
  {
    hide CurrentWorkflow, CurrentAttempt, WorkflowFor, GateRefuses, UsedBesides, RefreshQuota, Started;
    hide Completed, GivenUp, Adopted, Parked, Granted;
  }

  lemma RefreshKeepsQuota(s: State)
    ensures RefreshQuota(s).quota.Some? <==> s.quota.Some?
    ensures RefreshQuota(s).jobs == s.jobs
  {
  }

  lemma CallKeepsQuota(s: State, k: string, call: Call)
    ensures Perform(s, k, call).0.quota.Some? <==> s.quota.Some?
  {
    RefreshKeepsQuota(s);
    hide CurrentWorkflow, CurrentAttempt, WorkflowFor, GateRefuses, UsedBesides, RefreshQuota, Started;
    hide AfterFetch, AfterWorkflow;
  }

  lemma StepKeepsQuotaThere(sys: System, e: SplitEvent)
    requires KeepsQuota(e) && sys.store.quota.Some?
    ensures Step(sys, e).store.quota.Some?
  {
    match e
    case Outside(ev) =>
      QuotaStays(sys.store, ev);
      hide Happen;
    case Begin(_) =>
    case Invoke(_) =>
      if sys.worker.Busy? {
        CallKeepsQuota(sys.store, sys.worker.key, sys.worker.call);
        hide Perform;
      }
  }

  /** A justified change takes a refusal back, or makes one. */
  lemma ChangeFits(read: Job, job: Job, v: Seen)
    requires Justified(read, job, v) && SaysRefused(job)
    requires SaysRefused(read) ==> read.status.phase == Queued && !v.gate.Unlimited?
    ensures job.status.phase == Queued && v.gate.Compared?
  {
    hide Decimal, GateRefuses;
  }

  lemma ChangeKeepsRefusal(sys: System, e: SplitEvent, v: Seen, k: string)
    requires Inv(sys) && WorkerSees(sys, v) && GateFits(sys, v, k) && KeepsQuota(e)
    requires k in sys.store.jobs && k in Step(sys, e).store.jobs
    requires Step(sys, e).store.jobs[k].status != sys.store.jobs[k].status
    ensures RefusalFits(Step(sys, e).store, k)
  {
    ChangeIsWrite(sys, e, k);
    var call, j := sys.worker.call, Step(sys, e).store.jobs[k];
    hide Inv, Step, Justified;
    if SaysRefused(j) {
      assert Justified(call.read, j, v);
      hide SaysRefused;
      ChangeFits(call.read, j, v);
      StepKeepsQuotaThere(sys, e);
    }
  }

  lemma StepKeepsRefusal(sys: System, e: SplitEvent, v: Seen, k: string)
    requires Inv(sys) && WorkerSees(sys, v) && GateFits(sys, v, k) && KeepsQuota(e)
    ensures RefusalFits(Step(sys, e).store, k)
  {
    hide Inv, Step, WorkerSees, SaysRefused;
    if k in Step(sys, e).store.jobs {
      if k !in sys.store.jobs {
        NewcomerSaysNothing(sys, e, k);
      } else if Step(sys, e).store.jobs[k].status != sys.store.jobs[k].status {
        ChangeKeepsRefusal(sys, e, v, k);
      } else {
        SameStatusSaysTheSame(sys.store.jobs[k], Step(sys, e).store.jobs[k]);
        if sys.store.quota.Some? {
          StepKeepsQuotaThere(sys, e);
        }
      }
    }
  }

  lemma SameStatusSaysTheSame(j: Job, j': Job)
    requires j'.status == j.status
    ensures SaysRefused(j') <==> SaysRefused(j)
  {
  }

  lemma NewcomerSaysNothing(sys: System, e: SplitEvent, k: string)
    requires Inv(sys) && k !in sys.store.jobs && k in Step(sys, e).store.jobs
    ensures !SaysRefused(Step(sys, e).store.jobs[k])
  {
    StepOnSpecs(sys, e, k);
    NewJobSaysNothing(sys.store, e.e, k);
    hide Inv, Happen;
  }

  lemma OutsideStands(sys: System, e: Event, v: Seen, k: string)
    requires WorkerStands(sys, v, k) && KeepsQuota(Outside(e))
    ensures WorkerStands(Step(sys, Outside(e)), Noticed(v, sys, Outside(e)), k)
  {
    if sys.store.quota.Some? {
      QuotaStays(sys.store, e);
    }
    hide Happen, SaysRefused, KeepsQuota, SeenByCall;
  }

  lemma FetchStands(s: State, v: Seen)
    ensures VerdictStands(s, FetchJob, NOTHING_SEEN.gate)
  {
  }

  lemma InvokeStands(s: State, k: string, call: Call, outcome: Outcome, v: Seen)
    requires CallFits(s, k, call) && SeenFits(call, v) && RefusalFits(s, k) && VerdictStands(s, call, v.gate)
    ensures var sys := System(s, Busy(k, call));
            WorkerStands(Step(sys, Invoke(outcome)), Noticed(v, sys, Invoke(outcome)), k)
  {
    hide CallFits, SeenFits, RefusalFits, VerdictStands, Perform, AfterFailure, SeenByCall;
    CallGate(s, k, call, v);
    FailureContinuesNothing(call);
  }

  lemma StepStands(sys: System, e: SplitEvent, v: Seen, k: string)
    requires Inv(sys) && WorkerSees(sys, v) && KeepsQuota(e) && RefusalFits(sys.store, k) && WorkerStands(sys, v, k)
    ensures WorkerStands(Step(sys, e), Noticed(v, sys, e), k)
  {
    hide StoreFits, AllAwake, CallFits, SeenFits, RefusalFits, VerdictStands, Perform, AfterFailure, SeenByCall, Happen;
    match e
    case Outside(ev) => OutsideStands(sys, ev, v, k);
    case Begin(key) => FetchStands(Dequeue(sys.store, key), v);
    case Invoke(outcome) =>
      if sys.worker.Busy? && sys.worker.key == k {
        InvokeStands(sys.store, k, sys.worker.call, outcome, v);
      }
  }

  lemma {:induction false} RunGate(s: State, es: seq<SplitEvent>, k: string)
    requires IsInitial(s) && AllCountable(es) && AllKeepQuota(es)
    ensures GateFits(Run(System(s, Idle), es), SeenOf(System(s, Idle), es), k)
  {
    hide Inv, Step, Noticed, WorkerSees;
    if es == [] {
    } else {
      var rest := es[..|es| - 1];
      RunGate(s, rest, k);
      RunSees(s, rest);
      hide RefusalFits, WorkerStands, KeepsQuota;
      assert KeepsQuota(es[|es| - 1]);
      StepKeepsRefusal(Run(System(s, Idle), rest), es[|es| - 1], SeenOf(System(s, Idle), rest), k);
      StepStands(Run(System(s, Idle), rest), es[|es| - 1], SeenOf(System(s, Idle), rest), k);
    }
  }

  // ----- a refusal that is not taken back -----

  /** The only job, as it waits for the gate. */
  predicate AtTheGate(s: State, k: string) {
    CanRecheck(s, k) && s.jobs.Keys == {k} && s.jobs[k].name == k && s.jobs[k].spec.gpus == 1
  }

  ghost predicate Sound(s: State) {
    Inv(System(s, Idle)) && Exact(s)
  }

  /** One undisturbed look at the job admits or parks it, and says so. */
  lemma OneLook(s: State, k: string, admitted: bool)
    requires Sound(s) && AtTheGate(s, k) && admitted == Admits(s, s.jobs[k])
    ensures var t := Work(s, k);
            && t.jobs.Keys == {k} && t.jobs[k].status.phase == (if admitted then Running else Queued)
            && Justified(s.jobs[k], t.jobs[k], SeenAtOnce(s, s.jobs[k]))
  {
    hide Work, StoreFits, AllAwake, Exact, Used, Admits, SeenAtOnce, Justified;
    RecheckDecides(s, k);
    WorkSaysWhatIsSeen(s, k);
  }

  lemma ChangeKeepsObject(j: Job, j': Job, v: Seen)
    requires Justified(j, j', v)
    ensures j' == j.(status := j'.status)
    ensures j'.status.phase == Queued ==> SaysRefused(j')
    ensures v.gate.Unlimited? && SaysRefused(j) ==> SaysRefused(j')
  {
    hide Decimal, GateRefuses;
  }

  lemma NothingFits(s: State, k: string)
    requires AtTheGate(s, k) && s.quota.Some? && s.quota.value.hardGPUs == 0
    ensures !Admits(s, s.jobs[k])
  {
    assert s.jobs - {k} == map[];
    SumZero(RunningGpus(map[]));
    GateWithoutOverflow(0, 1, 0);
  }

  lemma RefusalIsSaid(s: State, k: string)
    requires Sound(s) && AtTheGate(s, k)
    requires s.quota.Some? && s.quota.value.hardGPUs == 0
    ensures var t := Work(s, k); var u := t.(quota := None, queue := t.queue + {k});
            AtTheGate(u, k) && SaysRefused(u.jobs[k])
  {
    hide Work, Inv, Exact, Admits, SeenAtOnce, Justified, SaysRefused;
    NothingFits(s, k);
    OneLook(s, k, false);
    ChangeKeepsObject(s.jobs[k], Work(s, k).jobs[k], SeenAtOnce(s, s.jobs[k]));
  }

  lemma RefusalIsKept(s: State, k: string)
    requires Sound(s) && AtTheGate(s, k) && s.quota.None? && SaysRefused(s.jobs[k])
    ensures k in Work(s, k).jobs && Work(s, k).jobs[k].IsRunning() && SaysRefused(Work(s, k).jobs[k])
  {
    assert SeenAtOnce(s, s.jobs[k]).gate.Unlimited? && Admits(s, s.jobs[k]);
    hide Work, Inv, Exact, Admits, SeenAtOnce, Justified, SaysRefused;
    OneLook(s, k, true);
    ChangeKeepsObject(s.jobs[k], Work(s, k).jobs[k], SeenAtOnce(s, s.jobs[k]));
  }

  /** The quota comes, and the job; the job is claimed. Then it is refused, and the quota goes. */
  function ClaimedUnderZero(k: string): seq<AtomicEvent> {
    [World(SetQuota(Some(0))), World(Create(k, PlainSpec(1))), Reconciled(k)]
  }

  function RefusedThenFreed(k: string): seq<AtomicEvent> {
    [Reconciled(k), World(SetQuota(None)), World(Resync(k))]
  }

  lemma ExecAnyThree(s: State, past: seq<AtomicEvent>, a: AtomicEvent, b: AtomicEvent, c: AtomicEvent)
    ensures Exec(s, past + [a, b, c]) == Apply(Apply(Apply(Exec(s, past), a), b), c)
  {
    SingleJob.ExecThree(s, past, a, b, c);
  }

  lemma SoundAfter(s: State, es: seq<AtomicEvent>)
    requires IsInitial(s) && AllPlain(es)
    ensures Sound(Exec(s, es))
  {
    ExecFits(s, es);
    ExecExact(s, es);
  }

  lemma ClaimedJob(s: State, k: string)
    requires IsInitial(s) && k != ""
    ensures var t := Work(Happen(Happen(s, SetQuota(Some(0))), Create(k, PlainSpec(1))), k);
            && AtTheGate(t, k)
            && t.quota.Some? && t.quota.value.hardGPUs == 0
  {
    var q := Happen(s, SetQuota(Some(0)));
    ClaimStep(q, k, PlainSpec(1));
    hide Work;
  }

  lemma FreedJob(t: State, k: string)
    requires k in t.jobs
    ensures Happen(Happen(t, SetQuota(None)), Resync(k)) == t.(quota := None, queue := t.queue + {k})
  {
  }

  /** The failing run: a job that was refused once runs without a quota. */
  lemma StaleRefusal(s: State, k: string) returns (ses: seq<SplitEvent>)
    requires IsInitial(s) && k != ""
    ensures AllCountable(ses) && AllGetThrough(ses)
    ensures var t := Run(System(s, Idle), ses).store;
            k in t.jobs && t.jobs[k].IsRunning() && SaysRefused(t.jobs[k])
  {
    var first, second := ClaimedUnderZero(k), ClaimedUnderZero(k) + RefusedThenFreed(k);
    assert AllPlain(first) && AllPlain(second);
    SoundAfter(s, first);
    SoundAfter(s, second);
    ClaimedJob(s, k);
    assert Exec(s, []) == s && [] + ClaimedUnderZero(k) == first && Named(s);
    hide Exec, Work, Happen, Sound, AtTheGate, SaysRefused, AllPlain, PlainSpec, Run, Named;
    ExecAnyThree(s, [], World(SetQuota(Some(0))), World(Create(k, PlainSpec(1))), Reconciled(k));
    ExecAnyThree(s, first, Reconciled(k), World(SetQuota(None)), World(Resync(k)));
    var c := Exec(s, first);
    RefusalIsSaid(c, k);
    FreedHasJob(Work(c, k), k);
    FreedJob(Work(c, k), k);
    RefusalIsKept(Exec(s, second), k);
    ExecSnoc(s, second, Reconciled(k));
    PlainSnoc(second, k);
    ses := AtomicRefinesSplit(s, second + [Reconciled(k)]);
  }

  lemma FreedHasJob(t: State, k: string)
    requires AtTheGate(t.(quota := None, queue := t.queue + {k}), k)
    ensures k in t.jobs
  {
  }

  lemma PlainSnoc(es: seq<AtomicEvent>, k: string)
    requires AllPlain(es)
    ensures AllPlain(es + [Reconciled(k)])
  {
  }

  // ----- the exact condition, over all runs -----

  /** A job that runs, or has finished, does not say that it was refused. */
  ghost predicate RefusalTakenBack(s: State, es: seq<SplitEvent>, k: string) {
    var t := Run(System(s, Idle), es).store;
    k in t.jobs && (t.jobs[k].IsRunning() || t.jobs[k].IsTerminal()) ==> !SaysRefused(t.jobs[k])
  }

  /** In all interleaved runs every refusal is taken back before the job runs iff no quota is ever removed. */
  lemma RefusalsTakenBackIff(s: State, removals: bool)
    requires IsInitial(s)
    ensures (forall es, k :: AllCountable(es) && (removals || AllKeepQuota(es)) ==> RefusalTakenBack(s, es, k))
            <==> !removals
  {
    hide AllCountable, AllKeepQuota, RefusalTakenBack;
    if !removals {
      forall es, k | AllCountable(es) && (removals || AllKeepQuota(es))
        ensures RefusalTakenBack(s, es, k)
      {
        KeptQuotaTakesBack(s, es, k);
      }
    } else {
      var es := BreakRefusal(s);
    }
  }

  lemma KeptQuotaTakesBack(s: State, es: seq<SplitEvent>, k: string)
    requires IsInitial(s) && AllCountable(es) && AllKeepQuota(es)
    ensures RefusalTakenBack(s, es, k)
  {
    RunGate(s, es, k);
    hide Run, SaysRefused;
  }

  lemma BreakRefusal(s: State) returns (es: seq<SplitEvent>)
    requires IsInitial(s)
    ensures AllCountable(es) && !RefusalTakenBack(s, es, "job")
  {
    hide Run, SaysRefused;
    es := StaleRefusal(s, "job");
  }
}
