/**
 The quota gate when the quota is edited between API calls. A reconcile is judged by the quota it read
 and the peers it listed; what is in force when it writes may be another.
 */
module QuotaEdits {
  import opened Int32
  import opened Model
  import opened Naming
  import opened WorkflowBuilder
  import opened ClusterState
  import opened Operator
  import opened SplitWorker
  import opened SplitInvariant
  import opened SplitSafety
  import opened SplitQuota
  import opened SplitTheorems
  import opened Sightings
  import opened Atomic
  import opened Effects
  import opened QuotaTheorems
  import opened QuotaOverflow
  import opened SingleJob
  import opened LostWrites

  // ----- what the gate of the reconcile in hand has seen -----

  /** A waiting job that has passed the gate. */
  predicate HasPassed(call: Call) {
    || ((call.FetchWorkflow? || call.CreateWorkflow? || call.DropFailed?) && call.read.IsWaiting())
    || (call.WriteStatus? && call.read.IsWaiting() && call.job.IsRunning())
  }

  ghost predicate VerdictHolds(s: State, call: Call, v: Verdict) {
    HasPassed(call) && !v.Unlimited? ==>
      && v.Compared?
      && UsedBesides(s.jobs, call.read.name) <= v.used
      && !GateRefuses(v.used, call.read.spec.gpus, v.hard)
  }

  ghost predicate VerdictFits(sys: System, v: Verdict) {
    sys.worker.Busy? ==> VerdictHolds(sys.store, sys.worker.call, v)
  }

  lemma CallKeepsVerdict(s: State, key: string, call: Call, v: Seen)
    requires CallFits(s, key, call) && VerdictHolds(s, call, v.gate)
    ensures var (t, next) := Perform(s, key, call);
            next.Continue? ==>
              VerdictHolds(t, next.call, SeenByCall(v, s, call).gate)
  {
    hide JobFits, CurrentWorkflow, WorkflowFor, GateRefuses, UsedBesides, RefreshQuota;
  }

  lemma OutsideKeepsVerdict(s: State, e: Event, key: string, call: Call, v: Verdict)
    requires StoreFits(s) && CallFits(s, key, call) && VerdictHolds(s, call, v)
    ensures VerdictHolds(Happen(s, e), call, v)
  {
    hide StoreFits, JobFits, NoNewRunning, Happen, Used, UsedBesides, GateRefuses;
    HappenAdmitsNobody(s, e);
    NoNewRunningUsesNoMore(s.jobs, Happen(s, e).jobs, key);
  }

  lemma StepKeepsVerdict(sys: System, e: SplitEvent, v: Seen)
    requires Inv(sys) && VerdictFits(sys, v.gate)
    ensures VerdictFits(Step(sys, e), Noticed(v, sys, e).gate)
  {
    hide VerdictHolds, GateRefuses, UsedBesides, SeenByCall;
    match e
    case Outside(ev) =>
      if sys.worker.Busy? {
        OutsideKeepsVerdict(sys.store, ev, sys.worker.key, sys.worker.call, v.gate);
      }
      hide Inv, Happen;
    case Begin(key) =>
      hide Inv;
      FetchHasNotPassed(sys.store, key, Noticed(v, sys, e).gate);
    case Invoke(outcome) =>
      if sys.worker.Busy? {
        CallKeepsVerdict(sys.store, sys.worker.key, sys.worker.call, v);
        FailureContinuesNothing(sys.worker.call);
        hide Inv, Perform, AfterFailure;
      }
  }

  lemma FetchHasNotPassed(s: State, key: string, v: Verdict)
    ensures VerdictHolds(Dequeue(s, key), FetchJob, v)
  {
  }

  lemma {:induction false} RunKeepsVerdict(s: State, es: seq<SplitEvent>)
    requires IsInitial(s) && AllCountable(es)
    ensures Inv(Run(System(s, Idle), es))
    ensures VerdictFits(Run(System(s, Idle), es), SeenOf(System(s, Idle), es).gate)
  {
    hide Inv, Step, Noticed;
    RunKeeps(s, es);
    if es == [] {
    } else {
      RunKeepsVerdict(s, es[..|es| - 1]);
      hide VerdictFits;
      StepKeepsVerdict(Run(System(s, Idle), es[..|es| - 1]), es[|es| - 1], SeenOf(System(s, Idle), es[..|es| - 1]));
    }
  }

  // ----- a step that raises the Running sum -----

  /** The step is the status write of a waiting job that has passed the gate. */
  predicate IsAdmission(sys: System, e: SplitEvent) {
    e.Invoke? && sys.worker.Busy? && sys.worker.call.WriteStatus? && HasPassed(sys.worker.call)
    && IsCurrent(sys.store, sys.worker.call.read)
  }

  lemma OnlyAdmissionsRaise(sys: System, e: SplitEvent)
    requires Inv(sys) && Used(Step(sys, e).store.jobs) > Used(sys.store.jobs)
    ensures IsAdmission(sys, e)
    ensures Used(Step(sys, e).store.jobs) <=
            UsedBesides(sys.store.jobs, sys.worker.call.read.name) + sys.worker.call.read.spec.gpus
    ensures 0 < sys.worker.call.read.spec.gpus
  {
    match e
    case Outside(ev) =>
      HappenAdmitsNobody(sys.store, ev);
      hide Inv, Happen;
      NoNewRunningUsesNoMore(sys.store.jobs, Happen(sys.store, ev).jobs, "");
    case Begin(_) => hide Inv;
    case Invoke(_) =>
      var Busy(key, call) := sys.worker;
      var (t, next) := Perform(sys.store, key, call);
      InvokeJobs(sys, e);
      hide Step;
      CallRaises(sys.store, key, call);
      hide Inv, Perform, Used, UsedBesides;
  }

  /** A call takes effect, or does not. */
  lemma InvokeJobs(sys: System, e: SplitEvent)
    requires e.Invoke? && sys.worker.Busy?
    ensures Step(sys, e).store.jobs == sys.store.jobs
            || Step(sys, e).store.jobs == Perform(sys.store, sys.worker.key, sys.worker.call).0.jobs
  {
    hide Perform;
  }

  lemma CallRaises(s: State, key: string, call: Call)
    requires StoreFits(s) && CallFits(s, key, call) && Used(Perform(s, key, call).0.jobs) > Used(s.jobs)
    ensures call.WriteStatus? && HasPassed(call) && IsCurrent(s, call.read)
    ensures Used(Perform(s, key, call).0.jobs) <= UsedBesides(s.jobs, call.read.name) + call.read.spec.gpus
    ensures 0 < call.read.spec.gpus
  {
    if !call.WriteStatus? {
      OtherCallsAdmitNobody(s, key, call);
      hide StoreFits, CallFits, Perform;
      NoNewRunningUsesNoMore(s.jobs, Perform(s, key, call).0.jobs, "");
    } else if IsCurrent(s, call.read) {
      var next := call.read.(status := call.job.status);
      WriteJobs(s, key, call.read, next);
      UsedSplit(s.jobs, key);
      UsedPut(s.jobs, key, next);
      hide StoreFits, JobFits, Used, UsedBesides, PutJob;
    }
  }

  /**
   Whatever is interleaved, with quota edits at any time: a step that raises the Running sum is the
   status write of one job, and ends within the sum its gate compared, unless there was no quota then.
   That sum was within the quota the gate read iff it did not wrap.
   */
  lemma AdmissionsFollowTheGate(s: State, es: seq<SplitEvent>, e: SplitEvent)
    requires IsInitial(s) && AllCountable(es)
    requires Used(Step(Run(System(s, Idle), es), e).store.jobs) > Used(Run(System(s, Idle), es).store.jobs)
    ensures var sys, v := Run(System(s, Idle), es), SeenOf(System(s, Idle), es).gate;
            && IsAdmission(sys, e) && !v.Unasked?
            && (v.Compared? ==>
                  var used, gpus := Used(Step(sys, e).store.jobs), sys.worker.call.read.spec.gpus;
                  && used <= v.used + gpus
                  && (v.used + gpus <= v.hard <==> v.used + gpus <= MAX)
                  && (used > v.hard ==> SlipsThrough(v.used, gpus, v.hard)))
  {
    var sys, v := Run(System(s, Idle), es), SeenOf(System(s, Idle), es).gate;
    RunKeepsVerdict(s, es);
    hide Run, SeenOf, Used, UsedBesides, GateRefuses;
    OnlyAdmissionsRaise(sys, e);
    AdmissionVerdict(sys, e, v);
    hide Inv, Step, VerdictFits, IsAdmission, SlipsThrough;
    if v.Compared? {
      GateBound(v.used, sys.worker.call.read.spec.gpus, v.hard, Used(Step(sys, e).store.jobs));
    }
  }

  lemma AdmissionVerdict(sys: System, e: SplitEvent, v: Verdict)
    requires VerdictFits(sys, v) && IsAdmission(sys, e)
    ensures !v.Unasked?
    ensures v.Compared? ==>
              && UsedBesides(sys.store.jobs, sys.worker.call.read.name) <= v.used
              && !GateRefuses(v.used, sys.worker.call.read.spec.gpus, v.hard)
  {
    hide UsedBesides, GateRefuses;
  }

  lemma GateBound(seen: nat, gpus: nat32, hard: nat32, used: nat)
    requires !GateRefuses(seen, gpus, hard) && used <= seen + gpus && 0 < gpus
    ensures seen + gpus <= hard <==> seen + gpus <= MAX
    ensures used > hard ==> SlipsThrough(seen, gpus, hard)
  {
    AdmittedSum(seen, gpus, hard);
    GateOnAnyUsage(seen, gpus, hard);
  }

  // ----- the quota in force -----

  /** Requests are at most `largest`. */
  predicate UpTo(e: SplitEvent, largest: nat32, edits: bool) {
    e.Outside? ==>
      && Countable(e.e)
      && (e.e.Create? ==> e.e.spec.gpus <= largest)
      && (e.e.SetQuota? ==> edits)
  }

  predicate AllUpTo(es: seq<SplitEvent>, largest: nat32, edits: bool) {
    forall i :: 0 <= i < |es| ==> UpTo(es[i], largest, edits)
  }

  /** After `es`, the step `e` does not take the Running sum above both what it was and the quota in force. */
  ghost predicate RespectsQuotaInForce(s: State, es: seq<SplitEvent>, e: SplitEvent) {
    var sys := Run(System(s, Idle), es);
    var used := Used(Step(sys, e).store.jobs);
    sys.store.quota.Some? ==> used <= Used(sys.store.jobs) || used <= sys.store.quota.value.hardGPUs
  }

  /**
   No step of any interleaved run takes the Running sum above both what it was and the quota in force
   iff there is nothing to ask for, or the quota is not edited: an edit that comes between the gate and
   the status write is not seen.
   */
  lemma QuotaInForceIff(s: State, hard: nat32, largest: nat32, edits: bool)
    requires IsInitial(s) && s.quota.Some? && s.quota.value.hardGPUs == hard && hard + largest <= MAX
    ensures (forall es, e :: AllUpTo(es + [e], largest, edits) ==> RespectsQuotaInForce(s, es, e))
            <==> largest == 0 || !edits
  {
    hide AllUpTo, RespectsQuotaInForce;
    if largest == 0 || !edits {
      forall es, e | AllUpTo(es + [e], largest, edits)
        ensures RespectsQuotaInForce(s, es, e)
      {
        SafeStep(s, es, e, hard, largest, edits);
      }
    } else {
      var es := EditedRun(s, largest);
    }
  }

  lemma SafeStep(s: State, es: seq<SplitEvent>, e: SplitEvent, hard: nat32, largest: nat32, edits: bool)
    requires IsInitial(s) && s.quota.Some? && s.quota.value.hardGPUs == hard && hard + largest <= MAX
    requires AllUpTo(es + [e], largest, edits) && (largest == 0 || !edits)
    ensures RespectsQuotaInForce(s, es, e)
  {
    UpToSplits(es, e, largest, edits);
    var sys := Run(System(s, Idle), es);
    hide Run, Step, Used;
    if !edits {
      FixedQuota(es, hard, largest);
      FixedQuota(es + [e], hard, largest);
      RunningSumWithinQuota(s, es + [e], hard);
      RunningSumWithinQuota(s, es, hard);
      RunSnoc(System(s, Idle), es, e);
    } else {
      RunKeeps(s, es);
      forall k | k in sys.store.jobs
        ensures sys.store.jobs[k].spec.gpus == 0
      {
        var i := JobsAreSubmitted(s, es, k);
        assert UpTo(es[i], largest, edits);
      }
      hide Inv;
      if Used(Step(sys, e).store.jobs) > Used(sys.store.jobs) {
        OnlyAdmissionsRaise(sys, e);
      }
    }
  }

  lemma UpToSplits(es: seq<SplitEvent>, e: SplitEvent, largest: nat32, edits: bool)
    requires AllUpTo(es + [e], largest, edits)
    ensures AllUpTo(es, largest, edits) && AllCountable(es)
  {
    forall i | 0 <= i < |es|
      ensures UpTo(es[i], largest, edits)
    {
      assert es[i] == (es + [e])[i];
    }
  }

  lemma FixedQuota(es: seq<SplitEvent>, hard: nat32, largest: nat32)
    requires AllUpTo(es, largest, false) && hard + largest <= MAX
    ensures SplitUnderQuota(es, hard)
  {
  }

  /** The failing run: the quota goes back to zero once a one-GPU job has passed the gate. */
  lemma EditedRun(s: State, largest: nat32) returns (es: seq<SplitEvent>)
    requires IsInitial(s) && 1 <= largest
    ensures AllUpTo(es + [Invoke(Ok)], largest, true) && !RespectsQuotaInForce(s, es, Invoke(Ok))
  {
    var k, lowers := "job", Outside(SetQuota(Some(0)));
    hide Run, Waits, AllUpTo, CreationRound, Step, CurrentWorkflow, AtGate, Admits, CanRecheck, WorkflowName, AllWorker;
    var first, claim, c := ClaimedUnderOne(s, largest);
    WaitingPasses(c, k, PlainSpec(1), 0);
    CreationRoundReaches(c, k);
    SplitWorker.RunAppend(System(s, Idle), first + claim, CreationRound(c, k));
    RunSnoc(System(s, Idle), first + claim + CreationRound(c, k), lowers);
    es := first + claim + CreationRound(c, k) + [lowers];
    CreationIsWorker(c, k);
    WorkerUpTo(first, claim, CreationRound(c, k), largest);
    hide PlainSpec, AtWrite, Used, UsedBesides;
    LateWrite(c, k, PlainSpec(1));
  }

  lemma CreationIsWorker(c: State, k: string)
    ensures AllWorker(CreationRound(c, k))
  {
  }

  /** A one-GPU job is submitted and claimed under a quota of one. */
  lemma ClaimedUnderOne(s: State, largest: nat32) returns (first: seq<SplitEvent>, claim: seq<SplitEvent>, c: State)
    requires IsInitial(s) && 1 <= largest
    ensures AllUpTo(first, largest, true) && AllWorker(claim)
    ensures Run(System(s, Idle), first + claim) == System(c, Idle) && Waits(c, "job", PlainSpec(1), 0)
  {
    var k, spec, s1 := "job", PlainSpec(1), Happen(s, SetQuota(Some(1)));
    var created := Happen(s1, Create(k, spec));
    first := [Outside(SetQuota(Some(1))), Outside(Create(k, spec))];
    TwoEvents(s, SetQuota(Some(1)), Create(k, spec));
    assert k in created.queue && created.jobs[k].name == k;
    ClaimedWaits(s1, k, spec);
    assert AllUpTo(first, largest, true);
    hide Happen, Run, Waits, Work, AllUpTo, AllWorker;
    claim := UndisturbedRound(created, k);
    c := Work(created, k);
    SplitWorker.RunAppend(System(s, Idle), first, claim);
  }

  lemma TwoEvents(s: State, a: Event, b: Event)
    requires !a.Restart? && !b.Restart?
    ensures Run(System(s, Idle), [Outside(a), Outside(b)]) == System(Happen(Happen(s, a), b), Idle)
  {
    hide Happen;
    RunOne(System(s, Idle), Outside(a));
    RunSnoc(System(s, Idle), [Outside(a)], Outside(b));
    assert [Outside(a)] + [Outside(b)] == [Outside(a), Outside(b)];
  }

  /** The quota is lowered to zero, and the write takes the Running sum from zero to one. */
  lemma LateWrite(c: State, k: string, spec: JobSpec)
    requires k in c.jobs && c.jobs[k].name == k && c.jobs[k].IsWaiting() && c.jobs[k].spec.gpus == 1
    requires Used(c.jobs) == UsedBesides(c.jobs, k) == 0
    ensures var sys := Step(AtWrite(c, k), Outside(SetQuota(Some(0))));
            && sys.store.quota.Some? && sys.store.quota.value.hardGPUs == 0 && Used(sys.store.jobs) == 0
            && Used(Step(sys, Invoke(Ok)).store.jobs) == 1
  {
    var j, g := c.jobs[k], AtGate(c, c.jobs[k]);
    var next := Started(g, c.now);
    assert next.IsRunning();
    UsedPut(c.jobs, k, j.(status := next.status));
    hide CurrentWorkflow, CurrentAttempt, WorkflowFor, Started, Used, UsedBesides, AtGate, PutWorkflow;
    var store := AtWrite(c, k).store;
    assert store.jobs == c.jobs by {
      PutKeepsJobs(Dequeue(c, k), CurrentWorkflow(g), WorkflowFor(g, CurrentAttempt(g).0, c.templateName));
    }
    var lowered := Happen(store, SetQuota(Some(0)));
    assert lowered.jobs == c.jobs && lowered.quota.Some? && lowered.quota.value.hardGPUs == 0;
    hide Happen;
    CurrentWrite(lowered, k, j, next);
  }

  lemma PutKeepsJobs(s: State, w: string, wf: Workflow)
    ensures PutWorkflow(s, w, wf).jobs == s.jobs
  {
  }

  lemma CurrentWrite(s: State, k: string, read: Job, next: Job)
    requires k in s.jobs && s.jobs[k] == read && read.name == k
    ensures Step(System(s, Busy(k, WriteStatus(read, next, Done, true))), Invoke(Ok)).store.jobs ==
            s.jobs[k := read.(status := next.status)]
  {
    WriteJobs(s, k, read, read.(status := next.status));
    hide PutJob, RefreshQuota;
  }

  lemma WorkerUpTo(first: seq<SplitEvent>, claim: seq<SplitEvent>, creation: seq<SplitEvent>, largest: nat32)
    requires AllUpTo(first, largest, true)
    requires AllWorker(claim) && AllWorker(creation)
    ensures AllUpTo(first + claim + creation + [Outside(SetQuota(Some(0)))] + [Invoke(Ok)], largest, true)
  {
    var es := first + claim + creation + [Outside(SetQuota(Some(0)))] + [Invoke(Ok)];
    forall i | 0 <= i < |es|
      ensures UpTo(es[i], largest, true)
    {
      if i < |first| {
        assert es[i] == first[i];
      } else if i < |first| + |claim| {
        assert es[i] == claim[i - |first|];
      } else if i < |first| + |claim| + |creation| {
        assert es[i] == creation[i - |first| - |claim|];
      }
    }
  }
}
