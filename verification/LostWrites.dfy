/**
 What a lost status write leads to: a Workflow that goes on uncounted. Until the gate lets the job pass
 again it goes on beside a job that waits; then it is adopted under the old attempt count, and unless
 that count is zero the next reconcile starts a second Workflow beside it.
 */
module LostWrites {
  import opened Int32
  import opened Model
  import opened Sums
  import opened Naming
  import opened WorkflowBuilder
  import opened ClusterState
  import opened Operator
  import opened SplitWorker
  import opened SplitInvariant
  import opened SplitSafety
  import opened SplitQuota
  import opened Atomic
  import opened Effects
  import opened Accounting
  import opened AtomicTheorems
  import opened LiveUsage
  import opened Interruptions
  import opened SplitTheorems
  import opened SplitWorkflows
  import opened QuotaTheorems
  import opened QuotaOverflow
  import opened SingleJob

  /** `s` after the worker created the next Workflow of `k` and then lost the status write. */
  function AfterLoss(s: State, k: string): State
    requires k in s.jobs
  {
    var j := AtGate(s, s.jobs[k]);
    var w := CurrentWorkflow(j);
    var t := PutWorkflow(Dequeue(s, k), w, WorkflowFor(j, CurrentAttempt(j).0, s.templateName));
    t.(queue := t.queue + {k})
  }

  /** The calls of one reconcile that creates a Workflow and whose status write fails. */
  function LostRound(s: State, k: string): seq<SplitEvent> {
    CreationRound(s, k) + [Invoke(Refused)]
  }

  lemma RunSnoc(sys: System, es: seq<SplitEvent>, e: SplitEvent)
    ensures Run(sys, es + [e]) == Step(Run(sys, es), e)
  {
    hide Step;
    assert (es + [e])[..|es|] == es;
  }

  lemma RunCalls(sys: System, n: nat)
    ensures Run(sys, Calls(n + 1)) == Run(Step(sys, Invoke(Ok)), Calls(n))
  {
    assert Calls(n + 1) == [Invoke(Ok)] + Calls(n);
    SplitWorker.RunAppend(sys, [Invoke(Ok)], Calls(n));
    RunOne(sys, Invoke(Ok));
  }

  // ----- the lost round, call by call -----

  lemma FetchStep(d: State, k: string)
    requires k in d.jobs && d.jobs[k].IsWaiting() && d.jobs[k].finalizer && !d.jobs[k].deleting
    ensures Step(System(d, Busy(k, FetchJob)), Invoke(Ok)) == System(d, Busy(k, FetchQuota(d.jobs[k])))
  {
  }

  lemma QuotaStep(d: State, k: string, j: Job)
    ensures Step(System(d, Busy(k, FetchQuota(j))), Invoke(Ok)) ==
            System(d, Busy(k, if d.quota.Some? then ListPeers(j, d.quota.value.hardGPUs) else FetchWorkflow(j, j)))
  {
  }

  lemma GateStep(d: State, k: string, j: Job, hard: nat32)
    requires !GateRefuses(UsedBesides(d.jobs, j.name), j.spec.gpus, hard)
    ensures Step(System(d, Busy(k, ListPeers(j, hard))), Invoke(Ok)) == System(d, Busy(k, FetchWorkflow(j, Granted(j))))
  {
    hide GateRefuses, UsedBesides;
  }

  lemma LookupStep(d: State, k: string, j: Job, g: Job)
    requires CurrentWorkflow(g) !in d.workflows
    ensures Step(System(d, Busy(k, FetchWorkflow(j, g))), Invoke(Ok)) == System(d, Busy(k, CreateWorkflow(j, g)))
  {
    hide CurrentWorkflow;
  }

  lemma CreateStep(d: State, k: string, j: Job, g: Job)
    requires CurrentWorkflow(g) !in d.workflows
    ensures Step(System(d, Busy(k, CreateWorkflow(j, g))), Invoke(Ok)) ==
            System(PutWorkflow(d, CurrentWorkflow(g), WorkflowFor(g, CurrentAttempt(g).0, d.templateName)),
                   Busy(k, WriteStatus(j, Started(g, d.now), Done, true)))
  {
    hide CurrentWorkflow, CurrentAttempt, WorkflowFor, Started, PutWorkflow;
  }

  lemma LossStep(t: State, k: string, j: Job, next: Job)
    ensures Step(System(t, Busy(k, WriteStatus(j, next, Done, true))), Invoke(Refused)) ==
            System(t.(queue := t.queue + {k}), Idle)
  {
    hide RefreshQuota, PutJob, IsCurrent;
  }

  lemma RunNothing(sys: System)
    ensures Run(sys, Calls(0)) == sys
  {
  }

  lemma GateCalls(d: State, k: string)
    requires k in d.jobs && d.jobs[k].IsWaiting() && d.jobs[k].finalizer && !d.jobs[k].deleting
    requires d.jobs[k].name == k && Admits(d, d.jobs[k])
    requires CurrentWorkflow(AtGate(d, d.jobs[k])) !in d.workflows
    ensures Run(System(d, Busy(k, FetchJob)), Calls(if d.quota.None? then 3 else 4)) ==
            System(d, Busy(k, CreateWorkflow(d.jobs[k], AtGate(d, d.jobs[k]))))
  {
    var j := d.jobs[k];
    FetchStep(d, k);
    QuotaStep(d, k, j);
    if d.quota.Some? {
      GateStep(d, k, j, d.quota.value.hardGPUs);
    }
    hide Step, CurrentWorkflow, Run, Calls, GateRefuses, UsedBesides, Granted;
    LookupStep(d, k, j, AtGate(d, j));
    RunNothing(System(d, Busy(k, CreateWorkflow(j, AtGate(d, j)))));
    RunCalls(System(d, Busy(k, FetchWorkflow(j, AtGate(d, j)))), 0);
    if d.quota.None? {
      RunCalls(System(d, Busy(k, FetchJob)), 2);
      RunCalls(System(d, Busy(k, FetchQuota(j))), 1);
    } else {
      RunCalls(System(d, Busy(k, FetchJob)), 3);
      RunCalls(System(d, Busy(k, FetchQuota(j))), 2);
      RunCalls(System(d, Busy(k, ListPeers(j, d.quota.value.hardGPUs))), 1);
    }
  }

  /** The reconcile is about to create the Workflow. */
  function AtCreate(s: State, k: string): System
    requires k in s.jobs
  {
    System(Dequeue(s, k), Busy(k, CreateWorkflow(s.jobs[k], AtGate(s, s.jobs[k]))))
  }

  /** It has created it and is about to record it. */
  function AtWrite(s: State, k: string): System
    requires k in s.jobs
  {
    var g := AtGate(s, s.jobs[k]);
    System(PutWorkflow(Dequeue(s, k), CurrentWorkflow(g), WorkflowFor(g, CurrentAttempt(g).0, s.templateName)),
           Busy(k, WriteStatus(s.jobs[k], Started(g, s.now), Done, true)))
  }

  function LookupRound(s: State, k: string): seq<SplitEvent> {
    [Begin(k)] + Calls(if s.quota.None? then 3 else 4)
  }

  function CreationRound(s: State, k: string): seq<SplitEvent> {
    LookupRound(s, k) + [Invoke(Ok)]
  }

  lemma LookupRoundReaches(s: State, k: string)
    requires CanRecheck(s, k) && s.jobs[k].name == k && Admits(s, s.jobs[k])
    requires CurrentWorkflow(AtGate(s, s.jobs[k])) !in s.workflows
    ensures Run(System(s, Idle), LookupRound(s, k)) == AtCreate(s, k)
  {
    var d, j := Dequeue(s, k), s.jobs[k];
    assert Admits(d, j);
    assert Step(System(s, Idle), Begin(k)) == System(d, Busy(k, FetchJob));
    hide Step, CurrentWorkflow, Run, Calls, Admits, Granted;
    GateCalls(d, k);
    RunOne(System(s, Idle), Begin(k));
    SplitWorker.RunAppend(System(s, Idle), [Begin(k)], Calls(if s.quota.None? then 3 else 4));
  }

  lemma CreationRoundReaches(s: State, k: string)
    requires CanRecheck(s, k) && s.jobs[k].name == k && Admits(s, s.jobs[k])
    requires CurrentWorkflow(AtGate(s, s.jobs[k])) !in s.workflows
    ensures Run(System(s, Idle), CreationRound(s, k)) == AtWrite(s, k)
  {
    hide Step, CurrentWorkflow, CurrentAttempt, WorkflowFor, Started, PutWorkflow, Run, LookupRound, Admits, AtGate;
    LookupRoundReaches(s, k);
    CreateStep(Dequeue(s, k), k, s.jobs[k], AtGate(s, s.jobs[k]));
    RunSnoc(System(s, Idle), LookupRound(s, k), Invoke(Ok));
  }

  lemma LostRoundLeaves(s: State, k: string)
    requires CanRecheck(s, k) && s.jobs[k].name == k && Admits(s, s.jobs[k])
    requires CurrentWorkflow(AtGate(s, s.jobs[k])) !in s.workflows
    ensures Run(System(s, Idle), LostRound(s, k)) == System(AfterLoss(s, k), Idle)
  {
    CreationRoundReaches(s, k);
    LossStep(AtWrite(s, k).store, k, s.jobs[k], Started(AtGate(s, s.jobs[k]), s.now));
    hide Step, CurrentWorkflow, CurrentAttempt, WorkflowFor, Started, PutWorkflow, Run, CreationRound, Granted, AtGate;
    RunSnoc(System(s, Idle), CreationRound(s, k), Invoke(Refused));
  }

  // ----- the next two reconciles -----

  lemma AttemptNamesDiffer(k: string, a: int)
    ensures WorkflowName(k, a) != WorkflowName(k, a + 1)
  {
    if WorkflowName(k, a) == WorkflowName(k, a + 1) {
      WorkflowNamesInjective(k, a, k, a + 1);
    }
  }

  lemma AdoptionRound(s: State, k: string)
    requires CanRecheck(s, k) && s.jobs[k].name == k && Admits(s, s.jobs[k])
    ensures var u := AfterLoss(s, k);
            && k in u.queue
            && Work(u, k) == PutJob(Dequeue(u, k), Adopted(AtGate(s, s.jobs[k])))
  {
    var u, j := AfterLoss(s, k), s.jobs[k];
    var g, before := AtGate(s, j), Dequeue(u, k);
    var w := CurrentWorkflow(g);
    assert before.workflows[w].phase == "";
    assert Admits(before, j);
    hide CurrentWorkflow, WorkflowFor, GateRefuses, UsedBesides, RefreshQuota, DropLabelled, ReconcileTtl;
    hide CurrentAttempt, Completed, GivenUp;
    assert Propagate(before, g, w) == (PutJob(before, Adopted(g)), Done);
    assert Operator.EnsureWorkflow(before, g) == (PutJob(before, Adopted(g)), Done);
    hide Operator.EnsureWorkflow, Adopted, PutJob;
  }

  /** With no attempt counted yet, the adopted Workflow is the one the job waits for. */
  lemma FirstAttemptSettles(v: State, k: string)
    requires k in v.queue && k in v.jobs && v.jobs[k].name == k
    requires v.jobs[k].finalizer && !v.jobs[k].deleting && v.jobs[k].IsRunning() && v.jobs[k].status.attempts == 0
    requires var w := WorkflowName(k, 1);
             v.jobs[k].status.workflowName == w && w in v.workflows && v.workflows[w].phase == ""
    ensures Work(v, k) == Dequeue(v, k)
  {
    hide WorkflowName, AdmitOrPark, RefreshQuota, DropLabelled, ReconcileTtl;
    var before, j := Dequeue(v, k), v.jobs[k];
    assert CurrentWorkflow(j) == WorkflowName(k, 1);
    hide CurrentAttempt;
    assert Operator.EnsureWorkflow(before, j) == (before, Done);
  }

  /** Otherwise the job is taken to wait for an earlier Workflow, which is submitted again. */
  lemma EarlierAttemptRestarts(v: State, k: string)
    requires k in v.queue && k in v.jobs && v.jobs[k].name == k && k != ""
    requires v.jobs[k].finalizer && !v.jobs[k].deleting && v.jobs[k].IsRunning() && v.jobs[k].status.attempts > 0
    requires CountedWorkflow(v.jobs[k]) !in v.workflows
    ensures var t := Work(v, k); var j := v.jobs[k]; var w := CountedWorkflow(j);
            && t.jobs == v.jobs[k := Started(j, v.now)]
            && t.workflows == v.workflows[w := WorkflowFor(j, j.status.attempts, v.templateName)]
            && Started(j, v.now).status.attempts == j.status.attempts
  {
    var before, j := Dequeue(v, k), v.jobs[k];
    assert CurrentAttempt(j) == (j.status.attempts, false);
    EnsureSubmits(before, j);
    var (t, result) := Operator.EnsureWorkflow(before, j);
    SettleKeepsObjects(t, k, result);
    hide WorkflowName, Operator.EnsureWorkflow, AdmitOrPark, DropLabelled, ReconcileTtl, WorkflowFor, Settle;
  }

  /** From `s` to `t` only `k` and its Workflows have changed: it runs, with one live Workflow or with two. */
  ghost predicate LostOutcome(s: State, t: State, k: string)
    requires k in s.jobs
  {
    var a := s.jobs[k].status.attempts;
    && k in t.jobs && t.jobs == s.jobs[k := t.jobs[k]]
    && t.jobs[k].name == k && t.jobs[k].spec == s.jobs[k].spec && t.jobs[k].finalizer && !t.jobs[k].deleting
    && t.jobs[k].IsRunning() && t.jobs[k].status.attempts == a
    && WorkflowsOf(t, k) == (if a == 0 then {WorkflowName(k, 1)} else {WorkflowName(k, a), WorkflowName(k, a + 1)})
    && (forall w :: w in WorkflowsOf(t, k) ==> w !in s.workflows && t.workflows[w].phase == "")
    && (forall w :: w !in WorkflowsOf(t, k) ==>
          (w in t.workflows <==> w in s.workflows) && (w in s.workflows ==> t.workflows[w] == s.workflows[w]))
  }

  /** What the adopting reconcile leaves: the job runs under its old count, named after the new Workflow. */
  ghost predicate AdoptedIn(s: State, v: State, k: string)
    requires k in s.jobs
  {
    var a := s.jobs[k].status.attempts; var w := WorkflowName(k, a + 1);
    && k in v.queue && k in v.jobs && v.jobs == s.jobs[k := v.jobs[k]]
    && v.jobs[k].name == k && v.jobs[k].spec == s.jobs[k].spec
    && v.jobs[k].finalizer && !v.jobs[k].deleting && v.jobs[k].IsRunning() && v.jobs[k].status.attempts == a
    && v.jobs[k].status.workflowName == w
    && w !in s.workflows && w in v.workflows && v.workflows == s.workflows[w := v.workflows[w]]
    && v.workflows[w].owner == k && v.workflows[w].phase == ""
  }

  /** What the loss leaves. */
  lemma LossShape(s: State, k: string)
    requires k in s.jobs && s.jobs[k].name == k
    ensures var u := AfterLoss(s, k); var w := CurrentWorkflow(AtGate(s, s.jobs[k]));
            && u.jobs == s.jobs && u.quota == s.quota && k in u.queue
            && w in u.workflows && u.workflows == s.workflows[w := u.workflows[w]]
            && u.workflows[w].owner == k && u.workflows[w].phase == ""
  {
    hide CurrentWorkflow, CurrentAttempt, Parameters;
  }

  lemma AdoptedState(s: State, k: string)
    requires CanRecheck(s, k) && s.jobs[k].name == k && Admits(s, s.jobs[k])
    requires 0 <= s.jobs[k].status.attempts < MAX && CurrentWorkflow(s.jobs[k]) !in s.workflows
    ensures AdoptedIn(s, Work(AfterLoss(s, k), k), k)
  {
    var j := s.jobs[k];
    WrapExact(j.status.attempts + 1);
    GateKeepsName(s, j);
    assert CurrentWorkflow(AtGate(s, j)) == WorkflowName(k, j.status.attempts + 1);
    hide WorkflowName, CurrentAttempt, Work, CurrentWorkflow, AfterLoss;
    LossShape(s, k);
    AdoptionRound(s, k);
    AdoptedShape(s, j);
    hide Admits, Granted, Adopted;
  }

  lemma AdoptedShape(s: State, j: Job)
    ensures var a := Adopted(AtGate(s, j));
            && a.name == j.name && a.spec == j.spec && a.finalizer == j.finalizer && a.deleting == j.deleting
            && a.IsRunning() && a.status.attempts == j.status.attempts
            && a.status.workflowName == CurrentWorkflow(AtGate(s, j))
  {
  }

  lemma FreeNames(s: State, k: string)
    requires StoreFits(s) && Exact(s) && k in s.jobs && s.jobs[k].IsWaiting()
    ensures s.jobs[k].name == k && 0 <= s.jobs[k].status.attempts < MAX
    ensures WorkflowsOf(s, k) == {}
    ensures WorkflowName(k, s.jobs[k].status.attempts) !in s.workflows
    ensures CurrentWorkflow(s.jobs[k]) !in s.workflows
  {
    var j := s.jobs[k];
    assert JobFits(s, k, j) && ExactJob(s, k, j);
    CountedMembership(s, j);
    if CurrentWorkflow(j) in s.workflows {
      OwnNames(s, j);
    }
    hide StoreFits, Exact, CurrentWorkflow, WorkflowName;
  }

  /** One lost write and two reconciles later: two live Workflows iff an attempt had been counted. */
  lemma LostWriteDoubles(s: State, k: string)
    requires Inv(System(s, Idle)) && Exact(s) && CanRecheck(s, k) && Admits(s, s.jobs[k])
    ensures LostOutcome(s, Work(Work(AfterLoss(s, k), k), k), k)
  {
    hide WorkflowName, Work, AfterLoss, Admits, AdoptedIn, LostOutcome;
    FreeNames(s, k);
    assert k != "" by {
      assert JobFits(s, k, s.jobs[k]);
    }
    hide Inv, Exact, CurrentWorkflow;
    AdoptedState(s, k);
    SecondRound(s, Work(AfterLoss(s, k), k), k);
  }

  lemma SecondRound(s: State, v: State, k: string)
    requires k in s.jobs && AdoptedIn(s, v, k) && k != "" && 0 <= s.jobs[k].status.attempts < MAX
    requires WorkflowsOf(s, k) == {} && WorkflowName(k, s.jobs[k].status.attempts) !in s.workflows
    ensures LostOutcome(s, Work(v, k), k)
  {
    var a := s.jobs[k].status.attempts;
    if a == 0 {
      hide Work, WorkflowName;
      FirstAttemptSettles(v, k);
      assert WorkflowsOf(Work(v, k), k) == {WorkflowName(k, 1)};
    } else {
      hide Work;
      assert CountedWorkflow(v.jobs[k]) == WorkflowName(k, a);
      AttemptNamesDiffer(k, a);
      hide WorkflowName, LostOutcome;
      EarlierAttemptRestarts(v, k);
      BothLive(s, v, Work(v, k), k, a);
    }
  }

  lemma BothLive(s: State, v: State, t: State, k: string, a: int32)
    requires k in s.jobs && AdoptedIn(s, v, k) && 0 < a < MAX && s.jobs[k].status.attempts == a
    requires WorkflowsOf(s, k) == {} && WorkflowName(k, a) !in s.workflows
    requires WorkflowName(k, a) != WorkflowName(k, a + 1)
    requires t.jobs == v.jobs[k := Started(v.jobs[k], v.now)]
    requires t.workflows == v.workflows[WorkflowName(k, a) := WorkflowFor(v.jobs[k], a, v.templateName)]
    requires Started(v.jobs[k], v.now).status.attempts == a
    ensures LostOutcome(s, t, k)
  {
    hide WorkflowName, Parameters, Labels, CurrentWorkflow;
    assert t.workflows[WorkflowName(k, a)].owner == k;
    assert WorkflowsOf(t, k) == {WorkflowName(k, a), WorkflowName(k, a + 1)};
  }

  // ----- real usage -----

  lemma SumNew(m: map<string, nat>, k: string, v: nat)
    requires k !in m
    ensures Sum(m[k := v]) == Sum(m) + v
  {
    SumPut(m, k, v);
    assert m - {k} == m;
  }

  /** The job's new Workflows are live, and the others are as they were. */
  lemma LiveOfOutcome(s: State, t: State, k: string)
    requires k in s.jobs && LostOutcome(s, t, k) && WorkflowsOf(s, k) == {}
    ensures LiveGpus(t).Keys == LiveGpus(s).Keys + WorkflowsOf(t, k) && LiveGpus(s).Keys !! WorkflowsOf(t, k)
    ensures forall w :: w in WorkflowsOf(t, k) ==> LiveGpus(t)[w] == s.jobs[k].spec.gpus
    ensures forall w :: w in LiveGpus(s) ==> LiveGpus(t)[w] == LiveGpus(s)[w]
  {
    hide WorkflowName, LiveGpus;
    LiveKeys(s);
    LiveKeys(t);
    forall w | w in WorkflowsOf(t, k)
      ensures LiveGpus(t)[w] == s.jobs[k].spec.gpus
    {
      LiveAtPhase(t, w);
    }
    forall w | w in s.workflows
      ensures w in t.workflows && LiveGpus(t)[w] == LiveGpus(s)[w]
    {
      LiveStays(s, t, w);
    }
  }

  lemma LiveAtPhase(t: State, w: string)
    requires w in t.workflows && t.workflows[w].phase == "" && t.workflows[w].owner in t.jobs
    ensures LiveGpus(t)[w] == t.jobs[t.workflows[w].owner].spec.gpus
  {
  }

  lemma LiveStays(s: State, t: State, w: string)
    requires w in s.workflows && w in t.workflows && t.workflows[w] == s.workflows[w] && t.jobs.Keys == s.jobs.Keys
    requires forall k :: k in s.jobs ==> t.jobs[k].spec == s.jobs[k].spec
    ensures LiveGpus(t)[w] == LiveGpus(s)[w]
  {
  }

  lemma LiveOneMore(s: State, t: State, k: string, w: string)
    requires k in s.jobs && LostOutcome(s, t, k) && WorkflowsOf(s, k) == {} && WorkflowsOf(t, k) == {w}
    ensures Sum(LiveGpus(t)) == Sum(LiveGpus(s)) + s.jobs[k].spec.gpus
  {
    LiveOfOutcome(s, t, k);
    hide WorkflowName, LiveGpus, LostOutcome;
    var gpus: nat := s.jobs[k].spec.gpus;
    assert LiveGpus(t) == LiveGpus(s)[w := gpus];
    SumNew(LiveGpus(s), w, gpus);
  }

  lemma LiveTwoMore(s: State, t: State, k: string, v: string, w: string)
    requires k in s.jobs && LostOutcome(s, t, k) && WorkflowsOf(s, k) == {} && WorkflowsOf(t, k) == {v, w} && v != w
    ensures Sum(LiveGpus(t)) == Sum(LiveGpus(s)) + 2 * s.jobs[k].spec.gpus
  {
    hide WorkflowName, LiveGpus, LostOutcome, WorkflowsOf;
    LiveOfOutcome(s, t, k);
    SumTwoNew(LiveGpus(s), LiveGpus(t), v, w, s.jobs[k].spec.gpus);
  }

  lemma SumTwoNew(m: map<string, nat>, m': map<string, nat>, v: string, w: string, gpus: nat)
    requires m'.Keys == m.Keys + {v, w} && m.Keys !! {v, w} && v != w
    requires m'[v] == m'[w] == gpus && forall x :: x in m ==> m'[x] == m[x]
    ensures Sum(m') == Sum(m) + 2 * gpus
  {
    assert m' == m[v := gpus][w := gpus];
    SumNew(m, v, gpus);
    SumNew(m[v := gpus], w, gpus);
  }

  /** What the outcome means for GPUs: the gate counts the request once, the cluster may serve it twice. */
  lemma LostOutcomeUses(s: State, t: State, k: string)
    requires k in s.jobs && s.jobs[k].IsWaiting() && WorkflowsOf(s, k) == {} && LostOutcome(s, t, k)
    requires 0 <= s.jobs[k].status.attempts
    ensures Used(t.jobs) == Used(s.jobs) + s.jobs[k].spec.gpus
    ensures Sum(LiveGpus(t)) ==
            Sum(LiveGpus(s)) + (if s.jobs[k].status.attempts == 0 then 1 else 2) * s.jobs[k].spec.gpus
  {
    UsedSplit(s.jobs, k);
    UsedPut(s.jobs, k, t.jobs[k]);
    hide Used, UsedBesides, LiveGpus, WorkflowsOf;
    var a: int32 := s.jobs[k].status.attempts;
    if a == 0 {
      hide WorkflowName;
      LiveOneMore(s, t, k, WorkflowName(k, 1));
    } else {
      AttemptNamesDiffer(k, a);
      hide WorkflowName;
      LiveTwoMore(s, t, k, WorkflowName(k, a), WorkflowName(k, a + 1));
    }
  }

  // ----- the theorem, and a run that breaks the quota -----

  /** Nobody but the worker acts. */
  predicate AllWorker(ses: seq<SplitEvent>) {
    forall i :: 0 <= i < |ses| ==> !ses[i].Outside?
  }

  lemma UndisturbedRound(s: State, k: string) returns (ses: seq<SplitEvent>)
    requires k in s.queue && (k in s.jobs ==> s.jobs[k].name == k)
    ensures AllWorker(ses) && AllUncut(ses) && Run(System(s, Idle), ses) == System(Work(s, k), Idle)
  {
    hide Work, Run;
    var n := WorkIsUninterrupted(s, k);
    ses := [Begin(k)] + Calls(n);
  }

  /** How many calls failed, or lost their replies. */
  function Losses(ses: seq<SplitEvent>): nat {
    if ses == [] then 0 else
      var e := ses[|ses| - 1];
      Losses(ses[..|ses| - 1]) + if e.Invoke? && e.outcome != Ok then 1 else 0
  }

  lemma {:induction false} NoLosses(ses: seq<SplitEvent>)
    requires AllGetThrough(ses)
    ensures Losses(ses) == 0
  {
    if ses != [] {
      NoLosses(ses[..|ses| - 1]);
    }
  }

  lemma {:induction false} LossesAppend(xs: seq<SplitEvent>, ys: seq<SplitEvent>)
    ensures Losses(xs + ys) == Losses(xs) + Losses(ys)
  {
    if ys == [] {
      assert xs + ys == xs;
    } else {
      assert (xs + ys)[..|xs + ys| - 1] == xs + ys[..|ys| - 1];
      LossesAppend(xs, ys[..|ys| - 1]);
    }
  }

  lemma LostRoundLosesOne(s: State, k: string)
    ensures Losses(LostRound(s, k)) == 1
  {
    NoLosses(CreationRound(s, k));
    assert LostRound(s, k)[..|CreationRound(s, k)|] == CreationRound(s, k);
    hide CreationRound;
  }

  /** A lost round and two undisturbed ones. */
  lemma LossRun(s: State, k: string) returns (ses: seq<SplitEvent>)
    requires CanRecheck(s, k) && s.jobs[k].name == k && Admits(s, s.jobs[k])
    requires 0 <= s.jobs[k].status.attempts < MAX && CurrentWorkflow(s.jobs[k]) !in s.workflows
    ensures AllWorker(ses) && Losses(ses) == 1
    ensures Run(System(s, Idle), ses) == System(Work(Work(AfterLoss(s, k), k), k), Idle)
  {
    var u := AfterLoss(s, k);
    LossShape(s, k);
    hide AfterLoss, Work, Admits, WorkflowName, Run, CurrentAttempt, CurrentWorkflow, LostRound, AtGate;
    LostRoundLeaves(s, k) by {
      GateKeepsName(s, s.jobs[k]);
    }
    LostRoundIsWorker(s, k);
    LostRoundLosesOne(s, k);
    AdoptedState(s, k);
    var second := UndisturbedRound(u, k);
    var third := UndisturbedRound(Work(u, k), k);
    NoLosses(second);
    NoLosses(third);
    JoinRounds(System(s, Idle), LostRound(s, k), second);
    JoinRounds(System(s, Idle), LostRound(s, k) + second, third);
    ses := LostRound(s, k) + second + third;
  }

  lemma GateKeepsName(s: State, j: Job)
    ensures CurrentWorkflow(AtGate(s, j)) == CurrentWorkflow(j)
  {
    hide WorkflowName;
  }

  lemma JoinRounds(sys: System, xs: seq<SplitEvent>, ys: seq<SplitEvent>)
    ensures Run(sys, xs + ys) == Run(Run(sys, xs), ys)
    ensures Losses(xs + ys) == Losses(xs) + Losses(ys)
    ensures AllWorker(xs) && AllWorker(ys) ==> AllWorker(xs + ys)
  {
    hide Run, Losses;
    SplitWorker.RunAppend(sys, xs, ys);
    LossesAppend(xs, ys);
  }

  lemma LostRoundIsWorker(s: State, k: string)
    ensures AllWorker(LostRound(s, k))
  {
  }

  lemma OutcomeSize(s: State, t: State, k: string)
    requires k in s.jobs && LostOutcome(s, t, k) && 0 <= s.jobs[k].status.attempts
    ensures |WorkflowsOf(t, k)| == 2 <==> s.jobs[k].status.attempts > 0
  {
    hide WorkflowName, WorkflowsOf;
    AttemptNamesDiffer(k, s.jobs[k].status.attempts);
  }

  /**
   From any state reached without lost writes, a waiting job that the gate admits is left, by one
   lost status write, with two live Workflows iff it had counted an attempt before.
   */
  lemma LostWriteDoublesWorkflows(s: State, k: string) returns (ses: seq<SplitEvent>)
    requires Attainable(s) && CanRecheck(s, k) && Admits(s, s.jobs[k])
    ensures AllWorker(ses) && Losses(ses) == 1
    ensures var t := Run(System(s, Idle), ses).store;
            && Run(System(s, Idle), ses).worker.Idle?
            && LostOutcome(s, t, k) && SameLimit(s, t)
            && (|WorkflowsOf(t, k)| == 2 <==> s.jobs[k].status.attempts > 0)
            && Used(t.jobs) == Used(s.jobs) + s.jobs[k].spec.gpus
            && Sum(LiveGpus(t)) ==
               Sum(LiveGpus(s)) + (if s.jobs[k].status.attempts == 0 then 1 else 2) * s.jobs[k].spec.gpus
  {
    AttainableFits(s);
    hide Attainable, AfterLoss, Work, Admits, WorkflowName, LostOutcome, Run, Used, LiveGpus, WorkflowsOf;
    hide CurrentWorkflow;
    FreeNames(s, k);
    LostWriteDoubles(s, k);
    hide Exact, Inv;
    ses := LossRun(s, k);
    var t := Work(Work(AfterLoss(s, k), k), k);
    WorkKeepsLimit(AfterLoss(s, k), k);
    WorkKeepsLimit(Work(AfterLoss(s, k), k), k);
    LossKeepsQuota(s, k);
    LostOutcomeUses(s, t, k);
    OutcomeSize(s, t, k);
  }

  lemma LossKeepsQuota(s: State, k: string)
    requires k in s.jobs
    ensures AfterLoss(s, k).quota == s.quota
  {
  }

  /** A run that ends with a job about to start its second attempt. */
  function OnceFailed(k: string, spec: JobSpec): seq<AtomicEvent> {
    Submission(k, spec) + [World(SetPhase(WorkflowName(k, 1), "Failed"))] + [Reconciled(k)]
  }

  lemma OnceFailedWaits(s: State, k: string, spec: JobSpec)
    requires IsInitial(s) && k != "" && spec.Valid() && 1 <= spec.backoffLimit < MAX
    requires s.quota.Some? ==> spec.gpus <= s.quota.value.hardGPUs
    ensures AllPlain(OnceFailed(k, spec))
    ensures Waits(Exec(s, OnceFailed(k, spec)), k, spec, 1)
  {
    var first, fails := Submission(k, spec), World(SetPhase(WorkflowName(k, 1), "Failed"));
    hide Exec, Work, Happen, Runs, Waits, WorkflowName;
    FirstAttempt(s, k, spec);
    FailStep(Exec(s, first), k, spec, 1);
    ExecSnoc(s, first, fails);
    ExecSnoc(s, first + [fails], Reconciled(k));
    RetryStep(Exec(s, first + [fails]), k, spec, 1);
  }

  /** From an empty namespace, by one lost write, to two live Workflows of one job. */
  lemma DoubleRun(s: State, k: string, spec: JobSpec) returns (ses: seq<SplitEvent>)
    requires IsInitial(s) && k != "" && spec.Valid() && 1 <= spec.backoffLimit < MAX
    requires s.quota.Some? ==> spec.gpus <= s.quota.value.hardGPUs
    ensures Losses(ses) == 1 && SameOutside(OnceFailed(k, spec), ses)
    ensures Run(System(s, Idle), ses).worker.Idle?
    ensures var u, t := Exec(s, OnceFailed(k, spec)), Run(System(s, Idle), ses).store;
            Waits(u, k, spec, 1) && LostOutcome(u, t, k) && SameLimit(u, t)
  {
    var es := OnceFailed(k, spec);
    var u := Exec(s, es);
    OnceFailedWaits(s, k, spec);
    hide Exec, Run, Waits, OnceFailed, LostOutcome, SameOutside, AllWorker, AllGetThrough, AllPlain;
    assert IsAtomicRun(s, es, u);
    assert Named(s);
    hide Named;
    var before := AtomicRefinesSplit(s, es);
    WaitingAlone(u, k, spec);
    var after := LostWriteDoublesWorkflows(u, k);
    NoLosses(before);
    hide Losses, Waits, Attainable, CanRecheck, Admits;
    JoinRounds(System(s, Idle), before, after);
    WorkerAddsNothing(es, before, after);
    ses := before + after;
  }

  lemma WorkerAddsNothing(es: seq<AtomicEvent>, xs: seq<SplitEvent>, ys: seq<SplitEvent>)
    requires SameOutside(es, xs) && AllWorker(ys)
    ensures SameOutside(es, xs + ys)
  {
  }

  lemma DoubleUses(u: State, t: State, k: string, spec: JobSpec)
    requires Waits(u, k, spec, 1) && LostOutcome(u, t, k)
    ensures k in t.jobs && |WorkflowsOf(t, k)| == 2
    ensures Used(t.jobs) == spec.gpus && Sum(LiveGpus(t)) == 2 * spec.gpus
  {
    hide WorkflowName, Used, LiveGpus;
    WaitingAlone(u, k, spec);
    LostOutcomeUses(u, t, k);
    OutcomeSize(u, t, k);
  }

  /**
   A lost write can break the quota even for a job that is alone and fits: when its second attempt's
   status write is lost, both attempts are served, though the Running sum counts one.
   */
  lemma LostWriteBreaksQuota(s: State, k: string, spec: JobSpec, hard: nat32) returns (ses: seq<SplitEvent>)
    requires IsInitial(s) && s.quota.Some? && s.quota.value.hardGPUs == hard
    requires k != "" && spec.Valid() && 1 <= spec.backoffLimit < MAX
    requires spec.gpus <= hard < 2 * spec.gpus && RequestFits(spec.gpus, hard)
    ensures SplitUnderQuota(ses, hard)
    ensures var t := Run(System(s, Idle), ses).store;
            Used(t.jobs) <= hard < Sum(LiveGpus(t))
  {
    hide Run, Used, LiveGpus, WorkflowName;
    ses := DoubleRun(s, k, spec);
    DoubleUses(Exec(s, OnceFailed(k, spec)), Run(System(s, Idle), ses).store, k, spec);
    assert AllUnderQuota(OnceFailed(k, spec), hard);
    hide OnceFailed;
    SameQuota(OnceFailed(k, spec), ses, hard);
  }

  /**
   In all interleaved runs with backoff limits up to `limit`, a job never has more than one Workflow
   iff no job may retry at all.
   */
  lemma OneWorkflowIff(s: State, limit: nat32)
    requires IsInitial(s)
    ensures (forall es, k :: LimitsWithin(es, limit) && k in Run(System(s, Idle), es).store.jobs ==>
               |WorkflowsOf(Run(System(s, Idle), es).store, k)| <= 1)
            <==> limit == 0
  {
    hide Run, LimitsWithin, WorkflowsOf;
    if limit == 0 {
      forall es, k | LimitsWithin(es, limit) && k in Run(System(s, Idle), es).store.jobs
        ensures |WorkflowsOf(Run(System(s, Idle), es).store, k)| <= 1
      {
        OneWorkflowWithoutRetries(s, es, k);
      }
    } else {
      var es, k := TwoWorkflowsRun(s, limit);
    }
  }

  lemma OneWorkflowWithoutRetries(s: State, es: seq<SplitEvent>, k: string)
    requires IsInitial(s) && LimitsWithin(es, 0) && k in Run(System(s, Idle), es).store.jobs
    ensures |WorkflowsOf(Run(System(s, Idle), es).store, k)| <= 1
  {
    assert AllCountable(es);
    var sys := Run(System(s, Idle), es);
    assert IsRun(s, es, sys);
    ReachableNearby(sys);
    var i := JobsAreSubmitted(s, es, k);
    var j := sys.store.jobs[k];
    assert j.spec.backoffLimit == 0 && JobFits(sys.store, k, j);
    hide Run, Reachable, IsRun, WorkflowsOf, WorkflowName, LimitsWithin, AllAwake, StoreFits;
    assert exists w :: NearbyWorkflows(j) == {w};
    var w :| NearbyWorkflows(j) == {w};
    SubsetOfOne(WorkflowsOf(sys.store, k), w);
  }

  lemma SubsetOfOne(a: set<string>, w: string)
    requires a <= {w}
    ensures |a| <= 1
  {
    assert a == {} || a == {w};
  }

  lemma TwoWorkflowsRun(s: State, limit: nat32) returns (es: seq<SplitEvent>, k: string)
    requires IsInitial(s) && 1 <= limit
    ensures LimitsWithin(es, limit) && k in Run(System(s, Idle), es).store.jobs
    ensures |WorkflowsOf(Run(System(s, Idle), es).store, k)| == 2
  {
    hide Run, WorkflowsOf, WorkflowName, OnceFailed, SameOutside, LimitsWithin, LostOutcome, Losses, Exec;
    k := "job";
    var spec := PlainSpec(0).(backoffLimit := 1);
    es := DoubleRun(s, k, spec);
    DoubleUses(Exec(s, OnceFailed(k, spec)), Run(System(s, Idle), es).store, k, spec);
    OnceFailedLimits(k, spec, es, limit);
  }

  lemma OnceFailedLimits(k: string, spec: JobSpec, es: seq<SplitEvent>, limit: nat32)
    requires SameOutside(OnceFailed(k, spec), es) && spec.backoffLimit <= limit
    ensures LimitsWithin(es, limit)
  {
  }

  lemma WaitingAlone(s: State, k: string, spec: JobSpec)
    requires Waits(s, k, spec, 1)
    ensures CanRecheck(s, k) && Admits(s, s.jobs[k])
    ensures s.jobs[k].status.attempts == 1 && s.jobs[k].spec == spec
    ensures Used(s.jobs) == 0 && Sum(LiveGpus(s)) == 0
  {
    hide CurrentWorkflow, AtGate, WorkflowName;
    WaitingPasses(s, k, spec, 1);
    SumZero(LiveGpus(s));
  }
}
