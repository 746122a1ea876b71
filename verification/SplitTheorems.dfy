/** What users and operators of the cluster can rely on, however API calls interleave and fail. */
module SplitTheorems {
  import opened Model
  import opened Naming
  import opened WorkflowBuilder
  import opened ClusterState
  import opened Operator
  import opened SplitWorker
  import opened SplitInvariant
  import opened SplitSafety
  import opened SplitQuota

  ghost predicate Reachable(sys: System) {
    exists s: State, es: seq<SplitEvent> :: IsRun(s, es, sys)
  }

  ghost predicate IsRun(s: State, es: seq<SplitEvent>, sys: System) {
    IsInitial(s) && AllCountable(es) && sys == Run(System(s, Idle), es)
  }

  lemma ReachableFits(sys: System)
    requires Reachable(sys)
    ensures Inv(sys)
  {
    var s: State, es: seq<SplitEvent> :| IsRun(s, es, sys);
    RunKeeps(s, es);
  }

  /**
   Every Workflow belongs to a TrainingJob that exists and whose finalizer stops it from leaving
   first; so a name without a job has no Workflow left, and a new job of that name starts clean.
   */
  lemma NoOrphans(sys: System, w: string, name: string)
    requires Reachable(sys)
    ensures w in sys.store.workflows ==>
              var owner := sys.store.workflows[w].owner;
              && owner in sys.store.jobs
              && sys.store.jobs[owner].finalizer
              && HasLabel(sys.store.workflows[w], owner)
    ensures name !in sys.store.jobs ==> Labelled(sys.store, name) == {}
    ensures name !in sys.store.jobs ==> forall a: int :: WorkflowName(name, a) !in sys.store.workflows
  {
    ReachableFits(sys);
    if name !in sys.store.jobs {
      forall a: int | WorkflowName(name, a) in sys.store.workflows
        ensures false
      {
        var v := WorkflowName(name, a);
        assert WorkflowFits(sys.store, v, sys.store.workflows[v]);
        var b: int :| v == WorkflowName(sys.store.workflows[v].owner, b);
        WorkflowNamesInjective(name, a, sys.store.workflows[v].owner, b);
      }
    }
  }

  /**
   No job is forgotten: it is queued, in the worker's hands, or at rest with something bound to wake
   it: a quota re-check at most 15 seconds away, a watched Workflow that is still going, or a timer
   due no later than its time to live.
   */
  lemma NoLostWakeUp(sys: System, k: string)
    requires Reachable(sys) && k in sys.store.jobs
    requires k !in sys.store.queue && !(sys.worker.Busy? && sys.worker.key == k)
    ensures var s, j := sys.store, sys.store.jobs[k];
            && j.finalizer && !j.deleting
            && j.status.phase !in {Unset, Pending}
            && (j.status.phase == Queued ==> k in s.timers && s.timers[k] <= s.now + QUEUED_REQUEUE)
            && (j.status.phase == Running ==>
                  var w := WorkflowName(k, if j.status.attempts == 0 then 1 else j.status.attempts);
                  w in s.workflows && !IsFinalPhase(s.workflows[w].phase) && s.workflows[w].owner == k)
            && (j.IsTerminal() && j.spec.ttlSeconds.Some? ==> HasTtl(j) && k in s.timers && s.timers[k] <= Expiry(j))
  {
    ReachableFits(sys);
    assert Awake(sys, k, sys.store.jobs[k]);
  }

  /**
   What lost status writes cannot break: the attempt count stays between zero and one more than the
   backoff limit, a waiting job has an attempt left, and only a job that used them all has failed.
   */
  lemma AttemptsSurviveLostWrites(sys: System, k: string)
    requires Reachable(sys) && k in sys.store.jobs
    ensures var j := sys.store.jobs[k];
            && 0 <= j.status.attempts <= j.spec.backoffLimit + 1
            && (j.IsWaiting() ==> j.status.attempts <= j.spec.backoffLimit)
            && (j.status.phase == Failed ==> j.status.attempts == j.spec.backoffLimit + 1)
  {
    ReachableFits(sys);
  }

  // ----- one step -----

  /** From `s` to `t`, `k` goes only when marked, keeps its outcome, and is marked only once expired. */
  ghost predicate RespectsJob(s: State, t: State, k: string) {
    k in s.jobs ==>
      var j := s.jobs[k];
      && (k !in t.jobs ==> j.deleting)
      && (k in t.jobs ==>
            && t.jobs[k].spec == j.spec
            && t.jobs[k].status.attempts >= j.status.attempts
            && (j.status.startTime.Some? ==> t.jobs[k].status.startTime == j.status.startTime)
            && (j.IsTerminal() ==> t.jobs[k].status == j.status)
            && (t.jobs[k].deleting && !j.deleting ==> j.IsTerminal() && HasTtl(j) && Expiry(j) <= s.now))
  }

  lemma CallLeavesOthers(s: State, key: string, call: Call, k: string)
    requires CallFits(s, key, call) && k != key
    ensures k in Perform(s, key, call).0.jobs <==> k in s.jobs
    ensures k in s.jobs ==> Perform(s, key, call).0.jobs[k] == s.jobs[k]
  {
    hide JobFits, AfterFetch, AfterWorkflow, WorkflowFor, GateRefuses, UsedBesides;
  }

  lemma CallOnOwnJob(s: State, key: string, call: Call)
    requires StoreFits(s) && CallFits(s, key, call)
    ensures RespectsJob(s, Perform(s, key, call).0, key)
  {
    hide StoreFits, JobFits, AfterFetch, AfterWorkflow, WorkflowFor, GateRefuses, UsedBesides, CurrentWorkflow;
    hide RefreshQuota;
    RefreshKeepsJobs(s);
  }

  lemma InvokeOnJob(s: State, key: string, call: Call, outcome: Outcome, k: string)
    requires StoreFits(s) && CallFits(s, key, call)
    ensures RespectsJob(s, Step(System(s, Busy(key, call)), Invoke(outcome)).store, k)
  {
    var (t, next) := Perform(s, key, call);
    if k == key {
      CallOnOwnJob(s, key, call);
    } else {
      CallLeavesOthers(s, key, call, k);
    }
    assert RespectsJob(s, t, k);
    ProceedKeepsJobs(t, key, next);
    ProceedKeepsJobs(t, key, AfterFailure(call));
    ProceedKeepsJobs(s, key, AfterFailure(call));
    hide StoreFits, CallFits, Perform, AfterFailure, Proceed;
  }

  lemma ProceedKeepsJobs(t: State, key: string, next: Next)
    ensures Proceed(t, key, next).store.jobs == t.jobs && Proceed(t, key, next).store.workflows == t.workflows
  {
  }

  /** Attempts never go down, a finished job's status is frozen, and specs do not change. */
  lemma StepRespectsJob(sys: System, e: SplitEvent, k: string)
    requires Inv(sys) && k in sys.store.jobs && k in Step(sys, e).store.jobs
    ensures var j, j' := sys.store.jobs[k], Step(sys, e).store.jobs[k];
            && j'.spec == j.spec
            && j'.status.attempts >= j.status.attempts
            && (j.status.startTime.Some? ==> j'.status.startTime == j.status.startTime)
            && (j.IsTerminal() ==> j'.status == j.status)
  {
    match e
    case Outside(ev) =>
      HappenOnJob(sys.store, ev, k);
    case Begin(key) =>
    case Invoke(outcome) =>
      if sys.worker.Busy? {
        InvokeOnJob(sys.store, sys.worker.key, sys.worker.call, outcome, k);
      }
  }

  /**
   The operator requests a deletion only once the job is finished and its time to live has run out,
   and lets a job disappear only after somebody has requested its deletion.
   */
  lemma OperatorDeletesOnlyExpired(sys: System, outcome: Outcome, k: string, t: State)
    requires Reachable(sys) && k in sys.store.jobs
    requires t == Step(sys, Invoke(outcome)).store
    ensures var s := sys.store;
            && (k in t.jobs && t.jobs[k].deleting && !s.jobs[k].deleting ==>
                  s.jobs[k].IsTerminal() && HasTtl(s.jobs[k]) && s.now >= Expiry(s.jobs[k]))
            && (k !in t.jobs ==> s.jobs[k].deleting)
  {
    ReachableFits(sys);
    hide Reachable;
    if sys.worker.Busy? {
      InvokeOnJob(sys.store, sys.worker.key, sys.worker.call, outcome, k);
    }
  }

  lemma NewJobSpec(s: State, e: Event, k: string)
    requires StoreFits(s) && k !in s.jobs && k in Happen(s, e).jobs
    ensures e.Create? && Happen(s, e).jobs[k].spec == e.spec
  {
    assert forall n :: n in s.jobs ==> s.jobs[n].name == n;
    OutsideJobs(s, e);
    hide StoreFits;
  }

  /** Calls add no jobs and change no specs, and only a creation adds a Workflow. */
  lemma CallOnSpecs(s: State, key: string, call: Call, k: string)
    requires StoreFits(s) && CallFits(s, key, call) && k in Perform(s, key, call).0.jobs
    ensures k in s.jobs && Perform(s, key, call).0.jobs[k].spec == s.jobs[k].spec
  {
    if k != key {
      CallLeavesOthers(s, key, call, k);
    } else {
      CallAddsNobody(s, key, call);
      CallOnOwnJob(s, key, call);
    }
    hide Perform, StoreFits, CallFits;
  }

  lemma CallAddsNobody(s: State, key: string, call: Call)
    requires StoreFits(s) && CallFits(s, key, call) && key in Perform(s, key, call).0.jobs
    ensures key in s.jobs
  {
    RefreshKeepsJobs(s);
    hide JobFits, StoreFits, RefreshQuota, AfterFetch, AfterWorkflow, GateRefuses, UsedBesides, WorkflowFor;
  }

  /** Every job was submitted, with the spec it has. */
  lemma {:induction false} JobsAreSubmitted(s: State, es: seq<SplitEvent>, k: string) returns (i: nat)
    requires IsInitial(s) && AllCountable(es) && k in Run(System(s, Idle), es).store.jobs
    ensures i < |es| && es[i].Outside? && es[i].e.Create?
    ensures es[i].e.spec == Run(System(s, Idle), es).store.jobs[k].spec
  {
    assert es != [];
    var rest, e := es[..|es| - 1], es[|es| - 1];
    var before := Run(System(s, Idle), rest);
    RunKeeps(s, rest);
    StepOnSpecs(before, e, k);
    hide Inv, Step;
    if k in before.store.jobs {
      i := JobsAreSubmitted(s, rest, k);
    } else {
      i := |rest|;
    }
  }

  lemma StepOnSpecs(sys: System, e: SplitEvent, k: string)
    requires Inv(sys) && k in Step(sys, e).store.jobs
    ensures if k in sys.store.jobs then Step(sys, e).store.jobs[k].spec == sys.store.jobs[k].spec
            else e.Outside? && e.e.Create? && e.e.spec == Step(sys, e).store.jobs[k].spec
  {
    match e
    case Outside(ev) =>
      if k in sys.store.jobs {
        HappenOnJob(sys.store, ev, k);
      } else {
        NewJobSpec(sys.store, ev, k);
      }
      hide Inv, Happen;
    case Begin(key) => hide Inv;
    case Invoke(outcome) =>
      if sys.worker.Busy? {
        InvokeOnSpecs(sys.store, sys.worker.key, sys.worker.call, outcome, k);
      }
  }

  lemma InvokeOnSpecs(s: State, key: string, call: Call, outcome: Outcome, k: string)
    requires StoreFits(s) && CallFits(s, key, call)
    requires k in Step(System(s, Busy(key, call)), Invoke(outcome)).store.jobs
    ensures k in s.jobs && Step(System(s, Busy(key, call)), Invoke(outcome)).store.jobs[k].spec == s.jobs[k].spec
  {
    hide StoreFits, CallFits, Perform, Proceed, AfterFailure;
    var (t, next) := Perform(s, key, call);
    ProceedKeepsJobs(t, key, next);
    ProceedKeepsJobs(t, key, AfterFailure(call));
    ProceedKeepsJobs(s, key, AfterFailure(call));
    if k in t.jobs {
      CallOnSpecs(s, key, call, k);
    }
  }

  lemma {:induction false} RunRespectsJob(sys: System, es: seq<SplitEvent>, k: string)
    requires Inv(sys) && AllCountable(es)
    requires forall n :: 0 <= n <= |es| ==> k in Run(sys, es[..n]).store.jobs
    ensures var j, j' := Run(sys, es[..0]).store.jobs[k], Run(sys, es[..|es|]).store.jobs[k];
            && j'.spec == j.spec
            && j'.status.attempts >= j.status.attempts
            && (j.status.startTime.Some? ==> j'.status.startTime == j.status.startTime)
            && (j.IsTerminal() ==> j'.status == j.status)
  {
    if es != [] {
      var rest := es[..|es| - 1];
      assert forall n :: 0 <= n <= |rest| ==> rest[..n] == es[..n];
      RunRespectsJob(sys, rest, k);
      RunKeepsInv(sys, rest);
      assert es[..|es|] == es && rest[..|rest|] == rest && es[..0] == rest[..0];
      assert k in Run(sys, es[..|rest|]).store.jobs && k in Run(sys, es[..|es|]).store.jobs;
      StepRespectsJob(Run(sys, rest), es[|es| - 1], k);
    }
  }

  /**
   From any reachable state, over any continuation in which the job stays: attempts only grow, a start
   time stays, and an outcome is final.
   */
  lemma OutcomesAreFinal(sys: System, es: seq<SplitEvent>, k: string)
    requires Reachable(sys) && AllCountable(es)
    requires forall n :: 0 <= n <= |es| ==> k in Run(sys, es[..n]).store.jobs
    ensures k in sys.store.jobs && k in Run(sys, es).store.jobs
    ensures var j, j' := sys.store.jobs[k], Run(sys, es).store.jobs[k];
            && j'.spec == j.spec
            && j'.status.attempts >= j.status.attempts
            && (j.status.startTime.Some? ==> j'.status.startTime == j.status.startTime)
            && (j.IsTerminal() ==> j'.status == j.status)
  {
    ReachableFits(sys);
    hide Reachable, Inv, Step;
    RunRespectsJob(sys, es, k);
    assert es[..0] == [] && es[..|es|] == es;
    assert Run(sys, es[..0]) == sys;
  }

  /** Phase, attempts, times, model URI and conditions always tell the same story. */
  lemma OutcomeIsConsistent(sys: System, k: string)
    requires Reachable(sys) && k in sys.store.jobs
    ensures var j := sys.store.jobs[k]; var c := j.status.conditions;
            && (j.status.phase == Succeeded <==> Complete in c && c[Complete].status)
            && (j.status.phase == Failed <==> Complete in c && !c[Complete].status)
            && (j.status.completionTime.Some? <==> j.IsTerminal())
            && (j.status.modelURI == ModelURI(j) <==> j.status.phase == Succeeded)
            && (j.status.modelURI == "" <==> j.status.phase != Succeeded)
            && (j.status.startTime.Some? <==> 0 < j.status.attempts)
            && (j.status.startTime.Some? && j.IsTerminal() ==>
                  j.status.startTime.value <= j.status.completionTime.value <= Seconds(sys.store.now))
            && (0 < j.status.attempts ==> WorkflowSubmitted in c && c[WorkflowSubmitted].status)
            && (j.status.phase == Queued ==> QuotaGranted in c && !c[QuotaGranted].status)
  {
    ReachableFits(sys);
    assert |ModelURI(sys.store.jobs[k])| > 0;
  }

  /**
   Expiry arithmetic: a stored completion time is up to a second early, so a job lives more than
   ttl - 1 seconds after it finished; the requeue delay is what is left; and both fit an int64.
   */
  lemma TtlArithmetic(j: Job, finished: nat, now: nat)
    requires HasTtl(j) && j.status.completionTime.value == Seconds(finished) && finished <= now
    ensures Expiry(j) <= now ==> now - finished > (j.spec.ttlSeconds.value - 1) * SECOND
    ensures now < Expiry(j) ==> 0 < Expiry(j) - now <= j.spec.ttlSeconds.value * SECOND
    ensures j.spec.ttlSeconds.value * SECOND < 0x8000_0000_0000_0000
  {
    assert Seconds(finished) * SECOND <= finished < Seconds(finished) * SECOND + SECOND;
  }

  /** What one look at a finished job with a time to live leads to. */
  ghost predicate LookedAt(s: State, t: State, k: string)
    requires k in s.jobs && HasTtl(s.jobs[k])
  {
    if Expiry(s.jobs[k]) <= s.now then t.jobs == s.jobs[k := s.jobs[k].(deleting := true)]
    else t.jobs == s.jobs && k in t.timers && t.timers[k] <= Expiry(s.jobs[k])
  }

  lemma LookAtFinished(s: State, k: string)
    requires k in s.queue && k in s.jobs && s.jobs[k].name == k
    requires s.jobs[k].finalizer && !s.jobs[k].deleting && s.jobs[k].IsTerminal() && HasTtl(s.jobs[k])
    ensures LookedAt(s, Work(s, k), k)
    ensures s.now < Expiry(s.jobs[k]) ==>
              var t := Work(s, k);
              && t.now == s.now && k !in t.queue
              && t.timers[k] ==
                 (if k in s.timers && s.timers[k] <= Expiry(s.jobs[k]) then s.timers[k] else Expiry(s.jobs[k]))
  {
    hide AdmitOrPark, Operator.EnsureWorkflow, DropLabelled;
  }

  /**
   A finished job is marked for deletion at its first look at or after its expiry. A look before that
   leaves it alone, with an appointment by its expiry at the latest, whatever timer it still had; and
   however the clock moves on from there, the job is looked at again once that appointment is due.
   */
  lemma TtlFiresOnTime(s: State, k: string, nanos: nat)
    requires k in s.queue && k in s.jobs && s.jobs[k].name == k
    requires s.jobs[k].finalizer && !s.jobs[k].deleting && s.jobs[k].IsTerminal() && HasTtl(s.jobs[k])
    ensures LookedAt(s, Work(s, k), k)
    ensures s.now < Expiry(s.jobs[k]) ==>
              var u := Work(s, k); var t := Happen(u, Tick(nanos));
              && t.jobs == s.jobs && t.now == s.now + nanos
              && (k in t.queue <==> u.timers[k] <= t.now)
              && (Expiry(s.jobs[k]) <= t.now ==> k in t.queue)
              && (k in t.queue ==> LookedAt(t, Work(t, k), k))
  {
    LookAtFinished(s, k);
    if s.now < Expiry(s.jobs[k]) {
      var t := Happen(Work(s, k), Tick(nanos));
      if k in t.queue {
        LookAtFinished(t, k);
      }
    }
    hide Work;
  }
}
