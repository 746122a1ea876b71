/** Exact attempt accounting and real GPU usage in atomic runs. */
module Accounting {
  import opened Int32
  import opened Model
  import opened Naming
  import opened ClusterState
  import opened Operator
  import opened SplitWorker
  import opened SplitInvariant
  import opened SplitSafety
  import opened SplitQuota
  import opened Atomic
  import opened Effects

  // ----- the bookkeeping is kept -----

  lemma CountedIsOwn(s: State, j: Job)
    requires StoreFits(s) && CountedWorkflow(j) in s.workflows
    ensures s.workflows[CountedWorkflow(j)].owner == j.name
  {
    var w := CountedWorkflow(j);
    assert WorkflowFits(s, w, s.workflows[w]);
    var a: int :| w == WorkflowName(s.workflows[w].owner, a);
    WorkflowNamesInjective(j.name, j.status.attempts, s.workflows[w].owner, a);
  }

  /** The only Workflows an effect can touch are those of `key`. */
  ghost predicate KeepsWorkflow(s: State, t: State, key: string, w: string) {
    && (w in s.workflows && s.workflows[w].owner != key ==> w in t.workflows && t.workflows[w] == s.workflows[w])
    && (w in t.workflows && t.workflows[w].owner != key ==> w in s.workflows && t.workflows[w] == s.workflows[w])
  }

  lemma RetryOnWorkflows(s: State, t: State, key: string, w: string)
    requires StoreFits(s) && Retried(s, t, key)
    ensures KeepsWorkflow(s, t, key, w)
  {
    CountedIsOwn(s, s.jobs[key]);
    hide StoreFits, CountedWorkflow;
  }

  lemma LaunchOnWorkflows(s: State, t: State, key: string, w: string)
    requires Launched(s, t, key)
    ensures KeepsWorkflow(s, t, key, w)
  {
    hide CountedWorkflow, Admits, WorkflowsOf;
  }

  lemma EffectOnWorkflows(s: State, t: State, key: string, w: string)
    requires StoreFits(s) && Effect(s, t, key)
    ensures KeepsWorkflow(s, t, key, w)
  {
    hide StoreFits, Launched, Retried;
    if Retried(s, t, key) {
      RetryOnWorkflows(s, t, key, w);
    } else if Launched(s, t, key) {
      LaunchOnWorkflows(s, t, key, w);
    } else {
      hide CountedWorkflow, Finished, ParkedBy, Marked, Claimed;
    }
  }

  /** A reconcile of `key` leaves every other job and its Workflows alone. */
  lemma EffectIsLocal(s: State, t: State, key: string, k: string)
    requires StoreFits(s) && Effect(s, t, key) && k != key
    ensures k in t.jobs <==> k in s.jobs
    ensures k in s.jobs ==> t.jobs[k] == s.jobs[k]
    ensures WorkflowsOf(t, k) == WorkflowsOf(s, k)
    ensures forall w :: w in WorkflowsOf(s, k) ==> t.workflows[w] == s.workflows[w]
  {
    forall w
      ensures w in WorkflowsOf(s, k) ==> w in WorkflowsOf(t, k) && t.workflows[w] == s.workflows[w]
      ensures w in WorkflowsOf(t, k) ==> w in WorkflowsOf(s, k)
    {
      EffectOnWorkflows(s, t, key, w);
      hide StoreFits, Effect, CountedWorkflow;
    }
    hide StoreFits, CountedWorkflow, Admits, Finished, ParkedBy, Marked, Claimed, WorkflowsOf;
  }

  lemma SameWorkflows(s: State, t: State, k: string)
    requires t.workflows == s.workflows
    ensures WorkflowsOf(t, k) == WorkflowsOf(s, k)
  {
  }

  lemma OwnLaunched(s: State, t: State, key: string)
    requires Launched(s, t, key)
    ensures WorkflowsOf(t, key) == {CountedWorkflow(t.jobs[key])}
  {
    hide CountedWorkflow, Admits;
  }

  lemma OwnRetried(s: State, t: State, key: string)
    requires Retried(s, t, key)
    ensures WorkflowsOf(t, key) == WorkflowsOf(s, key) - {CountedWorkflow(s.jobs[key])}
  {
    hide CountedWorkflow;
  }

  /** The Workflows of the reconciled job. */
  lemma EffectOnOwnWorkflows(s: State, t: State, key: string)
    requires Effect(s, t, key) && key in t.jobs
    ensures Unchanged(s, t) || Rewrote(s, t, key) ==> WorkflowsOf(t, key) == WorkflowsOf(s, key)
    ensures Launched(s, t, key) ==> WorkflowsOf(t, key) == {CountedWorkflow(t.jobs[key])}
    ensures Retried(s, t, key) ==> WorkflowsOf(t, key) == WorkflowsOf(s, key) - {CountedWorkflow(s.jobs[key])}
    ensures !Removed(s, t, key)
  {
    hide Launched, Retried, WorkflowsOf, CountedWorkflow, Finished, ParkedBy, Marked, Claimed;
    if Launched(s, t, key) {
      OwnLaunched(s, t, key);
    }
    if Retried(s, t, key) {
      OwnRetried(s, t, key);
    }
    if t.workflows == s.workflows {
      SameWorkflows(s, t, key);
    }
  }

  lemma EffectKeepsExact(s: State, t: State, key: string)
    requires StoreFits(s) && Exact(s) && Effect(s, t, key)
    ensures Exact(t)
  {
    forall k | k in t.jobs
      ensures ExactJob(t, k, t.jobs[k])
    {
      if k != key {
        EffectIsLocal(s, t, key, k);
      } else {
        EffectOnOwnWorkflows(s, t, key);
        OwnJobStaysExact(s, t, key);
      }
    }
  }

  lemma OwnJobStaysExact(s: State, t: State, key: string)
    requires StoreFits(s) && Effect(s, t, key) && key in t.jobs
    requires key in s.jobs ==> ExactJob(s, key, s.jobs[key])
    requires Unchanged(s, t) || Rewrote(s, t, key) ==> WorkflowsOf(t, key) == WorkflowsOf(s, key)
    requires Launched(s, t, key) ==> WorkflowsOf(t, key) == {CountedWorkflow(t.jobs[key])}
    requires Retried(s, t, key) ==> WorkflowsOf(t, key) == WorkflowsOf(s, key) - {CountedWorkflow(s.jobs[key])}
    requires !Removed(s, t, key)
    ensures ExactJob(t, key, t.jobs[key])
  {
    assert key in s.jobs ==> JobFits(s, key, s.jobs[key]);
    if Launched(s, t, key) {
      assert 0 <= s.jobs[key].status.attempts;
      hide StoreFits, WorkflowName, Admits, JobFits;
    } else if Retried(s, t, key) {
      assert CountedWorkflow(t.jobs[key]) == CountedWorkflow(s.jobs[key]);
      hide StoreFits, WorkflowName, JobFits;
    } else if Rewrote(s, t, key) {
      hide StoreFits, Launched, Retried, Removed;
      RewrittenJobStaysExact(s, t, key);
    } else {
      hide StoreFits;
    }
  }

  lemma RewrittenJobStaysExact(s: State, t: State, key: string)
    requires Rewrote(s, t, key) && ExactJob(s, key, s.jobs[key]) && JobFits(s, key, s.jobs[key])
    requires WorkflowsOf(t, key) == WorkflowsOf(s, key)
    ensures ExactJob(t, key, t.jobs[key])
  {
    assert CountedWorkflow(t.jobs[key]) == CountedWorkflow(s.jobs[key]);
    hide CountedWorkflow, GateRefuses, UsedBesides, OutcomeFits;
  }

  lemma HappenKeepsExact(s: State, e: Event)
    requires StoreFits(s) && Exact(s)
    ensures Exact(Happen(s, e))
  {
    var t := Happen(s, e);
    forall k | k in t.jobs
      ensures ExactJob(t, k, t.jobs[k])
    {
      OutsideWorkflowsOf(s, e, k);
      if k in s.jobs {
        HappenOnJob(s, e, k);
        hide StoreFits, WorkflowName, Happen;
      } else {
        NoOwnerNoWorkflows(s, k);
        NewJobIsExact(s, e, k);
      }
    }
  }

  lemma NewJobIsExact(s: State, e: Event, k: string)
    requires forall j :: j in s.jobs ==> s.jobs[j].name == j
    requires k !in s.jobs && k in Happen(s, e).jobs && WorkflowsOf(Happen(s, e), k) == {}
    ensures ExactJob(Happen(s, e), k, Happen(s, e).jobs[k])
  {
    assert Happen(s, e).jobs[k].status == NEW_STATUS;
    hide Happen, WorkflowsOf, CountedWorkflow;
  }

  lemma SameStoreSameBooks(s: State, t: State)
    requires Exact(s) && t.jobs == s.jobs && t.workflows == s.workflows
    ensures Exact(t)
  {
    forall k | k in t.jobs
      ensures ExactJob(t, k, t.jobs[k])
    {
      assert WorkflowsOf(t, k) == WorkflowsOf(s, k);
      assert ExactJob(s, k, s.jobs[k]);
    }
  }

  lemma SettleKeepsObjects(t: State, key: string, result: Result)
    ensures Settle(t, key, result).jobs == t.jobs && Settle(t, key, result).workflows == t.workflows
  {
  }

  /** The effect of a reconcile step that really happens. */
  lemma WorkEffect(s: State, key: string)
    requires StoreFits(s) && Exact(s) && key in s.queue
    ensures Effect(s, Work(s, key), key)
  {
    var before := Dequeue(s, key);
    StoreSameJobs(s, before);
    SameStoreSameBooks(s, before);
    ReconcileEffect(before, key);
    var (t, result) := Reconcile(before, key);
    SettleKeepsObjects(t, key, result);
    hide Reconcile, StoreFits, Exact, Effect, Settle;
    EffectIsFramed(before, t, s, Settle(t, key, result), key);
  }

  /** Effects speak of jobs, Workflows, quota and clock only. */
  lemma EffectIsFramed(s: State, t: State, s': State, t': State, key: string)
    requires Effect(s, t, key)
    requires s'.jobs == s.jobs && s'.workflows == s.workflows && s'.quota == s.quota && s'.now == s.now
    requires t'.jobs == t.jobs && t'.workflows == t.workflows
    ensures Effect(s', t', key)
  {
    assert WorkflowsOf(s', key) == WorkflowsOf(s, key);
    hide CountedWorkflow, GateRefuses, UsedBesides, WorkflowsOf, Parked, Completed, GivenUp;
  }

  lemma ApplyKeepsExact(s: State, e: AtomicEvent)
    requires StoreFits(s) && Exact(s)
    ensures Exact(Apply(s, e))
  {
    match e
    case World(ev) => HappenKeepsExact(s, ev);
    case Reconciled(key) =>
      if key in s.queue {
        WorkEffect(s, key);
        EffectKeepsExact(s, Work(s, key), key);
      }
  }

  /** In every atomic run, bookkeeping is exact. */
  lemma {:induction false} ExecExact(s: State, es: seq<AtomicEvent>)
    requires IsInitial(s) && AllPlain(es)
    ensures Exact(Exec(s, es))
  {
    if es != [] {
      ExecExact(s, es[..|es| - 1]);
      ExecFits(s, es[..|es| - 1]);
      hide StoreFits, Exact, Apply;
      ApplyKeepsExact(Exec(s, es[..|es| - 1]), es[|es| - 1]);
    }
  }

  // ----- reachable states -----

  ghost predicate IsAtomicRun(s: State, es: seq<AtomicEvent>, t: State) {
    IsInitial(s) && AllPlain(es) && t == Exec(s, es)
  }

  /** Reached from an empty namespace by some run whose reconciles are not interrupted. */
  ghost predicate Attainable(t: State) {
    exists s: State, es: seq<AtomicEvent> :: IsAtomicRun(s, es, t)
  }

  ghost predicate IsRunWithin(s: State, es: seq<AtomicEvent>, t: State, hard: nat32) {
    IsAtomicRun(s, es, t) && s.quota.Some? && s.quota.value.hardGPUs == hard && AllUnderQuota(es, hard)
  }

  /** The same, with a quota that is `hard` from the beginning and no request that could overflow it. */
  ghost predicate AttainableWithin(t: State, hard: nat32) {
    exists s: State, es: seq<AtomicEvent> :: IsRunWithin(s, es, t, hard)
  }

  lemma AttainableFits(t: State)
    requires Attainable(t)
    ensures Inv(System(t, Idle)) && Exact(t)
  {
    var s: State, es: seq<AtomicEvent> :| IsAtomicRun(s, es, t);
    ExecFits(s, es);
    ExecExact(s, es);
    hide Exec, StoreFits, Exact;
  }

  lemma WithinFits(t: State, hard: nat32)
    requires AttainableWithin(t, hard)
    ensures Attainable(t) && UsageFits(t, hard)
  {
    var s: State, es: seq<AtomicEvent> :| IsRunWithin(s, es, t, hard);
    ExecWithinQuota(s, es, hard);
    hide Exec;
    assert IsAtomicRun(s, es, t);
  }
}
