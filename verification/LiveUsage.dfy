/** GPUs that Workflows really hold, against those the quota gate counts. */
module LiveUsage {
  import opened Int32
  import opened Model
  import opened Sums
  import opened ClusterState
  import opened Operator
  import opened SplitWorker
  import opened SplitQuota

  /** GPUs held by Workflows that are still going, each with its job's request. */
  function LiveGpus(s: State): map<string, nat> {
    map w | w in s.workflows ::
      if IsFinalPhase(s.workflows[w].phase) || s.workflows[w].owner !in s.jobs then 0
      else s.jobs[s.workflows[w].owner].spec.gpus
  }

  /** If each non-zero entry has its own larger entry elsewhere, the sum is smaller. */
  lemma {:induction false} SumInjected(m: map<string, nat>, m': map<string, nat>, at: map<string, string>)
    requires forall w :: w in m && m[w] != 0 ==> w in at && at[w] in m' && m[w] <= m'[at[w]]
    requires forall v, w :: v in m && w in m && m[v] != 0 && m[w] != 0 && v != w ==> at[v] != at[w]
    ensures Sum(m) <= Sum(m')
    decreases |m|
  {
    if m == map[] {
    } else {
      var w :| w in m;
      SumPick(m, w);
      if m[w] == 0 {
        SumInjected(m - {w}, m', at);
      } else {
        SumPick(m', at[w]);
        SumInjected(m - {w}, m' - {at[w]}, at);
      }
    }
  }

  /** The Workflow a Running job waits for. */
  predicate Holds(s: State, w: string) {
    && w in s.workflows && s.workflows[w].owner in s.jobs
    && var j := s.jobs[s.workflows[w].owner];
       j.IsRunning() && w == CurrentWorkflow(j)
  }

  /** GPUs held by Workflows still going that no Running job waits for. */
  function StrayGpus(s: State): map<string, nat> {
    map w | w in s.workflows :: if Holds(s, w) then 0 else LiveGpus(s)[w]
  }

  function HeldGpus(s: State): map<string, nat> {
    map w | w in s.workflows :: if Holds(s, w) then LiveGpus(s)[w] else 0
  }

  lemma {:induction false} SumAdd(m: map<string, nat>, a: map<string, nat>, b: map<string, nat>)
    requires m.Keys == a.Keys == b.Keys
    requires forall k :: k in m ==> m[k] == a[k] + b[k]
    ensures Sum(m) == Sum(a) + Sum(b)
    decreases |m|
  {
    if m == map[] {
      assert a == map[] && b == map[];
    } else {
      var k :| k in m;
      SumPick(m, k);
      SumPick(a, k);
      SumPick(b, k);
      SumAdd(m - {k}, a - {k}, b - {k});
    }
  }

  /** Held Workflows belong to different Running jobs. */
  lemma HeldWithinUsed(s: State)
    ensures Sum(HeldGpus(s)) <= Used(s.jobs)
  {
    var at := map w | w in s.workflows :: s.workflows[w].owner;
    hide CurrentWorkflow;
    SumInjected(HeldGpus(s), RunningGpus(s.jobs), at);
  }

  /** Real usage exceeds the Running sum by at most what stray Workflows hold. */
  lemma LiveWithinUsedAndStray(s: State)
    ensures Sum(LiveGpus(s)) <= Used(s.jobs) + Sum(StrayGpus(s))
  {
    hide LiveGpus, Holds;
    HeldWithinUsed(s);
    LiveKeys(s);
    SumAdd(LiveGpus(s), HeldGpus(s), StrayGpus(s));
  }

  lemma LiveKeys(s: State)
    ensures LiveGpus(s).Keys == s.workflows.Keys
  {
  }

  /** So under a fixed quota, whatever fails or is lost, only stray Workflows can exceed it. */
  lemma OnlyStraysExceed(s: State, es: seq<SplitEvent>, hard: nat32)
    requires IsInitial(s) && s.quota.Some? && s.quota.value.hardGPUs == hard
    requires forall i :: 0 <= i < |es| ==> UnderQuota(es[i], hard)
    ensures var t := Run(System(s, Idle), es).store;
            Sum(LiveGpus(t)) <= hard + Sum(StrayGpus(t))
  {
    RunningSumWithinQuota(s, es, hard);
    hide Run, LiveGpus, StrayGpus, Used;
    LiveWithinUsedAndStray(Run(System(s, Idle), es).store);
  }
}
