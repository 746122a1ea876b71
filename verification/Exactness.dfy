/** int32 exactness along whole runs: under a fixed quota the operator's sums are the true ones. */
module Exactness {
  import opened Int32
  import opened Model
  import opened ClusterState
  import opened Operator
  import opened SplitWorker
  import opened SplitQuota
  import opened Controller

  /**
   In every state of every run under a fixed quota, lost writes included, and for every order in which
   the jobs may be listed: no partial sum of the usage loop wraps, and the gate refuses a job iff its
   request and its Running peers' requests really exceed the quota.
   */
  lemma SumsAreExact(start: State, es: seq<SplitEvent>, items: seq<Job>, n: nat, k: string, hard: nat32)
    requires IsInitial(start) && start.quota.Some? && start.quota.value.hardGPUs == hard
    requires forall i :: 0 <= i < |es| ==> UnderQuota(es[i], hard)
    requires var s := Run(System(start, Idle), es).store;
             k in s.jobs && IsListing(items, s.jobs) && n <= |items|
    ensures var s := Run(System(start, Idle), es).store; var gpus := s.jobs[k].spec.gpus;
            && Wrap(UsedIn(items[..n], k)) == UsedIn(items[..n], k)
            && Wrap(Wrap(UsedIn(items, k)) + gpus) == UsedBesides(s.jobs, k) + gpus
            && (GateRefuses(UsedBesides(s.jobs, k), gpus, hard) <==> UsedBesides(s.jobs, k) + gpus > hard)
  {
    hide Run, IsListing, Used, UsedBesides, UsedIn, AdmissionFits, UnderQuota, GateRefuses;
    RunningSumWithinQuota(start, es, hard);
    var s := Run(System(start, Idle), es).store;
    NothingWraps(items, s.jobs, n, k, s.jobs[k].spec.gpus, hard);
    UsedDrop(s.jobs, k);
    GateDecides(UsedBesides(s.jobs, k), s.jobs[k].spec.gpus, hard);
  }
}
