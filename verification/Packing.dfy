/** One pass over the waiting jobs packs the quota as tightly as their requests allow. */
module Packing {
  import opened Int32
  import opened Model
  import opened ClusterState
  import opened Operator
  import opened SplitWorker
  import opened SplitInvariant
  import opened SplitQuota
  import opened Atomic
  import opened Effects
  import opened Accounting
  import opened QuotaTheorems

  /** Wake `k` up and reconcile it. */
  ghost function Look(s: State, k: string): State {
    Work(Happen(s, Resync(k)), k)
  }

  /** The atomic run that looks at `ks` in order. */
  ghost function AfterPass(s: State, ks: seq<string>): State {
    if ks == [] then s else Look(AfterPass(s, ks[..|ks| - 1]), ks[|ks| - 1])
  }

  predicate Distinct(ks: seq<string>) {
    forall i, j :: 0 <= i < j < |ks| ==> ks[i] != ks[j]
  }

  predicate IsWaitingJob(s: State, k: string) {
    k in s.jobs && s.jobs[k].IsWaiting()
  }

  /** GPUs that jobs among `ks` hold. */
  function AdmittedGpus(jobs: map<string, Job>, ks: seq<string>): nat {
    if ks == [] then 0 else
      var k := ks[|ks| - 1];
      AdmittedGpus(jobs, ks[..|ks| - 1]) + if k in jobs && jobs[k].IsRunning() then jobs[k].spec.gpus else 0
  }

  function Checked(ks: seq<string>): set<string> {
    set k | k in ks
  }

  // ----- one look -----

  /**
   A marked job goes, an unclaimed one is claimed, and any other is admitted iff it fits; everybody else
   is left alone.
   */
  ghost predicate Rechecked(u: State, t: State, k: string, hard: nat32) {
    && k in u.jobs
    && (forall n :: n != k ==> (n in t.jobs <==> n in u.jobs))
    && (forall n :: n != k && n in u.jobs ==> t.jobs[n] == u.jobs[n])
    && (k in t.jobs <==> !u.jobs[k].deleting)
    && (if k in t.jobs && Admitted(u, k, hard)
        then t.jobs[k].spec == u.jobs[k].spec && t.jobs[k].IsRunning()
             && Used(t.jobs) == Used(u.jobs) + u.jobs[k].spec.gpus
        else Used(t.jobs) == Used(u.jobs))
    && (k in t.jobs && !Admitted(u, k, hard) ==>
          && t.jobs[k].spec == u.jobs[k].spec
          && (if u.jobs[k].finalizer then t.jobs[k].status.phase == Queued
              else t.jobs[k] == u.jobs[k].(finalizer := true)))
  }

  ghost predicate Admitted(u: State, k: string, hard: nat32)
    requires k in u.jobs
  {
    u.jobs[k].finalizer && Used(u.jobs) + u.jobs[k].spec.gpus <= hard
  }

  lemma LookKeepsFit(s: State, k: string)
    requires Inv(System(s, Idle)) && Exact(s)
    ensures Inv(System(Look(s, k), Idle)) && Exact(Look(s, k))
  {
    var e, u := World(Resync(k)), Happen(s, Resync(k));
    hide Work, Happen, StoreFits, AllAwake, Exact;
    ApplyFits(s, e);
    ApplyKeepsExact(s, e);
    ApplyFits(u, Reconciled(k));
    ApplyKeepsExact(u, Reconciled(k));
  }

  lemma MarkedGoes(s: State, k: string)
    requires k in s.queue && k in s.jobs && s.jobs[k].deleting && s.jobs[k].finalizer
    ensures Work(s, k).jobs == s.jobs - {k}
  {
  }

  lemma UnclaimedIsClaimed(s: State, k: string)
    requires k in s.queue && k in s.jobs && !s.jobs[k].deleting && !s.jobs[k].finalizer && s.jobs[k].name == k
    ensures Work(s, k).jobs == s.jobs[k := s.jobs[k].(finalizer := true)]
  {
    hide AdmitOrPark, Operator.EnsureWorkflow, ReconcileTtl;
  }

  lemma OutsiderUses(jobs: map<string, Job>, k: string)
    requires k in jobs && jobs[k].IsWaiting()
    ensures Used(jobs - {k}) == Used(jobs)
    ensures Used(jobs[k := jobs[k].(finalizer := true)]) == Used(jobs)
  {
    UsedSplit(jobs, k);
    UsedPut(jobs, k, jobs[k].(finalizer := true));
    hide Used;
  }

  lemma LookAtMarked(s: State, k: string, hard: nat32)
    requires StoreFits(s) && IsWaitingJob(s, k) && s.jobs[k].deleting
    ensures Rechecked(s, Look(s, k), k, hard)
  {
    assert JobFits(s, k, s.jobs[k]);
    OutsiderUses(s.jobs, k);
    hide StoreFits, Used, Work, JobFits;
    MarkedGoes(Happen(s, Resync(k)), k);
  }

  lemma LookAtUnclaimed(s: State, k: string, hard: nat32)
    requires StoreFits(s) && IsWaitingJob(s, k) && !s.jobs[k].finalizer
    ensures Rechecked(s, Look(s, k), k, hard)
  {
    assert JobFits(s, k, s.jobs[k]);
    OutsiderUses(s.jobs, k);
    hide StoreFits, Used, Work;
    UnclaimedIsClaimed(Happen(s, Resync(k)), k);
    hide JobFits;
  }

  lemma LookAtClaimed(s: State, k: string, hard: nat32)
    requires Inv(System(s, Idle)) && Exact(s) && UsageFits(s, hard) && IsWaitingJob(s, k)
    requires s.jobs[k].finalizer && !s.jobs[k].deleting
    ensures Rechecked(s, Look(s, k), k, hard)
  {
    var u := Happen(s, Resync(k));
    assert u == s.(queue := s.queue + {k});
    ApplyFits(s, World(Resync(k)));
    ApplyKeepsExact(s, World(Resync(k)));
    WaitingUses(s, k);
    hide Inv, Exact, Used, UsedBesides, Work, Happen, Decided, Rechecked;
    GateWithoutOverflow(Used(s.jobs), s.jobs[k].spec.gpus, hard);
    hide GateRefuses;
    RecheckDecides(u, k);
    DecidedIsRechecked(s, u, Work(u, k), k, Admits(u, u.jobs[k]), hard);
  }

  lemma DecidedIsRechecked(s: State, u: State, t: State, k: string, admitted: bool, hard: nat32)
    requires k in s.jobs && u.jobs == s.jobs && Decided(u, t, k, admitted)
    requires s.jobs[k].finalizer && !s.jobs[k].deleting
    requires admitted <==> Used(s.jobs) + s.jobs[k].spec.gpus <= hard
    ensures Rechecked(s, t, k, hard)
  {
    hide Used;
  }

  lemma LookDecides(s: State, k: string, hard: nat32)
    requires Inv(System(s, Idle)) && Exact(s) && UsageFits(s, hard) && IsWaitingJob(s, k)
    ensures Rechecked(s, Look(s, k), k, hard)
  {
    hide StoreFits, Exact, Rechecked, Look, UsageFits;
    if s.jobs[k].deleting {
      LookAtMarked(s, k, hard);
    } else if !s.jobs[k].finalizer {
      LookAtUnclaimed(s, k, hard);
    } else {
      LookAtClaimed(s, k, hard);
    }
  }

  lemma LookKeepsUsage(u: State, t: State, k: string, hard: nat32)
    requires UsageFits(u, hard) && Rechecked(u, t, k, hard) && t == Look(u, k)
    ensures UsageFits(t, hard)
  {
    hide Used, Look;
    LookKeepsLimit(u, k);
  }

  lemma LookKeepsLimit(s: State, k: string)
    ensures SameLimit(s, Look(s, k))
  {
    hide Work;
    WorkKeepsLimit(Happen(s, Resync(k)), k);
  }

  // ----- the pass -----

  /** What a pass over `ks` has achieved, from `s` to `t`. */
  ghost predicate Packed(s: State, t: State, ks: seq<string>, hard: nat32) {
    && Inv(System(t, Idle)) && Exact(t) && UsageFits(t, hard)
    && Used(t.jobs) == Used(s.jobs) + AdmittedGpus(t.jobs, ks)
    && PackedJobs(s, t, Checked(ks), hard)
  }

  /** The part of `Packed` that speaks of single jobs. */
  ghost predicate PackedJobs(s: State, t: State, checked: set<string>, hard: nat32) {
    && (forall k :: k in checked && k in t.jobs ==>
          && (t.jobs[k].status.phase == Queued ==> Used(t.jobs) + t.jobs[k].spec.gpus > hard)
          && (t.jobs[k].IsRunning() || t.jobs[k].status.phase == Queued || t.jobs[k].status == NEW_STATUS))
    && (forall k :: k !in checked ==>
          && (k in t.jobs <==> k in s.jobs)
          && (k in s.jobs ==> t.jobs[k] == s.jobs[k]))
  }

  lemma PackJobsOneMore(s: State, u: State, t: State, checked: set<string>, k: string, hard: nat32)
    requires PackedJobs(s, u, checked, hard) && k !in checked && Rechecked(u, t, k, hard)
    requires !u.jobs[k].finalizer ==> u.jobs[k].status == NEW_STATUS
    ensures PackedJobs(s, t, checked + {k}, hard)
  {
    hide Used;
    assert Used(u.jobs) <= Used(t.jobs);
    forall n | n in checked && n in t.jobs
      ensures t.jobs[n].status.phase == Queued ==> Used(t.jobs) + t.jobs[n].spec.gpus > hard
      ensures t.jobs[n].IsRunning() || t.jobs[n].status.phase == Queued || t.jobs[n].status == NEW_STATUS
    {
      assert n in u.jobs && t.jobs[n] == u.jobs[n];
    }
  }

  lemma {:induction false} AdmittedSame(jobs: map<string, Job>, jobs': map<string, Job>, ks: seq<string>)
    requires forall k :: k in ks ==> (k in jobs <==> k in jobs')
    requires forall k :: k in ks && k in jobs ==> jobs[k] == jobs'[k]
    ensures AdmittedGpus(jobs, ks) == AdmittedGpus(jobs', ks)
  {
    if ks != [] {
      assert ks[|ks| - 1] in ks;
      AdmittedSame(jobs, jobs', ks[..|ks| - 1]);
    }
  }

  lemma AdmittedOneMore(u: State, t: State, rest: seq<string>, k: string, hard: nat32)
    requires k !in rest && Rechecked(u, t, k, hard)
    ensures AdmittedGpus(t.jobs, rest + [k]) ==
            AdmittedGpus(u.jobs, rest) + if k in t.jobs && t.jobs[k].IsRunning() then t.jobs[k].spec.gpus else 0
  {
    var ks := rest + [k];
    assert ks[..|ks| - 1] == rest && ks[|ks| - 1] == k;
    AdmittedSame(u.jobs, t.jobs, rest);
  }

  lemma UsageOneMore(u: State, t: State, k: string, hard: nat32)
    requires Rechecked(u, t, k, hard) && u.jobs[k].IsWaiting()
    ensures Used(t.jobs) == Used(u.jobs) + if k in t.jobs && t.jobs[k].IsRunning() then t.jobs[k].spec.gpus else 0
  {
    hide Used;
  }

  /** The next job has not been touched yet. */
  lemma NextWaits(s: State, u: State, rest: seq<string>, k: string, hard: nat32)
    requires Packed(s, u, rest, hard) && k !in rest && IsWaitingJob(s, k)
    ensures IsWaitingJob(u, k) && (!u.jobs[k].finalizer ==> u.jobs[k].status == NEW_STATUS)
  {
    assert k !in Checked(rest);
    assert JobFits(u, k, u.jobs[k]);
    hide StoreFits, Exact, UsageFits, AdmittedGpus, AllAwake;
  }

  /** One more job at the end of a pass. */
  lemma PackOneMore(s: State, u: State, rest: seq<string>, k: string, hard: nat32)
    requires Packed(s, u, rest, hard) && k !in rest && IsWaitingJob(s, k)
    ensures Packed(s, Look(u, k), rest + [k], hard)
  {
    var t, ks := Look(u, k), rest + [k];
    hide Exact, StoreFits, AllAwake, Used, Look, AdmittedGpus, Checked, Rechecked, PackedJobs, UsageFits;
    CheckedOneMore(rest, k);
    NextWaits(s, u, rest, k, hard);
    LookDecides(u, k, hard);
    LookKeepsFit(u, k);
    LookKeepsUsage(u, t, k, hard);
    AdmittedOneMore(u, t, rest, k, hard);
    UsageOneMore(u, t, k, hard);
    IsThere(u, t, k, hard);
    PackJobsOneMore(s, u, t, Checked(rest), k, hard);
  }

  lemma CheckedOneMore(rest: seq<string>, k: string)
    requires k !in rest
    ensures k !in Checked(rest) && Checked(rest + [k]) == Checked(rest) + {k}
  {
  }

  lemma IsThere(u: State, t: State, k: string, hard: nat32)
    requires Rechecked(u, t, k, hard)
    ensures k in u.jobs
  {
  }

  lemma PackedNothing(s: State, hard: nat32)
    requires Inv(System(s, Idle)) && Exact(s) && UsageFits(s, hard)
    ensures Packed(s, s, [], hard)
  {
    hide Inv, Exact, Used;
  }

  /**
   Maximal packing: after a look at each of any waiting jobs in any order, usage has grown by exactly
   what was admitted, stays within the quota, and no job left Queued would fit in what remains.
   */
  lemma {:induction false} PassPacksMaximally(s: State, ks: seq<string>, hard: nat32)
    requires Inv(System(s, Idle)) && Exact(s) && UsageFits(s, hard)
    requires Distinct(ks) && forall k :: k in ks ==> IsWaitingJob(s, k)
    ensures Packed(s, AfterPass(s, ks), ks, hard)
  {
    hide Inv, Exact, UsageFits, Packed, IsWaitingJob, Look;
    if ks == [] {
      PackedNothing(s, hard);
    } else {
      var rest, k := ks[..|ks| - 1], ks[|ks| - 1];
      assert ks == rest + [k];
      assert k in ks && k !in rest;
      PassPacksMaximally(s, rest, hard);
      PackOneMore(s, AfterPass(s, rest), rest, k, hard);
    }
  }

  /**
   The same from any reachable state, when the pass takes in every Queued job: whoever is Queued
   afterwards would not fit.
   */
  lemma ReachablePassPacks(s: State, ks: seq<string>, hard: nat32)
    requires AttainableWithin(s, hard)
    requires Distinct(ks) && forall k :: k in ks ==> IsWaitingJob(s, k)
    requires forall k :: k in s.jobs && s.jobs[k].status.phase == Queued ==> k in ks
    ensures var t := AfterPass(s, ks);
            && Used(t.jobs) == Used(s.jobs) + AdmittedGpus(t.jobs, ks) <= hard
            && forall k :: k in t.jobs && t.jobs[k].status.phase == Queued ==> Used(t.jobs) + t.jobs[k].spec.gpus > hard
  {
    WithinFits(s, hard);
    AttainableFits(s);
    hide AttainableWithin, Attainable, Inv, Exact, IsWaitingJob, AfterPass, Used, AdmittedGpus;
    PassPacksMaximally(s, ks, hard);
  }
}
