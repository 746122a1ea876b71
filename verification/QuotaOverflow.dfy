/** Where the wrapping addition of the quota gate gives way: exactly when quota plus request leave an int32. */
module QuotaOverflow {
  import opened Int32
  import opened Model
  import opened Naming
  import opened ClusterState
  import opened Operator
  import opened SplitWorker
  import opened SplitInvariant
  import opened SplitSafety
  import opened SplitQuota
  import opened Atomic
  import opened Effects
  import opened Accounting
  import opened QuotaTheorems

  /** In any reachable state within its quota, a re-check breaks the quota iff the true sum overflows. */
  lemma RecheckBreaksQuotaIff(s: State, k: string, hard: nat32)
    requires Attainable(s) && CanRecheck(s, k)
    requires s.quota.Some? && s.quota.value.hardGPUs == hard && Used(s.jobs) <= hard
    ensures Used(Work(s, k).jobs) > hard <==> Used(s.jobs) + s.jobs[k].spec.gpus > MAX
  {
    var j := s.jobs[k];
    AttainableFits(s);
    assert j.name == k;
    UsedSplit(s.jobs, k);
    GateDecides(UsedBesides(s.jobs, k), j.spec.gpus, hard);
    hide Attainable, Inv, Exact, Used, UsedBesides, CanRecheck, Work, GateRefuses;
    RecheckDecides(s, k);
  }

  // ----- a run that admits one more job -----

  function Submission(name: string, spec: JobSpec): seq<AtomicEvent> {
    [World(Create(name, spec)), Reconciled(name), Reconciled(name)]
  }

  lemma ExecSnoc(s: State, xs: seq<AtomicEvent>, e: AtomicEvent)
    ensures Exec(s, xs + [e]) == Apply(Exec(s, xs), e)
  {
    hide Apply;
    assert (xs + [e])[..|xs|] == xs;
  }

  /** A created job is claimed by its first reconcile. */
  lemma ClaimStep(t: State, name: string, spec: JobSpec)
    requires name != "" && name !in t.jobs && spec.Valid()
    ensures var u := Work(Happen(t, Create(name, spec)), name);
            && u.jobs == t.jobs[name := Job(t.namespace, name, spec, NEW_STATUS, true, false)]
            && CanRecheck(u, name)
            && u.quota == t.quota
  {
    hide AdmitOrPark, Operator.EnsureWorkflow, ReconcileTtl, DropLabelled;
  }

  /** What submitting one more job does to the usage, from any reachable state. */
  lemma SubmissionUses(s: State, past: seq<AtomicEvent>, name: string, spec: JobSpec, hard: nat32)
    requires IsInitial(s) && AllPlain(past) && name != "" && spec.Valid() && spec.backoffLimit < MAX
    requires var t := Exec(s, past);
             name !in t.jobs && t.quota.Some? && t.quota.value.hardGPUs == hard && Used(t.jobs) <= hard
    ensures AllPlain(past + Submission(name, spec))
    ensures var t, u := Exec(s, past), Exec(s, past + Submission(name, spec));
            && u.quota.Some? && u.quota.value.hardGPUs == hard
            && (forall k :: k != name ==> (k in u.jobs <==> k in t.jobs))
            && Used(u.jobs) == Used(t.jobs) + if hard < Used(t.jobs) + spec.gpus <= MAX then 0 else spec.gpus
  {
    var t, created := Exec(s, past), World(Create(name, spec));
    var claim := past + [created] + [Reconciled(name)];
    assert AllPlain(claim) && AllPlain(past + Submission(name, spec));
    assert past + Submission(name, spec) == claim + [Reconciled(name)];
    hide Happen, Work, CanRecheck, Exec, AllPlain, Submission, Inv, Exact, Used;
    ClaimStep(t, name, spec);
    ExecSnoc(s, past, created);
    ExecSnoc(s, past + [created], Reconciled(name));
    ExecSnoc(s, claim, Reconciled(name));
    ExecFits(s, claim);
    ExecExact(s, claim);
    AdmissionUses(t, Work(Happen(t, Create(name, spec)), name), name, spec, hard);
  }

  lemma AdmissionUses(t: State, claimed: State, name: string, spec: JobSpec, hard: nat32)
    requires Inv(System(claimed, Idle)) && Exact(claimed) && CanRecheck(claimed, name) && name !in t.jobs
    requires claimed.jobs == t.jobs[name := Job(t.namespace, name, spec, NEW_STATUS, true, false)]
    requires claimed.quota == t.quota && t.quota.Some? && t.quota.value.hardGPUs == hard && Used(t.jobs) <= hard
    ensures var u := Work(claimed, name);
            && u.quota.Some? && u.quota.value.hardGPUs == hard
            && (forall k :: k != name ==> (k in u.jobs <==> k in t.jobs))
            && Used(u.jobs) == Used(t.jobs) + if hard < Used(t.jobs) + spec.gpus <= MAX then 0 else spec.gpus
  {
    ClaimedUses(t, claimed, name);
    hide Inv, Exact, Used, UsedBesides, CanRecheck, Work;
    GateDecides(Used(t.jobs), spec.gpus, hard);
    hide GateRefuses;
    RecheckDecides(claimed, name);
  }

  lemma ClaimedUses(t: State, claimed: State, name: string)
    requires name !in t.jobs && name in claimed.jobs && claimed.jobs[name].status == NEW_STATUS
    requires claimed.jobs == t.jobs[name := claimed.jobs[name]]
    ensures Used(claimed.jobs) == UsedBesides(claimed.jobs, name) == Used(t.jobs)
  {
    UsedPut(t.jobs, name, claimed.jobs[name]);
    assert t.jobs - {name} == t.jobs;
    hide RunningGpus;
  }

  // ----- the exact condition, over all runs -----

  predicate Modest(e: Event, largest: nat32) {
    Countable(e) && !e.SetQuota? && (e.Create? ==> e.spec.gpus <= largest)
  }

  /** Nobody edits the quota, and no request is larger than `largest`. */
  predicate AllModest(es: seq<SplitEvent>, largest: nat32) {
    forall i :: 0 <= i < |es| && es[i].Outside? ==> Modest(es[i].e, largest)
  }

  predicate WithinRequests(es: seq<AtomicEvent>, largest: nat32) {
    forall i :: 0 <= i < |es| && es[i].World? ==> Modest(es[i].e, largest)
  }

  function PlainSpec(gpus: nat32): JobSpec {
    JobSpec("mnist-cnn", "mnist", map[], gpus, 0, None, "models")
  }

  /** One-GPU jobs can fill any quota. */
  lemma {:induction false} FillQuota(s: State, hard: nat32, largest: nat32, n: nat) returns (es: seq<AtomicEvent>)
    requires IsInitial(s) && s.quota.Some? && s.quota.value.hardGPUs == hard
    requires 1 <= largest && n <= hard
    ensures AllPlain(es) && WithinRequests(es, largest)
    ensures var t := Exec(s, es);
            && t.quota.Some? && t.quota.value.hardGPUs == hard
            && Used(t.jobs) == n
            && forall i: nat :: n <= i ==> Digits(i) !in t.jobs
  {
    hide Digits, Used, Exec, AllPlain, WithinRequests, Submission, PlainSpec;
    if n == 0 {
      es := [];
      NothingYet(s, largest);
    } else {
      var before := FillQuota(s, hard, largest, n - 1);
      var k, spec := Digits(n - 1), PlainSpec(1);
      es := before + Submission(k, spec);
      PlainSpecFits(1);
      SubmissionUses(s, before, k, spec, hard);
      MoreRequests(before, k, 1, largest);
      forall i: nat | n <= i
        ensures Digits(i) !in Exec(s, es).jobs
      {
        if Digits(i) == k {
          DigitsInjective(i, n - 1);
        }
      }
    }
  }

  lemma NothingYet(s: State, largest: nat32)
    requires IsInitial(s)
    ensures Exec(s, []) == s && Used(s.jobs) == 0 && AllPlain([]) && WithinRequests([], largest)
  {
    Sums.SumZero(RunningGpus(s.jobs));
  }

  lemma PlainSpecFits(gpus: nat32)
    ensures var spec := PlainSpec(gpus); spec.Valid() && spec.backoffLimit < MAX && spec.gpus == gpus
  {
  }

  lemma MoreRequests(es: seq<AtomicEvent>, k: string, gpus: nat32, largest: nat32)
    requires WithinRequests(es, largest) && gpus <= largest
    ensures WithinRequests(es + Submission(k, PlainSpec(gpus)), largest)
  {
  }

  /**
   The Running sum respects a fixed quota in every run with requests up to `largest`, whatever is
   interleaved, fails or is lost, iff the quota plus the largest request is still an int32.
   */
  lemma QuotaSafeIff(s: State, hard: nat32, largest: nat32)
    requires IsInitial(s) && s.quota.Some? && s.quota.value.hardGPUs == hard
    ensures (forall es :: AllModest(es, largest) ==> Used(Run(System(s, Idle), es).store.jobs) <= hard)
            <==> hard + largest <= MAX
  {
    hide Used, Run, AllModest;
    if hard + largest <= MAX {
      forall es | AllModest(es, largest)
        ensures Used(Run(System(s, Idle), es).store.jobs) <= hard
      {
        RequestsFitQuota(es, hard, largest);
        RunningSumWithinQuota(s, es, hard);
      }
    } else {
      var es := BreakQuota(s, hard, largest);
    }
  }

  lemma RequestsFitQuota(es: seq<SplitEvent>, hard: nat32, largest: nat32)
    requires AllModest(es, largest) && hard + largest <= MAX
    ensures SplitUnderQuota(es, hard)
  {
  }

  /**
   The failing run, in which nothing fails: one-GPU jobs fill the quota, then the largest request wraps
   past the gate.
   */
  lemma BreakQuota(s: State, hard: nat32, largest: nat32) returns (ses: seq<SplitEvent>)
    requires IsInitial(s) && s.quota.Some? && s.quota.value.hardGPUs == hard
    requires hard + largest > MAX
    ensures AllModest(ses, largest) && AllGetThrough(ses)
    ensures Used(Run(System(s, Idle), ses).store.jobs) == hard + largest > hard
  {
    hide Used, Exec, Run;
    var full := FillQuota(s, hard, largest, hard);
    var spec := PlainSpec(largest);
    var es := full + Submission(Digits(hard), spec);
    SubmissionUses(s, full, Digits(hard), spec, hard);
    MoreRequests(full, Digits(hard), largest, largest);
    hide Submission, AllPlain, Digits;
    ses := AtomicRefinesSplit(s, es);
    SameRequests(es, ses, largest);
  }

  lemma SameRequests(es: seq<AtomicEvent>, ses: seq<SplitEvent>, largest: nat32)
    requires SameOutside(es, ses) && WithinRequests(es, largest)
    ensures AllModest(ses, largest)
  {
    forall i | 0 <= i < |ses| && ses[i].Outside?
      ensures Modest(ses[i].e, largest)
    {
      var j :| 0 <= j < |es| && es[j] == World(ses[i].e);
    }
  }
}
