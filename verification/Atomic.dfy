/** Runs in which every reconcile is one step, and their refinement of the interleaved system. */
module Atomic {
  import opened Int32
  import opened Model
  import opened WorkflowBuilder
  import opened ClusterState
  import opened Operator
  import opened SplitWorker
  import opened SplitInvariant
  import opened SplitSafety
  import opened SplitQuota

  datatype AtomicEvent = World(e: Event) | Reconciled(key: string)

  ghost function Apply(s: State, e: AtomicEvent): State {
    match e
    case World(ev) => Happen(s, ev)
    case Reconciled(key) => Work(s, key)
  }

  ghost function Exec(s: State, es: seq<AtomicEvent>): State {
    if es == [] then s else Apply(Exec(s, es[..|es| - 1]), es[|es| - 1])
  }

  // ----- an uninterrupted worker computes Reconcile -----

  /** `n` calls in a row, all going through. */
  function Calls(n: nat): seq<SplitEvent> {
    seq(n, _ => Invoke(Ok))
  }

  /** What the reconcile still does from a given call on. */
  ghost function Rest(s: State, key: string, call: Call): (State, Result) {
    match call
    case FetchJob => Reconcile(s, key)
    case CleanWorkflows(read) => (DropJob(DropLabelled(s, key), key), Done)
    case RemoveFinalizer(read) => (DropJob(s, key), Done)
    case AddFinalizer(read) => (PutJob(s, read.(finalizer := true)), Done)
    case ExpireJob(read) => (DeleteJob(s, key), Done)
    case FetchQuota(read) => AdmitOrPark(s, read)
    case ListPeers(read, hard) => AdmitUnder(s, read, hard)
    case FetchWorkflow(read, job) => EnsureWorkflow(s, job)
    case CreateWorkflow(read, job) => EnsureWorkflow(s, job)
    case DropFailed(read, job) => (PutJob(DropWorkflow(s, CurrentWorkflow(job)), BackToPending(job)), Requeue)
    case WriteStatus(read, job, result, refresh) =>
      (if refresh then RefreshQuota(PutJob(s, job)) else PutJob(s, job), result)
    case PublishQuota(result) => (RefreshQuota(s), result)
  }

  /** The call was prepared from the job that is in the store. */
  predicate Undisturbed(s: State, key: string, call: Call) {
    match call
    case FetchJob => key in s.jobs ==> s.jobs[key].name == key
    case CleanWorkflows(read) => IsCurrent(s, read) && read.name == key
    case RemoveFinalizer(read) => IsCurrent(s, read) && read.name == key
    case AddFinalizer(read) => IsCurrent(s, read) && read.name == key
    case ExpireJob(read) => read.name == key
    case FetchQuota(read) => IsCurrent(s, read) && read.name == key
    case ListPeers(read, hard) => IsCurrent(s, read) && read.name == key
    case FetchWorkflow(read, job) => IsCurrent(s, read) && read.name == key && job == read.(status := job.status)
    case CreateWorkflow(read, job) =>
      && IsCurrent(s, read) && read.name == key && job == read.(status := job.status)
      && CurrentWorkflow(job) !in s.workflows
    case DropFailed(read, job) => IsCurrent(s, read) && read.name == key && job == read.(status := job.status)
    case WriteStatus(read, job, result, refresh) =>
      IsCurrent(s, read) && read.name == key && job == read.(status := job.status)
    case PublishQuota(result) => true
  }

  /** Going on after a call computes what was still to do before it. */
  ghost predicate Faithful(s: State, key: string, call: Call) {
    var (t, next) := Perform(s, key, call);
    match next
    case Abort => false
    case Finish(result) => Rest(s, key, call) == (t, result)
    case Continue(after) =>
      Undisturbed(t, key, after) && Rest(s, key, call) == Rest(t, key, after) && CallsLeft(after) < CallsLeft(call)
  }

  lemma FetchIsFaithful(s: State, key: string)
    requires Undisturbed(s, key, FetchJob)
    ensures Faithful(s, key, FetchJob)
  {
    hide EnsureWorkflow, AdmitOrPark, DropLabelled;
  }

  lemma WorkflowFetchIsFaithful(s: State, key: string, read: Job, job: Job)
    requires Undisturbed(s, key, FetchWorkflow(read, job))
    ensures Faithful(s, key, FetchWorkflow(read, job))
  {
    hide CurrentWorkflow, WorkflowFor, RefreshQuota, CurrentAttempt;
  }

  lemma CreateIsFaithful(s: State, key: string, read: Job, job: Job)
    requires Undisturbed(s, key, CreateWorkflow(read, job))
    ensures Faithful(s, key, CreateWorkflow(read, job))
  {
    hide CurrentWorkflow, WorkflowFor, RefreshQuota, CurrentAttempt;
  }

  lemma GateIsFaithful(s: State, key: string, call: Call)
    requires (call.FetchQuota? || call.ListPeers?) && Undisturbed(s, key, call)
    ensures Faithful(s, key, call)
  {
    hide EnsureWorkflow, GateRefuses, UsedBesides, RefreshQuota;
  }

  lemma WriteIsFaithful(s: State, key: string, call: Call)
    requires (call.WriteStatus? || call.PublishQuota? || call.DropFailed?) && Undisturbed(s, key, call)
    ensures Faithful(s, key, call)
  {
    hide RefreshQuota, CurrentWorkflow;
  }

  lemma OneCall(s: State, key: string, call: Call)
    requires Undisturbed(s, key, call)
    ensures Faithful(s, key, call)
  {
    match call
    case FetchJob => FetchIsFaithful(s, key);
    case FetchQuota(read) => GateIsFaithful(s, key, call);
    case ListPeers(read, hard) => GateIsFaithful(s, key, call);
    case FetchWorkflow(read, job) => WorkflowFetchIsFaithful(s, key, read, job);
    case CreateWorkflow(read, job) => CreateIsFaithful(s, key, read, job);
    case DropFailed(read, job) => WriteIsFaithful(s, key, call);
    case WriteStatus(read, job, result, refresh) => WriteIsFaithful(s, key, call);
    case PublishQuota(result) => WriteIsFaithful(s, key, call);
    case CleanWorkflows(read) =>
    case RemoveFinalizer(read) =>
    case AddFinalizer(read) =>
    case ExpireJob(read) =>
  }

  lemma {:induction false} CallsFinish(s: State, key: string, call: Call) returns (n: nat)
    requires Undisturbed(s, key, call)
    ensures var (t, result) := Rest(s, key, call);
            Run(System(s, Busy(key, call)), Calls(n)) == System(Settle(t, key, result), Idle)
    decreases CallsLeft(call)
  {
    OneCall(s, key, call);
    hide Rest, Perform, Undisturbed;
    var sys := System(s, Busy(key, call));
    var (t, next) := Perform(s, key, call);
    RunOne(sys, Invoke(Ok));
    if next.Continue? {
      var m := CallsFinish(t, key, next.call);
      n := m + 1;
      assert Calls(n) == [Invoke(Ok)] + Calls(m);
      SplitWorker.RunAppend(sys, [Invoke(Ok)], Calls(m));
    } else {
      n := 1;
      assert Calls(1) == [Invoke(Ok)];
    }
  }

  lemma RunOne(sys: System, e: SplitEvent)
    ensures Run(sys, [e]) == Step(sys, e)
  {
    assert [e][..0] == [];
    assert Run(sys, [e][..0]) == sys;
  }

  /** One atomic reconcile is a worker taking the key and making a few calls nobody disturbs. */
  lemma WorkIsUninterrupted(s: State, key: string) returns (n: nat)
    requires key in s.queue
    requires key in s.jobs ==> s.jobs[key].name == key
    ensures Run(System(s, Idle), [Begin(key)] + Calls(n)) == System(Work(s, key), Idle)
  {
    n := CallsFinish(Dequeue(s, key), key, FetchJob);
    RunOne(System(s, Idle), Begin(key));
    SplitWorker.RunAppend(System(s, Idle), [Begin(key)], Calls(n));
  }

  predicate Plain(e: AtomicEvent) {
    e.World? ==> Countable(e.e)
  }

  predicate AllPlain(es: seq<AtomicEvent>) {
    forall i :: 0 <= i < |es| ==> Plain(es[i])
  }

  /** The namespace's quota is `hard` throughout. */
  predicate AllUnderQuota(es: seq<AtomicEvent>, hard: nat32) {
    forall i :: 0 <= i < |es| && es[i].World? ==> UnderQuota(Outside(es[i].e), hard)
  }

  predicate SplitUnderQuota(es: seq<SplitEvent>, hard: nat32) {
    forall i :: 0 <= i < |es| ==> UnderQuota(es[i], hard)
  }

  predicate AllGetThrough(ses: seq<SplitEvent>) {
    forall i :: 0 <= i < |ses| && ses[i].Invoke? ==> ses[i].outcome == Ok
  }

  /** Every job is stored under its name. */
  predicate Named(s: State) {
    forall k :: k in s.jobs ==> s.jobs[k].name == k
  }

  lemma EnsureKeepsNames(s: State, job: Job)
    requires Named(s)
    ensures Named(EnsureWorkflow(s, job).0)
  {
    hide CurrentWorkflow, CurrentAttempt, WorkflowFor, Started, Adopted, Completed, GivenUp, BackToPending;
  }

  lemma ReconcileKeepsNames(s: State, key: string)
    requires Named(s)
    ensures Named(Reconcile(s, key).0)
  {
    hide EnsureWorkflow, GateRefuses, UsedBesides, Granted, Parked;
    if key in s.jobs {
      EnsureKeepsNames(s, s.jobs[key]);
      EnsureKeepsNames(s, Granted(s.jobs[key]));
    }
  }

  lemma ApplyKeepsNames(s: State, e: AtomicEvent)
    requires Named(s)
    ensures Named(Apply(s, e))
  {
    if e.Reconciled? {
      ReconcileKeepsNames(Dequeue(s, e.key), e.key);
      hide Reconcile;
    }
  }

  /** One atomic step, as interleaved steps. */
  lemma StepRefines(s: State, e: AtomicEvent) returns (ses: seq<SplitEvent>)
    requires Named(s)
    ensures Plain(e) ==> AllCountable(ses)
    ensures Run(System(s, Idle), ses) == System(Apply(s, e), Idle)
    ensures forall i :: 0 <= i < |ses| && ses[i].Outside? ==> e.World? && ses[i].e == e.e
    ensures AllGetThrough(ses)
  {
    match e
    case World(ev) =>
      ses := [Outside(ev)];
      RunOne(System(s, Idle), Outside(ev));
    case Reconciled(key) =>
      if key in s.queue {
        var n := WorkIsUninterrupted(s, key);
        ses := [Begin(key)] + Calls(n);
      } else {
        ses := [];
      }
  }

  /** What happens outside is the same. */
  ghost predicate SameOutside(es: seq<AtomicEvent>, ses: seq<SplitEvent>) {
    forall i :: 0 <= i < |ses| && ses[i].Outside? ==> World(ses[i].e) in es
  }

  /** Every atomic run is an interleaved run, so what holds of those holds of these. */
  lemma {:induction false} AtomicRefinesSplit(s: State, es: seq<AtomicEvent>) returns (ses: seq<SplitEvent>)
    requires Named(s)
    ensures Named(Exec(s, es)) && AllGetThrough(ses) && SameOutside(es, ses)
    ensures AllPlain(es) ==> AllCountable(ses)
    ensures Run(System(s, Idle), ses) == System(Exec(s, es), Idle)
  {
    if es == [] {
      ses := [];
    } else {
      var rest, last := es[..|es| - 1], es[|es| - 1];
      var before := AtomicRefinesSplit(s, rest);
      var after := StepRefines(Exec(s, rest), last);
      ApplyKeepsNames(Exec(s, rest), last);
      SplitWorker.RunAppend(System(s, Idle), before, after);
      ses := before + after;
      hide Step, Apply, Run, Named;
      assert es == rest + [last];
    }
  }

  lemma SameQuota(es: seq<AtomicEvent>, ses: seq<SplitEvent>, hard: nat32)
    requires SameOutside(es, ses) && AllUnderQuota(es, hard)
    ensures SplitUnderQuota(ses, hard)
  {
    forall i | 0 <= i < |ses| && ses[i].Outside?
      ensures UnderQuota(ses[i], hard)
    {
      var j :| 0 <= j < |es| && es[j] == World(ses[i].e);
    }
  }

  // ----- what atomic runs inherit -----

  lemma {:induction false} ExecFits(s: State, es: seq<AtomicEvent>)
    requires IsInitial(s) && AllPlain(es)
    ensures Inv(System(Exec(s, es), Idle))
  {
    var ses := AtomicRefinesSplit(s, es);
    RunKeeps(s, ses);
  }

  lemma ExecWithinQuota(s: State, es: seq<AtomicEvent>, hard: nat32)
    requires IsInitial(s) && s.quota.Some? && s.quota.value.hardGPUs == hard
    requires AllPlain(es) && AllUnderQuota(es, hard)
    ensures QuotaFits(System(Exec(s, es), Idle), hard)
  {
    var ses := AtomicRefinesSplit(s, es);
    SameQuota(es, ses, hard);
    RunningSumWithinQuota(s, ses, hard);
  }

  lemma ApplyFits(s: State, e: AtomicEvent)
    requires Inv(System(s, Idle)) && Plain(e)
    ensures Inv(System(Apply(s, e), Idle))
  {
    var ses := StepRefines(s, e);
    RunKeepsInv(System(s, Idle), ses);
  }
}
