/**
 Deadlock freedom and termination. With a fixed quota that every single job fits into, no new jobs and
 no Workflow removed from outside, every fair run of uninterrupted reconciles ends with all remaining
 jobs finished, from any reachable store.
 */
module Termination {
  import opened Int32
  import opened Model
  import opened Sums
  import opened Naming
  import opened ClusterState
  import opened Operator
  import opened SplitWorker
  import opened SplitInvariant
  import opened SplitSafety
  import opened Atomic
  import opened SplitTheorems
  import opened SplitWorkflows
  import opened Effects
  import opened Accounting
  import opened ReconcileSteps
  import opened AtomicTheorems
  import opened QuotaTheorems

  // ----- the measure -----

  /** Attempts the job may still start. */
  function AttemptsLeft(j: Job): nat {
    if j.status.attempts <= j.spec.backoffLimit + 1 then j.spec.backoffLimit + 1 - j.status.attempts else 0
  }

  /**
   Where a job stands within an attempt; the remainder of its rank modulo 8. A waiting job may find a
   Workflow that was created but not recorded: going (`Adoptable`) or finished (`Leftover`).
   */
  datatype Stage = Over | InLine | Ready | Unclaimed | Leftover | Concluded | Live | Lost | Adoptable

  function StageOf(s: State, j: Job): Stage {
    var w := CurrentWorkflow(j);
    if j.IsTerminal() then Over
    else if j.IsRunning() then
      if w !in s.workflows then Lost
      else if IsFinalPhase(s.workflows[w].phase) then Concluded
      else Live
    else if !j.finalizer then Unclaimed
    else if w in s.workflows then
      if IsFinalPhase(s.workflows[w].phase) then Leftover else Adoptable
    else if j.status.phase == Queued then InLine
    else Ready
  }

  function StageRank(stage: Stage): int {
    match stage
    case Over => 0
    case InLine => -1
    case Ready => 0
    case Unclaimed => 1
    case Leftover => 2
    case Concluded => 3
    case Live => 4
    case Lost => 5
    case Adoptable => 6
  }

  /** Zero once finished; otherwise attempts left first, then the stage. */
  function Rank(s: State, j: Job): nat {
    var stage := StageOf(s, j);
    if stage == Over then 0 else
      var r := 8 * AttemptsLeft(j) + StageRank(stage);
      if r > 0 then r else 0
  }

  function Ranks(s: State): map<string, nat> {
    map k | k in s.jobs :: Rank(s, s.jobs[k])
  }

  ghost function Total(s: State): nat {
    Sum(Ranks(s))
  }

  /** A waiting job has an attempt left, so no unfinished job has rank zero. */
  lemma RankShape(s: State, j: Job)
    requires AttemptsFit(j)
    ensures StageOf(s, j) != Over ==> Rank(s, j) == 8 * AttemptsLeft(j) + StageRank(StageOf(s, j)) > 0
    ensures StageOf(s, j) == Over <==> Rank(s, j) == 0
    ensures StageOf(s, j) == Over <==> j.IsTerminal()
  {
    hide CurrentWorkflow;
  }

  /** The rank tells the stage and the attempts. */
  lemma RankTellsStage(s: State, j: Job, t: State, j': Job)
    requires AttemptsFit(j) && AttemptsFit(j') && j.spec == j'.spec
    requires Rank(s, j) == Rank(t, j')
    ensures StageOf(s, j) == StageOf(t, j')
    ensures StageOf(s, j) != Over ==> j.status.attempts == j'.status.attempts
  {
    RankShape(s, j);
    RankShape(t, j');
    hide StageOf, Rank;
  }

  // ----- stray Workflows -----

  /** Beside the attempt it counts, the unfinished job has the next one's Workflow still going. */
  predicate HasStray(s: State, k: string) {
    && k in s.jobs
    && var j := s.jobs[k]; var w := WorkflowName(k, j.status.attempts + 1);
       && !j.IsTerminal() && j.status.attempts >= 1
       && w in s.workflows && !IsFinalPhase(s.workflows[w].phase)
  }

  predicate Tame(s: State) {
    forall k :: k in s.jobs ==> !HasStray(s, k)
  }

  lemma NextOfWaiting(j: Job)
    requires AttemptsFit(j) && j.spec.backoffLimit < MAX && (j.IsWaiting() || j.status.attempts == 0)
    ensures CurrentWorkflow(j) == WorkflowName(j.name, j.status.attempts + 1)
  {
    WrapExact(j.status.attempts + 1);
    hide WorkflowName;
  }

  lemma CountedOfRunning(j: Job)
    requires AttemptsFit(j) && j.IsRunning() && j.status.attempts >= 1
    ensures CurrentWorkflow(j) == WorkflowName(j.name, j.status.attempts)
  {
    hide WorkflowName;
  }

  // ----- steps never raise a rank -----

  /** Users stop creating jobs, nobody edits the quota or removes a Workflow behind Argo's back. */
  predicate Calm(e: AtomicEvent) {
    e.World? ==> !e.e.Create? && !e.e.RemoveWorkflow? && !e.e.SetQuota?
  }

  /** `k` is not new, has its spec, and keeps a deletion mark. */
  ghost predicate Stays(s: State, t: State, k: string) {
    k in t.jobs ==>
      k in s.jobs && t.jobs[k].spec == s.jobs[k].spec && (s.jobs[k].deleting ==> t.jobs[k].deleting)
  }

  /** Nor can it be further from its end in `t` than in `s`. */
  ghost predicate NotRaised(s: State, t: State, k: string) {
    Stays(s, t, k) && (k in t.jobs ==> Rank(t, t.jobs[k]) <= Rank(s, s.jobs[k]))
  }

  lemma HappenOnCurrent(s: State, e: Event, w: string)
    requires !e.Create? && !e.RemoveWorkflow? && !e.SetQuota?
    ensures w in Happen(s, e).workflows <==> w in s.workflows
    ensures w in s.workflows && IsFinalPhase(s.workflows[w].phase) ==>
              IsFinalPhase(Happen(s, e).workflows[w].phase)
  {
  }

  lemma CalmAddsNoJob(s: State, e: Event, k: string)
    requires StoreFits(s) && !e.Create? && k in Happen(s, e).jobs
    ensures k in s.jobs
  {
    if e.Delete? && k !in s.jobs {
      DeleteAddsNothing(s, e.name, k);
    }
    hide StoreFits;
  }

  lemma HappenRaisesNothing(s: State, e: Event, k: string)
    requires StoreFits(s) && Calm(World(e))
    ensures NotRaised(s, Happen(s, e), k)
  {
    hide Happen, StoreFits;
    var t := Happen(s, e);
    if k in t.jobs {
      CalmAddsNoJob(s, e, k);
      HappenOnJob(s, e, k);
      HappenOnCurrent(s, e, CurrentWorkflow(s.jobs[k]));
      assert CurrentWorkflow(t.jobs[k]) == CurrentWorkflow(s.jobs[k]);
      hide CurrentWorkflow;
    }
  }

  /** A Workflow named after another job is left alone. */
  lemma ActsOnOthers(s: State, t: State, key: string, k: string, a: int)
    requires StoreFits(s) && Acts(s, t, key) && k != key && k in s.jobs
    ensures var w := WorkflowName(k, a);
            && (w in t.workflows <==> w in s.workflows)
            && (w in s.workflows ==> t.workflows[w] == s.workflows[w])
  {
    var w := WorkflowName(k, a);
    if key in s.jobs {
      assert s.jobs[key].name == key;
      CurrentIsNot(s.jobs[key], k, a);
      if w in s.workflows {
        NamedIsOwned(s, k, a);
      }
      hide StoreFits, WorkflowName, CurrentWorkflow, Copy, Eligible, Claimed, Marked, ParkedBy;
      StepOnWorkflow(s, t, key, w);
    } else {
      hide StoreFits, WorkflowName;
    }
  }

  lemma StepOnWorkflow(s: State, t: State, key: string, w: string)
    requires key in s.jobs && Acts(s, t, key) && w != CurrentWorkflow(s.jobs[key])
    requires w in s.workflows ==> s.workflows[w].owner != key
    ensures w in t.workflows <==> w in s.workflows
    ensures w in s.workflows ==> t.workflows[w] == s.workflows[w]
  {
    hide CurrentWorkflow, Copy, Eligible, Claimed, Marked, ParkedBy, Started, Adopted, Completed, GivenUp;
    hide BackToPending;
  }

  lemma CurrentIsNot(j: Job, k: string, a: int)
    requires j.name != k
    ensures CurrentWorkflow(j) != WorkflowName(k, a)
  {
    if CurrentWorkflow(j) == WorkflowName(k, a) {
      WorkflowNamesInjective(j.name, CurrentAttempt(j).0, k, a);
    }
  }

  lemma NamedIsOwned(s: State, k: string, a: int)
    requires StoreFits(s) && WorkflowName(k, a) in s.workflows
    ensures s.workflows[WorkflowName(k, a)].owner == k
  {
    var w := WorkflowName(k, a);
    assert WorkflowFits(s, w, s.workflows[w]);
    var b: int :| w == WorkflowName(s.workflows[w].owner, b);
    WorkflowNamesInjective(k, a, s.workflows[w].owner, b);
  }

  lemma OtherNotRaised(s: State, t: State, key: string, k: string)
    requires StoreFits(s) && Acts(s, t, key) && k != key
    ensures k in t.jobs <==> k in s.jobs
    ensures k in s.jobs ==> t.jobs[k] == s.jobs[k]
    ensures NotRaised(s, t, k)
  {
    ActsOnOtherJobs(s, t, key, k);
    if k in s.jobs {
      assert s.jobs[k].name == k;
      ActsOnOthers(s, t, key, k, CurrentAttempt(s.jobs[k]).0);
      assert CurrentWorkflow(s.jobs[k]) == WorkflowName(k, CurrentAttempt(s.jobs[k]).0);
    }
    hide StoreFits, Acts, CurrentWorkflow;
  }

  lemma ActsOnOtherJobs(s: State, t: State, key: string, k: string)
    requires Acts(s, t, key) && k != key
    ensures k in t.jobs <==> k in s.jobs
    ensures k in s.jobs ==> t.jobs[k] == s.jobs[k]
  {
    hide CurrentWorkflow, Copy, Admits, Claimed, Marked, ParkedBy, WorkflowsOf;
  }

  /** A step that changes the reconciled job's stage brings it closer to its end. */
  ghost predicate Lowered(s: State, t: State, k: string) {
    k in s.jobs && (k in t.jobs ==> Rank(t, t.jobs[k]) < Rank(s, s.jobs[k]))
  }

  lemma SubmitLowers(s: State, t: State, k: string)
    requires k in s.jobs && Eligible(s, s.jobs[k]) && Proceeds(s, t, k) && JobFits(s, k, s.jobs[k])
    requires CurrentWorkflow(s.jobs[k]) !in s.workflows
    ensures Lowered(s, t, k) && Stays(s, t, k)
  {
    var j := s.jobs[k];
    CopyShape(s, j);
    StartedCurrent(Copy(s, j), s.now);
    hide CurrentWorkflow, Copy, Admits, OutcomeFits, RecordFits, Started;
    assert StageOf(t, t.jobs[k]) == Live;
    assert StageOf(s, j) in {Ready, InLine, Lost};
  }

  /** A started job waits for the Workflow it has just submitted. */
  lemma StartedCurrent(c: Job, now: nat)
    requires AttemptsFit(c) && c.spec.backoffLimit < MAX && !c.IsTerminal()
    ensures var j' := Started(c, now);
            && j'.spec == c.spec && j'.deleting == c.deleting && j'.finalizer == c.finalizer && j'.IsRunning()
            && CurrentWorkflow(j') == CurrentWorkflow(c)
            && j'.status.attempts == c.status.attempts + if c.IsWaiting() || c.status.attempts == 0 then 1 else 0
  {
    WrapExact(c.status.attempts + 1);
    hide WorkflowName;
  }

  lemma AdoptNotRaised(s: State, t: State, k: string)
    requires k in s.jobs && Eligible(s, s.jobs[k]) && Proceeds(s, t, k) && JobFits(s, k, s.jobs[k])
    requires var w := CurrentWorkflow(s.jobs[k]); w in s.workflows && !IsFinalPhase(s.workflows[w].phase)
    ensures NotRaised(s, t, k)
    ensures s.jobs[k].IsWaiting() ==> Lowered(s, t, k)
  {
    var j := s.jobs[k];
    CopyShape(s, j);
    if j.IsRunning() {
      assert CurrentWorkflow(t.jobs[k]) == CurrentWorkflow(j);
    }
    hide CurrentWorkflow, Copy, Admits, OutcomeFits, RecordFits;
    assert AttemptsLeft(t.jobs[k]) == AttemptsLeft(j);
  }

  lemma FinishLowers(s: State, t: State, k: string)
    requires k in s.jobs && k in t.jobs && t.jobs[k].IsTerminal() && t.jobs[k].spec == s.jobs[k].spec
    requires t.jobs[k].deleting == s.jobs[k].deleting && AttemptsFit(s.jobs[k]) && !s.jobs[k].IsTerminal()
    ensures Lowered(s, t, k) && NotRaised(s, t, k)
  {
    RankShape(s, s.jobs[k]);
    hide CurrentWorkflow;
  }

  /** Dropping a failed Workflow helps, unless the next attempt's Workflow is going already. */
  lemma RetryLowers(s: State, t: State, k: string)
    requires k in s.jobs && Eligible(s, s.jobs[k]) && JobFits(s, k, s.jobs[k]) && !HasStray(s, k)
    requires k in t.jobs && t.jobs[k] == BackToPending(Copy(s, s.jobs[k]))
    requires var w := CurrentWorkflow(s.jobs[k]);
             w in s.workflows && IsFinalPhase(s.workflows[w].phase) && t.workflows == s.workflows - {w}
    requires s.jobs[k].status.attempts <= s.jobs[k].spec.backoffLimit
    ensures Lowered(s, t, k) && NotRaised(s, t, k)
  {
    var j, j' := s.jobs[k], t.jobs[k];
    CopyShape(s, j);
    assert AttemptsFit(j');
    NextOfWaiting(j');
    if j.IsWaiting() || j.status.attempts == 0 {
      NextOfWaiting(j);
    }
    hide CurrentWorkflow, WorkflowName, Copy, Admits, OutcomeFits, RecordFits;
    assert StageOf(s, j) in {Leftover, Concluded};
    assert StageOf(t, j') in {Ready, Leftover};
    assert StageOf(s, j) == Leftover ==> StageOf(t, j') == Ready;
    assert AttemptsLeft(j') == AttemptsLeft(j);
  }

  lemma UnclaimedHasNone(s: State, k: string)
    requires StoreFits(s) && k in s.jobs && !s.jobs[k].finalizer
    ensures CurrentWorkflow(s.jobs[k]) !in s.workflows
  {
    var j := s.jobs[k];
    if CurrentWorkflow(j) in s.workflows {
      CurrentWorkflowIsOwn(s, j);
    }
  }

  lemma EditNotRaised(s: State, t: State, k: string)
    requires k in s.jobs && Edited(s, t, k) && JobFits(s, k, s.jobs[k])
    requires !s.jobs[k].finalizer ==> CurrentWorkflow(s.jobs[k]) !in s.workflows
    ensures NotRaised(s, t, k)
    ensures !s.jobs[k].finalizer ==> Lowered(s, t, k)
  {
    hide OutcomeFits, RecordFits, NotRaised, Lowered;
    if ParkedBy(s, s.jobs[k], t.jobs[k]) {
      ParkNotRaised(s, t, k);
    } else {
      TouchNotRaised(s, t, k);
    }
  }

  lemma ParkNotRaised(s: State, t: State, k: string)
    requires k in s.jobs && k in t.jobs && s.jobs[k].IsWaiting() && s.jobs[k].finalizer && AttemptsFit(s.jobs[k])
    requires t.jobs[k] == Parked(s.jobs[k]) && t.workflows == s.workflows
    ensures NotRaised(s, t, k)
  {
    ParkedCurrent(s.jobs[k]);
    ParkedShape(s.jobs[k]);
    hide CurrentWorkflow, Parked;
  }

  /** Claiming or marking a job. */
  lemma TouchNotRaised(s: State, t: State, k: string)
    requires k in s.jobs && k in t.jobs && JobFits(s, k, s.jobs[k]) && t.workflows == s.workflows
    requires Claimed(s.jobs[k], t.jobs[k]) || Marked(s, s.jobs[k], t.jobs[k])
    requires !s.jobs[k].finalizer ==> CurrentWorkflow(s.jobs[k]) !in s.workflows
    ensures NotRaised(s, t, k)
    ensures !s.jobs[k].finalizer ==> Lowered(s, t, k)
  {
    var j, j' := s.jobs[k], t.jobs[k];
    assert CurrentWorkflow(j') == CurrentWorkflow(j) && AttemptsLeft(j') == AttemptsLeft(j);
    hide CurrentWorkflow, AttemptsLeft, Expiry, HasTtl, OutcomeFits, RecordFits;
  }

  lemma ParkedShape(j: Job)
    requires j.IsWaiting()
    ensures var p := Parked(j);
            && p.spec == j.spec && p.finalizer == j.finalizer && p.deleting == j.deleting
            && p.status.phase == Queued && p.status.attempts == j.status.attempts
  {
  }

  lemma ParkedCurrent(j: Job)
    requires j.IsWaiting()
    ensures CurrentWorkflow(Parked(j)) == CurrentWorkflow(j)
  {
  }

  lemma ProceedingLowers(s: State, t: State, k: string)
    requires k in s.jobs && Eligible(s, s.jobs[k]) && Proceeds(s, t, k) && JobFits(s, k, s.jobs[k]) && !HasStray(s, k)
    ensures NotRaised(s, t, k)
    ensures StageOf(s, s.jobs[k]) != Live ==> Lowered(s, t, k)
  {
    var j := s.jobs[k];
    var w := CurrentWorkflow(j);
    CopyShape(s, j);
    if w !in s.workflows {
      SubmitLowers(s, t, k);
      hide Rank, Proceeds;
    } else if !IsFinalPhase(s.workflows[w].phase) {
      AdoptNotRaised(s, t, k);
      hide Rank, Proceeds, CurrentWorkflow, NotRaised, Lowered;
    } else if s.workflows[w].phase == "Succeeded" || j.status.attempts > j.spec.backoffLimit {
      FinishLowers(s, t, k);
      hide NotRaised, Lowered;
    } else {
      RetryLowers(s, t, k);
      hide NotRaised, Lowered;
    }
  }

  lemma OwnNotRaised(s: State, t: State, k: string)
    requires StoreFits(s) && Tame(s) && Acts(s, t, k)
    ensures NotRaised(s, t, k)
  {
    if k in s.jobs {
      assert JobFits(s, k, s.jobs[k]);
      if !s.jobs[k].finalizer {
        UnclaimedHasNone(s, k);
      }
      hide StoreFits, HasStray, JobFits, Proceeds, Edited, NotRaised, CurrentWorkflow;
      if Eligible(s, s.jobs[k]) && Proceeds(s, t, k) {
        ProceedingLowers(s, t, k);
      } else if Edited(s, t, k) {
        EditNotRaised(s, t, k);
      } else {
        SameNotRaised(s, t, k);
      }
    } else {
      hide StoreFits, Rank;
    }
  }

  lemma SameNotRaised(s: State, t: State, k: string)
    requires Unchanged(s, t) || Removed(s, t, k)
    ensures NotRaised(s, t, k)
  {
    hide CurrentWorkflow, WorkflowsOf;
  }

  // ----- whole steps -----

  /** An idle store such as any interleaved run can leave. */
  ghost predicate Home(s: State) {
    NearbyInv(System(s, Idle))
  }

  lemma ReachableIsHome(s: State)
    requires Reachable(System(s, Idle))
    ensures Home(s)
  {
    hide Reachable, NearbyInv;
    ReachableNearby(System(s, Idle));
  }

  lemma ApplyKeepsHome(s: State, e: AtomicEvent)
    requires Home(s) && Plain(e)
    ensures Home(Apply(s, e))
  {
    hide Run, Apply;
    var ses := StepRefines(s, e);
    RunKeepsNearby(System(s, Idle), ses);
  }

  lemma WorkActs(s: State, key: string)
    requires StoreFits(s) && key in s.queue
    ensures Acts(s, Work(s, key), key)
  {
    var before := Dequeue(s, key);
    StoreSameJobs(s, before);
    hide Reconcile, StoreFits, Acts, Settle;
    ReconcileActs(before, key);
    var (t, result) := Reconcile(before, key);
    SettleKeepsObjects(t, key, result);
    ActsIsFramed(before, t, s, Settle(t, key, result), key);
  }

  /** Acts speak of jobs, Workflows, quota and clock only. */
  lemma ActsIsFramed(s: State, t: State, s': State, t': State, key: string)
    requires Acts(s, t, key)
    requires s'.jobs == s.jobs && s'.workflows == s.workflows && s'.quota == s.quota && s'.now == s.now
    requires t'.jobs == t.jobs && t'.workflows == t.workflows
    ensures Acts(s', t', key)
  {
    assert WorkflowsOf(s', key) == WorkflowsOf(s, key);
    hide CurrentWorkflow, GateRefuses, UsedBesides, WorkflowsOf, Parked, Started, Adopted, Completed, GivenUp;
    hide BackToPending;
  }

  /** In calm weather, and with no stray Workflow about, no step raises any job's rank. */
  lemma StepRaisesNothing(s: State, e: AtomicEvent, k: string)
    requires Home(s) && Tame(s) && Calm(e)
    ensures NotRaised(s, Apply(s, e), k)
  {
    hide Work, NotRaised, Tame;
    match e
    case World(ev) => HappenRaisesNothing(s, ev, k);
    case Reconciled(key) =>
      if key in s.queue {
        WorkActs(s, key);
        hide StoreFits, Acts;
        if key == k {
          OwnNotRaised(s, Work(s, key), k);
        } else {
          OtherNotRaised(s, Work(s, key), key, k);
        }
      } else {
        WorkIdle(s, key);
        SameNotRaised(s, s, k);
      }
  }

  lemma WorkIdle(s: State, key: string)
    requires key !in s.queue
    ensures Work(s, key) == s
  {
  }

  /** Stray or not, no job appears, changes its spec or loses its mark. */
  lemma StepStays(s: State, e: AtomicEvent, k: string)
    requires Home(s) && Calm(e)
    ensures Stays(s, Apply(s, e), k)
  {
    hide Work;
    match e
    case World(ev) =>
      HappenRaisesNothing(s, ev, k);
      hide Rank, Happen;
    case Reconciled(key) =>
      if key in s.queue {
        WorkActs(s, key);
        if key == k {
          OwnStays(s, Work(s, key), k);
        } else {
          ActsOnOtherJobs(s, Work(s, key), key, k);
        }
        hide StoreFits, Acts;
      } else {
        WorkIdle(s, key);
      }
  }

  lemma OwnStays(s: State, t: State, k: string)
    requires Acts(s, t, k)
    ensures Stays(s, t, k)
  {
    if k in s.jobs {
      CopyShape(s, s.jobs[k]);
    }
    hide CurrentWorkflow, Copy, Admits, WorkflowsOf, CurrentAttempt;
  }

  // ----- strays only go -----

  lemma HappenOnStray(s: State, e: Event, k: string)
    requires StoreFits(s) && Calm(World(e)) && HasStray(Happen(s, e), k)
    ensures HasStray(s, k) && Happen(s, e).jobs[k].status == s.jobs[k].status
  {
    hide Happen, StoreFits, WorkflowName;
    CalmAddsNoJob(s, e, k);
    HappenOnJob(s, e, k);
    HappenOnCurrent(s, e, WorkflowName(k, s.jobs[k].status.attempts + 1));
  }

  lemma OtherOnStray(s: State, t: State, key: string, k: string)
    requires StoreFits(s) && Acts(s, t, key) && k != key && HasStray(t, k)
    ensures HasStray(s, k) && t.jobs[k].status == s.jobs[k].status
  {
    ActsOnOtherJobs(s, t, key, k);
    hide StoreFits, Acts, WorkflowName;
    ActsOnOthers(s, t, key, k, s.jobs[k].status.attempts + 1);
  }

  lemma OwnOnStray(s: State, t: State, k: string)
    requires StoreFits(s) && Nearby(s) && Acts(s, t, k) && HasStray(t, k)
    ensures HasStray(s, k) && t.jobs[k].status.attempts == s.jobs[k].status.attempts
  {
    hide StoreFits, Nearby, HasStray, Proceeds, Edited, CurrentWorkflow;
    if Unchanged(s, t) {
      SameOnStray(s, t, k);
    } else if Edited(s, t, k) {
      EditOnStray(s, t, k);
    } else if Removed(s, t, k) {
      RemovedHasNoStray(s, t, k);
    } else if CurrentWorkflow(s.jobs[k]) !in s.workflows {
      SubmitOnStray(s, t, k);
    } else {
      ProceedOnStray(s, t, k);
    }
  }

  lemma SameOnStray(s: State, t: State, k: string)
    requires Unchanged(s, t) && HasStray(t, k)
    ensures HasStray(s, k) && t.jobs[k].status.attempts == s.jobs[k].status.attempts
  {
    hide WorkflowName;
  }

  lemma RemovedHasNoStray(s: State, t: State, k: string)
    requires Removed(s, t, k)
    ensures !HasStray(t, k)
  {
    hide WorkflowName, WorkflowsOf;
  }

  lemma EditOnStray(s: State, t: State, k: string)
    requires k in s.jobs && Edited(s, t, k) && HasStray(t, k)
    ensures HasStray(s, k) && t.jobs[k].status.attempts == s.jobs[k].status.attempts
  {
    hide WorkflowName, GateRefuses, UsedBesides;
  }

  lemma ProceedOnStray(s: State, t: State, k: string)
    requires k in s.jobs && Eligible(s, s.jobs[k]) && Proceeds(s, t, k) && HasStray(t, k)
    requires CurrentWorkflow(s.jobs[k]) in s.workflows
    ensures HasStray(s, k) && t.jobs[k].status.attempts == s.jobs[k].status.attempts
  {
    CopyShape(s, s.jobs[k]);
    hide WorkflowName, CurrentWorkflow, Copy, Admits, ModelURI;
  }

  /** The Workflow beyond the one submitted is not there, so submitting makes nothing stray. */
  lemma SubmitOnStray(s: State, t: State, k: string)
    requires StoreFits(s) && Nearby(s) && k in s.jobs && Eligible(s, s.jobs[k]) && Proceeds(s, t, k)
    requires CurrentWorkflow(s.jobs[k]) !in s.workflows && HasStray(t, k)
    ensures HasStray(s, k) && t.jobs[k].status.attempts == s.jobs[k].status.attempts
  {
    SubmitShape(s, t, k);
    var j := s.jobs[k];
    assert j.name == k && WorkflowsOf(s, k) <= NearbyWorkflows(j);
    hide Proceeds, Eligible, WorkflowName, CurrentWorkflow, Submits, HasStray, Nearby, NearbyWorkflows;
    if j.IsWaiting() || j.status.attempts == 0 {
      OnlyTheNext(j);
      NothingBeyond(s, k, j.status.attempts);
    } else {
      AttemptsDiffer(k, j.status.attempts);
    }
    hide StoreFits, WorkflowsOf;
    StrayAfterSubmit(s, t, k);
  }

  lemma StrayAfterSubmit(s: State, t: State, k: string)
    requires k in s.jobs && Submits(s, t, k) && HasStray(t, k)
    requires var a := s.jobs[k].status.attempts;
             if s.jobs[k].IsWaiting() || a == 0
             then WorkflowName(k, a + 2) !in s.workflows && WorkflowName(k, a + 2) != WorkflowName(k, a + 1)
             else WorkflowName(k, a) != WorkflowName(k, a + 1)
    ensures HasStray(s, k) && t.jobs[k].status.attempts == s.jobs[k].status.attempts
  {
    hide WorkflowName;
  }

  ghost predicate Submits(s: State, t: State, k: string)
    requires k in s.jobs
  {
    var j := s.jobs[k]; var a := j.status.attempts; var again := !j.IsWaiting() && a != 0;
    var w := WorkflowName(k, if again then a else a + 1);
    && k in t.jobs && !j.IsTerminal() && 0 <= a
    && t.jobs[k].status.attempts == (if again then a else a + 1)
    && w in t.workflows && t.workflows == s.workflows[w := t.workflows[w]]
  }

  /** What a submission leaves, in numbers. */
  lemma SubmitShape(s: State, t: State, k: string)
    requires StoreFits(s) && k in s.jobs && Eligible(s, s.jobs[k]) && Proceeds(s, t, k)
    requires CurrentWorkflow(s.jobs[k]) !in s.workflows
    ensures Submits(s, t, k)
  {
    var j := s.jobs[k];
    assert JobFits(s, k, j);
    hide StoreFits, OutcomeFits, RecordFits, WorkflowName, Copy, Admits;
    CopyShape(s, j);
    StartedCurrent(Copy(s, j), s.now);
    if j.IsWaiting() || j.status.attempts == 0 {
      NextOfWaiting(j);
    } else {
      CountedOfRunning(j);
    }
    hide Started, CurrentWorkflow;
  }

  lemma OnlyTheNext(j: Job)
    requires j.IsWaiting() || j.status.attempts == 0
    ensures NearbyWorkflows(j) == {WorkflowName(j.name, j.status.attempts + 1)}
  {
  }

  lemma AttemptsDiffer(k: string, a: int)
    ensures WorkflowName(k, a) != WorkflowName(k, a + 1)
  {
    if WorkflowName(k, a) == WorkflowName(k, a + 1) {
      WorkflowNamesInjective(k, a, k, a + 1);
    }
  }

  lemma NothingBeyond(s: State, k: string, a: int)
    requires StoreFits(s) && k in s.jobs && WorkflowsOf(s, k) <= {WorkflowName(k, a + 1)}
    ensures WorkflowName(k, a + 2) !in s.workflows && WorkflowName(k, a + 2) != WorkflowName(k, a + 1)
  {
    hide WorkflowName, StoreFits;
    AttemptsDiffer(k, a + 1);
    var w := WorkflowName(k, a + 2);
    assert w != WorkflowName(k, a + 1);
    if w in s.workflows {
      NamedIsOwned(s, k, a + 2);
      OwnedIsListed(s, k, w);
    }
  }

  lemma OwnedIsListed(s: State, k: string, w: string)
    requires w in s.workflows && s.workflows[w].owner == k
    ensures w in WorkflowsOf(s, k)
  {
  }

  /** A step leaves no stray Workflow that was not there, under the same count. */
  lemma StepOnStray(s: State, e: AtomicEvent, k: string)
    requires Home(s) && Calm(e) && HasStray(Apply(s, e), k)
    ensures HasStray(s, k) && Apply(s, e).jobs[k].status.attempts == s.jobs[k].status.attempts
  {
    hide HasStray, Work;
    match e
    case World(ev) => HappenOnStray(s, ev, k);
    case Reconciled(key) =>
      if key in s.queue {
        WorkActs(s, key);
        hide Acts;
        if key == k {
          OwnOnStray(s, Work(s, key), k);
        } else {
          OtherOnStray(s, Work(s, key), key, k);
        }
      } else {
        WorkIdle(s, key);
      }
  }

  lemma StepStaysTame(s: State, e: AtomicEvent)
    requires Home(s) && Calm(e) && Tame(s)
    ensures Tame(Apply(s, e))
  {
    hide WorkflowName, Apply, Home;
    forall k | k in Apply(s, e).jobs
      ensures !HasStray(Apply(s, e), k)
    {
      if HasStray(Apply(s, e), k) {
        StepOnStray(s, e, k);
      }
    }
  }

  // ----- somebody can always move -----

  predicate NobodyRuns(s: State) {
    forall n :: n in s.jobs ==> !s.jobs[n].IsRunning()
  }

  /** Every single job fits into the quota. */
  predicate RequestsFit(s: State) {
    s.quota.Some? ==> forall k :: k in s.jobs ==> s.jobs[k].spec.gpus <= s.quota.value.hardGPUs
  }

  /** A reconcile of `k` now would bring it closer to its end. */
  predicate Movable(s: State, k: string) {
    && k in s.jobs
    && var j := s.jobs[k]; var stage := StageOf(s, j);
       && stage != Over
       && (|| j.deleting
           || stage in {Unclaimed, Concluded, Lost}
           || (stage in {Ready, InLine, Leftover, Adoptable} && NobodyRuns(s)))
  }

  lemma AlonePasses(s: State, j: Job)
    requires RequestsFit(s) && NobodyRuns(s) && j.name in s.jobs && s.jobs[j.name] == j
    ensures Admits(s, j)
  {
    if s.quota.Some? {
      SumZero(RunningGpus(s.jobs - {j.name}));
      GateWithoutOverflow(0, j.spec.gpus, s.quota.value.hardGPUs);
    }
  }

  lemma MarkedMoves(s: State, k: string)
    requires k in s.jobs && s.jobs[k].deleting && (s.jobs[k].finalizer || JobFits(s, k, s.jobs[k]))
    ensures Lowered(s, Reconcile(s, k).0, k)
  {
    hide Rank;
    assert s.jobs[k].finalizer;
  }

  lemma ClaimMoves(s: State, k: string)
    requires StoreFits(s) && k in s.jobs && !s.jobs[k].finalizer
    ensures Lowered(s, PutJob(s, s.jobs[k].(finalizer := true)), k)
  {
    var t := PutJob(s, s.jobs[k].(finalizer := true));
    UnclaimedHasNone(s, k);
    assert JobFits(s, k, s.jobs[k]) && s.jobs[k].name == k;
    assert Edited(s, t, k);
    hide StoreFits, CurrentWorkflow, Edited, PutJob, JobFits, Rank;
    EditNotRaised(s, t, k);
  }

  lemma WaitingMoves(s: State, k: string)
    requires StoreFits(s) && !HasStray(s, k) && RequestsFit(s) && NobodyRuns(s)
    requires k in s.jobs && s.jobs[k].IsWaiting() && s.jobs[k].finalizer && !s.jobs[k].deleting
    ensures Lowered(s, AdmitOrPark(s, s.jobs[k]).0, k)
  {
    var j := s.jobs[k];
    assert JobFits(s, k, j) && j.name == k;
    AlonePasses(s, j);
    WaitingActs(s, k);
    assert StageOf(s, j) != Live;
    hide StoreFits, AdmitOrPark, Admits, Proceeds, HasStray, Rank, StageOf, JobFits;
    ProceedingLowers(s, AdmitOrPark(s, j).0, k);
  }

  lemma RunningMoves(s: State, k: string)
    requires StoreFits(s) && !HasStray(s, k) && k in s.jobs
    requires s.jobs[k].IsRunning() && s.jobs[k].finalizer && !s.jobs[k].deleting && StageOf(s, s.jobs[k]) != Live
    ensures Lowered(s, Operator.EnsureWorkflow(s, s.jobs[k]).0, k)
  {
    assert JobFits(s, k, s.jobs[k]) && s.jobs[k].name == k && k != "";
    hide StoreFits, Operator.EnsureWorkflow, Proceeds, HasStray, Rank, StageOf, JobFits;
    EnsureProceeds(s, k);
    ProceedingLowers(s, Operator.EnsureWorkflow(s, s.jobs[k]).0, k);
  }

  /** Where a movable job goes. */
  lemma MovableCases(s: State, k: string)
    requires Movable(s, k)
    ensures k in s.jobs && !s.jobs[k].IsTerminal()
    ensures var j := s.jobs[k];
            || j.deleting || (!j.finalizer && !j.IsRunning())
            || (j.IsWaiting() && NobodyRuns(s))
            || (j.IsRunning() && StageOf(s, j) != Live)
  {
    hide CurrentWorkflow;
  }

  lemma ReconcileMoves(s: State, k: string)
    requires StoreFits(s) && Tame(s) && RequestsFit(s) && Movable(s, k)
    ensures Lowered(s, Reconcile(s, k).0, k)
  {
    MovableCases(s, k);
    var j := s.jobs[k];
    assert JobFits(s, k, j) && !HasStray(s, k);
    hide Tame, HasStray, Movable, Lowered, AdmitOrPark, Operator.EnsureWorkflow, StageOf, RequestsFit, NobodyRuns;
    if j.deleting {
      MarkedMoves(s, k);
    } else if !j.finalizer {
      ClaimMoves(s, k);
    } else if j.IsWaiting() {
      WaitingMoves(s, k);
    } else {
      RunningMoves(s, k);
    }
    hide StoreFits, JobFits, ReconcileTtl, DropLabelled;
  }

  lemma LoweredIsFramed(s: State, s': State, t: State, t': State, k: string)
    requires Lowered(s, t, k)
    requires s'.jobs == s.jobs && s'.workflows == s.workflows && t'.jobs == t.jobs && t'.workflows == t.workflows
    ensures Lowered(s', t', k)
  {
    hide CurrentWorkflow;
  }

  lemma MovableIsFramed(s: State, t: State, k: string)
    requires Movable(s, k) && t.jobs == s.jobs && t.workflows == s.workflows
    ensures Movable(t, k)
  {
    hide CurrentWorkflow;
  }

  lemma TameIsFramed(s: State, t: State)
    requires Tame(s) && t.jobs == s.jobs && t.workflows == s.workflows
    ensures Tame(t)
  {
    hide WorkflowName;
    forall k | k in t.jobs
      ensures !HasStray(t, k)
    {
      assert !HasStray(s, k);
    }
  }

  lemma WorkLowers(s: State, k: string)
    requires StoreFits(s) && Tame(s) && RequestsFit(s) && Movable(s, k) && k in s.queue
    ensures Lowered(s, Work(s, k), k)
  {
    var before := Dequeue(s, k);
    StoreSameJobs(s, before);
    TameIsFramed(s, before);
    MovableIsFramed(s, before, k);
    hide Reconcile, StoreFits, Tame, Movable, Lowered, Settle;
    ReconcileMoves(before, k);
    var (t, result) := Reconcile(before, k);
    SettleKeepsObjects(t, k, result);
    LoweredIsFramed(before, s, t, Settle(t, k, result), k);
  }

  lemma TotalNotRaised(s: State, t: State)
    requires forall n :: NotRaised(s, t, n)
    ensures Total(t) <= Total(s)
  {
    hide Rank;
    forall n | n in t.jobs
      ensures n in s.jobs && Ranks(t)[n] <= Ranks(s)[n]
    {
      assert NotRaised(s, t, n);
    }
    SumMono(Ranks(t), Ranks(s));
  }

  lemma TotalDrops(s: State, t: State, k: string)
    requires forall n :: NotRaised(s, t, n)
    requires Lowered(s, t, k) && Rank(s, s.jobs[k]) > 0
    ensures Total(t) < Total(s)
  {
    hide Rank;
    forall n | n in t.jobs
      ensures n in s.jobs && Ranks(t)[n] <= Ranks(s)[n]
    {
      assert NotRaised(s, t, n);
    }
    SumStrict(Ranks(t), Ranks(s), k);
  }

  lemma WorkMoves(s: State, k: string)
    requires Home(s) && Tame(s) && RequestsFit(s) && Movable(s, k) && k in s.queue
    ensures Lowered(s, Work(s, k), k)
    ensures Total(Work(s, k)) < Total(s)
  {
    MovableCases(s, k);
    assert JobFits(s, k, s.jobs[k]);
    RankShape(s, s.jobs[k]);
    WorkLowers(s, k);
    forall n
      ensures NotRaised(s, Work(s, k), n)
    {
      StepRaisesNothing(s, Reconciled(k), n);
      hide Work;
    }
    hide Work, StoreFits, Home, Tame, Rank, StageOf, Movable, NotRaised;
    TotalDrops(s, Work(s, k), k);
  }

  /** No deadlock: while a job is unfinished, Argo is working for one, or some job can move. */
  lemma SomebodyMoves(s: State, unfinished: string) returns (k: string)
    requires StoreFits(s) && unfinished in s.jobs && !s.jobs[unfinished].IsTerminal()
    ensures k in s.jobs && !s.jobs[k].IsTerminal()
    ensures Movable(s, k) || StageOf(s, s.jobs[k]) == Live
  {
    hide CurrentWorkflow, StoreFits;
    k := unfinished;
    if s.jobs[k].IsWaiting() && !Movable(s, k) {
      k :| k in s.jobs && s.jobs[k].IsRunning();
    }
  }
}
