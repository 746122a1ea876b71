/** Infinite fair runs: the queue is served, the clock advances, and Argo finishes what it starts. */
module Fairness {
  import opened Model
  import opened Sums
  import opened Naming
  import opened ClusterState
  import opened Operator
  import opened SplitWorker
  import opened SplitInvariant
  import opened Atomic
  import opened Effects
  import opened Accounting
  import opened SplitTheorems
  import opened SplitWorkflows
  import opened QuotaTheorems
  import opened Termination

  type Schedule = nat -> AtomicEvent

  ghost function StateAt(s: State, ev: Schedule, n: nat): State {
    if n == 0 then s else Apply(StateAt(s, ev, n - 1), ev(n - 1))
  }

  /** A schedule without new jobs, quota edits and outside removals, from a state every job fits into. */
  ghost predicate CalmRun(s: State, ev: Schedule) {
    && Home(s) && RequestsFit(s)
    && forall n: nat :: Calm(ev(n))
  }

  /** Moreover, no Workflow left over from a lost write is still going beside the counted one. */
  ghost predicate TameRun(s: State, ev: Schedule) {
    CalmRun(s, ev) && Tame(s)
  }

  /** A key in the queue is reconciled sooner or later. */
  ghost predicate QueueServed(s: State, ev: Schedule) {
    forall n: nat, k :: k in StateAt(s, ev, n).queue ==> exists m: nat :: n <= m && Serves(s, ev, m, k)
  }

  ghost predicate Serves(s: State, ev: Schedule, m: nat, k: string) {
    ev(m) == Reconciled(k) && k in StateAt(s, ev, m).queue
  }

  ghost predicate ClockAdvances(s: State, ev: Schedule) {
    forall n: nat :: MovesOn(s, ev, n)
  }

  ghost predicate MovesOn(s: State, ev: Schedule, n: nat) {
    exists m: nat :: n <= m && IsLater(s, ev, n, m)
  }

  ghost predicate IsLater(s: State, ev: Schedule, n: nat, m: nat) {
    StateAt(s, ev, n).now < StateAt(s, ev, m).now
  }

  /** Every Workflow reaches a final phase, or goes with its job. */
  ghost predicate ArgoFinishes(s: State, ev: Schedule) {
    forall n: nat, w :: w in StateAt(s, ev, n).workflows ==> exists m: nat :: n <= m && Ended(StateAt(s, ev, m), w)
  }

  predicate Ended(s: State, w: string) {
    w in s.workflows ==> IsFinalPhase(s.workflows[w].phase)
  }

  ghost predicate Fair(s: State, ev: Schedule) {
    QueueServed(s, ev) && ClockAdvances(s, ev) && ArgoFinishes(s, ev)
  }

  // ----- along the run -----

  lemma ApplyKeepsRequests(s: State, e: AtomicEvent)
    requires Home(s) && RequestsFit(s) && Calm(e)
    ensures RequestsFit(Apply(s, e))
  {
    var t := Apply(s, e);
    CalmKeepsQuota(s, e);
    hide Home, Apply;
    forall k | k in t.jobs
      ensures k in s.jobs && t.jobs[k].spec == s.jobs[k].spec
    {
      StepStays(s, e, k);
    }
  }

  lemma CalmKeepsQuota(s: State, e: AtomicEvent)
    requires Calm(e)
    ensures s.quota.Some? <==> Apply(s, e).quota.Some?
    ensures s.quota.Some? ==> Apply(s, e).quota.value.hardGPUs == s.quota.value.hardGPUs
  {
    if e.Reconciled? {
      ReconcileFrame(Dequeue(s, e.key), e.key);
      hide Reconcile;
    }
  }

  lemma {:induction false} RunFits(s: State, ev: Schedule, n: nat)
    requires CalmRun(s, ev)
    ensures Home(StateAt(s, ev, n)) && RequestsFit(StateAt(s, ev, n))
  {
    if n > 0 {
      RunFits(s, ev, n - 1);
      var t, e := StateAt(s, ev, n - 1), ev(n - 1);
      assert Calm(e);
      hide Home, RequestsFit, Apply;
      ApplyKeepsRequests(t, e);
      ApplyKeepsHome(t, e);
    }
  }

  lemma {:induction false} RunStaysTame(s: State, ev: Schedule, n: nat)
    requires TameRun(s, ev)
    ensures Tame(StateAt(s, ev, n))
  {
    if n > 0 {
      RunStaysTame(s, ev, n - 1);
      RunFits(s, ev, n - 1);
      assert Calm(ev(n - 1));
      hide Home, Tame, Apply, RequestsFit;
      StepStaysTame(StateAt(s, ev, n - 1), ev(n - 1));
    }
  }

  lemma NotRaisedTransitive(s: State, t: State, u: State, k: string)
    requires NotRaised(s, t, k) && NotRaised(t, u, k)
    ensures NotRaised(s, u, k)
  {
    hide Rank;
  }

  /** Ranks only fall along a calm run. */
  lemma CalmAt(s: State, ev: Schedule, n: nat)
    requires TameRun(s, ev)
    ensures Home(StateAt(s, ev, n)) && Tame(StateAt(s, ev, n)) && Calm(ev(n))
  {
    RunFits(s, ev, n);
    RunStaysTame(s, ev, n);
    hide Home, Tame, StateAt, RequestsFit;
  }

  lemma {:induction false} RanksFall(s: State, ev: Schedule, n: nat, m: nat, k: string)
    requires TameRun(s, ev) && n <= m
    ensures NotRaised(StateAt(s, ev, n), StateAt(s, ev, m), k)
  {
    if n == m {
      hide StateAt, Rank;
    } else {
      hide Apply, NotRaised, Home, Tame, TameRun, Calm;
      RanksFall(s, ev, n, m - 1, k);
      CalmAt(s, ev, m - 1);
      StepRaisesNothing(StateAt(s, ev, m - 1), ev(m - 1), k);
      NotRaisedTransitive(StateAt(s, ev, n), StateAt(s, ev, m - 1), StateAt(s, ev, m), k);
    }
  }

  // ----- an armed timer fires -----

  /** Until it fires, an armed timer is not postponed, and the clock has not passed it unnoticed. */
  ghost predicate Ticking(s: State, k: string, due: int, since: int) {
    && k in s.jobs && k in s.timers && s.timers[k] <= due
    && (s.now == since || s.now < due)
  }

  lemma HappenTicks(s: State, e: Event, k: string, due: int, since: int)
    requires StoreFits(s) && Ticking(s, k, due, since)
    ensures k in Happen(s, e).queue || Ticking(Happen(s, e), k, due, since)
  {
    if e.Delete? {
      DeleteTicks(s, e.name, k, due, since);
    } else {
      hide StoreFits;
    }
  }

  lemma DeleteTicks(s: State, name: string, k: string, due: int, since: int)
    requires Ticking(s, k, due, since)
    ensures k in DeleteJob(s, name).queue || Ticking(DeleteJob(s, name), k, due, since)
  {
  }

  lemma SettleTicks(s: State, u: State, key: string, result: Result, k: string, due: int, since: int)
    requires Framed(s, u) && Ticking(s, k, due, since)
    ensures k in Settle(u, key, result).queue || Ticking(Settle(u, key, result), k, due, since)
  {
  }

  lemma StepTicks(s: State, e: AtomicEvent, k: string, due: int, since: int)
    requires StoreFits(s) && Ticking(s, k, due, since)
    ensures k in Apply(s, e).queue || Ticking(Apply(s, e), k, due, since)
  {
    match e
    case World(ev) => HappenTicks(s, ev, k, due, since);
    case Reconciled(key) =>
      if key in s.queue {
        var before := Dequeue(s, key);
        ReconcileFrame(before, key);
        var (u, result) := Reconcile(before, key);
        SettleTicks(before, u, key, result, k, due, since);
        hide Reconcile, StoreFits;
      }
  }

  lemma {:induction false} TicksOrFires(s: State, ev: Schedule, n: nat, m: nat, k: string, due: int, since: int)
    returns (i: nat)
    requires CalmRun(s, ev) && n <= m
    requires Ticking(StateAt(s, ev, n), k, due, since)
    ensures n <= i <= m
    ensures k in StateAt(s, ev, i).queue || (i == m && Ticking(StateAt(s, ev, m), k, due, since))
  {
    hide Ticking, Apply;
    if n == m {
      i := n;
    } else {
      i := TicksOrFires(s, ev, n, m - 1, k, due, since);
      if k !in StateAt(s, ev, i).queue {
        RunFits(s, ev, m - 1);
        hide CalmRun, StoreFits;
        StepTicks(StateAt(s, ev, m - 1), ev(m - 1), k, due, since);
        i := m;
      }
    }
  }

  lemma ClockMoves(s: State, ev: Schedule, n: nat) returns (m: nat)
    requires ClockAdvances(s, ev)
    ensures n <= m && IsLater(s, ev, n, m)
  {
    hide IsLater;
    assert MovesOn(s, ev, n);
    m :| n <= m && IsLater(s, ev, n, m);
  }

  /** Time passes any point. */
  lemma {:induction false} TimeComes(s: State, ev: Schedule, n: nat, time: int) returns (m: nat)
    requires ClockAdvances(s, ev)
    ensures n <= m && time <= StateAt(s, ev, m).now
    decreases time - StateAt(s, ev, n).now
  {
    hide StateAt;
    if time <= StateAt(s, ev, n).now {
      m := n;
    } else {
      var next := ClockMoves(s, ev, n);
      m := TimeComes(s, ev, next, time);
    }
  }

  lemma TimerFires(s: State, ev: Schedule, n: nat, k: string) returns (i: nat)
    requires CalmRun(s, ev) && ClockAdvances(s, ev)
    requires k in StateAt(s, ev, n).jobs && k in StateAt(s, ev, n).timers
    ensures n <= i && k in StateAt(s, ev, i).queue
  {
    hide StateAt, CalmRun;
    var t := StateAt(s, ev, n);
    var due := t.timers[k];
    var m := TimeComes(s, ev, n, if due <= t.now then t.now + 1 else due);
    i := TicksOrFires(s, ev, n, m, k, due, t.now);
  }

  // ----- every fair run drops to zero -----

  /** Equal totals mean equal ranks, so whoever could move still can. */
  lemma SameRank(s: State, t: State, k: string)
    requires StoreFits(s) && StoreFits(t) && (forall n :: NotRaised(s, t, n)) && Total(s) == Total(t)
    requires k in s.jobs && !s.jobs[k].IsTerminal()
    ensures k in t.jobs && StageOf(t, t.jobs[k]) == StageOf(s, s.jobs[k])
    ensures t.jobs[k].status.attempts == s.jobs[k].status.attempts
    ensures !t.jobs[k].IsTerminal()
  {
    forall n | n in t.jobs
      ensures n in s.jobs && Ranks(t)[n] <= Ranks(s)[n]
    {
      assert NotRaised(s, t, n);
    }
    SumSqueeze(Ranks(t), Ranks(s), k);
    assert JobFits(s, k, s.jobs[k]);
    RankShape(s, s.jobs[k]);
    hide StoreFits, StageOf;
    assert k in t.jobs && NotRaised(s, t, k);
    SameRankSameStage(s, t, k);
  }

  lemma SameRankSameStage(s: State, t: State, k: string)
    requires k in s.jobs && k in t.jobs && t.jobs[k].spec == s.jobs[k].spec
    requires AttemptsFit(s.jobs[k]) && AttemptsFit(t.jobs[k]) && !s.jobs[k].IsTerminal()
    requires Rank(s, s.jobs[k]) == Rank(t, t.jobs[k])
    ensures StageOf(t, t.jobs[k]) == StageOf(s, s.jobs[k])
    ensures t.jobs[k].status.attempts == s.jobs[k].status.attempts
    ensures !t.jobs[k].IsTerminal()
  {
    RankTellsStage(s, s.jobs[k], t, t.jobs[k]);
    RankShape(s, s.jobs[k]);
    RankShape(t, t.jobs[k]);
    hide StageOf, Rank;
  }

  lemma MovableStays(s: State, t: State, k: string)
    requires StoreFits(s) && StoreFits(t) && (forall n :: NotRaised(s, t, n)) && Total(s) == Total(t)
    requires Movable(s, k)
    ensures Movable(t, k)
  {
    hide StoreFits, Total, StageOf, NotRaised;
    MovableCases(s, k);
    SameRank(s, t, k);
    StillMarked(s, t, k);
    if NobodyRuns(s) {
      StillNobodyRuns(s, t);
    }
  }

  lemma StillMarked(s: State, t: State, k: string)
    requires NotRaised(s, t, k) && k in s.jobs && k in t.jobs
    ensures s.jobs[k].deleting ==> t.jobs[k].deleting
  {
    hide Rank;
  }

  lemma StillNobodyRuns(s: State, t: State)
    requires StoreFits(s) && StoreFits(t) && (forall n :: NotRaised(s, t, n)) && Total(s) == Total(t)
    requires NobodyRuns(s)
    ensures NobodyRuns(t)
  {
    hide StoreFits, Total, StageOf, Rank;
    forall n | n in t.jobs
      ensures !t.jobs[n].IsRunning()
    {
      assert NotRaised(s, t, n);
      if !s.jobs[n].IsTerminal() {
        SameRank(s, t, n);
        StagesOfRunning(s, t, n);
      } else {
        FinishedStays(s, t, n);
      }
    }
  }

  lemma StagesOfRunning(s: State, t: State, n: string)
    requires n in s.jobs && n in t.jobs && StageOf(t, t.jobs[n]) == StageOf(s, s.jobs[n])
    ensures t.jobs[n].IsRunning() <==> s.jobs[n].IsRunning()
  {
    hide CurrentWorkflow;
  }

  lemma FinishedStays(s: State, t: State, n: string)
    requires n in s.jobs && n in t.jobs && NotRaised(s, t, n) && s.jobs[n].IsTerminal()
    requires StoreFits(s) && StoreFits(t)
    ensures t.jobs[n].IsTerminal()
  {
    assert JobFits(s, n, s.jobs[n]) && JobFits(t, n, t.jobs[n]);
    RankShape(s, s.jobs[n]);
    RankShape(t, t.jobs[n]);
    hide StoreFits, StageOf, Rank;
  }

  /** A job that can move is in the queue or has a timer. */
  lemma MovableIsAwake(s: State, k: string)
    requires Inv(System(s, Idle)) && Movable(s, k)
    ensures k in s.queue || k in s.timers
  {
    assert Awake(System(s, Idle), k, s.jobs[k]);
    assert JobFits(s, k, s.jobs[k]);
    hide StoreFits, CurrentWorkflow, OutcomeFits, RecordFits;
  }

  /** Two moments of a calm run. */
  ghost predicate Downhill(t: State, u: State) {
    && Inv(System(t, Idle)) && Inv(System(u, Idle))
    && (forall x :: NotRaised(t, u, x))
    && Total(u) <= Total(t)
  }

  lemma RunGoesDownhill(s: State, ev: Schedule, n: nat, m: nat)
    requires TameRun(s, ev) && n <= m
    ensures Downhill(StateAt(s, ev, n), StateAt(s, ev, m))
  {
    RunFits(s, ev, n);
    RunFits(s, ev, m);
    forall x
      ensures NotRaised(StateAt(s, ev, n), StateAt(s, ev, m), x)
    {
      RanksFall(s, ev, n, m, x);
    }
    hide StateAt, NotRaised, Inv, Total;
    TotalNotRaised(StateAt(s, ev, n), StateAt(s, ev, m));
  }

  lemma DownhillMovable(t: State, u: State, k: string)
    requires Downhill(t, u) && Total(u) == Total(t) && Movable(t, k)
    ensures Movable(u, k)
  {
    hide StoreFits, NotRaised, Total, Movable;
    MovableStays(t, u, k);
  }

  lemma LiveIsGoing(s: State, j: Job)
    requires StageOf(s, j) == Live
    ensures CurrentWorkflow(j) in s.workflows && !IsFinalPhase(s.workflows[CurrentWorkflow(j)].phase)
    ensures j.IsRunning() && !j.IsTerminal()
  {
    hide CurrentWorkflow;
  }

  lemma DownhillLive(t: State, u: State, k: string)
    requires Downhill(t, u) && Total(u) == Total(t)
    requires k in t.jobs && StageOf(t, t.jobs[k]) == Live
    ensures var w := CurrentWorkflow(t.jobs[k]); w in u.workflows && !IsFinalPhase(u.workflows[w].phase)
  {
    LiveIsGoing(t, t.jobs[k]);
    hide StoreFits, StageOf, NotRaised, Total, AllAwake;
    SameRank(t, u, k);
    LiveIsGoing(u, u.jobs[k]);
    SameCurrent(t, u, k);
    hide CurrentWorkflow;
  }

  lemma SameCurrent(t: State, u: State, k: string)
    requires StoreFits(t) && StoreFits(u) && k in t.jobs && k in u.jobs
    requires t.jobs[k].IsRunning() && u.jobs[k].IsRunning() && t.jobs[k].status.attempts == u.jobs[k].status.attempts
    ensures CurrentWorkflow(t.jobs[k]) == CurrentWorkflow(u.jobs[k])
  {
    assert t.jobs[k].name == k && u.jobs[k].name == k;
    hide StoreFits, WorkflowName;
  }

  /** A queued or armed key is served at some later moment. */
  lemma ServedLater(s: State, ev: Schedule, n: nat, k: string) returns (m: nat)
    requires CalmRun(s, ev) && Fair(s, ev)
    requires k in StateAt(s, ev, n).jobs
    requires k in StateAt(s, ev, n).queue || k in StateAt(s, ev, n).timers
    ensures n <= m && Serves(s, ev, m, k)
  {
    hide StateAt, CalmRun, QueueServed, ArgoFinishes, ClockAdvances, Serves;
    var i := n;
    if k !in StateAt(s, ev, n).queue {
      i := TimerFires(s, ev, n, k);
    }
    m := ServeQueued(s, ev, i, k);
  }

  lemma ServeQueued(s: State, ev: Schedule, n: nat, k: string) returns (m: nat)
    requires QueueServed(s, ev) && k in StateAt(s, ev, n).queue
    ensures n <= m && Serves(s, ev, m, k)
  {
    hide StateAt, Serves;
    m :| n <= m && Serves(s, ev, m, k);
  }

  lemma WorkflowEnds(s: State, ev: Schedule, n: nat, w: string) returns (m: nat)
    requires ArgoFinishes(s, ev) && w in StateAt(s, ev, n).workflows
    ensures n <= m && Ended(StateAt(s, ev, m), w)
  {
    hide StateAt, Ended;
    m :| n <= m && Ended(StateAt(s, ev, m), w);
  }

  lemma MovableExists(t: State, k: string)
    requires Movable(t, k)
    ensures k in t.jobs
  {
  }

  /** A job that can move makes the total drop, sooner or later. */
  lemma MoverDrops(s: State, ev: Schedule, n: nat, k: string) returns (m: nat)
    requires TameRun(s, ev) && Fair(s, ev) && Movable(StateAt(s, ev, n), k)
    ensures n <= m && Total(StateAt(s, ev, m)) < Total(StateAt(s, ev, n))
  {
    hide StateAt, Inv, Nearby, Movable, Total, Apply, CalmRun, Fair, Downhill, RequestsFit, Serves;
    MovableExists(StateAt(s, ev, n), k);
    RunFits(s, ev, n);
    MovableIsAwake(StateAt(s, ev, n), k);
    m := ServedLater(s, ev, n, k);
    RunGoesDownhill(s, ev, n, m);
    TotalAlong(StateAt(s, ev, n), StateAt(s, ev, m));
    if Total(StateAt(s, ev, m)) == Total(StateAt(s, ev, n)) {
      DownhillMovable(StateAt(s, ev, n), StateAt(s, ev, m), k);
      ServingMoves(s, ev, m, k);
      m := m + 1;
    }
  }

  lemma ServingMoves(s: State, ev: Schedule, m: nat, k: string)
    requires TameRun(s, ev) && Serves(s, ev, m, k) && Movable(StateAt(s, ev, m), k)
    ensures Total(StateAt(s, ev, m + 1)) < Total(StateAt(s, ev, m))
  {
    RunFits(s, ev, m);
    RunStaysTame(s, ev, m);
    assert StateAt(s, ev, m + 1) == Work(StateAt(s, ev, m), k);
    hide Home, Tame, Movable, Total, Work, StateAt, RequestsFit, CalmRun;
    WorkMoves(StateAt(s, ev, m), k);
  }

  lemma TotalAlong(t: State, u: State)
    requires Downhill(t, u)
    ensures Total(u) <= Total(t)
  {
  }

  lemma LiveIsThere(t: State, k: string)
    requires k in t.jobs && StageOf(t, t.jobs[k]) == Live
    ensures CurrentWorkflow(t.jobs[k]) in t.workflows
  {
    hide CurrentWorkflow;
  }

  /** A Workflow under way ends sooner or later, and that makes the total drop too. */
  lemma LiveDrops(s: State, ev: Schedule, n: nat, k: string) returns (m: nat)
    requires TameRun(s, ev) && Fair(s, ev)
    requires k in StateAt(s, ev, n).jobs && StageOf(StateAt(s, ev, n), StateAt(s, ev, n).jobs[k]) == Live
    ensures n <= m && Total(StateAt(s, ev, m)) < Total(StateAt(s, ev, n))
  {
    hide StateAt, CalmRun, StageOf, CurrentWorkflow, Downhill, Total, QueueServed, ClockAdvances, ArgoFinishes;
    LiveIsThere(StateAt(s, ev, n), k);
    m := WorkflowEnds(s, ev, n, CurrentWorkflow(StateAt(s, ev, n).jobs[k]));
    RunGoesDownhill(s, ev, n, m);
    TotalAlong(StateAt(s, ev, n), StateAt(s, ev, m));
    if Total(StateAt(s, ev, m)) == Total(StateAt(s, ev, n)) {
      DownhillLive(StateAt(s, ev, n), StateAt(s, ev, m), k);
      assert false;
    }
  }

  // ----- the theorem -----

  lemma PositiveTotal(s: State) returns (unfinished: string)
    requires Total(s) > 0
    ensures unfinished in s.jobs && !s.jobs[unfinished].IsTerminal()
  {
    hide CurrentWorkflow;
    if forall k :: k in s.jobs ==> s.jobs[k].IsTerminal() {
      SumZero(Ranks(s));
      assert false;
    }
    unfinished :| unfinished in s.jobs && !s.jobs[unfinished].IsTerminal();
  }

  lemma SomethingDrops(s: State, ev: Schedule, n: nat) returns (m: nat)
    requires TameRun(s, ev) && Fair(s, ev) && Total(StateAt(s, ev, n)) > 0
    ensures n <= m && Total(StateAt(s, ev, m)) < Total(StateAt(s, ev, n))
  {
    hide StateAt, CalmRun, Fair, Total, Movable, StageOf, StoreFits;
    RunFits(s, ev, n);
    var unfinished := PositiveTotal(StateAt(s, ev, n));
    var k := SomebodyMoves(StateAt(s, ev, n), unfinished);
    if Movable(StateAt(s, ev, n), k) {
      m := MoverDrops(s, ev, n, k);
    } else {
      m := LiveDrops(s, ev, n, k);
    }
  }

  lemma {:induction false} TotalReachesZero(s: State, ev: Schedule, n: nat) returns (m: nat)
    requires TameRun(s, ev) && Fair(s, ev)
    ensures n <= m && Total(StateAt(s, ev, m)) == 0
    decreases Total(StateAt(s, ev, n))
  {
    hide StateAt, CalmRun, Fair, Total;
    if Total(StateAt(s, ev, n)) == 0 {
      m := n;
    } else {
      var next := SomethingDrops(s, ev, n);
      m := TotalReachesZero(s, ev, next);
    }
  }

  lemma ZeroTotal(s: State, k: string)
    requires StoreFits(s) && Total(s) == 0 && k in s.jobs
    ensures s.jobs[k].IsTerminal()
  {
    SumPick(Ranks(s), k);
    RankShape(s, s.jobs[k]);
    hide StageOf, Rank, StoreFits;
  }

  predicate AllFinished(s: State) {
    forall k :: k in s.jobs ==> s.jobs[k].IsTerminal()
  }

  /** The schedule as it looks from step `n` on. */
  function From(ev: Schedule, n: nat): Schedule {
    (m: nat) => ev(n + m)
  }

  lemma {:induction false} StateFrom(s: State, ev: Schedule, n: nat, m: nat)
    ensures StateAt(StateAt(s, ev, n), From(ev, n), m) == StateAt(s, ev, n + m)
  {
    hide Apply;
    if m > 0 {
      StateFrom(s, ev, n, m - 1);
    }
  }

  lemma ServedFromAt(s: State, ev: Schedule, n: nat, i: nat, k: string) returns (m: nat)
    requires QueueServed(s, ev) && k in StateAt(StateAt(s, ev, n), From(ev, n), i).queue
    ensures i <= m && Serves(StateAt(s, ev, n), From(ev, n), m, k)
  {
    hide StateAt, QueueServed;
    StateFrom(s, ev, n, i);
    var later := ServeQueued(s, ev, n + i, k);
    m := later - n;
    StateFrom(s, ev, n, m);
  }

  lemma ServedFrom(s: State, ev: Schedule, n: nat)
    requires QueueServed(s, ev)
    ensures QueueServed(StateAt(s, ev, n), From(ev, n))
  {
    hide StateAt, From, Serves;
    var t, rest := StateAt(s, ev, n), From(ev, n);
    forall i: nat, k | k in StateAt(t, rest, i).queue
      ensures exists m: nat :: i <= m && Serves(t, rest, m, k)
    {
      var m := ServedFromAt(s, ev, n, i, k);
    }
  }

  lemma ClockFrom(s: State, ev: Schedule, n: nat)
    requires ClockAdvances(s, ev)
    ensures ClockAdvances(StateAt(s, ev, n), From(ev, n))
  {
    hide StateAt, From;
    var t, rest := StateAt(s, ev, n), From(ev, n);
    forall i: nat
      ensures MovesOn(t, rest, i)
    {
      var later := ClockMoves(s, ev, n + i);
      var m: nat := later - n;
      StateFrom(s, ev, n, i);
      StateFrom(s, ev, n, m);
      assert IsLater(t, rest, i, m);
    }
    hide IsLater;
  }

  lemma ArgoFrom(s: State, ev: Schedule, n: nat)
    requires ArgoFinishes(s, ev)
    ensures ArgoFinishes(StateAt(s, ev, n), From(ev, n))
  {
    hide StateAt, From, Ended;
    var t, rest := StateAt(s, ev, n), From(ev, n);
    forall i: nat, w | w in StateAt(t, rest, i).workflows
      ensures exists m: nat :: i <= m && Ended(StateAt(t, rest, m), w)
    {
      StateFrom(s, ev, n, i);
      var m := WorkflowEnds(s, ev, n + i, w);
      StateFrom(s, ev, n, m - n);
      assert i <= m - n && Ended(StateAt(t, rest, m - n), w);
    }
  }

  lemma FairFrom(s: State, ev: Schedule, n: nat)
    requires Fair(s, ev)
    ensures Fair(StateAt(s, ev, n), From(ev, n))
  {
    hide StateAt, From, QueueServed, ClockAdvances, ArgoFinishes;
    ServedFrom(s, ev, n);
    ClockFrom(s, ev, n);
    ArgoFrom(s, ev, n);
  }

  // ----- stray Workflows end -----

  function Strays(s: State): set<string> {
    set k | k in s.jobs && HasStray(s, k)
  }

  lemma {:induction false} StraysOnlyGo(s: State, ev: Schedule, n: nat, m: nat, k: string)
    requires CalmRun(s, ev) && n <= m && HasStray(StateAt(s, ev, m), k)
    ensures HasStray(StateAt(s, ev, n), k)
    ensures StateAt(s, ev, m).jobs[k].status.attempts == StateAt(s, ev, n).jobs[k].status.attempts
  {
    hide Apply, HasStray;
    if n < m {
      RunFits(s, ev, m - 1);
      assert Calm(ev(m - 1));
      hide Home, RequestsFit;
      StepOnStray(StateAt(s, ev, m - 1), ev(m - 1), k);
      StraysOnlyGo(s, ev, n, m - 1, k);
    }
  }

  lemma StrayEnds(s: State, ev: Schedule, n: nat, k: string) returns (m: nat)
    requires CalmRun(s, ev) && ArgoFinishes(s, ev) && HasStray(StateAt(s, ev, n), k)
    ensures n <= m && !HasStray(StateAt(s, ev, m), k)
  {
    var t := StateAt(s, ev, n);
    hide StateAt, CalmRun, ArgoFinishes, WorkflowName;
    var w := WorkflowName(k, t.jobs[k].status.attempts + 1);
    m := WorkflowEnds(s, ev, n, w);
    if HasStray(StateAt(s, ev, m), k) {
      StraysOnlyGo(s, ev, n, m, k);
    }
  }

  lemma {:induction false} BecomesTame(s: State, ev: Schedule, n: nat) returns (m: nat)
    requires CalmRun(s, ev) && ArgoFinishes(s, ev)
    ensures n <= m && Tame(StateAt(s, ev, m))
    decreases |Strays(StateAt(s, ev, n))|
  {
    hide StateAt, CalmRun, ArgoFinishes, HasStray;
    if Tame(StateAt(s, ev, n)) {
      m := n;
    } else {
      var k :| k in StateAt(s, ev, n).jobs && HasStray(StateAt(s, ev, n), k);
      var next := StrayEnds(s, ev, n, k);
      FewerStrays(s, ev, n, next, k);
      m := BecomesTame(s, ev, next);
    }
  }

  lemma FewerStrays(s: State, ev: Schedule, n: nat, m: nat, k: string)
    requires CalmRun(s, ev) && n <= m
    requires k in StateAt(s, ev, n).jobs && HasStray(StateAt(s, ev, n), k) && !HasStray(StateAt(s, ev, m), k)
    ensures |Strays(StateAt(s, ev, m))| < |Strays(StateAt(s, ev, n))|
  {
    var before, after := Strays(StateAt(s, ev, n)), Strays(StateAt(s, ev, m));
    forall x | x in after
      ensures x in before - {k}
    {
      hide StateAt, CalmRun, WorkflowName;
      StraysOnlyGo(s, ev, n, m, x);
    }
    hide StateAt, CalmRun, HasStray;
    SubsetSize(after, before - {k});
  }

  lemma SubsetSize(a: set<string>, b: set<string>)
    requires a <= b
    ensures |a| <= |b|
  {
    assert b == a + (b - a);
  }

  /**
   From any store that interleaved runs can leave, whatever was lost on the way: once users stop
   creating jobs, nobody edits the quota or removes Workflows behind Argo's back, and every single job
   fits into the quota, every fair run of uninterrupted reconciles reaches a point after which all jobs
   that remain have succeeded or failed.
   */
  lemma FairRunsFinish(s: State, ev: Schedule) returns (n: nat)
    requires Reachable(System(s, Idle)) && RequestsFit(s)
    requires (forall i: nat :: Calm(ev(i))) && Fair(s, ev)
    ensures forall m: nat :: n <= m ==> AllFinished(StateAt(s, ev, m))
  {
    ReachableIsHome(s);
    assert CalmRun(s, ev);
    hide Reachable, Home, StateAt, AllFinished, CalmRun, RequestsFit, Fair, Calm;
    var start := FairIsArgo(s, ev);
    n := FinishFrom(s, ev, start);
  }

  lemma FairIsArgo(s: State, ev: Schedule) returns (start: nat)
    requires CalmRun(s, ev) && Fair(s, ev)
    ensures Tame(StateAt(s, ev, start))
  {
    hide CalmRun, QueueServed, ClockAdvances, ArgoFinishes, Tame, StateAt;
    start := BecomesTame(s, ev, 0);
  }

  lemma FinishFrom(s: State, ev: Schedule, start: nat) returns (n: nat)
    requires CalmRun(s, ev) && Fair(s, ev) && Tame(StateAt(s, ev, start))
    ensures forall m: nat :: n <= m ==> AllFinished(StateAt(s, ev, m))
  {
    hide StateAt, AllFinished, CalmRun, Fair, Tame, From;
    var t, rest := StateAt(s, ev, start), From(ev, start);
    CalmFrom(s, ev, start);
    FairFrom(s, ev, start);
    assert TameRun(t, rest);
    hide TameRun;
    var after := TotalReachesZero(t, rest, 0);
    n := start + after;
    forall m: nat | n <= m
      ensures AllFinished(StateAt(s, ev, m))
    {
      StaysFinished(t, rest, after, m - start);
      StateFrom(s, ev, start, m - start);
    }
  }

  lemma CalmFrom(s: State, ev: Schedule, n: nat)
    requires CalmRun(s, ev)
    ensures CalmRun(StateAt(s, ev, n), From(ev, n))
  {
    RunFits(s, ev, n);
    hide Home, RequestsFit, StateAt;
  }

  lemma StaysFinished(s: State, ev: Schedule, n: nat, m: nat)
    requires TameRun(s, ev) && n <= m && Total(StateAt(s, ev, n)) == 0
    ensures AllFinished(StateAt(s, ev, m))
  {
    hide StateAt, CalmRun, Total;
    RunGoesDownhill(s, ev, n, m);
    forall k | k in StateAt(s, ev, m).jobs
      ensures StateAt(s, ev, m).jobs[k].IsTerminal()
    {
      ZeroTotal(StateAt(s, ev, m), k);
    }
  }

  // ----- how many moves it can take -----

  /** Steps before `n` that brought some job closer to its end; every submission is one. */
  ghost function Moves(s: State, ev: Schedule, n: nat): nat {
    if n == 0 then 0 else
      Moves(s, ev, n - 1) + if Total(StateAt(s, ev, n)) < Total(StateAt(s, ev, n - 1)) then 1 else 0
  }

  /** Eight stages for every attempt the limit allows, and six to begin with. */
  function Budgets(s: State): map<string, nat> {
    map k | k in s.jobs :: 8 * (s.jobs[k].spec.backoffLimit + 1) + 6
  }

  lemma {:induction false} MovesPayOff(s: State, ev: Schedule, n: nat)
    requires TameRun(s, ev)
    ensures Moves(s, ev, n) + Total(StateAt(s, ev, n)) <= Total(s)
  {
    hide CalmRun, Total, Apply, Downhill;
    if n > 0 {
      MovesPayOff(s, ev, n - 1);
      hide StateAt;
      RunGoesDownhill(s, ev, n - 1, n);
      TotalAlong(StateAt(s, ev, n - 1), StateAt(s, ev, n));
    }
  }

  lemma RankWithin(s: State, j: Job)
    requires AttemptsFit(j)
    ensures Rank(s, j) <= 8 * (j.spec.backoffLimit + 1) + 6
  {
    RankShape(s, j);
    hide StageOf, Rank;
  }

  lemma WithinBudget(s: State)
    requires StoreFits(s)
    ensures Total(s) <= Sum(Budgets(s))
  {
    forall k | k in s.jobs
      ensures Ranks(s)[k] <= Budgets(s)[k]
    {
      assert JobFits(s, k, s.jobs[k]);
      hide StoreFits, Rank, OutcomeFits, RecordFits;
      RankWithin(s, s.jobs[k]);
    }
    hide StoreFits, Rank;
    SumMono(Ranks(s), Budgets(s));
  }

  lemma AttainableIsTame(s: State)
    requires Attainable(s)
    ensures Reachable(System(s, Idle)) && Tame(s)
  {
    var start: State, es: seq<AtomicEvent> :| IsAtomicRun(start, es, s);
    var ses := AtomicRefinesSplit(start, es);
    assert IsRun(start, ses, System(s, Idle));
    AttainableFits(s);
    hide Attainable, IsAtomicRun, Reachable, IsRun, Exec, Run;
    forall k | k in s.jobs
      ensures !HasStray(s, k)
    {
      ExactIsTame(s, k);
    }
  }

  lemma ExactIsTame(s: State, k: string)
    requires StoreFits(s) && Exact(s) && k in s.jobs
    ensures !HasStray(s, k)
  {
    hide WorkflowName, WorkflowsOf, HasStray;
    var j := s.jobs[k];
    assert j.name == k && ExactJob(s, k, j);
    hide Exact;
    if HasStray(s, k) {
      StrayIsListed(s, k);
      hide StoreFits;
      AttemptsDiffer(k, j.status.attempts);
    }
  }

  lemma StrayIsListed(s: State, k: string)
    requires StoreFits(s) && HasStray(s, k)
    ensures k in s.jobs && WorkflowName(k, s.jobs[k].status.attempts + 1) in WorkflowsOf(s, k)
  {
    hide WorkflowName, StoreFits;
    NamedIsOwned(s, k, s.jobs[k].status.attempts + 1);
  }

  /**
   From any store that interleaved runs can leave with no stray Workflow about (`AttainableIsTame`: any
   that uninterrupted reconciles lead to), a calm run makes no more moves than the backoff limits
   allow; and a step that is no move leaves the stage and the attempts of every unfinished job alone.
   */
  lemma MovesAreBounded(s: State, ev: Schedule, n: nat)
    requires Reachable(System(s, Idle)) && Tame(s) && RequestsFit(s) && forall i: nat :: Calm(ev(i))
    ensures Moves(s, ev, n) <= Sum(Budgets(s))
    ensures Moves(s, ev, n + 1) == Moves(s, ev, n) ==> SameStages(StateAt(s, ev, n), StateAt(s, ev, n + 1))
  {
    ReachableIsHome(s);
    assert TameRun(s, ev);
    hide Reachable, StateAt, TameRun, Total, Budgets, StoreFits, StageOf, NotRaised, SameStages, RequestsFit;
    MovesPayOff(s, ev, n);
    WithinBudget(s);
    RunGoesDownhill(s, ev, n, n + 1);
    if Moves(s, ev, n + 1) == Moves(s, ev, n) {
      QuietStep(s, ev, n);
    }
  }

  /** No unfinished job of `t` has moved in `u`. */
  ghost predicate SameStages(t: State, u: State) {
    forall k :: k in t.jobs && !t.jobs[k].IsTerminal() ==>
      && k in u.jobs && StageOf(u, u.jobs[k]) == StageOf(t, t.jobs[k])
      && u.jobs[k].status.attempts == t.jobs[k].status.attempts
  }

  lemma QuietStep(s: State, ev: Schedule, n: nat)
    requires Downhill(StateAt(s, ev, n), StateAt(s, ev, n + 1))
    requires Moves(s, ev, n + 1) == Moves(s, ev, n)
    ensures SameStages(StateAt(s, ev, n), StateAt(s, ev, n + 1))
  {
    var t, u := StateAt(s, ev, n), StateAt(s, ev, n + 1);
    hide StateAt, NotRaised, StoreFits, StageOf, Total;
    assert Total(u) == Total(t);
    forall k | k in t.jobs && !t.jobs[k].IsTerminal()
      ensures k in u.jobs && StageOf(u, u.jobs[k]) == StageOf(t, t.jobs[k])
      ensures u.jobs[k].status.attempts == t.jobs[k].status.attempts
    {
      SameRank(t, u, k);
    }
  }
}
