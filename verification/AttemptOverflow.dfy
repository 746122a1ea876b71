/** Where the attempt counter gives way: exactly when the backoff limit is the largest int32. */
module AttemptOverflow {
  import opened Int32
  import opened Model
  import opened Naming
  import opened ClusterState
  import opened SplitWorker
  import opened SplitInvariant
  import opened SplitSafety
  import opened Atomic
  import opened QuotaOverflow
  import opened SingleJob

  /** A job that never gives up. */
  function Stubborn(): JobSpec {
    JobSpec("mnist-cnn", "mnist", map[], 0, MAX, None, "models")
  }

  /** Such a job can be made to count any number of attempts. */
  lemma {:induction false} CountUp(s: State, k: string, n: nat) returns (es: seq<AtomicEvent>)
    requires IsInitial(s) && k != "" && 1 <= n <= MAX
    ensures Runs(Exec(s, es), k, Stubborn(), n, "")
  {
    hide Exec, Runs;
    if n == 1 {
      es := Submission(k, Stubborn());
      FirstAttempt(s, k, Stubborn());
    } else {
      var before := CountUp(s, k, n - 1);
      WrapExact(n);
      es := before + RetryRound(k, n - 1);
      NextAttempt(s, before, k, Stubborn(), n - 1);
    }
  }

  /** The failing run, in which nothing fails: one attempt more than an int32 can count. */
  lemma CountOver(s: State, k: string) returns (ses: seq<SplitEvent>)
    requires IsInitial(s) && k != ""
    ensures AllGetThrough(ses) && k in Run(System(s, Idle), ses).store.jobs
    ensures Run(System(s, Idle), ses).store.jobs[k].status.attempts == MIN
  {
    hide Exec, RetryRound, WorkflowName, Run;
    assert Wrap(MAX + 1) == MIN;
    var before := CountUp(s, k, MAX);
    NextAttempt(s, before, k, Stubborn(), MAX);
    ses := AtomicRefinesSplit(s, before + RetryRound(k, MAX));
  }

  /**
   A job's attempts stay between zero and one more than its limit in every run whose limits are at
   most `limit`, whatever is interleaved, fails or is lost, iff `limit` is not the largest int32: a job
   with that limit never gives up, and its 2^31st attempt is counted as the most negative number.
   */
  lemma AttemptsStayCountedIff(s: State, limit: nat32)
    requires IsInitial(s)
    ensures (forall es, k :: LimitsWithin(es, limit) && k in Run(System(s, Idle), es).store.jobs ==>
               var j := Run(System(s, Idle), es).store.jobs[k]; 0 <= j.status.attempts <= j.spec.backoffLimit + 1)
            <==> limit < MAX
  {
    hide Run, LimitsWithin;
    if limit < MAX {
      forall es, k | LimitsWithin(es, limit) && k in Run(System(s, Idle), es).store.jobs
        ensures var j := Run(System(s, Idle), es).store.jobs[k]; 0 <= j.status.attempts <= j.spec.backoffLimit + 1
      {
        CountedAttemptsFit(s, es, limit, k);
      }
    } else {
      var es := CountOver(s, "job");
      AnyLimit(es);
    }
  }

  lemma AnyLimit(es: seq<SplitEvent>)
    ensures LimitsWithin(es, MAX)
  {
  }

  lemma CountedAttemptsFit(s: State, es: seq<SplitEvent>, limit: nat32, k: string)
    requires IsInitial(s) && LimitsWithin(es, limit) && limit < MAX && k in Run(System(s, Idle), es).store.jobs
    ensures AttemptsFit(Run(System(s, Idle), es).store.jobs[k])
  {
    assert AllCountable(es);
    hide Run;
    RunKeeps(s, es);
  }
}
