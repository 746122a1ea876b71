/** What one uninterrupted reconcile does in any reachable store, whatever was lost before. */
module ReconcileSteps {
  import opened Model
  import opened WorkflowBuilder
  import opened ClusterState
  import opened Operator
  import opened SplitInvariant
  import opened SplitQuota
  import opened Effects

  /** The in-memory copy a reconcile goes on with once the gate is passed. */
  function Copy(s: State, j: Job): Job {
    if j.IsWaiting() then AtGate(s, j) else j
  }

  /** An admitted or Running job meets its current Workflow: absent, going, succeeded, or failed. */
  ghost predicate Proceeds(s: State, t: State, k: string)
    requires k in s.jobs
  {
    var j := s.jobs[k]; var c := Copy(s, j); var w := CurrentWorkflow(j);
    && k in t.jobs && t.jobs == s.jobs[k := t.jobs[k]]
    && (if w !in s.workflows then
          && t.jobs[k] == Started(c, s.now)
          && w in t.workflows && t.workflows == s.workflows[w := t.workflows[w]]
          && t.workflows[w].owner == k && t.workflows[w].phase == ""
        else if !IsFinalPhase(s.workflows[w].phase) then
          && t.workflows == s.workflows
          && (t.jobs[k] == Adopted(c) || (t.jobs[k] == j && j.IsRunning()))
        else if s.workflows[w].phase == "Succeeded" then
          t.workflows == s.workflows && t.jobs[k] == Completed(c, s.now)
        else if j.status.attempts > j.spec.backoffLimit then
          t.workflows == s.workflows && t.jobs[k] == GivenUp(c, s.now)
        else
          t.workflows == s.workflows - {w} && t.jobs[k] == BackToPending(c))
  }

  /** May go on to its current Workflow. */
  ghost predicate Eligible(s: State, j: Job) {
    j.finalizer && !j.deleting && !j.IsTerminal() && (j.IsWaiting() ==> Admits(s, j))
  }

  ghost predicate Edited(s: State, t: State, k: string)
    requires k in s.jobs
  {
    && k in t.jobs && t.jobs == s.jobs[k := t.jobs[k]] && t.workflows == s.workflows
    && (Claimed(s.jobs[k], t.jobs[k]) || Marked(s, s.jobs[k], t.jobs[k]) || ParkedBy(s, s.jobs[k], t.jobs[k]))
  }

  /** Nothing, letting a marked job go, an edit of the job alone, or a step of its attempt. */
  ghost predicate Acts(s: State, t: State, k: string) {
    || Unchanged(s, t)
    || (k in s.jobs && (Removed(s, t, k) || Edited(s, t, k) || (Eligible(s, s.jobs[k]) && Proceeds(s, t, k))))
  }

  lemma CopyShape(s: State, j: Job)
    ensures var c := Copy(s, j);
            && c.name == j.name && c.spec == j.spec && c.finalizer == j.finalizer && c.deleting == j.deleting
            && c.status.phase == j.status.phase && c.status.attempts == j.status.attempts
            && CurrentAttempt(c) == CurrentAttempt(j)
  {
  }

  lemma EnsureProceeds(s: State, k: string)
    requires k in s.jobs && s.jobs[k].name == k && k != "" && !s.jobs[k].IsTerminal()
    ensures Proceeds(s, Operator.EnsureWorkflow(s, Copy(s, s.jobs[k])).0, k)
  {
    var j := s.jobs[k];
    var c, w := Copy(s, j), CurrentWorkflow(j);
    CopyShape(s, j);
    assert CurrentWorkflow(c) == w;
    hide CurrentWorkflow, CurrentAttempt, Copy, Proceeds;
    if w !in s.workflows {
      SubmitProceeds(s, k, c, w);
    } else {
      assert Operator.EnsureWorkflow(s, c) == Propagate(s, c, w);
      hide Operator.EnsureWorkflow;
      PropagateProceeds(s, k, c, w);
    }
  }

  lemma SubmitProceeds(s: State, k: string, c: Job, w: string)
    requires k in s.jobs && c == Copy(s, s.jobs[k]) && c.name == k && k != ""
    requires w == CurrentWorkflow(s.jobs[k]) == CurrentWorkflow(c) && w !in s.workflows
    ensures Proceeds(s, Operator.EnsureWorkflow(s, c).0, k)
  {
    hide CurrentWorkflow, CurrentAttempt, Copy, Operator.EnsureWorkflow, Started, Parameters;
    EnsureSubmits(s, c);
  }

  lemma Written(s: State, k: string, job: Job)
    requires k in s.jobs && job.name == k
    ensures var t := PutJob(s, job); t.jobs == s.jobs[k := job] && t.workflows == s.workflows
    ensures var t := RefreshQuota(PutJob(s, job)); t.jobs == s.jobs[k := job] && t.workflows == s.workflows
  {
    RefreshKeepsJobs(PutJob(s, job));
    hide RefreshQuota;
  }

  lemma PropagateProceeds(s: State, k: string, c: Job, w: string)
    requires k in s.jobs && c == Copy(s, s.jobs[k]) && c.name == k && w == CurrentWorkflow(s.jobs[k])
    requires w in s.workflows
    ensures Proceeds(s, Propagate(s, c, w).0, k)
  {
    CopyShape(s, s.jobs[k]);
    assert CurrentWorkflow(c) == w && (c.IsRunning() ==> c == s.jobs[k]);
    hide RefreshQuota, CurrentWorkflow, Copy, PutJob, DropWorkflow;
    Written(s, k, Adopted(c));
    Written(s, k, Completed(c, s.now));
    Written(s, k, GivenUp(c, s.now));
    RetryWritten(s, k, c, w);
    hide Adopted, Completed, GivenUp, BackToPending;
  }

  lemma RetryWritten(s: State, k: string, c: Job, w: string)
    requires k in s.jobs && c.name == k && w in s.workflows
    ensures var t := PutJob(DropWorkflow(s, w), BackToPending(c));
            t.jobs == s.jobs[k := BackToPending(c)] && t.workflows == s.workflows - {w}
  {
  }

  lemma WaitingActs(s: State, k: string)
    requires StoreFits(s) && k in s.jobs && s.jobs[k].IsWaiting() && s.jobs[k].finalizer && !s.jobs[k].deleting
    ensures var t := AdmitOrPark(s, s.jobs[k]).0;
            if Admits(s, s.jobs[k]) then Proceeds(s, t, k) else Edited(s, t, k)
  {
    var j := s.jobs[k];
    assert j.name == k && k != "";
    hide StoreFits, Operator.EnsureWorkflow, Proceeds, RefreshQuota, GateRefuses, UsedBesides, PutJob, Parked, Granted;
    if Admits(s, j) {
      EnsureProceeds(s, k);
    } else {
      Written(s, k, Parked(j)) by {
        ParkedName(j);
      }
      assert ParkedBy(s, j, Parked(j));
    }
  }

  lemma ParkedName(j: Job)
    ensures Parked(j).name == j.name
  {
  }

  lemma EditActs(s: State, k: string, job: Job)
    requires k in s.jobs && job.name == k
    requires Claimed(s.jobs[k], job) || Marked(s, s.jobs[k], job)
    ensures Acts(s, PutJob(s, job), k)
  {
    Written(s, k, job);
    hide PutJob, RefreshQuota, Proceeds, Removed, Eligible;
  }

  lemma TtlActs(s: State, k: string)
    requires k in s.jobs && s.jobs[k].name == k && s.jobs[k].IsTerminal() && s.jobs[k].finalizer
    ensures Acts(s, ReconcileTtl(s, s.jobs[k]).0, k)
  {
    var j := s.jobs[k];
    if HasTtl(j) && Expiry(j) <= s.now {
      EditActs(s, k, j.(deleting := true));
      hide Acts, PutJob;
    } else {
      hide Edited, Proceeds, Removed, Eligible;
    }
  }

  lemma ReconcileActs(s: State, k: string)
    requires StoreFits(s)
    ensures Acts(s, Reconcile(s, k).0, k)
  {
    if k in s.jobs {
      var j := s.jobs[k];
      assert JobFits(s, k, j) && j.name == k && k != "";
      hide StoreFits, JobFits, Operator.EnsureWorkflow, AdmitOrPark, ReconcileTtl, Proceeds, Removed, DropLabelled;
      hide Edited, PutJob;
      if j.deleting && j.finalizer {
        RemovalEffect(s, k);
      } else if j.deleting {
      } else if !j.finalizer {
        hide Acts;
        EditActs(s, k, j.(finalizer := true));
      } else if j.IsTerminal() {
        hide Acts;
        TtlActs(s, k);
      } else if j.IsWaiting() {
        WaitingActs(s, k);
      } else {
        EnsureProceeds(s, k);
      }
    } else {
      hide StoreFits;
    }
  }
}
