/** The ways to cut a reconcile short between creating a Workflow and recording it. */
module CutShort {
  import opened Model
  import opened WorkflowBuilder
  import opened ClusterState
  import opened Operator
  import opened SplitWorker
  import opened SplitSafety
  import opened Effects
  import opened QuotaTheorems
  import opened Interruptions
  import opened LostWrites

  /**
   The status write is refused, the reply to the creation is lost, the operator is restarted, or
   somebody deletes the job, whose status write is then refused as stale.
   */
  datatype Cut = RefusedWrite | LostReply | Restarted | Deletion

  predicate Allows(f: Faults, cut: Cut) {
    match cut
    case RefusedWrite => f.refusals
    case LostReply => f.losses
    case Restarted => f.restarts
    case Deletion => f.deletions
  }

  function SomeCut(f: Faults): (cut: Cut)
    requires f != NO_FAULTS
    ensures Allows(f, cut) && (f.CanStop() ==> cut != Deletion)
  {
    if f.refusals then RefusedWrite else if f.losses then LostReply else if f.restarts then Restarted else Deletion
  }

  /** `s` after a reconcile of `k` was cut short. */
  ghost function AfterCut(s: State, k: string, cut: Cut): State
    requires k in s.jobs
  {
    var t := AfterLoss(s, k);
    match cut
    case RefusedWrite => t
    case LostReply => t
    case Restarted => t.(queue := t.jobs.Keys, timers := map[])
    case Deletion => t.(jobs := t.jobs[k := t.jobs[k].(deleting := true)])
  }

  function CutRound(s: State, k: string, cut: Cut): seq<SplitEvent> {
    match cut
    case RefusedWrite => LostRound(s, k)
    case LostReply => LookupRound(s, k) + [Invoke(ReplyLost)]
    case Restarted => CreationRound(s, k) + [Outside(Restart)]
    case Deletion => CreationRound(s, k) + [Outside(Delete(k)), Invoke(Ok)]
  }

  /** A job deleted before its status write: the write is refused as stale. */
  lemma MarkedStep(t: State, k: string, j: Job, next: Job)
    requires k in t.jobs && t.jobs[k] == j && j.name == k && j.finalizer && !j.deleting && k in t.queue
    ensures Step(Step(System(t, Busy(k, WriteStatus(j, next, Done, true))), Outside(Delete(k))), Invoke(Ok)) ==
            System(t.(jobs := t.jobs[k := j.(deleting := true)]), Idle)
  {
    var u := t.(jobs := t.jobs[k := j.(deleting := true)]);
    assert t.queue + {k} == t.queue;
    assert DeleteJob(t, k) == u;
    assert Step(System(t, Busy(k, WriteStatus(j, next, Done, true))), Outside(Delete(k))) ==
           System(u, Busy(k, WriteStatus(j, next, Done, true)));
    hide RefreshQuota;
    assert u.queue + {k} == u.queue;
  }

  lemma DeletionRoundLeaves(s: State, k: string)
    requires CanRecheck(s, k) && s.jobs[k].name == k && Admits(s, s.jobs[k])
    requires CurrentWorkflow(AtGate(s, s.jobs[k])) !in s.workflows
    ensures Run(System(s, Idle), CutRound(s, k, Deletion)) == System(AfterCut(s, k, Deletion), Idle)
  {
    CreationRoundReaches(s, k);
    var sys := AtWrite(s, k);
    assert sys.store.jobs == s.jobs && k in sys.store.queue;
    assert AfterLoss(s, k) == sys.store by {
      assert sys.store.queue + {k} == sys.store.queue;
    }
    hide CurrentWorkflow, CurrentAttempt, WorkflowFor, PutWorkflow, Started, AfterLoss;
    MarkedStep(sys.store, k, s.jobs[k], Started(AtGate(s, s.jobs[k]), s.now));
    hide Step, Run, CreationRound, Granted, AtGate;
    RunSnoc(System(s, Idle), CreationRound(s, k), Outside(Delete(k)));
    RunSnoc(System(s, Idle), CreationRound(s, k) + [Outside(Delete(k))], Invoke(Ok));
    assert CutRound(s, k, Deletion) == CreationRound(s, k) + [Outside(Delete(k))] + [Invoke(Ok)];
  }

  lemma RestartRoundLeaves(s: State, k: string)
    requires CanRecheck(s, k) && s.jobs[k].name == k && Admits(s, s.jobs[k])
    requires CurrentWorkflow(AtGate(s, s.jobs[k])) !in s.workflows
    ensures Run(System(s, Idle), CutRound(s, k, Restarted)) == System(AfterCut(s, k, Restarted), Idle)
  {
    CreationRoundReaches(s, k);
    hide CurrentWorkflow, CurrentAttempt, WorkflowFor, Started, Run, CreationRound, Granted, AtGate;
    RunSnoc(System(s, Idle), CreationRound(s, k), Outside(Restart));
  }

  /** The Workflow is created, but the worker never learns. */
  lemma LostReplyRoundLeaves(s: State, k: string)
    requires CanRecheck(s, k) && s.jobs[k].name == k && Admits(s, s.jobs[k])
    requires CurrentWorkflow(AtGate(s, s.jobs[k])) !in s.workflows
    ensures Run(System(s, Idle), CutRound(s, k, LostReply)) == System(AfterCut(s, k, LostReply), Idle)
  {
    LookupRoundReaches(s, k);
    hide CurrentWorkflow, CurrentAttempt, WorkflowFor, Started, Run, LookupRound, Granted, AtGate;
    RunSnoc(System(s, Idle), LookupRound(s, k), Invoke(ReplyLost));
  }

  lemma CutRoundLeaves(s: State, k: string, cut: Cut)
    requires CanRecheck(s, k) && s.jobs[k].name == k && Admits(s, s.jobs[k])
    requires CurrentWorkflow(AtGate(s, s.jobs[k])) !in s.workflows
    ensures Run(System(s, Idle), CutRound(s, k, cut)) == System(AfterCut(s, k, cut), Idle)
  {
    hide CurrentWorkflow, Admits, AtGate, Run, CutRound, AfterCut;
    match cut
    case RefusedWrite => RefusedRoundLeaves(s, k);
    case LostReply => LostReplyRoundLeaves(s, k);
    case Restarted => RestartRoundLeaves(s, k);
    case Deletion => DeletionRoundLeaves(s, k);
  }

  lemma RefusedRoundLeaves(s: State, k: string)
    requires CanRecheck(s, k) && s.jobs[k].name == k && Admits(s, s.jobs[k])
    requires CurrentWorkflow(AtGate(s, s.jobs[k])) !in s.workflows
    ensures Run(System(s, Idle), CutRound(s, k, RefusedWrite)) == System(AfterCut(s, k, RefusedWrite), Idle)
  {
    hide CurrentWorkflow, Admits, AtGate, Run, LostRound, AfterLoss;
    LostRoundLeaves(s, k);
  }

  /** The Workflow is there, and the job has not counted it. */
  lemma CutShape(c: State, k: string, cut: Cut)
    requires k in c.jobs && c.jobs[k].name == k
    ensures var u := AfterCut(c, k, cut); var w := CurrentWorkflow(AtGate(c, c.jobs[k]));
            && w in u.workflows && u.workflows == c.workflows[w := u.workflows[w]]
            && u.workflows[w].owner == k && u.workflows[w].phase == ""
            && u.quota == c.quota && k in u.queue
            && k in u.jobs && u.jobs == c.jobs[k := u.jobs[k]]
            && u.jobs[k] == (if cut.Deletion? then c.jobs[k].(deleting := true) else c.jobs[k])
  {
    hide CurrentWorkflow, AfterLoss;
    LossShape(c, k);
  }

  /** Nothing happens outside but what cuts reconciles short. */
  predicate OnlyCuts(es: seq<SplitEvent>) {
    forall i :: 0 <= i < |es| && es[i].Outside? ==> es[i].e.Delete? || es[i].e.Restart?
  }

  lemma CutRoundPermitted(c: State, k: string, f: Faults, cut: Cut)
    requires Allows(f, cut)
    ensures AllPermitted(CutRound(c, k, cut), f) && OnlyCuts(CutRound(c, k, cut)) && AllCountable(CutRound(c, k, cut))
  {
    LookupRoundPlain(c, k, f);
    hide LookupRound;
  }

  lemma LookupRoundPlain(c: State, k: string, f: Faults)
    ensures AllPermitted(LookupRound(c, k), f)
    ensures forall i :: 0 <= i < |LookupRound(c, k)| ==> !LookupRound(c, k)[i].Outside?
  {
  }
}
