/** What may keep a reconcile from ending as it began. Theorems about runs say which of these they allow. */
module Interruptions {
  import opened ClusterState
  import opened SplitWorker

  datatype Faults = Faults(refusals: bool, losses: bool, restarts: bool, deletions: bool)
  {
    /** Something may stop a reconcile half way; a deletion alone lets it go on until its next write. */
    predicate CanStop() {
      refusals || losses || restarts
    }
  }

  const NO_FAULTS := Faults(false, false, false, false)

  predicate Permitted(e: SplitEvent, f: Faults) {
    && (e == Invoke(Refused) ==> f.refusals)
    && (e == Invoke(ReplyLost) ==> f.losses)
    && (e == Outside(Restart) ==> f.restarts)
    && (e.Outside? && e.e.Delete? ==> f.deletions)
  }

  predicate AllPermitted(es: seq<SplitEvent>, f: Faults) {
    forall i :: 0 <= i < |es| ==> Permitted(es[i], f)
  }

  /** Nothing cuts a reconcile short, though everything else may happen between its calls. */
  predicate AllUncut(es: seq<SplitEvent>) {
    AllPermitted(es, NO_FAULTS)
  }

  lemma PermittedAppend(xs: seq<SplitEvent>, ys: seq<SplitEvent>, f: Faults)
    requires AllPermitted(xs, f) && AllPermitted(ys, f)
    ensures AllPermitted(xs + ys, f)
  {
    hide Permitted;
  }

  lemma UncutIsPermitted(es: seq<SplitEvent>, f: Faults)
    requires AllUncut(es)
    ensures AllPermitted(es, f)
  {
  }
}
