/** What the reconcile in hand has seen so far of an interleaved run. */
module Sightings {
  import opened Int32
  import opened Model
  import opened ClusterState
  import opened Operator
  import opened SplitWorker

  /** The gate has not been asked, has found no quota, or has compared usage with the quota it found. */
  datatype Verdict = Unasked | Unlimited | Compared(used: nat, hard: nat32)

  /** The gate's verdict, the clock and the Workflow's phase at the lookup, and the clock at a creation. */
  datatype Seen = Seen(gate: Verdict, clock: nat, found: Option<string>, created: Option<nat>)

  const NOTHING_SEEN := Seen(Unasked, 0, None, None)

  ghost function SeenOf(sys: System, es: seq<SplitEvent>): Seen {
    if es == [] then NOTHING_SEEN else
      Noticed(SeenOf(sys, es[..|es| - 1]), Run(sys, es[..|es| - 1]), es[|es| - 1])
  }

  /** One step later. */
  ghost function Noticed(v: Seen, sys: System, e: SplitEvent): Seen {
    if sys.worker.Idle? then NOTHING_SEEN
    else if !e.Invoke? then v
    else SeenByCall(v, sys.store, sys.worker.call)
  }

  ghost function SeenByCall(v: Seen, s: State, call: Call): Seen {
    match call
    case FetchQuota(_) => if s.quota.None? then v.(gate := Unlimited) else v
    case ListPeers(read, hard) => v.(gate := Compared(UsedBesides(s.jobs, read.name), hard))
    case FetchWorkflow(_, job) => v.(clock := s.now, found := PhaseOf(s, CurrentWorkflow(job)))
    case CreateWorkflow(_, _) => v.(created := Some(s.now))
    case _ => v
  }

  function PhaseOf(s: State, w: string): Option<string> {
    if w in s.workflows then Some(s.workflows[w].phase) else None
  }

  /** What a reconcile of `j` sees that nobody interrupts. */
  ghost function SeenAtOnce(s: State, j: Job): Seen {
    var gate :=
      if !j.IsWaiting() then Unasked
      else if s.quota.None? then Unlimited
      else Compared(UsedBesides(s.jobs, j.name), s.quota.value.hardGPUs);
    if RefusedBy(gate, j.spec.gpus) then Seen(gate, 0, None, None) else
      var found := PhaseOf(s, CurrentWorkflow(j));
      Seen(gate, s.now, found, if found.None? then Some(s.now) else None)
  }

  predicate RefusedBy(gate: Verdict, gpus: nat32) {
    gate.Compared? && GateRefuses(gate.used, gpus, gate.hard)
  }
}
