/** A reconcile whose calls meet given fates, with nobody else acting meanwhile. */
module Driver {
  import opened Int32
  import opened Model
  import opened ClusterState
  import opened Operator
  import opened SplitWorker
  import SplitQuota
  import opened Atomic

  /** The fate of the next call; calls beyond the list get through. */
  function NextFate(fates: seq<Outcome>): Outcome {
    if fates == [] then Ok else fates[0]
  }

  function LaterFates(fates: seq<Outcome>): seq<Outcome> {
    if fates == [] then [] else fates[1..]
  }

  lemma CallsGoDown(s: State, key: string, call: Call)
    ensures var next := Perform(s, key, call).1; next.Continue? ==> CallsLeft(next.call) < CallsLeft(call)
  {
    hide CurrentWorkflow, GateRefuses, UsedBesides, RefreshQuota, Expiry;
  }

  /** From `call` on: the store left behind, how the reconcile ends, and the fates not yet met. */
  ghost function Drive(s: State, key: string, call: Call, fates: seq<Outcome>): (State, Next, seq<Outcome>)
    decreases CallsLeft(call)
  {
    CallsGoDown(s, key, call);
    var (t, next) := Perform(s, key, call);
    match NextFate(fates)
    case Ok => if next.Continue? then Drive(t, key, next.call, LaterFates(fates)) else (t, next, LaterFates(fates))
    case Refused => (s, AfterFailure(call), LaterFates(fates))
    case ReplyLost => (t, AfterFailure(call), LaterFates(fates))
  }

  /** The same from a decision on. */
  ghost function GoOn(s: State, key: string, next: Next, fates: seq<Outcome>): (State, Next, seq<Outcome>) {
    if next.Continue? then Drive(s, key, next.call, fates) else (s, next, fates)
  }

  lemma DriveStep(s: State, key: string, call: Call, fates: seq<Outcome>)
    ensures var (t, next) := Perform(s, key, call);
            Drive(s, key, call, fates) ==
              match NextFate(fates)
              case Ok => GoOn(t, key, next, LaterFates(fates))
              case Refused => (s, AfterFailure(call), LaterFates(fates))
              case ReplyLost => (t, AfterFailure(call), LaterFates(fates))
  {
    hide Perform, AfterFailure;
  }

  /** The gate's step. */
  lemma DriveGate(s: State, read: Job, hard: nat32, fates: seq<Outcome>)
    ensures var key, later := read.name, LaterFates(fates);
            Drive(s, key, ListPeers(read, hard), fates) ==
              if NextFate(fates) != Ok then (s, Abort, later)
              else if GateRefuses(UsedBesides(s.jobs, read.name), read.spec.gpus, hard)
              then Drive(s, key, WriteStatus(read, Parked(read), RequeueAfter(QUEUED_REQUEUE), true), later)
              else Drive(s, key, FetchWorkflow(read, Granted(read)), later)
  {
    DriveStep(s, read.name, ListPeers(read, hard), fates);
    hide Drive, GateRefuses, UsedBesides, Parked, Granted;
  }

  /** What becomes of call `i`. */
  function FateOf(fates: seq<Outcome>, i: nat): Outcome {
    if i < |fates| then fates[i] else Ok
  }

  /** Such a reconcile is a stretch of an interleaved run, whose calls meet the given fates in order. */
  lemma {:induction false} DriveIsRun(s: State, key: string, call: Call, fates: seq<Outcome>)
    returns (es: seq<SplitEvent>)
    ensures forall i :: 0 <= i < |es| ==> es[i] == Invoke(FateOf(fates, i))
    ensures var (t, ending, left) := Drive(s, key, call, fates);
            && !ending.Continue? && Run(System(s, Busy(key, call)), es) == Proceed(t, key, ending)
            && left == if |es| <= |fates| then fates[|es|..] else []
    decreases CallsLeft(call)
  {
    var sys := System(s, Busy(key, call));
    var (t, next) := Perform(s, key, call);
    CallsGoDown(s, key, call);
    SplitQuota.FailureContinuesNothing(call);
    RunOne(sys, Invoke(NextFate(fates)));
    hide Perform, AfterFailure, Run;
    if NextFate(fates) == Ok && next.Continue? {
      var rest := DriveIsRun(t, key, next.call, LaterFates(fates));
      es := [Invoke(Ok)] + rest;
      assert forall i :: 1 <= i < |es| ==> es[i] == rest[i - 1];
      SplitWorker.RunAppend(sys, [Invoke(Ok)], rest);
    } else {
      es := [Invoke(NextFate(fates))];
    }
  }

  /** When every call gets through, it computes the reconcile function. */
  lemma {:induction false} DriveWithoutFaults(s: State, key: string, call: Call)
    requires Undisturbed(s, key, call)
    ensures var (t, result) := Rest(s, key, call); Drive(s, key, call, []) == (t, Finish(result), [])
    decreases CallsLeft(call)
  {
    OneCall(s, key, call);
    CallsGoDown(s, key, call);
    hide Rest, Perform, Undisturbed;
    var (t, next) := Perform(s, key, call);
    if next.Continue? {
      DriveWithoutFaults(t, key, next.call);
    }
  }
}
