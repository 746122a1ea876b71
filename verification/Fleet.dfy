/**
 The simulated GPU fleet (components/fake-dcgm-exporter/main.py): a first-fit allocator kept in
 two dictionaries that mirror each other, and the relist pass that feeds it.
 */
module FleetModel {
  import opened Model

  datatype Assignment = Assignment(uid: string, namespace: string, pod: string, container: string, since: real)

  datatype Pod = Pod(uid: string, namespace: string, name: string, container: string, phase: string, deleting: bool)
  {
    predicate IsActive() {
      phase == "Running" && !deleting
    }

    function Claim(now: real): Assignment {
      Assignment(uid, namespace, name, container, now)
    }
  }

  /** `assignments` maps GPU indices to pods; `podToGpu` maps pod uids back to indices. */
  datatype FleetState = FleetState(assignments: map<nat, Assignment>, podToGpu: map<string, nat>)

  const EMPTY := FleetState(map[], map[])

  /** The two dictionaries are inverse to each other, on indices of existing GPUs. */
  ghost predicate Consistent(s: FleetState, n: nat) {
    && (forall i :: i in s.assignments ==>
          && i < n
          && s.assignments[i].uid in s.podToGpu
          && s.podToGpu[s.assignments[i].uid] == i)
    && (forall uid :: uid in s.podToGpu ==>
          && s.podToGpu[uid] in s.assignments
          && s.assignments[s.podToGpu[uid]].uid == uid)
  }

  /** The least index from `i` on that is free, if there is one below `n`. */
  function FirstFree(taken: map<nat, Assignment>, i: nat, n: nat): (r: Option<nat>)
    requires i <= n
    ensures r.Some? ==> i <= r.value < n && r.value !in taken && forall k :: i <= k < r.value ==> k in taken
    ensures r.None? ==> forall k :: i <= k < n ==> k in taken
    decreases n - i
  {
    if i == n then None else if i !in taken then Some(i) else FirstFree(taken, i + 1, n)
  }

  function Assign(s: FleetState, n: nat, a: Assignment): FleetState {
    if a.uid in s.podToGpu then s else
      match FirstFree(s.assignments, 0, n)
      case None => s
      case Some(i) => FleetState(s.assignments[i := a], s.podToGpu[a.uid := i])
  }

  function Release(s: FleetState, uid: string): FleetState {
    if uid !in s.podToGpu then s else
      FleetState(s.assignments - {s.podToGpu[uid]}, s.podToGpu - {uid})
  }

  // ----- any history of assigns and releases -----

  datatype Op = AssignOp(a: Assignment) | ReleaseOp(uid: string)

  function Step(s: FleetState, n: nat, op: Op): FleetState {
    match op
    case AssignOp(a) => Assign(s, n, a)
    case ReleaseOp(uid) => Release(s, uid)
  }

  function Run(s: FleetState, n: nat, ops: seq<Op>): FleetState {
    if ops == [] then s else Step(Run(s, n, ops[..|ops| - 1]), n, ops[|ops| - 1])
  }

  lemma StepConsistent(s: FleetState, n: nat, op: Op)
    requires Consistent(s, n)
    ensures Consistent(Step(s, n, op), n)
  {
  }

  /** Every state a snapshot can see, after any history at all, is consistent. */
  lemma {:induction false} HistoryConsistent(s: FleetState, n: nat, ops: seq<Op>)
    requires Consistent(s, n)
    ensures Consistent(Run(s, n, ops), n)
  {
    if ops != [] {
      HistoryConsistent(s, n, ops[..|ops| - 1]);
      StepConsistent(Run(s, n, ops[..|ops| - 1]), n, ops[|ops| - 1]);
    }
  }

  lemma {:induction false} RunAppend(s: FleetState, n: nat, xs: seq<Op>, ys: seq<Op>)
    ensures Run(s, n, xs + ys) == Run(Run(s, n, xs), n, ys)
  {
    if ys == [] {
      assert xs + ys == xs;
    } else {
      var zs := xs + ys;
      assert zs[..|zs| - 1] == xs + ys[..|ys| - 1];
      RunAppend(s, n, xs, ys[..|ys| - 1]);
    }
  }

  /** An assign gives an unknown pod the least free GPU, and fails only on a full fleet. */
  lemma AssignIsFirstFit(s: FleetState, n: nat, a: Assignment)
    requires Consistent(s, n)
    ensures var t := Assign(s, n, a);
            if a.uid in s.podToGpu || |s.podToGpu| == n then t == s
            else
              && a.uid in t.podToGpu
              && var i := t.podToGpu[a.uid];
                 && i !in s.assignments
                 && (forall k :: 0 <= k < i ==> k in s.assignments)
                 && t == FleetState(s.assignments[i := a], s.podToGpu[a.uid := i])
  {
    HeldCount(s, n);
    if FirstFree(s.assignments, 0, n).None? {
      FullFleet(s, n);
    } else if |s.podToGpu| == n {
      var i := FirstFree(s.assignments, 0, n).value;
      assert s.assignments.Keys <= Indices(n) - {i};
      SubsetSize(s.assignments.Keys, Indices(n) - {i});
    }
  }

  /** A release undoes the assign that let the pod in. */
  lemma ReleaseUndoesAssign(s: FleetState, n: nat, a: Assignment)
    requires Consistent(s, n) && a.uid !in s.podToGpu
    ensures Release(Assign(s, n, a), a.uid) == s
  {
    var t := Assign(s, n, a);
    if t != s {
      var i := t.podToGpu[a.uid];
      assert t.assignments - {i} == s.assignments;
      assert t.podToGpu - {a.uid} == s.podToGpu;
    }
  }

  // ----- counting -----

  ghost function Indices(n: nat): (r: set<nat>)
    ensures |r| == n
    ensures forall i :: i in r <==> 0 <= i < n
  {
    if n == 0 then {} else Indices(n - 1) + {n - 1}
  }

  lemma {:induction false} SubsetSize<T>(a: set<T>, b: set<T>)
    requires a <= b
    ensures |a| <= |b|
    ensures |a| == |b| ==> a == b
  {
    assert b == a + (b - a);
    assert |b| == |a| + |b - a|;
  }

  /** As many GPUs are taken as pods are held, and never more than exist. */
  lemma {:induction false} HeldCount(s: FleetState, n: nat)
    requires Consistent(s, n)
    ensures |s.assignments| == |s.podToGpu| <= n
    decreases |s.podToGpu|
  {
    assert |s.assignments.Keys| == |s.assignments| && |s.podToGpu.Keys| == |s.podToGpu|;
    if s.podToGpu.Keys == {} {
      assert s.assignments.Keys == {};
    } else {
      var uid :| uid in s.podToGpu;
      var i := s.podToGpu[uid];
      var t := Release(s, uid);
      assert s.podToGpu.Keys == t.podToGpu.Keys + {uid};
      assert s.assignments.Keys == t.assignments.Keys + {i};
      HeldCount(t, n);
      assert s.assignments.Keys <= Indices(n);
      SubsetSize(s.assignments.Keys, Indices(n));
    }
  }

  lemma FullFleet(s: FleetState, n: nat)
    requires Consistent(s, n)
    requires forall k :: 0 <= k < n ==> k in s.assignments
    ensures |s.podToGpu| == n
  {
    HeldCount(s, n);
    assert s.assignments.Keys == Indices(n);
  }

  // ----- the relist pass -----

  /** The uids a listing shows as running. */
  function Listed(pods: seq<Pod>): set<string> {
    set i | 0 <= i < |pods| && pods[i].IsActive() :: pods[i].uid
  }

  /** Offer a GPU to each pod in turn; `clock` is what the clock reads at each of them. */
  function AssignAll(s: FleetState, n: nat, pods: seq<Pod>, clock: nat -> real): FleetState {
    if pods == [] then s else
      var t := AssignAll(s, n, pods[..|pods| - 1], clock);
      var p := pods[|pods| - 1];
      if p.IsActive() then Assign(t, n, p.Claim(clock(|pods| - 1))) else t
  }

  /** What is left after releasing every held pod outside `keep`. */
  function Retain(s: FleetState, keep: set<string>): FleetState {
    FleetState(
      map i | i in s.assignments && s.assignments[i].uid in keep :: s.assignments[i],
      map uid | uid in s.podToGpu && uid in keep :: s.podToGpu[uid])
  }

  /** One relist: first every listed pod is offered a GPU, then pods no longer listed let go. */
  function Relist(s: FleetState, n: nat, pods: seq<Pod>, clock: nat -> real): FleetState {
    Retain(AssignAll(s, n, pods, clock), Listed(pods))
  }

  lemma RetainKeys(s: FleetState, keep: set<string>)
    ensures |Retain(s, keep).podToGpu| == |s.podToGpu.Keys * keep|
  {
    assert Retain(s, keep).podToGpu.Keys == s.podToGpu.Keys * keep;
  }

  lemma RetainConsistent(s: FleetState, n: nat, keep: set<string>)
    requires Consistent(s, n)
    ensures Consistent(Retain(s, keep), n)
  {
  }

  /** Nobody who held a GPU in `s` lost or changed it in `t`. */
  ghost predicate Keeps(s: FleetState, t: FleetState) {
    && (forall uid :: uid in s.podToGpu ==> uid in t.podToGpu && t.podToGpu[uid] == s.podToGpu[uid])
    && (forall i :: i in s.assignments ==> i in t.assignments && t.assignments[i] == s.assignments[i])
  }

  /** `t` serves `want`, or as much of it as a full fleet can. */
  ghost predicate Serves(t: FleetState, n: nat, want: set<string>) {
    && t.podToGpu.Keys <= want
    && (t.podToGpu.Keys == want || |t.podToGpu| == n)
  }

  /** The assigning half keeps every held pod in place and takes in pods until the fleet is full. */
  lemma {:induction false} AssignAllFills(s: FleetState, n: nat, pods: seq<Pod>, clock: nat -> real)
    requires Consistent(s, n)
    ensures var t := AssignAll(s, n, pods, clock);
            && Consistent(t, n)
            && Keeps(s, t)
            && Serves(t, n, s.podToGpu.Keys + Listed(pods))
  {
    if pods == [] {
      assert s.podToGpu.Keys + Listed(pods) == s.podToGpu.Keys;
    } else {
      var rest, p := pods[..|pods| - 1], pods[|pods| - 1];
      AssignAllFills(s, n, rest, clock);
      ListedSnoc(rest, p);
      assert pods == rest + [p];
      var t := AssignAll(s, n, rest, clock);
      if p.IsActive() {
        AssignServes(t, n, p.Claim(clock(|rest|)), s.podToGpu.Keys + Listed(rest));
        KeepsTransitive(s, t, Assign(t, n, p.Claim(clock(|rest|))));
        assert s.podToGpu.Keys + Listed(rest) + {p.uid} == s.podToGpu.Keys + Listed(pods);
      } else {
        assert Listed(pods) == Listed(rest);
      }
    }
  }

  lemma KeepsTransitive(s: FleetState, t: FleetState, u: FleetState)
    requires Keeps(s, t) && Keeps(t, u)
    ensures Keeps(s, u)
  {
  }

  lemma AssignServes(s: FleetState, n: nat, a: Assignment, want: set<string>)
    requires Consistent(s, n) && Serves(s, n, want)
    ensures var t := Assign(s, n, a); Consistent(t, n) && Keeps(s, t) && Serves(t, n, want + {a.uid})
  {
    AssignIsFirstFit(s, n, a);
    StepConsistent(s, n, AssignOp(a));
    var t := Assign(s, n, a);
    if a.uid in s.podToGpu {
      assert want + {a.uid} == want;
    } else if |s.podToGpu| != n {
      assert t.podToGpu.Keys == s.podToGpu.Keys + {a.uid};
    }
  }

  lemma ListedSnoc(pods: seq<Pod>, p: Pod)
    ensures Listed(pods + [p]) == Listed(pods) + (if p.IsActive() then {p.uid} else {})
  {
    var all := pods + [p];
    forall uid | uid in Listed(pods)
      ensures uid in Listed(all)
    {
      var i :| 0 <= i < |pods| && pods[i].IsActive() && pods[i].uid == uid;
      assert all[i] == pods[i];
    }
    if p.IsActive() {
      assert all[|pods|] == p;
      assert p.uid in Listed(all);
    }
  }

  /** After a relist only listed pods hold GPUs, and a pod held throughout keeps its GPU. */
  lemma RelistStable(s: FleetState, n: nat, pods: seq<Pod>, clock: nat -> real)
    requires Consistent(s, n)
    ensures var t := Relist(s, n, pods, clock);
            && Consistent(t, n)
            && t.podToGpu.Keys <= Listed(pods)
            && forall uid :: uid in s.podToGpu && uid in Listed(pods) ==>
                 && uid in t.podToGpu && t.podToGpu[uid] == s.podToGpu[uid]
                 && t.assignments[t.podToGpu[uid]] == s.assignments[s.podToGpu[uid]]
  {
    AssignAllFills(s, n, pods, clock);
    RetainConsistent(AssignAll(s, n, pods, clock), n, Listed(pods));
  }

  /** The listing's entry `i` shows `uid` running and not on its way out. */
  predicate ShowsRunning(pods: seq<Pod>, i: int, uid: string) {
    0 <= i < |pods| && pods[i].uid == uid && pods[i].phase == "Running" && !pods[i].deleting
  }

  /** A pod the assigning half lets in is listed as running, and recorded as that entry shows it. */
  lemma {:induction false} NewcomersAreRecorded(s: FleetState, n: nat, pods: seq<Pod>, clock: nat -> real, uid: string)
    returns (i: nat)
    requires Consistent(s, n) && uid !in s.podToGpu && uid in AssignAll(s, n, pods, clock).podToGpu
    ensures ShowsRunning(pods, i, uid)
    ensures var t := AssignAll(s, n, pods, clock); var p := pods[i];
            && t.podToGpu[uid] in t.assignments
            && t.assignments[t.podToGpu[uid]] == Assignment(uid, p.namespace, p.name, p.container, clock(i))
  {
    var rest, p := pods[..|pods| - 1], pods[|pods| - 1];
    var t := AssignAll(s, n, rest, clock);
    AssignAllFills(s, n, rest, clock);
    AssignIsFirstFit(t, n, p.Claim(clock(|rest|)));
    if uid in t.podToGpu {
      i := NewcomersAreRecorded(s, n, rest, clock, uid);
    } else {
      i := |rest|;
    }
  }

  /**
   What a listing does: whoever holds a GPU afterwards is listed as running and not on its way out; a
   newcomer's record is what its entry shows, with the clock at that entry; and every listed running pod
   holds a GPU unless the fleet was full at the end of the assigning half.
   */
  lemma RelistOutcome(s: FleetState, n: nat, pods: seq<Pod>, clock: nat -> real, uid: string)
    requires Consistent(s, n)
    ensures var t := Relist(s, n, pods, clock);
            && (uid in t.podToGpu ==> exists i :: ShowsRunning(pods, i, uid))
            && (uid in t.podToGpu && uid !in s.podToGpu ==>
                  exists i: nat :: ShowsRunning(pods, i, uid) && t.podToGpu[uid] in t.assignments
                    && t.assignments[t.podToGpu[uid]] ==
                       Assignment(uid, pods[i].namespace, pods[i].name, pods[i].container, clock(i)))
            && ((exists i :: ShowsRunning(pods, i, uid)) ==>
                  uid in t.podToGpu || (uid !in s.podToGpu && |AssignAll(s, n, pods, clock).podToGpu| == n))
  {
    var t, full := Relist(s, n, pods, clock), AssignAll(s, n, pods, clock);
    AssignAllFills(s, n, pods, clock);
    assert uid in Listed(pods) <==> exists i :: ShowsRunning(pods, i, uid) by {
      ListedMeans(pods, uid);
    }
    if uid in t.podToGpu && uid !in s.podToGpu {
      var i := NewcomersAreRecorded(s, n, pods, clock, uid);
      assert ShowsRunning(pods, i, uid);
    }
  }

  lemma ListedMeans(pods: seq<Pod>, uid: string)
    ensures uid in Listed(pods) <==> exists i :: ShowsRunning(pods, i, uid)
  {
    if uid in Listed(pods) {
      var i :| 0 <= i < |pods| && pods[i].IsActive() && pods[i].uid == uid;
      assert ShowsRunning(pods, i, uid);
    }
    if i :| ShowsRunning(pods, i, uid) {
      assert pods[i].IsActive();
    }
  }

  function Min(a: int, b: int): int {
    if a <= b then a else b
  }

  /** How many pods hold a GPU after one relist. */
  lemma RelistCount(s: FleetState, n: nat, pods: seq<Pod>, clock: nat -> real)
    requires Consistent(s, n)
    ensures var seen, held := Listed(pods), s.podToGpu.Keys;
            |Relist(s, n, pods, clock).podToGpu| == |held * seen| + Min(|seen - held|, n - |held|)
  {
    var seen, held := Listed(pods), s.podToGpu.Keys;
    AssignAllFills(s, n, pods, clock);
    var t := AssignAll(s, n, pods, clock);
    HeldCount(t, n);
    CountNewcomers(held, seen, t.podToGpu.Keys, n);
    RetainKeys(t, seen);
    assert held + seen >= held;
  }

  lemma CountNewcomers(held: set<string>, seen: set<string>, now: set<string>, n: nat)
    requires held <= now <= held + seen
    requires now == held + seen || |now| == n
    requires |now| <= n
    ensures |now * seen| == |held * seen| + Min(|seen - held|, n - |held|)
  {
    var newcomers := now - held;
    assert now == held + newcomers;
    assert now * seen == (held * seen) + newcomers;
    SubsetSize(newcomers, seen - held);
    if now == held + seen {
      assert newcomers == seen - held;
    }
  }

  /**
   One pass leaves as many pods served as can be served iff nothing had to let go first, or there
   was room for every newcomer all along. Otherwise GPUs freed by the pass stay idle until the next.
   */
  lemma OnePassSufficesIff(s: FleetState, n: nat, pods: seq<Pod>, clock: nat -> real)
    requires Consistent(s, n)
    ensures var seen, held := Listed(pods), s.podToGpu.Keys;
            |Relist(s, n, pods, clock).podToGpu| == Min(|seen|, n)
            <==> held <= seen || |seen - held| <= n - |held|
  {
    RelistCount(s, n, pods, clock);
    HeldCount(s, n);
    CountOverlap(s.podToGpu.Keys, Listed(pods));
  }

  lemma CountOverlap(held: set<string>, seen: set<string>)
    ensures |seen| == |seen - held| + |held * seen|
    ensures |held * seen| <= |held|
    ensures held <= seen <==> |held * seen| == |held|
  {
    assert seen == (seen - held) + (held * seen);
    SubsetSize(held * seen, held);
    assert held <= seen ==> held * seen == held;
  }

  /** A second relist of the same pods reaches the best possible state and a third changes nothing. */
  lemma RelistConverges(s: FleetState, n: nat, pods: seq<Pod>, t1: nat -> real, t2: nat -> real, t3: nat -> real)
    requires Consistent(s, n)
    ensures var second := Relist(Relist(s, n, pods, t1), n, pods, t2);
            && |second.podToGpu| == Min(|Listed(pods)|, n)
            && Relist(second, n, pods, t3) == second
  {
    var first := Relist(s, n, pods, t1);
    RelistStable(s, n, pods, t1);
    OnePassSufficesIff(first, n, pods, t2);
    var second := Relist(first, n, pods, t2);
    RelistStable(first, n, pods, t2);
    if |Listed(pods)| <= n {
      SubsetSize(second.podToGpu.Keys, Listed(pods));
    }
    NothingLeftToAssign(second, n, pods, t3);
    RetainAll(second, n, Listed(pods));
  }

  lemma {:induction false} NothingLeftToAssign(s: FleetState, n: nat, pods: seq<Pod>, clock: nat -> real)
    requires Consistent(s, n)
    requires |s.podToGpu| == n || Listed(pods) <= s.podToGpu.Keys
    ensures AssignAll(s, n, pods, clock) == s
  {
    if pods != [] {
      var rest, p := pods[..|pods| - 1], pods[|pods| - 1];
      ListedSnoc(rest, p);
      assert pods == rest + [p];
      NothingLeftToAssign(s, n, rest, clock);
      AssignIsFirstFit(s, n, p.Claim(clock(|rest|)));
    }
  }

  /** The assigning half of a relist is made of single assigns. */
  lemma {:induction false} AssignAllIsHistory(s: FleetState, n: nat, pods: seq<Pod>, clock: nat -> real)
    returns (ops: seq<Op>)
    ensures AssignAll(s, n, pods, clock) == Run(s, n, ops)
  {
    if pods == [] {
      ops := [];
    } else {
      var rest, p := pods[..|pods| - 1], pods[|pods| - 1];
      var init := AssignAllIsHistory(s, n, rest, clock);
      ops := if p.IsActive() then init + [AssignOp(p.Claim(clock(|rest|)))] else init;
      assert p.IsActive() ==> ops[..|ops| - 1] == init;
    }
  }

  // ----- the watch loop -----

  datatype Observation = Listing(pods: seq<Pod>, clock: nat -> real) | Event(deleted: bool, pod: Pod, now: real)

  /** A finished or deleted pod lets go, a running one is offered a GPU, any other is ignored. */
  function Handle(s: FleetState, n: nat, deleted: bool, p: Pod, now: real): FleetState {
    if deleted || p.phase in {"Succeeded", "Failed"} then Release(s, p.uid)
    else if p.IsActive() then Assign(s, n, p.Claim(now))
    else s
  }

  /** Nobody but `uid` gained, lost or changed anything. */
  ghost predicate OnlyTouches(s: FleetState, t: FleetState, uid: string) {
    forall u :: u != uid ==>
      && (u in t.podToGpu <==> u in s.podToGpu)
      && (u in s.podToGpu ==> t.podToGpu[u] == s.podToGpu[u])
      && (u in s.podToGpu && s.podToGpu[u] in s.assignments ==>
            t.podToGpu[u] in t.assignments && t.assignments[t.podToGpu[u]] == s.assignments[s.podToGpu[u]])
  }

  /**
   What one event does, by the pod's phase: a deleted, succeeded or failed pod holds nothing afterwards;
   a running one that is not on its way out holds a GPU, under its own record if it held none before,
   unless the fleet is full; any other event changes nothing. Nobody else is touched.
   */
  lemma EventOutcome(s: FleetState, n: nat, deleted: bool, p: Pod, now: real)
    requires Consistent(s, n)
    ensures var t := Handle(s, n, deleted, p, now);
            && OnlyTouches(s, t, p.uid)
            && if deleted || p.phase == "Succeeded" || p.phase == "Failed" then p.uid !in t.podToGpu
               else if p.phase == "Running" && !p.deleting && p.uid !in s.podToGpu && |s.podToGpu| < n then
                 && p.uid in t.podToGpu && t.podToGpu[p.uid] in t.assignments
                 && t.assignments[t.podToGpu[p.uid]] == Assignment(p.uid, p.namespace, p.name, p.container, now)
               else t == s
  {
    HeldCount(s, n);
    AssignIsFirstFit(s, n, Assignment(p.uid, p.namespace, p.name, p.container, now));
  }

  function Observe(s: FleetState, n: nat, o: Observation): FleetState {
    match o
    case Listing(pods, clock) => Relist(s, n, pods, clock)
    case Event(deleted, pod, now) => Handle(s, n, deleted, pod, now)
  }

  ghost function Watch(s: FleetState, n: nat, seen: seq<Observation>): FleetState {
    if seen == [] then s else Observe(Watch(s, n, seen[..|seen| - 1]), n, seen[|seen| - 1])
  }

  lemma {:induction false} RetainIsHistory(s: FleetState, n: nat, keep: set<string>) returns (ops: seq<Op>)
    requires Consistent(s, n)
    ensures Retain(s, keep) == Run(s, n, ops)
    decreases |s.podToGpu.Keys - keep|
  {
    if s.podToGpu.Keys <= keep {
      ops := [];
      RetainAll(s, n, keep);
    } else {
      var uid :| uid in s.podToGpu && uid !in keep;
      ops := RetainIsHistory(s, n, keep + {uid}) by {
        assert s.podToGpu.Keys - (keep + {uid}) == (s.podToGpu.Keys - keep) - {uid};
      }
      ReleaseStep(s, n, keep, uid);
      var more := ops + [ReleaseOp(uid)];
      assert more[..|ops|] == ops;
      ops := more;
    }
  }

  lemma ObservationIsHistory(s: FleetState, n: nat, o: Observation) returns (ops: seq<Op>)
    requires Consistent(s, n)
    ensures Observe(s, n, o) == Run(s, n, ops)
  {
    match o
    case Listing(pods, clock) =>
      var assigns := AssignAllIsHistory(s, n, pods, clock);
      HistoryConsistent(s, n, assigns);
      var releases := RetainIsHistory(AssignAll(s, n, pods, clock), n, Listed(pods));
      ops := assigns + releases;
      RunAppend(s, n, assigns, releases);
    case Event(deleted, pod, now) =>
      if deleted || pod.phase in {"Succeeded", "Failed"} {
        ops := [ReleaseOp(pod.uid)];
      } else if pod.IsActive() {
        ops := [AssignOp(pod.Claim(now))];
      } else {
        ops := [];
      }
      assert ops != [] ==> ops[..0] == [];
  }

  /**
   Any mix of listings and events is a sequence of single assigns and releases, after each of which
   the two dictionaries mirror each other and no more GPUs are taken than exist: that is what a
   snapshot taken at any moment sees.
   */
  lemma {:induction false} SnapshotsAreConsistent(n: nat, seen: seq<Observation>) returns (ops: seq<Op>)
    ensures Watch(EMPTY, n, seen) == Run(EMPTY, n, ops)
    ensures forall i :: 0 <= i <= |ops| ==>
              Consistent(Run(EMPTY, n, ops[..i]), n) && |Run(EMPTY, n, ops[..i]).assignments| <= n
  {
    if seen == [] {
      ops := [];
    } else {
      var before := SnapshotsAreConsistent(n, seen[..|seen| - 1]);
      HistoryConsistent(EMPTY, n, before);
      var after := ObservationIsHistory(Run(EMPTY, n, before), n, seen[|seen| - 1]);
      ops := before + after;
      RunAppend(EMPTY, n, before, after);
    }
    forall i | 0 <= i <= |ops|
      ensures Consistent(Run(EMPTY, n, ops[..i]), n) && |Run(EMPTY, n, ops[..i]).assignments| <= n
    {
      HistoryConsistent(EMPTY, n, ops[..i]);
      HeldCount(Run(EMPTY, n, ops[..i]), n);
    }
  }

  // ----- the class -----

  class Fleet {
    const gpuCount: nat
    var assignments: map<nat, Assignment>
    var podToGpu: map<string, nat>

    ghost function View(): FleetState
      reads this
    {
      FleetState(assignments, podToGpu)
    }

    ghost predicate Valid()
      reads this
    {
      Consistent(View(), gpuCount)
    }

    constructor (gpuCount: nat)
      ensures Valid() && View() == EMPTY && this.gpuCount == gpuCount
    {
      this.gpuCount := gpuCount;
      assignments := map[];
      podToGpu := map[];
    }

    method AssignGpu(uid: string, namespace: string, pod: string, container: string, now: real)
      requires Valid()
      modifies this
      ensures Valid()
      ensures View() == Assign(old(View()), gpuCount, Assignment(uid, namespace, pod, container, now))
    {
      ghost var claim := Assignment(uid, namespace, pod, container, now);
      StepConsistent(View(), gpuCount, AssignOp(claim));
      if uid in podToGpu {
        return;
      }
      var i := 0;
      while i < gpuCount
        invariant 0 <= i <= gpuCount
        invariant View() == old(View())
        invariant FirstFree(assignments, 0, gpuCount) == FirstFree(assignments, i, gpuCount)
      {
        if i !in assignments {
          assignments := assignments[i := Assignment(uid, namespace, pod, container, now)];
          podToGpu := podToGpu[uid := i];
          return;
        }
        i := i + 1;
      }
    }

    method ReleaseGpu(uid: string)
      requires Valid()
      modifies this
      ensures Valid()
      ensures View() == Release(old(View()), uid)
    {
      StepConsistent(View(), gpuCount, ReleaseOp(uid));
      if uid in podToGpu {
        var i := podToGpu[uid];
        podToGpu := podToGpu - {uid};
        assignments := assignments - {i};
      }
    }

    method Snapshot() returns (held: map<nat, Assignment>)
      requires Valid()
      ensures held == View().assignments
    {
      held := assignments;
    }

    /** The relist half of the watch loop: offer a GPU to every listed pod, then drop the others. */
    method RelistPods(pods: seq<Pod>, clock: nat -> real)
      requires Valid()
      modifies this
      ensures Valid()
      ensures View() == Relist(old(View()), gpuCount, pods, clock)
    {
      var seen := AssignListed(pods, clock);
      ReleaseUnlisted(seen);
    }

    method AssignListed(pods: seq<Pod>, clock: nat -> real) returns (seen: set<string>)
      requires Valid()
      modifies this
      ensures Valid()
      ensures seen == Listed(pods)
      ensures View() == AssignAll(old(View()), gpuCount, pods, clock)
    {
      seen := {};
      for k := 0 to |pods|
        invariant Valid()
        invariant seen == Listed(pods[..k])
        invariant View() == AssignAll(old(View()), gpuCount, pods[..k], clock)
      {
        var p := pods[k];
        ListedSnoc(pods[..k], p);
        assert pods[..k + 1] == pods[..k] + [p];
        assert pods[..k + 1][..k] == pods[..k];
        if p.phase == "Running" && !p.deleting {
          seen := seen + {p.uid};
          AssignGpu(p.uid, p.namespace, p.name, p.container, clock(k));
        }
      }
      assert pods[..|pods|] == pods;
    }

    method ReleaseUnlisted(seen: set<string>)
      requires Valid()
      modifies this
      ensures Valid()
      ensures View() == Retain(old(View()), seen)
    {
      ghost var full := View();
      var todo := podToGpu.Keys;
      RetainAll(full, gpuCount, seen + todo);
      while todo != {}
        invariant Valid()
        invariant todo <= full.podToGpu.Keys
        invariant View() == Retain(full, seen + todo)
        decreases |todo|
      {
        hide Consistent, Retain, Release;
        var uid :| uid in todo;
        DropOne(full, gpuCount, seen, todo, uid);
        if uid !in seen {
          ReleaseGpu(uid);
        }
        todo := todo - {uid};
      }
      assert seen + todo == seen;
    }

    /** One event of the watch stream. */
    method HandleEvent(deleted: bool, p: Pod, now: real)
      requires Valid()
      modifies this
      ensures Valid()
      ensures View() == Handle(old(View()), gpuCount, deleted, p, now)
    {
      if deleted || p.phase == "Succeeded" || p.phase == "Failed" {
        ReleaseGpu(p.uid);
      } else if p.phase == "Running" && !p.deleting {
        AssignGpu(p.uid, p.namespace, p.name, p.container, now);
      }
    }
  }

  /** One turn of the releasing loop. */
  lemma DropOne(s: FleetState, n: nat, seen: set<string>, todo: set<string>, uid: string)
    requires Consistent(s, n) && todo <= s.podToGpu.Keys && uid in todo
    ensures Retain(s, seen + (todo - {uid})) ==
            if uid in seen then Retain(s, seen + todo) else Release(Retain(s, seen + todo), uid)
  {
    var rest := seen + (todo - {uid});
    if uid in seen {
      assert seen + todo == rest;
    } else {
      assert seen + todo == rest + {uid};
      ReleaseStep(s, n, rest, uid);
    }
    hide Consistent, Retain, Release;
  }

  lemma RetainAll(s: FleetState, n: nat, keep: set<string>)
    requires Consistent(s, n) && s.podToGpu.Keys <= keep
    ensures Retain(s, keep) == s
  {
    assert Retain(s, keep).podToGpu == s.podToGpu;
    assert Retain(s, keep).assignments == s.assignments;
  }

  lemma ReleaseStep(s: FleetState, n: nat, keep: set<string>, uid: string)
    requires Consistent(s, n)
    requires uid in s.podToGpu && uid !in keep
    ensures Release(Retain(s, keep + {uid}), uid) == Retain(s, keep)
  {
    var t := Retain(s, keep + {uid});
    assert t.podToGpu[uid] == s.podToGpu[uid];
    assert t.podToGpu - {uid} == Retain(s, keep).podToGpu;
    assert t.assignments - {s.podToGpu[uid]} == Retain(s, keep).assignments;
  }
}
