/**
 The operator as it is written: a client to mutable cluster state, and a reconciler whose methods
 change a fetched job field by field and write it back. Every method is proved against the functions
 of ClusterState and Operator.
 */
module Controller {
  import opened Int32
  import opened Model
  import opened Sums
  import opened Naming
  import opened WorkflowBuilder
  import opened ClusterState
  import opened Operator
  import opened SplitWorker
  import opened Publishing
  import opened Driver

  // ----- quota.go -----

  /** GPUs of the Running jobs of a listing, one name left out. */
  function UsedIn(items: seq<Job>, exclude: string): nat {
    if items == [] then 0 else
      var j := items[|items| - 1];
      UsedIn(items[..|items| - 1], exclude) + if j.name != exclude && j.IsRunning() then j.spec.gpus else 0
  }

  function QueuedIn(items: seq<Job>): nat {
    if items == [] then 0 else
      QueuedIn(items[..|items| - 1]) + if items[|items| - 1].status.phase == Queued then 1 else 0
  }

  method UsedGPUs(items: seq<Job>, exclude: string) returns (used: int32)
    ensures used == Wrap(UsedIn(items, exclude))
  {
    used := 0;
    WrapExact(0);
    for i := 0 to |items|
      invariant used == Wrap(UsedIn(items[..i], exclude))
    {
      var j := items[i];
      assert items[..i + 1][..i] == items[..i];
      if j.name != exclude && j.status.phase == Running {
        WrapAdd(UsedIn(items[..i], exclude), j.spec.gpus);
        used := Wrap(used + j.spec.gpus);
      }
    }
    assert items[..|items|] == items;
  }

  method CountQueued(items: seq<Job>) returns (n: int32)
    ensures n == Wrap(QueuedIn(items))
  {
    n := 0;
    WrapExact(0);
    for i := 0 to |items|
      invariant n == Wrap(QueuedIn(items[..i]))
    {
      assert items[..i + 1][..i] == items[..i];
      if items[i].status.phase == Queued {
        WrapAdd(QueuedIn(items[..i]), 1);
        n := Wrap(n + 1);
      }
    }
    assert items[..|items|] == items;
  }

  /** `items` lists every job once, in some order. */
  ghost predicate IsListing(items: seq<Job>, jobs: map<string, Job>) {
    && (forall i :: 0 <= i < |items| ==> items[i].name in jobs && jobs[items[i].name] == items[i])
    && (forall i, j :: 0 <= i < j < |items| ==> items[i].name != items[j].name)
    && (forall k :: k in jobs ==> exists i :: 0 <= i < |items| && items[i].name == k)
  }

  /** Whoever is not still to do is listed. */
  ghost predicate AllListed(jobs: map<string, Job>, items: seq<Job>, todo: set<string>) {
    forall k :: k in jobs && k !in todo ==> exists i :: 0 <= i < |items| && items[i].name == k
  }

  lemma ListedSnoc(jobs: map<string, Job>, items: seq<Job>, todo: set<string>, k: string)
    requires AllListed(jobs, items, todo) && k in jobs && jobs[k].name == k
    ensures AllListed(jobs, items + [jobs[k]], todo - {k})
  {
    var all := items + [jobs[k]];
    forall n | n in jobs && n !in todo - {k}
      ensures exists i :: 0 <= i < |all| && all[i].name == n
    {
      if n == k {
        assert all[|items|].name == n;
      } else {
        var i :| 0 <= i < |items| && items[i].name == n;
        assert all[i].name == n;
      }
    }
  }

  lemma ListingInit(items: seq<Job>, jobs: map<string, Job>)
    requires IsListing(items, jobs) && items != []
    ensures IsListing(items[..|items| - 1], jobs - {items[|items| - 1].name})
  {
    var init, gone := items[..|items| - 1], items[|items| - 1].name;
    forall k | k in jobs - {gone}
      ensures exists i :: 0 <= i < |init| && init[i].name == k
    {
      var i :| 0 <= i < |items| && items[i].name == k;
      assert init[i].name == k;
    }
  }

  /** The loop's sum does not depend on the order of the listing: it is the store's. */
  lemma {:induction false} ListingUsage(items: seq<Job>, jobs: map<string, Job>, exclude: string)
    requires IsListing(items, jobs)
    ensures UsedIn(items, exclude) == UsedBesides(jobs, exclude)
  {
    if items == [] {
      assert jobs == map[];
      SumZero(RunningGpus(jobs - {exclude}));
    } else {
      var j := items[|items| - 1];
      ListingInit(items, jobs);
      ListingUsage(items[..|items| - 1], jobs - {j.name}, exclude);
      if j.name == exclude {
        assert jobs - {j.name} - {exclude} == jobs - {exclude};
      } else {
        assert jobs - {j.name} - {exclude} == jobs - {exclude} - {j.name};
        UsedSplit(jobs - {exclude}, j.name);
      }
    }
  }

  lemma QueuedSplit(jobs: map<string, Job>, k: string)
    requires k in jobs
    ensures |QueuedJobs(jobs)| == |QueuedJobs(jobs - {k})| + if jobs[k].status.phase == Queued then 1 else 0
  {
    var rest := QueuedJobs(jobs - {k});
    assert QueuedJobs(jobs) == if jobs[k].status.phase == Queued then rest + {k} else rest;
  }

  lemma {:induction false} ListingQueued(items: seq<Job>, jobs: map<string, Job>)
    requires IsListing(items, jobs)
    ensures QueuedIn(items) == |QueuedJobs(jobs)|
  {
    if items == [] {
      assert QueuedJobs(jobs) == {};
    } else {
      var j := items[|items| - 1];
      ListingInit(items, jobs);
      ListingQueued(items[..|items| - 1], jobs - {j.name});
      hide IsListing;
      QueuedSplit(jobs, j.name);
    }
  }

  lemma {:induction false} PrefixUsage(items: seq<Job>, n: nat, exclude: string)
    requires n <= |items|
    ensures UsedIn(items[..n], exclude) <= UsedIn(items, exclude)
  {
    if n == |items| {
      assert items[..n] == items;
    } else {
      var init := items[..|items| - 1];
      assert init[..n] == items[..n];
      PrefixUsage(init, n, exclude);
    }
  }

  /**
   Within a quota that no request overflows, nothing wraps: every partial sum of the loop and the
   gate's own sum are the true ones, for any order of the listing.
   */
  lemma NothingWraps(items: seq<Job>, jobs: map<string, Job>, n: nat, exclude: string, gpus: nat32, hard: nat32)
    requires IsListing(items, jobs) && n <= |items|
    requires Used(jobs) <= hard && hard + gpus <= MAX
    ensures Wrap(UsedIn(items[..n], exclude)) == UsedIn(items[..n], exclude)
    ensures Wrap(Wrap(UsedIn(items, exclude)) + gpus) == UsedBesides(jobs, exclude) + gpus
  {
    PrefixUsage(items, n, exclude);
    ListingUsage(items, jobs, exclude);
    UsedDrop(jobs, exclude);
    WrapExact(UsedIn(items[..n], exclude));
    WrapExact(UsedIn(items, exclude));
    WrapExact(UsedIn(items, exclude) + gpus);
  }

  // ----- the API client -----

  /** Every call meets the next of the given fates: it gets through, is refused, or loses its reply. */
  class Cluster {
    const namespace: string
    const templateName: string
    var now: nat
    var jobs: map<string, Job>
    var workflows: map<string, Workflow>
    var quota: Option<Quota>
    var queue: set<string>
    var timers: map<string, int>
    var fates: seq<Outcome>

    ghost function View(): State
      reads this
    {
      State(namespace, templateName, now, jobs, workflows, quota, queue, timers)
    }

    constructor (namespace: string, templateName: string, quota: Option<Quota>, fates: seq<Outcome>)
      ensures IsInitial(View()) && View().quota == quota && this.fates == fates
      ensures View().namespace == namespace && View().templateName == templateName
    {
      this.namespace := namespace;
      this.templateName := templateName;
      this.now := 0;
      this.jobs := map[];
      this.workflows := map[];
      this.quota := quota;
      this.queue := {};
      this.timers := map[];
      this.fates := fates;
    }

    method MeetFate() returns (fate: Outcome)
      modifies this`fates
      ensures fate == NextFate(old(fates)) && fates == LaterFates(old(fates))
    {
      fate := NextFate(fates);
      fates := LaterFates(fates);
    }

    method GetJob(name: string) returns (ok: bool, job: Option<Job>)
      modifies this`fates
      ensures fates == LaterFates(old(fates)) && ok == (NextFate(old(fates)) == Ok)
      ensures job == if name in jobs then Some(jobs[name]) else None
    {
      var fate := MeetFate();
      ok := fate == Ok;
      job := if name in jobs then Some(jobs[name]) else None;
    }

    method GetQuota() returns (ok: bool, q: Option<Quota>)
      modifies this`fates
      ensures fates == LaterFates(old(fates)) && ok == (NextFate(old(fates)) == Ok)
      ensures q == quota
    {
      var fate := MeetFate();
      ok := fate == Ok;
      q := quota;
    }

    method GetWorkflow(name: string) returns (ok: bool, wf: Option<Workflow>)
      modifies this`fates
      ensures fates == LaterFates(old(fates)) && ok == (NextFate(old(fates)) == Ok)
      ensures wf == if name in workflows then Some(workflows[name]) else None
    {
      var fate := MeetFate();
      ok := fate == Ok;
      wf := if name in workflows then Some(workflows[name]) else None;
    }

    method ListJobs() returns (ok: bool, items: seq<Job>)
      requires forall k :: k in jobs ==> jobs[k].name == k
      modifies this`fates
      ensures fates == LaterFates(old(fates)) && ok == (NextFate(old(fates)) == Ok)
      ensures IsListing(items, jobs)
    {
      var fate := MeetFate();
      ok := fate == Ok;
      items := Items();
    }

    method Items() returns (items: seq<Job>)
      requires forall k :: k in jobs ==> jobs[k].name == k
      ensures IsListing(items, jobs)
    {
      items := [];
      var todo := jobs.Keys;
      while todo != {}
        invariant todo <= jobs.Keys
        invariant forall i :: 0 <= i < |items| ==>
          items[i].name in jobs && items[i].name !in todo && jobs[items[i].name] == items[i]
        invariant forall i, j :: 0 <= i < j < |items| ==> items[i].name != items[j].name
        invariant AllListed(jobs, items, todo)
        decreases |todo|
      {
        var k :| k in todo;
        ListedSnoc(jobs, items, todo, k);
        items := items + [jobs[k]];
        todo := todo - {k};
      }
    }

    /** The store part of an update; a write that changes nothing wakes nobody. */
    method Put(job: Job)
      modifies this`jobs, this`queue
      ensures View() == PutJob(old(View()), job)
    {
      if !(job.name in jobs && jobs[job.name] == job) {
        jobs := jobs[job.name := job];
        queue := queue + {job.name};
      }
    }

    /** Replace the object that was read, unless it is gone or has changed since. */
    method UpdateJob(read: Job, job: Job) returns (ok: bool)
      modifies this`jobs, this`queue, this`fates
      ensures fates == LaterFates(old(fates))
      ensures ok == (NextFate(old(fates)) == Ok && IsCurrent(old(View()), read))
      ensures View() ==
        if NextFate(old(fates)) != Refused && IsCurrent(old(View()), read)
        then PutJob(old(View()), job) else old(View())
    {
      var fate := MeetFate();
      var current := read.name in jobs && jobs[read.name] == read;
      if fate != Refused && current {
        Put(job);
      }
      ok := fate == Ok && current;
    }

    /** The status subresource: only the status of the object that was read changes. */
    method UpdateStatus(read: Job, job: Job) returns (ok: bool)
      modifies this`jobs, this`queue, this`fates
      ensures fates == LaterFates(old(fates))
      ensures ok == (NextFate(old(fates)) == Ok && IsCurrent(old(View()), read))
      ensures View() ==
        if NextFate(old(fates)) != Refused && IsCurrent(old(View()), read)
        then PutJob(old(View()), read.(status := job.status)) else old(View())
    {
      ok := UpdateJob(read, read.(status := job.status));
    }

    /** An update that takes the last finalizer off a marked object removes it. */
    method ReleaseJob(read: Job) returns (ok: bool)
      modifies this`jobs, this`queue, this`fates
      ensures fates == LaterFates(old(fates))
      ensures ok == (NextFate(old(fates)) == Ok && IsCurrent(old(View()), read))
      ensures View() ==
        if NextFate(old(fates)) != Refused && IsCurrent(old(View()), read)
        then DropJob(old(View()), read.name) else old(View())
    {
      var fate := MeetFate();
      var current := read.name in jobs && jobs[read.name] == read;
      if fate != Refused && current {
        jobs := jobs - {read.name};
        queue := queue + {read.name};
      }
      ok := fate == Ok && current;
    }

    /** A deletion of an object that is gone counts as done. */
    method RequestDeletion(name: string) returns (ok: bool)
      modifies this`jobs, this`queue, this`fates
      ensures fates == LaterFates(old(fates)) && ok == (NextFate(old(fates)) == Ok)
      ensures View() == if NextFate(old(fates)) != Refused then DeleteJob(old(View()), name) else old(View())
    {
      var fate := MeetFate();
      if fate != Refused && name in jobs {
        if jobs[name].finalizer {
          Put(jobs[name].(deleting := true));
        } else {
          jobs := jobs - {name};
          queue := queue + {name};
        }
      }
      ok := fate == Ok;
    }

    /** `alreadyExists` is only known when the reply arrives. */
    method CreateWorkflow(wf: Workflow) returns (ok: bool, alreadyExists: bool)
      modifies this`workflows, this`queue, this`fates
      ensures fates == LaterFates(old(fates)) && ok == (NextFate(old(fates)) == Ok)
      ensures alreadyExists == (wf.name in old(workflows))
      ensures View() ==
        if NextFate(old(fates)) != Refused && wf.name !in old(workflows)
        then PutWorkflow(old(View()), wf.name, wf) else old(View())
    {
      var fate := MeetFate();
      alreadyExists := wf.name in workflows;
      if fate != Refused && !alreadyExists {
        workflows := workflows[wf.name := wf];
        queue := queue + {wf.owner};
      }
      ok := fate == Ok;
    }

    method DeleteWorkflow(name: string) returns (ok: bool)
      modifies this`workflows, this`queue, this`fates
      ensures fates == LaterFates(old(fates)) && ok == (NextFate(old(fates)) == Ok)
      ensures View() == if NextFate(old(fates)) != Refused then DropWorkflow(old(View()), name) else old(View())
    {
      var fate := MeetFate();
      if fate != Refused && name in workflows {
        queue := queue + {workflows[name].owner};
        workflows := workflows - {name};
      }
      ok := fate == Ok;
    }

    method DeleteAllWorkflows(jobName: string) returns (ok: bool)
      modifies this`workflows, this`queue, this`fates
      ensures fates == LaterFates(old(fates)) && ok == (NextFate(old(fates)) == Ok)
      ensures View() == if NextFate(old(fates)) != Refused then DropLabelled(old(View()), jobName) else old(View())
    {
      var fate := MeetFate();
      if fate != Refused {
        var gone := set w | w in workflows && HasLabel(workflows[w], jobName);
        queue := queue + set w | w in gone :: workflows[w].owner;
        workflows := workflows - gone;
      }
      ok := fate == Ok;
    }

    method WriteQuota(q: Quota)
      modifies this`quota
      ensures View() == old(View()).(quota := Some(q))
    {
      quota := Some(q);
    }
  }

  // ----- trainingjob_controller.go -----

  /** Every method returns how the reconcile ends; `Abort` is an error return. */
  class TrainingJobReconciler {
    const cluster: Cluster

    constructor (cluster: Cluster)
      ensures this.cluster == cluster
    {
      this.cluster := cluster;
    }

    /** The API server stores every object under its own name. */
    ghost predicate Named()
      reads this, cluster
    {
      forall k :: k in cluster.jobs ==> cluster.jobs[k].name == k
    }

    /** The job as read is the stored one, and `job` is its in-memory copy, changed in its status only. */
    ghost predicate InHand(key: string, read: Job, job: Job)
      reads this, cluster
    {
      read.name == key && IsCurrent(cluster.View(), read) && job == read.(status := job.status)
    }

    /**
     Whatever fates the calls meet, the store, the way the reconcile ends and the fates left over are
     those of the driver; and if all calls get through, those of the reconcile function.
     */
    method Reconcile(key: string) returns (ending: Next)
      requires Named()
      modifies cluster`jobs, cluster`workflows, cluster`quota, cluster`queue, cluster`fates
      ensures (cluster.View(), ending, cluster.fates) == Drive(old(cluster.View()), key, FetchJob, old(cluster.fates))
      ensures old(cluster.fates) == [] ==>
        var (t, result) := Operator.Reconcile(old(cluster.View()), key);
        cluster.View() == t && ending == Finish(result)
    {
      ghost var s, fates := cluster.View(), cluster.fates;
      if fates == [] {
        DriveWithoutFaults(s, key, FetchJob);
      }
      DriveStep(s, key, FetchJob, fates);
      hide Drive, Operator.Reconcile, DropLabelled, AfterWorkflow;
      var ok, fetched := cluster.GetJob(key);
      if !ok {
        return Abort;
      }
      if fetched.None? {
        return Finish(Done);
      }
      var job := fetched.value;

      if job.deleting {
        if !job.finalizer {
          return Finish(Done);
        }
        ending := CleanUp(job);
        return;
      }

      if !job.finalizer {
        DriveStep(cluster.View(), key, AddFinalizer(job), cluster.fates);
        ok := cluster.UpdateJob(job, job.(finalizer := true));
        return if ok then Finish(Done) else Abort;
      }

      // A finished job waits for its time to live, and for nothing else.
      if job.IsTerminal() {
        ending := ReconcileTtl(job);
        return;
      }

      var copy := job;
      if job.status.phase == Unset || job.status.phase == Pending || job.status.phase == Queued {
        var admitted;
        admitted, ending, copy := QuotaGate(job);
        if !admitted {
          return;
        }
      }
      ending := EnsureWorkflow(job, copy);
    }

    /** Workflows first, then the finalizer that has kept the job. */
    method CleanUp(read: Job) returns (ending: Next)
      requires IsCurrent(cluster.View(), read)
      modifies cluster`jobs, cluster`workflows, cluster`queue, cluster`fates
      ensures (cluster.View(), ending, cluster.fates) ==
        Drive(old(cluster.View()), read.name, CleanWorkflows(read), old(cluster.fates))
    {
      DriveStep(cluster.View(), read.name, CleanWorkflows(read), cluster.fates);
      hide Drive, DropLabelled;
      var ok := cluster.DeleteAllWorkflows(read.name);
      if !ok {
        return Abort;
      }
      DriveStep(cluster.View(), read.name, RemoveFinalizer(read), cluster.fates);
      ok := cluster.ReleaseJob(read);
      return if ok then Finish(Done) else Abort;
    }

    /** Admit the job, with the quota condition set in its in-memory copy, or park it. */
    method QuotaGate(read: Job) returns (admitted: bool, ending: Next, job: Job)
      requires Named() && IsCurrent(cluster.View(), read)
      modifies cluster`jobs, cluster`quota, cluster`queue, cluster`fates
      ensures admitted ==>
        && cluster.View() == old(cluster.View())
        && job == (if old(cluster.quota).None? then read else
             read.(status := read.status.(conditions :=
               read.status.conditions[QuotaGranted := Condition(true, QuotaAvailable)])))
        && Drive(old(cluster.View()), read.name, FetchQuota(read), old(cluster.fates)) ==
           Drive(cluster.View(), read.name, FetchWorkflow(read, job), cluster.fates)
      ensures !admitted ==>
        (cluster.View(), ending, cluster.fates) ==
        Drive(old(cluster.View()), read.name, FetchQuota(read), old(cluster.fates))
    {
      DriveStep(cluster.View(), read.name, FetchQuota(read), cluster.fates);
      hide Drive, Granted;
      var ok, quota := cluster.GetQuota();
      if !ok {
        return false, Abort, read;
      }
      if quota.None? {
        return true, Abort, read;
      }
      admitted, ending, job := CompareUsage(read, quota.value.hardGPUs);
    }

    /** The gate's comparison against the usage of the job's peers. */
    method CompareUsage(read: Job, hard: nat32) returns (admitted: bool, ending: Next, job: Job)
      requires Named() && IsCurrent(cluster.View(), read)
      modifies cluster`jobs, cluster`quota, cluster`queue, cluster`fates
      ensures admitted ==>
        && cluster.View() == old(cluster.View())
        && job == read.(status := read.status.(conditions :=
             read.status.conditions[QuotaGranted := Condition(true, QuotaAvailable)]))
        && Drive(old(cluster.View()), read.name, ListPeers(read, hard), old(cluster.fates)) ==
           Drive(cluster.View(), read.name, FetchWorkflow(read, job), cluster.fates)
      ensures !admitted ==>
        (cluster.View(), ending, cluster.fates) ==
        Drive(old(cluster.View()), read.name, ListPeers(read, hard), old(cluster.fates))
    {
      ghost var s, fates := cluster.View(), cluster.fates;
      var ok, used := PeerUsage(read.name);
      assert cluster.View() == s && cluster.fates == LaterFates(fates);
      var refused := Wrap(used + read.spec.gpus) > hard;
      assert refused == GateRefuses(UsedBesides(s.jobs, read.name), read.spec.gpus, hard);
      hide Drive, UsedBesides, Parked, Wrap, GateRefuses;
      DriveGate(s, read, hard, fates);
      if !ok {
        return false, Abort, read;
      }
      if refused {
        ending := ParkJob(read);
        return false, ending, read;
      }
      return true, Abort, read.WithCondition(QuotaGranted, true, QuotaAvailable);
    }

    method PeerUsage(name: string) returns (ok: bool, used: int32)
      requires Named()
      modifies cluster`fates
      ensures cluster.fates == LaterFates(old(cluster.fates)) && ok == (NextFate(old(cluster.fates)) == Ok)
      ensures used == Wrap(UsedBesides(cluster.jobs, name))
    {
      var peers;
      ok, peers := cluster.ListJobs();
      used := UsedGPUs(peers, name);
      ListingUsage(peers, cluster.jobs, name);
    }

    method ParkJob(read: Job) returns (ending: Next)
      requires Named()
      modifies cluster`jobs, cluster`quota, cluster`queue, cluster`fates
      ensures (cluster.View(), ending, cluster.fates) ==
        Drive(old(cluster.View()), read.name,
              WriteStatus(read, Parked(read), RequeueAfter(QUEUED_REQUEUE), true), old(cluster.fates))
    {
      hide Drive;
      var job := read;
      job := job.(status := job.status.(phase := Queued));
      job := job.WithCondition(QuotaGranted, false, QuotaExceeded);
      assert job == Parked(read);
      ending := RecordStatus(read, job, RequeueAfter(QUEUED_REQUEUE), true);
    }

    /** Write the status; `refresh` asks for the quota status as well. */
    method RecordStatus(read: Job, job: Job, result: Result, refresh: bool) returns (ending: Next)
      requires Named()
      modifies cluster`jobs, cluster`quota, cluster`queue, cluster`fates
      ensures (cluster.View(), ending, cluster.fates) ==
        Drive(old(cluster.View()), read.name, WriteStatus(read, job, result, refresh), old(cluster.fates))
    {
      DriveStep(cluster.View(), read.name, WriteStatus(read, job, result, refresh), cluster.fates);
      hide Drive, RefreshQuota;
      var ok := cluster.UpdateStatus(read, job);
      if !ok {
        return Abort;
      }
      if refresh {
        DriveStep(cluster.View(), read.name, PublishQuota(result), cluster.fates);
        UpdateQuotaStatus();
      }
      return Finish(result);
    }

    /** Best effort: get, list and update succeed or fail as one, and nothing depends on which. */
    method UpdateQuotaStatus()
      requires Named()
      modifies cluster`quota, cluster`fates
      ensures cluster.fates == LaterFates(old(cluster.fates))
      ensures cluster.View() ==
        if NextFate(old(cluster.fates)) == Refused then old(cluster.View()) else RefreshQuota(old(cluster.View()))
      ensures NextFate(old(cluster.fates)) != Refused && old(cluster.quota).Some? && "" !in cluster.jobs ==>
        Publishes(old(cluster.quota).value, cluster.quota, cluster.jobs)
    {
      if "" !in cluster.jobs && cluster.quota.Some? {
        RefreshPublishes(cluster.View());
      }
      var fate := cluster.MeetFate();
      if fate == Refused || cluster.quota.None? {
        return;
      }
      var items := cluster.Items();
      var used := UsedGPUs(items, "");
      var queued := CountQueued(items);
      ListingUsage(items, cluster.jobs, "");
      ListingQueued(items, cluster.jobs);
      if cluster.quota.value.usedGPUs == used && cluster.quota.value.queuedJobs == queued {
        return;
      }
      cluster.WriteQuota(cluster.quota.value.(usedGPUs := used, queuedJobs := queued));
    }

    method ReconcileTtl(job: Job) returns (ending: Next)
      modifies cluster`jobs, cluster`queue, cluster`fates
      ensures (cluster.View(), ending, cluster.fates) ==
        GoOn(old(cluster.View()), job.name, AfterFinish(old(cluster.View()), job), old(cluster.fates))
    {
      hide Drive;
      if job.spec.ttlSeconds.None? || job.status.completionTime.None? {
        return Finish(Done);
      }
      var expiry := job.status.completionTime.value * SECOND + job.spec.ttlSeconds.value * SECOND;
      var remaining := expiry - cluster.now;
      if remaining > 0 {
        return Finish(RequeueAfter(remaining));
      }
      DriveStep(cluster.View(), job.name, ExpireJob(job), cluster.fates);
      var ok := cluster.RequestDeletion(job.name);
      return if ok then Finish(Done) else Abort;
    }

    /** Find or create the Workflow of the current attempt. */
    method EnsureWorkflow(read: Job, job: Job) returns (ending: Next)
      requires Named() && InHand(read.name, read, job)
      modifies cluster`jobs, cluster`workflows, cluster`quota, cluster`queue, cluster`fates
      ensures (cluster.View(), ending, cluster.fates) ==
        Drive(old(cluster.View()), read.name, FetchWorkflow(read, job), old(cluster.fates))
    {
      var attempt: int32 := job.status.attempts;
      var creating := false;
      if job.status.phase != Running {
        attempt := Wrap(attempt + 1);
        creating := true;
      }
      if attempt == 0 {
        attempt, creating := 1, true;
      }
      var name := WorkflowName(job.name, attempt);
      assert (attempt, creating) == CurrentAttempt(job);
      assert name == CurrentWorkflow(job);
      hide CurrentAttempt, CurrentWorkflow, Drive, WorkflowName, RefreshQuota, Started;
      DriveStep(cluster.View(), read.name, FetchWorkflow(read, job), cluster.fates);
      var ok, wf := cluster.GetWorkflow(name);
      if !ok {
        return Abort;
      }
      if wf.None? {
        ending := SubmitWorkflow(read, job, attempt, creating, name);
      } else {
        ending := Propagate(read, job, name);
      }
    }

    /** Create the Workflow and record it; another Workflow of that name means another look. */
    method SubmitWorkflow(read: Job, copy: Job, attempt: int32, creating: bool, name: string) returns (ending: Next)
      requires Named() && InHand(read.name, read, copy)
      requires (attempt, creating) == CurrentAttempt(copy) && name == CurrentWorkflow(copy)
      modifies cluster`jobs, cluster`workflows, cluster`quota, cluster`queue, cluster`fates
      ensures (cluster.View(), ending, cluster.fates) ==
        Drive(old(cluster.View()), read.name, SplitWorker.Call.CreateWorkflow(read, copy), old(cluster.fates))
    {
      DriveStep(cluster.View(), read.name, SplitWorker.Call.CreateWorkflow(read, copy), cluster.fates);
      hide Drive, RefreshQuota, WorkflowName, HyperList, Parameters, CurrentAttempt;
      var job := copy;
      var built := BuildWorkflow(job, attempt, cluster.templateName);
      assert built.name == name;
      hide WorkflowFor, CurrentWorkflow;
      var ok, alreadyExists := cluster.CreateWorkflow(built);
      if !ok {
        return Abort;
      }
      if alreadyExists {
        return Finish(Requeue);
      }
      job := job.(status := job.status.(phase := Running));
      if creating {
        job := job.(status := job.status.(attempts := attempt));
      }
      job := job.(status := job.status.(workflowName := name));
      if job.status.startTime.None? {
        job := job.(status := job.status.(startTime := Some(Seconds(cluster.now))));
      }
      job := job.WithCondition(WorkflowSubmitted, true, Submitted);
      assert job == Started(copy, cluster.now);
      hide Started;
      ending := RecordStatus(read, job, Done, true);
    }

    /** Carry the Workflow's phase over to the job. */
    method Propagate(read: Job, copy: Job, name: string) returns (ending: Next)
      requires Named() && InHand(read.name, read, copy)
      requires name == CurrentWorkflow(copy) && name in cluster.workflows
      modifies cluster`jobs, cluster`workflows, cluster`quota, cluster`queue, cluster`fates
      ensures (cluster.View(), ending, cluster.fates) ==
        GoOn(old(cluster.View()), read.name, AfterWorkflow(old(cluster.View()), read, copy), old(cluster.fates))
    {
      hide Drive, RefreshQuota, CurrentWorkflow, S3Path;
      var job := copy;
      var (phase, final) := MapWorkflowPhase(cluster.workflows[name].phase);
      if !final {
        if job.status.phase != phase || job.status.workflowName != name {
          job := job.(status := job.status.(phase := phase, workflowName := name));
          ending := RecordStatus(read, job, Done, false);
          return;
        }
        return Finish(Done);
      }
      if phase == Succeeded {
        job := job.(status := job.status.(
          phase := Succeeded,
          completionTime := Some(Seconds(cluster.now)),
          modelURI := ModelURI(job)));
        job := job.WithCondition(Complete, true, TrainingSucceeded);
      } else {
        if job.status.attempts <= job.spec.backoffLimit {
          ending := RetryJob(read, job, name);
          return;
        }
        job := job.(status := job.status.(phase := Failed, completionTime := Some(Seconds(cluster.now))));
        job := job.WithCondition(Complete, false, BackoffLimitExceeded);
      }
      ending := RecordStatus(read, job, Requeue, true);
    }

    /** Delete the failed Workflow and send the job back to the gate. */
    method RetryJob(read: Job, copy: Job, name: string) returns (ending: Next)
      requires Named() && InHand(read.name, read, copy) && name == CurrentWorkflow(copy)
      modifies cluster`jobs, cluster`workflows, cluster`quota, cluster`queue, cluster`fates
      ensures (cluster.View(), ending, cluster.fates) ==
        Drive(old(cluster.View()), read.name, DropFailed(read, copy), old(cluster.fates))
    {
      DriveStep(cluster.View(), read.name, DropFailed(read, copy), cluster.fates);
      hide Drive, RefreshQuota, CurrentWorkflow;
      var ok := cluster.DeleteWorkflow(name);
      if !ok {
        return Abort;
      }
      var job := copy.(status := copy.status.(phase := Pending));
      ending := RecordStatus(read, job, Requeue, false);
    }
  }
}
