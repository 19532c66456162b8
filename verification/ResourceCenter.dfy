/** The ResourceCenter object of res_management.py. Its methods update the lists, the flags, the VMs and the
    resources in place; each is proved to take the step that Lifecycle.dfy and Loading.dfy describe. */
module Controller {
  import opened Outcomes
  import opened Sequences
  import opened Strings
  import opened CloudTools
  import opened Priorities
  import opened Lifecycle
  import opened LifecycleInvariant
  import opened NodeLaws
  import opened JobScheduler
  import opened Planning
  import opened LoopTraces
  import opened Loading
  import opened JobQuery
  import opened CollectLaws
  import LoadLaws
  import LifecycleLaws
  import RunLaws

  /** A VM that the cloud starts. */
  datatype NewVm = NewVm(hostname: string, vcpus: int)

  /** What the pollers and the administrator ask for, with the answers of the cloud, Torque and Maui. */
  datatype Input =
    | PollJobs(query: Query, nodes: NodeReports, places: nat -> Option<string>, zone: Option<string> -> Option<string>)
    | PollStarting(starts: StartReports, answers: nat -> Option<NewVm>)
    | PollDeleting(ends: VM -> CleanupReport, answers: nat -> Option<NewVm>)
    | AskKill(name: string, force: bool)
    | AskForceOff(accepted: VM -> bool)
    | AskSleep

  /** Jobs and priorities come ordered by job number. */
  ghost predicate Answerable(i: Input) {
    i.PollJobs? ==> Sorted(i.query.idle, JobId) && Sorted(i.query.priorities, EntryId)
  }

  /** The answers of qstat, Maui and pbsnodes as the controller reads them; a failed or empty qstat lists no jobs.
      They come ordered, so they are answerable. */
  method ReadAnswers(jobsUp: bool, raw: Option<seq<RawJob>>, monitored: seq<string>, limit: int, mauiUp: bool,
                     parsed: seq<Entry>, nodesUp: bool, nodes: seq<WorkerNode>, reports: NodeReports,
                     places: nat -> Option<string>, zone: Option<string> -> Option<string>)
    returns (input: Input, total: nat, running: seq<RawJob>)
    ensures input.PollJobs? && Answerable(input)
    ensures var q := input.query;
            && IsReading(if jobsUp then raw else Some([]), monitored, limit, total, q.idle, running)
            && q.running == |running| && multiset(q.priorities) == multiset(parsed)
            && q.jobsUp == jobsUp && q.mauiUp == mauiUp && q.nodesUp == nodesUp && q.nodes == nodes
  {
    var jobs;
    total, jobs, running := QstatToJobList(if jobsUp then raw else Some([]), monitored, limit);
    var entries := GetJobPriorities(parsed);
    input := PollJobs(Query(jobsUp, jobs, |running|, mauiUp, entries, nodesUp, nodes), reports, places, zone);
  }

  /** The state before loading: the VMs of the cloud are the existing ones. */
  ghost function Unloaded(cloud: CloudResources, vms: seq<VM>): State
    reads cloud, vms
  {
    State(vms, [], [], [], false, false, map v | v in vms :: v.info, cloud.available, cloud.statics, [], [], 0, [])
  }

  class ResourceCenter {
    const cfg: Config
    const cloud: CloudResources
    var existing: seq<VM>
    var starting: seq<VM>
    var deleting: seq<VM>
    var waiting: seq<ProvisionVM>
    var provisioning: bool
    var sleeping: bool
    var workerNodes: seq<WorkerNode>
    var idle: seq<Job>
    var running: nat
    /** The records of all VMs there have been, and the log of destroy requests. */
    ghost var records: map<VM, Info>
    ghost var destroyed: seq<VM>

    /** Starts with the VMs of the cloud and loads what Torque and the configuration say about them. */
    constructor (cfg: Config, cloud: CloudResources, vms: seq<VM>, rep: LoadReport, answers: nat -> Option<NewVm>)
      requires ConfigOk(cfg) && NoDup(cfg.order)
      requires cloud.quota == cfg.quota && cloud.available.Keys == cfg.quota.Keys
      requires LoadLaws.Fresh(cfg, Unloaded(cloud, vms))
      modifies cloud, vms
      ensures this.cfg == cfg && this.cloud == cloud && Valid()
      ensures exists started: seq<VM> :: Abs() == Load(cfg, old(Unloaded(cloud, vms)), rep, started)
      ensures StaticTotals(cfg, Abs()) == old(StaticTotals(cfg, Unloaded(cloud, vms)))
    {
      this.cfg, this.cloud := cfg, cloud;
      existing, starting, deleting, waiting := vms, [], [], [];
      provisioning, sleeping, workerNodes, idle, running := false, false, [], [], 0;
      records, destroyed := map v | v in vms :: v.info, [];
      new;
      assert Abs() == old(Unloaded(cloud, vms));
      var started := LoadExistingWorkerNodes(rep, answers);
    }

    ghost function Abs(): State
      reads this, cloud
    {
      State(existing, starting, deleting, waiting, provisioning, sleeping, records, cloud.available, cloud.statics,
            workerNodes, idle, running, destroyed)
    }

    /** The ghost record of each VM says what its fields hold. */
    ghost predicate Recorded()
      reads this`records, records.Keys
    {
      forall v | v in records :: v.info == records[v]
    }

    ghost predicate Shape()
      reads this`records, records.Keys, cloud`available
    {
      && ConfigOk(cfg) && cloud.quota == cfg.quota && cloud.available.Keys == cfg.quota.Keys
      && Recorded()
    }

    /** The VMs in service or on their way out are on record. */
    ghost predicate Listed()
      reads this
    {
      (forall v | v in existing :: v in records) && (forall v | v in deleting :: v in records)
    }

    ghost predicate Valid()
      reads this, records.Keys, cloud
    {
      Shape() && Inv(cfg, Abs())
    }

    // ----- the cloud -----

    method VmDestroy(v: VM, accepted: bool)
      requires Recorded() && v in records
      modifies this`destroyed, this`records, v
      ensures Recorded() && Abs() == Destroy(old(Abs()), v, accepted)
      ensures records.Keys == old(records.Keys)
    {
      destroyed := destroyed + [v];
      if accepted {
        v.info := v.info.(deleteIssued := true);
      }
      records := records[v := v.info];
    }

    method VmCheck(v: VM, code: CloudCode, status: string)
      requires Recorded() && v in records
      modifies this`records, v
      ensures Recorded() && records == old(records)[v := Checked(cfg, old(records[v]), code, status)]
    {
      if code != Gone {
        v.info := v.info.(state := Some(status));
        if code.Active? || code.Configuring? {
          v.info := v.info.(zone := Some(cfg.defaultZone));
        }
      }
      records := records[v := v.info];
    }

    // ----- update_available_cores -----

    method CountUsed(vms: seq<VM>, r: string) returns (n: nat)
      requires Recorded() && forall v | v in vms :: v in records
      ensures n == Used(vms, records, r)
    {
      n := 0;
      for k := 0 to |vms|
        invariant n == Used(vms[..k], records, r)
      {
        assert vms[..k + 1][..k] == vms[..k];
        if vms[k].info.dynamic && vms[k].resource == r {
          n := n + 1;
        }
      }
      assert vms[..|vms|] == vms;
    }

    method UpdateAvailableCores()
      requires Shape() && Listed()
      modifies cloud`available
      ensures Shape() && Abs() == UpdateAvailable(cfg, old(Abs()))
    {
      ghost var st := Abs();
      for k := 0 to |cfg.order|
        invariant cloud.available.Keys == cfg.quota.Keys
        invariant forall i :: 0 <= i < k ==> cloud.available[cfg.order[i]] == FreeNodes(cfg, st, cfg.order[i])
      {
        var r := cfg.order[k];
        assert r in cfg.order;
        var e := CountUsed(existing, r);
        var d := CountUsed(deleting, r);
        cloud.available := cloud.available[r := cloud.quota[r] - (e + d)];
      }
      AllCounted(cfg, st, cloud.available);
    }

    // ----- update_provision_status -----

    /** An active VM joins Torque; if it does not appear there or in Maui, it is given up. */
    method JoinCluster(v: VM, added: bool, visible: bool, nodes: seq<WorkerNode>) returns (fate: StartFate)
      requires Recorded() && v in records
      modifies this`records, this`workerNodes, v
      ensures Recorded() && records == old(records)[v := old(records[v]).(cloudReady := true)]
      ensures workerNodes == if added && visible then nodes else old(workerNodes)
      ensures fate == if added && visible then StillStarting else ToDelete
    {
      v.info := v.info.(cloudReady := true);
      records := records[v := v.info];
      fate := ToDelete;
      if added && visible {
        workerNodes := nodes;
        fate := StillStarting;
      }
    }

    /** What the pass does with a starting VM that is not yet ready in the cloud. */
    method InspectNew(v: VM, reps: StartReports) returns (fate: StartFate)
      requires Recorded() && v in records && !v.info.cloudReady
      modifies this`records, this`workerNodes, v
      ensures Recorded() && records == old(records)[v := StartInfo(cfg, old(records[v]), reps.of(v))]
      ensures workerNodes == if Joins(old(records[v]), reps.of(v)) then reps.nodes else old(workerNodes)
      ensures fate == StartFateOf(cfg, old(records[v]), reps.of(v))
    {
      var r := reps.of(v);
      VmCheck(v, r.code, r.status);
      match r.code
      case Active => fate := JoinCluster(v, r.added, r.visible, reps.nodes);
      case Configuring => fate := if r.late then ToDelete else StillStarting;
      case Building => fate := if r.late then ToDelete else StillStarting;
      case Gone => fate := ToDelete;
      case Failed => fate := ToDelete;
    }

    /** What it does with one that is. */
    method InspectReady(v: VM, r: StartReport) returns (fate: StartFate)
      requires Recorded() && v in records && v.info.cloudReady
      ensures fate == StartFateOf(cfg, records[v], r)
    {
      if r.torque.None? {
        return StillStarting;
      }
      var s := r.torque.value;
      if s == "free" || s == "job-exclusive" {
        return ReadyToUse;
      }
      return if v.info.stateTime > cfg.maxInaccessible then ToDelete else StillStarting;
    }

    method InspectVm(v: VM, reps: StartReports) returns (fate: StartFate)
      requires Recorded() && v in records
      modifies this`records, this`workerNodes, v
      ensures Recorded() && records.Keys == old(records.Keys) && Abs() == InspectOne(cfg, old(Abs()), v, reps)
      ensures fate == StartFateOf(cfg, old(records[v]), reps.of(v))
    {
      if !v.info.cloudReady {
        fate := InspectNew(v, reps);
      } else {
        fate := InspectReady(v, reps.of(v));
        assert records == records[v := records[v]];
      }
    }

    method InspectNext(ghost st: State, reps: StartReports, ghost trace: seq<State>, ghost k: nat, v: VM,
                       ready: seq<VM>, failed: seq<VM>)
      returns (nowReady: seq<VM>, nowFailed: seq<VM>)
      requires k < |st.starting| && v == st.starting[k] && |trace| == |st.starting| + 1
      requires InspectedAt(cfg, st, reps, trace, k) && Abs() == trace[k] && Recorded() && v in records
      requires ready == Fated(cfg, st, reps, ReadyToUse, k) && failed == Fated(cfg, st, reps, ToDelete, k)
      modifies this`records, this`workerNodes, v
      ensures Recorded() && records.Keys == old(records.Keys) && Abs() == trace[k + 1]
      ensures nowReady == Fated(cfg, st, reps, ReadyToUse, k + 1) && nowFailed == Fated(cfg, st, reps, ToDelete, k + 1)
    {
      nowReady, nowFailed := ready, failed;
      var fate := InspectVm(v, reps);
      if fate == ReadyToUse {
        nowReady := ready + [v];
      } else if fate == ToDelete {
        nowFailed := failed + [v];
      }
    }

    /** Looks at every starting VM and lists the ready and the failed ones. */
    method InspectStarting(reps: StartReports) returns (ready: seq<VM>, failed: seq<VM>)
      requires Recorded() && Once(starting) && forall v | v in starting :: v in records
      modifies this`records, this`workerNodes, records.Keys
      ensures Recorded() && records.Keys == old(records.Keys)
      ensures Abs() == Inspected(cfg, old(Abs()), reps, |old(starting)|)
      ensures ready == Fated(cfg, old(Abs()), reps, ReadyToUse, |old(starting)|)
      ensures failed == Fated(cfg, old(Abs()), reps, ToDelete, |old(starting)|)
    {
      ghost var st := Abs();
      ghost var trace := InspectTrace(cfg, st, reps);
      var vms := starting;
      ready, failed := [], [];
      for k := 0 to |vms|
        invariant Recorded() && records.Keys == old(records.Keys) && Abs() == trace[k]
        invariant ready == Fated(cfg, st, reps, ReadyToUse, k) && failed == Fated(cfg, st, reps, ToDelete, k)
      {
        assert InspectedAt(cfg, st, reps, trace, k);
        ready, failed := InspectNext(st, reps, trace, k, vms[k], ready, failed);
      }
    }

    /** need_vm: the VM becomes static if one is missing in its zone. */
    method MarkIfNeeded(v: VM)
      requires Recorded() && v in records && v.resource in cfg.quota && DeficitsOk(cfg, cloud.statics)
      modifies this`records, cloud`statics, v
      ensures Recorded() && records.Keys == old(records.Keys) && DeficitsOk(cfg, cloud.statics)
      ensures Abs() == MarkStatic(cfg, old(Abs()), v)
    {
      ghost var reqs := cloud.statics[v.resource];
      TakeOneMeetsOne(reqs, v.info.zone, cfg.locations);
      assert cloud.statics == cloud.statics[v.resource := reqs];
      var taken := cloud.NeedVm(v.resource, v.info.zone, cfg.locations);
      if taken {
        v.info := v.info.(dynamic := false);
        records := records[v := v.info];
      }
    }

    method ReadyVm(v: VM)
      requires Recorded() && v in records && v.resource in cfg.quota && DeficitsOk(cfg, cloud.statics)
      requires v in starting
      modifies this`starting, this`existing, this`records, cloud`statics, v
      ensures Recorded() && records.Keys == old(records.Keys) && DeficitsOk(cfg, cloud.statics)
      ensures Abs() == ReadyOne(cfg, old(Abs()), v)
    {
      starting := Remove(starting, v);
      MarkIfNeeded(v);
      existing := existing + [v];
    }

    method ReadyAll(vms: seq<VM>)
      requires Recorded() && DeficitsOk(cfg, cloud.statics) && multiset(vms) <= multiset(starting)
      requires forall v | v in vms :: v in records && v.resource in cfg.quota
      modifies this`starting, this`existing, this`records, cloud`statics, records.Keys
      ensures Recorded() && records.Keys == old(records.Keys) && DeficitsOk(cfg, cloud.statics)
      ensures Abs() == Readied(cfg, old(Abs()), vms, |vms|)
    {
      ghost var trace := ReadyTrace(cfg, Abs(), vms);
      for k := 0 to |vms|
        invariant Recorded() && records.Keys == old(records.Keys) && DeficitsOk(cfg, cloud.statics)
        invariant Abs() == trace[k]
      {
        assert ReadiedAt(cfg, trace, vms, k);
        ReadyVm(vms[k]);
      }
    }

    method FailVm(v: VM, accepted: bool)
      requires Recorded() && v in records && v in starting
      modifies this`waiting, this`destroyed, this`records, this`starting, this`deleting, v
      ensures Recorded() && records.Keys == old(records.Keys) && Abs() == FailOne(old(Abs()), v, accepted)
    {
      if v.info.zone.Some? {
        waiting := waiting + [ProvisionVM(v.flavor, v.info.zone, v.resource, !v.info.dynamic)];
      }
      VmDestroy(v, accepted);
      starting := Remove(starting, v);
      deleting := deleting + [v];
    }

    method FailAll(vms: seq<VM>, reps: StartReports)
      requires Recorded() && multiset(vms) <= multiset(starting) && forall v | v in vms :: v in records
      modifies this`waiting, this`destroyed, this`records, this`starting, this`deleting, records.Keys
      ensures Recorded() && records.Keys == old(records.Keys)
      ensures Abs() == FailedOnes(old(Abs()), reps, vms, |vms|)
    {
      ghost var trace := FailTrace(Abs(), reps, vms);
      for k := 0 to |vms|
        invariant Recorded() && records.Keys == old(records.Keys) && Abs() == trace[k]
      {
        assert FailedAt(reps, trace, vms, k);
        FailVm(vms[k], reps.of(vms[k]).accepted);
      }
    }

    // ----- launch_instances -----

    method StartVm(answer: NewVm, request: ProvisionVM, ghost before: map<VM, Info>, ghost started: seq<VM>)
      returns (v: VM)
      requires Recorded() && Added(before, records, started)
      modifies this`starting, this`records
      ensures fresh(v) && v.resource == request.resource && v.flavor == request.flavor
      ensures Recorded() && Added(before, records, started + [v]) && starting == old(starting) + [v]
    {
      v := new VM(answer.hostname, answer.vcpus, request.flavor, request.resource);
      AddedNext(before, records, started, v);
      records := records[v := v.info];
      starting := starting + [v];
    }

    /** Looks at one waiting request; `slots` is how many VMs the batch has room for. */
    method StartNext(answers: nat -> Option<NewVm>, slots: int, k: nat, started: seq<VM>, done: seq<ProvisionVM>,
                     ghost base: seq<VM>, ghost before: map<VM, Info>)
      returns (refused: bool, nowStarted: seq<VM>, nowDone: seq<ProvisionVM>)
      requires Recorded() && Added(before, records, started) && starting == base + started
      requires LaunchedUpTo(waiting, slots, started, done, k) && k < |waiting|
      modifies this`starting, this`records
      ensures Recorded() && Added(before, records, nowStarted) && starting == base + nowStarted
      ensures forall v | v in nowStarted :: v in started || fresh(v)
      ensures if refused then nowStarted == started && nowDone == done && |started| < slots
              else LaunchedUpTo(waiting, slots, nowStarted, nowDone, k + 1)
    {
      refused, nowStarted, nowDone := false, started, done;
      if |started| == slots {
        NothingStarted(waiting, slots, started, done, k);
        if !waiting[k].isStatic {
          nowDone := done + [waiting[k]];
        }
      } else if answers(k).None? {
        refused := true;
      } else {
        var v := StartVm(answers(k).value, waiting[k], before, started);
        OneStarted(waiting, slots, started, done, k, v);
        nowStarted, nowDone := started + [v], done + [waiting[k]];
        assert base + nowStarted == (base + started) + [v];
      }
    }

    /** Goes through the waiting requests: starts VMs until the batch is full or the cloud refuses, and collects
        the requests to remove. */
    method StartWaiting(answers: nat -> Option<NewVm>)
      returns (started: seq<VM>, ghost seen: nat, done: seq<ProvisionVM>)
      requires Recorded() && |starting| < cfg.batch
      modifies this`starting, this`records
      ensures Recorded() && Added(old(records), records, started) && starting == old(starting) + started
      ensures forall v | v in started :: fresh(v)
      ensures LaunchedUpTo(waiting, cfg.batch - |old(starting)|, started, done, seen)
      ensures |started| == cfg.batch - |old(starting)| ==> seen == |waiting|
    {
      ghost var base, before := starting, records;
      var slots := cfg.batch - |starting|;
      var refused := false;
      started, done := [], [];
      var k := 0;
      while k < |waiting| && !refused
        invariant Recorded() && Added(before, records, started) && starting == base + started
        invariant forall v | v in started :: fresh(v)
        invariant LaunchedUpTo(waiting, slots, started, done, k)
        invariant refused ==> |started| < slots
        decreases |waiting| - k, !refused
      {
        refused, started, done := StartNext(answers, slots, k, started, done, base, before);
        if !refused {
          k := k + 1;
        }
      }
      seen := k;
    }

    method RemoveWaiting(done: seq<ProvisionVM>)
      requires multiset(done) <= multiset(waiting)
      modifies this`waiting
      ensures waiting == RemoveEach(old(waiting), done)
    {
      ghost var trace := RemoveTrace(waiting, done);
      for k := 0 to |done|
        invariant waiting == trace[k]
      {
        assert RemovedAt(trace, done, k);
        waiting := Remove(waiting, done[k]);
      }
    }

    method LaunchBatch(answers: nat -> Option<NewVm>) returns (started: seq<VM>)
      requires Recorded() && |starting| < cfg.batch
      modifies this`starting, this`records, this`waiting
      ensures Recorded() && starting == old(starting) + started
      ensures Added(old(records), records, started) && forall v | v in started :: fresh(v)
      ensures |started| <= Min(cfg.batch - |old(starting)|, |old(waiting)|)
      ensures forall i :: 0 <= i < |started| ==> started[i].resource == old(waiting)[i].resource
      ensures waiting == LeftWaiting(old(waiting), |started|, |started| == cfg.batch - |old(starting)|)
    {
      ghost var seen;
      var done;
      started, seen, done := StartWaiting(answers);
      CollectedFit(waiting, |started|, seen);
      CollectedLeaves(waiting, |started|, seen, |started| == cfg.batch - |old(starting)|);
      RemoveWaiting(done);
    }

    method LaunchInstances(answers: nat -> Option<NewVm>) returns (started: seq<VM>)
      requires Shape()
      modifies this`provisioning, this`starting, this`records, this`waiting
      ensures Shape() && Startable(cfg, old(Abs()), started) && Abs() == Launch(cfg, old(Abs()), started)
      ensures forall v | v in started :: fresh(v)
      ensures fresh(records.Keys - old(records.Keys))
    {
      started := [];
      if waiting != [] && |starting| < cfg.batch {
        provisioning := true;
        started := LaunchBatch(answers);
      }
    }

    // ----- the passes of the cloud poller -----

    /** Moves the ready and the failed VMs, and counts the free nodes. */
    method Settle(ready: seq<VM>, failed: seq<VM>, reps: StartReports)
      requires Shape() && Listed() && DeficitsOk(cfg, cloud.statics) && SortedOut(starting, ready, failed)
      requires forall v | v in starting :: v in records && v.resource in cfg.quota
      modifies this`starting, this`existing, this`deleting, this`waiting, this`records, this`destroyed,
               cloud`available, cloud`statics, records.Keys
      ensures Shape()
      ensures var s := Readied(cfg, old(Abs()), ready, |ready|);
              Abs() == UpdateAvailable(cfg, FailedOnes(s, reps, failed, |failed|))
      ensures records.Keys == old(records.Keys)
    {
      RestAfterReady(cfg, Abs(), ready, failed);
      ReadyAll(ready);
      RestAfterFailed(Abs(), reps, failed);
      FailAll(failed, reps);
      UpdateAvailableCores();
    }

    /** update_provision_status up to the launch of waiting requests. */
    method MoveStarting(reps: StartReports)
      requires Shape() && Core(cfg, Abs())
      modifies this`starting, this`existing, this`deleting, this`waiting, this`workerNodes, this`records,
               this`destroyed, cloud`available, cloud`statics, records.Keys
      ensures Shape() && Abs() == ProvisionMoves(cfg, old(Abs()), reps)
      ensures records.Keys == old(records.Keys)
    {
      OnRecord(cfg, Abs());
      LifecycleLaws.StartingOnce(Abs());
      FatesSortedOut(cfg, Abs(), reps);
      var ready, failed := InspectStarting(reps);
      Settle(ready, failed, reps);
    }

    method ProvisionStep(reps: StartReports, answers: nat -> Option<NewVm>) returns (started: seq<VM>)
      requires Shape() && Core(cfg, Abs())
      modifies this, cloud`available, cloud`statics, records.Keys
      ensures Shape() && Startable(cfg, ProvisionMoves(cfg, old(Abs()), reps), started)
      ensures Abs() == ProvisionPass(cfg, old(Abs()), reps, started)
      ensures fresh(records.Keys - old(records.Keys))
    {
      MoveStarting(reps);
      started := [];
      if starting == [] && waiting == [] {
        provisioning := false;
      } else {
        started := LaunchInstances(answers);
      }
    }

    /** The cloud poller calls it only while the flag is up. */
    method UpdateProvisionStatus(reps: StartReports, answers: nat -> Option<NewVm>) returns (started: seq<VM>)
      requires Valid() && provisioning
      modifies this, cloud`available, cloud`statics, records.Keys
      ensures Valid() && Possible(cfg, old(Abs()), Provisioning(reps, started))
      ensures Abs() == Step(cfg, old(Abs()), Provisioning(reps, started))
      ensures fresh(records.Keys - old(records.Keys))
    {
      ghost var st := Abs();
      started := ProvisionStep(reps, answers);
      RunLaws.StepKeeps(cfg, st, Provisioning(reps, started));
    }

    // ----- check_cleanup -----

    /** The cloud is told to destroy the VM, and the time is set whatever it says. */
    method DestroyForGood(v: VM, accepted: bool)
      requires Recorded() && v in records
      modifies this`destroyed, this`records, v
      ensures Recorded() && records.Keys == old(records.Keys) && Abs() == Destroy(old(Abs()), v, true)
    {
      VmDestroy(v, accepted);
      v.info := v.info.(deleteIssued := true);
      records := records[v := v.info];
      assert records == old(records)[v := old(records[v]).(deleteIssued := true)];
    }

    /** What to do with a VM that Torque does not know, or knows. */
    method SweepChecked(v: VM, r: CleanupReport) returns (fate: CleanupFate)
      requires Recorded() && v in records
      modifies this`destroyed, this`records, v
      ensures Recorded() && records.Keys == old(records.Keys)
      ensures fate == CleanupFateOf(v, old(records[v]), r)
      ensures Abs() == if fate.StillDeleting? && fate.destroy then Destroy(old(Abs()), v, r.accepted || fate.unhook)
                       else old(Abs())
    {
      fate := StillDeleting(false, false);
      if v.hostname == "" {
        if r.code.Gone? {
          fate := Deleted;
        }
      } else if r.torque.Absent? {
        if r.code.Gone? {
          fate := Deleted;
        } else if !v.info.deleteIssued || r.retry {
          VmDestroy(v, r.accepted);
          fate := StillDeleting(false, true);
        }
      } else if r.torque.Present? {
        if r.code.Gone? {
          fate := StillDeleting(true, false);
        } else if !r.torque.jobs {
          DestroyForGood(v, r.accepted);
          fate := StillDeleting(true, true);
        } else if !v.info.forceOff {
          fate := Cancelled;
        }
      }
    }

    method SweepVm(v: VM, r: CleanupReport) returns (fate: CleanupFate)
      requires Recorded() && v in records
      modifies this`destroyed, this`records, v
      ensures Recorded() && records.Keys == old(records.Keys)
      ensures fate == CleanupFateOf(v, old(records[v]), r) && Abs() == SweepOne(cfg, old(Abs()), v, r)
    {
      SameCleanupFate(cfg, v, records[v], r);
      VmCheck(v, r.code, r.status);
      ghost var s := Abs();
      assert s == SetInfo(old(Abs()), v, Checked(cfg, old(records[v]), r.code, r.status));
      fate := SweepChecked(v, r);
    }

    method SweepNext(ghost st: State, reps: VM -> CleanupReport, ghost trace: seq<State>, ghost k: nat, v: VM,
                     gone: seq<VM>, back: seq<VM>)
      returns (nowGone: seq<VM>, nowBack: seq<VM>)
      requires k < |st.deleting| && v == st.deleting[k] && |trace| == |st.deleting| + 1
      requires SweptAt(cfg, st, reps, trace, k) && Abs() == trace[k] && Recorded() && v in records
      requires gone == Ended(st, reps, Deleted, k) && back == Ended(st, reps, Cancelled, k)
      modifies this`records, this`destroyed, v
      ensures Recorded() && records.Keys == old(records.Keys) && Abs() == trace[k + 1]
      ensures nowGone == Ended(st, reps, Deleted, k + 1) && nowBack == Ended(st, reps, Cancelled, k + 1)
    {
      nowGone, nowBack := gone, back;
      var fate := SweepVm(v, reps(v));
      if fate == Deleted {
        nowGone := gone + [v];
      } else if fate == Cancelled {
        nowBack := back + [v];
      }
    }

    /** Looks at every VM being deleted and lists those that are gone and those that return. */
    method SweepDeleting(reps: VM -> CleanupReport) returns (gone: seq<VM>, back: seq<VM>)
      requires Recorded() && Once(deleting) && forall v | v in deleting :: v in records
      modifies this`records, this`destroyed, records.Keys
      ensures Recorded() && records.Keys == old(records.Keys)
      ensures Abs() == Swept(cfg, old(Abs()), reps, |old(deleting)|)
      ensures gone == Ended(old(Abs()), reps, Deleted, |old(deleting)|)
      ensures back == Ended(old(Abs()), reps, Cancelled, |old(deleting)|)
    {
      ghost var st := Abs();
      ghost var trace := SweepTrace(cfg, st, reps);
      var vms := deleting;
      gone, back := [], [];
      for k := 0 to |vms|
        invariant Recorded() && records.Keys == old(records.Keys) && Abs() == trace[k]
        invariant gone == Ended(st, reps, Deleted, k) && back == Ended(st, reps, Cancelled, k)
      {
        assert SweptAt(cfg, st, reps, trace, k);
        gone, back := SweepNext(st, reps, trace, k, vms[k], gone, back);
      }
    }

    method DeleteVm(v: VM)
      requires Recorded() && v in records && v in deleting && v.resource in cloud.statics
      modifies this`deleting, this`waiting, cloud`statics
      ensures cloud.statics.Keys == old(cloud.statics.Keys) && Abs() == DeleteOne(cfg, old(Abs()), v)
    {
      deleting := Remove(deleting, v);
      var location := LocationOf(cfg.locations, v.info.zone);
      if !v.info.dynamic && location.Some? {
        cloud.AddStaticReq(v.resource, location.value, 1);
        waiting := waiting + [ProvisionVM(v.flavor, v.info.zone, v.resource, !v.info.dynamic)];
      }
    }

    method DeleteAll(vms: seq<VM>)
      requires Recorded() && multiset(vms) <= multiset(deleting)
      requires forall v | v in vms :: v in records && v.resource in cloud.statics
      modifies this`deleting, this`waiting, cloud`statics
      ensures Abs() == DeletedOnes(cfg, old(Abs()), vms, |vms|)
    {
      ghost var trace := DeleteTrace(cfg, Abs(), vms);
      for k := 0 to |vms|
        invariant Recorded() && cloud.statics.Keys == old(cloud.statics.Keys) && Abs() == trace[k]
      {
        assert DeletedAt(cfg, trace, vms, k);
        DeleteVm(vms[k]);
      }
    }

    method CancelAll(vms: seq<VM>)
      requires multiset(vms) <= multiset(deleting)
      modifies this`deleting, this`existing
      ensures Abs() == CancelledOnes(old(Abs()), vms, |vms|)
    {
      ghost var trace := CancelTrace(Abs(), vms);
      for k := 0 to |vms|
        invariant Abs() == trace[k]
      {
        assert CancelledAt(trace, vms, k);
        existing := existing + [vms[k]];
        deleting := Remove(deleting, vms[k]);
      }
    }

    /** Moves the deleted and the cancelled VMs, and counts the free nodes. */
    method SettleDeleting(gone: seq<VM>, back: seq<VM>)
      requires Shape() && Listed() && SortedOut(deleting, gone, back)
      requires forall v | v in deleting :: v.resource in cloud.statics
      modifies this`deleting, this`waiting, this`existing, cloud`available, cloud`statics
      ensures Shape()
      ensures Abs() == UpdateAvailable(cfg, CancelledOnes(DeletedOnes(cfg, old(Abs()), gone, |gone|), back, |back|))
      ensures records.Keys == old(records.Keys)
    {
      RestAfterDeleted(cfg, Abs(), gone, back);
      DeleteAll(gone);
      RestAfterCancelled(Abs(), back);
      CancelAll(back);
      UpdateAvailableCores();
    }

    /** check_cleanup up to the launch of waiting requests. */
    method MoveDeleting(reps: VM -> CleanupReport)
      requires Shape() && Core(cfg, Abs())
      modifies this`deleting, this`waiting, this`existing, this`records, this`destroyed, cloud`available,
               cloud`statics, records.Keys
      ensures Shape() && Abs() == CleanupMoves(cfg, old(Abs()), reps)
      ensures records.Keys == old(records.Keys)
    {
      OnRecord(cfg, Abs());
      DeletingOnce(Abs());
      EndsSortedOut(cfg, Abs(), reps);
      var gone, back := SweepDeleting(reps);
      SettleDeleting(gone, back);
    }

    method CleanupStep(reps: VM -> CleanupReport, answers: nat -> Option<NewVm>) returns (started: seq<VM>)
      requires Shape() && Core(cfg, Abs())
      modifies this, cloud`available, cloud`statics, records.Keys
      ensures Shape() && Possible(cfg, old(Abs()), CleaningUp(reps, started))
      ensures Abs() == CleanupPass(cfg, old(Abs()), reps, started)
      ensures fresh(records.Keys - old(records.Keys))
    {
      started := [];
      if deleting == [] {
        return;
      }
      MoveDeleting(reps);
      if waiting != [] && !provisioning {
        started := LaunchInstances(answers);
      }
    }

    method CheckCleanup(reps: VM -> CleanupReport, answers: nat -> Option<NewVm>) returns (started: seq<VM>)
      requires Valid()
      modifies this, cloud`available, cloud`statics, records.Keys
      ensures Valid() && Possible(cfg, old(Abs()), CleaningUp(reps, started))
      ensures Abs() == Step(cfg, old(Abs()), CleaningUp(reps, started))
      ensures fresh(records.Keys - old(records.Keys))
    {
      ghost var st := Abs();
      started := CleanupStep(reps, answers);
      RunLaws.StepKeeps(cfg, st, CleaningUp(reps, started));
    }

    // ----- check_existing_worker_nodes -----

    method ObserveVm(v: VM, s: Option<string>)
      requires Recorded() && v in records
      modifies this`records, v
      ensures Recorded() && records.Keys == old(records.Keys) && Abs() == Observe(cfg, old(Abs()), v, s)
    {
      v.info := v.info.(state := s, stateTime := if v.info.state != s then 0 else v.info.stateTime + cfg.interval);
      records := records[v := v.info];
    }

    method ForceVm(v: VM, force: bool)
      requires Recorded() && v in records
      modifies this`records, v
      ensures Recorded() && records == old(records)[v := old(records[v]).(forceOff := force)]
    {
      v.info := v.info.(forceOff := force);
      records := records[v := v.info];
    }

    method ForceAndDestroy(v: VM, accepted: bool)
      requires Recorded() && v in records
      modifies this`records, this`destroyed, v
      ensures Recorded() && records.Keys == old(records.Keys) && Abs() == ForceOne(old(Abs()), v, accepted)
    {
      ForceVm(v, true);
      ghost var s := Abs();
      assert s == SetInfo(old(Abs()), v, old(records[v]).(forceOff := true));
      VmDestroy(v, accepted);
    }

    /** Shuts an idle VM down and forgets it. */
    method ShutDownVm(v: VM, accepted: bool)
      requires Shape() && Listed() && v in existing
      modifies this`existing, this`records, this`destroyed, this`provisioning, cloud`available, v
      ensures Shape() && Listed() && records.Keys == old(records.Keys)
      ensures Abs() == ShutDown(cfg, old(Abs()), v, accepted)
    {
      ForceAndDestroy(v, accepted);
      RemoveFirstMembers(existing, v);
      existing := Remove(existing, v);
      UpdateAvailableCores();
      provisioning := false;
    }

    /** The VM of the first other busy node that can take over the static role. */
    method FindPartner(wn: WorkerNode, v: VM) returns (w: Option<VM>)
      requires Recorded() && Listed() && v in records
      ensures w == Partner(Abs(), workerNodes, wn, v)
      ensures w.Some? ==> w.value in existing && w.value in records
    {
      var i := 0;
      while i < |workerNodes|
        invariant i <= |workerNodes| && Partner(Abs(), workerNodes[i..], wn, v) == Partner(Abs(), workerNodes, wn, v)
      {
        var another := workerNodes[i];
        if another.name != wn.name && another.jobs {
          FindVmFinds(existing, another.name);
          w := FindVm(existing, another.name);
          if w.Some? && w.value.info.dynamic && w.value.vcpus == v.vcpus && w.value.info.zone == v.info.zone
             && w.value.resource == v.resource
          {
            return;
          }
        }
        i := i + 1;
      }
      return None;
    }

    method SwapRoles(v: VM, w: VM)
      requires Recorded() && v in records && w in records
      modifies this`records, v, w
      ensures Recorded() && records.Keys == old(records.Keys) && Abs() == Swap(old(Abs()), v, w)
    {
      v.info := v.info.(dynamic := true);
      records := records[v := v.info];
      w.info := w.info.(dynamic := false);
      records := records[w := w.info];
    }

    method RetireVm(v: VM)
      requires v in existing
      modifies this`existing, this`deleting
      ensures Abs() == Retire(old(Abs()), v)
    {
      deleting := deleting + [v];
      existing := Remove(existing, v);
    }

    /** The VM hands its static role over and is shut down. */
    method HandOverRole(v: VM, w: VM, accepted: bool)
      requires Shape() && Listed() && v in existing && w in existing
      modifies this`existing, this`records, this`destroyed, this`provisioning, cloud`available, v, w
      ensures Shape() && Listed() && records.Keys == old(records.Keys)
      ensures Abs() == ShutDown(cfg, Swap(old(Abs()), v, w), v, accepted)
    {
      SwapRoles(v, w);
      ghost var s := Abs();
      assert s == Swap(old(Abs()), v, w);
      ShutDownVm(v, accepted);
    }

    /** What becomes of a VM after its node has been looked at. */
    method ActOnNode(wn: WorkerNode, v: VM, state: Option<string>, accepted: bool)
      requires Shape() && Listed() && v in existing
      modifies this`existing, this`deleting, this`records, this`destroyed, this`provisioning, cloud`available,
               records.Keys
      ensures Shape() && Listed() && records.Keys == old(records.Keys)
      ensures Abs() == Act(cfg, old(Abs()), v, ActionFor(cfg, old(Abs()), wn, v, state), accepted)
    {
      RemoveFirstMembers(existing, v);
      if !wn.jobs {
        if state == Some("free") && v.info.stateTime > cfg.maxIdle {
          if v.info.dynamic {
            ShutDownVm(v, accepted);
          } else if running > 0 {
            var w := FindPartner(wn, v);
            if w.Some? {
              HandOverRole(v, w.value, accepted);
            }
          }
        } else if state == Some("drained") {
          RetireVm(v);
        } else if state.Some? && Contains(Lower(wn.state), "down") && Contains(state.value, "down")
                  && v.info.stateTime > cfg.maxDown
        {
          RetireVm(v);
        }
      }
    }

    method CheckWorkerNode(wn: WorkerNode, reps: NodeReports)
      requires Shape() && Listed()
      modifies this`existing, this`deleting, this`records, this`destroyed, this`provisioning, cloud`available,
               records.Keys
      ensures Shape() && Listed() && records.Keys == old(records.Keys)
      ensures Abs() == CheckNode(cfg, old(Abs()), wn, reps)
    {
      FindVmFinds(existing, wn.name);
      var found := FindVm(existing, wn.name);
      if found.Some? {
        ObserveVm(found.value, reps.state(wn.name));
        ghost var s := Abs();
        assert s == Observe(cfg, old(Abs()), found.value, reps.state(wn.name));
        ActOnNode(wn, found.value, reps.state(wn.name), reps.accepted(found.value));
      }
    }

    method CheckExistingWorkerNodes(reps: NodeReports)
      requires Shape() && Listed()
      modifies this`existing, this`deleting, this`records, this`destroyed, this`provisioning, cloud`available,
               records.Keys
      ensures Shape() && Listed() && records.Keys == old(records.Keys)
      ensures Abs() == CheckExisting(cfg, old(Abs()), reps)
    {
      ghost var trace := NodeTrace(cfg, Abs(), reps);
      var nodes := workerNodes;
      for k := 0 to |nodes|
        invariant Shape() && Listed() && records.Keys == old(records.Keys) && Abs() == trace[k]
      {
        assert CheckedAt(cfg, trace, nodes, reps, k);
        CheckWorkerNode(nodes[k], reps);
      }
      UpdateAvailableCores();
    }

    // ----- collect_cluster_information -----

    /** The three queries. */
    method QueryCluster(q: Query)
      requires Sorted(q.idle, JobId) && Sorted(q.priorities, EntryId)
      modifies this`idle, this`running, this`workerNodes
      ensures Abs() == Queried(old(Abs()), q) && HoldsAnswers(old(Abs()), Abs(), q)
    {
      QueriedHolds(Abs(), q);
      idle, running := q.idle, q.running;
      if q.jobsUp {
        if q.mauiUp {
          idle := PrioritiseJobs(idle, q.priorities);
        }
        workerNodes := q.nodes;
      }
    }

    method HasAvailableCores() returns (has: bool)
      requires Shape()
      ensures has == HasAvailable(Abs())
    {
      for k := 0 to |cfg.order|
        invariant forall i :: 0 <= i < k ==> cloud.available[cfg.order[i]] <= 0
      {
        assert cfg.order[k] in cfg.order;
        if cloud.available[cfg.order[k]] > 0 {
          return true;
        }
      }
      forall r | r in cloud.available
        ensures cloud.available[r] <= 0
      {
        assert r in cfg.order;
      }
      return false;
    }

    method DetermineRequiredInstancesNumbers(places: nat -> Option<string>, zone: Option<string> -> Option<string>)
      returns (plan: seq<ProvisionVM>, failure: Option<Error>, ghost owners: seq<(string, nat)>)
      requires Shape() && FlavorsOk(cfg, cloud.flavors) && SitesOk(SitesOf(cloud.available, cloud.flavors))
      modifies this`waiting, this`provisioning
      ensures Plannable(cfg, plan)
      ensures if old(idle) == [] then plan == [] && failure.None?
              else PlansFrom(old(Abs()), cloud.flavors, places, zone, plan, owners, failure)
      ensures Abs() == if plan == [] || old(provisioning) then old(Abs())
                       else old(Abs()).(waiting := old(waiting) + plan, provisioning := true)
    {
      plan, failure, owners := [], None, [];
      if idle != [] {
        var sites := SitesOf(cloud.available, cloud.flavors);
        SitesAreOk(cfg, cloud.available, cloud.flavors);
        var r;
        r, owners := CalculateNewInstances(idle, |workerNodes|, sites, places, zone, true);
        match r {
          case Raised(e) => failure := Some(e);
          case Ok(requests) =>
            plan := requests;
        }
        if plan != [] && !provisioning {
          waiting := waiting + plan;
          provisioning := true;
        }
      }
    }

    /** Checks the nodes, and plans if there are idle jobs and free nodes. */
    method CheckAndPlan(reps: NodeReports, places: nat -> Option<string>, zone: Option<string> -> Option<string>)
      returns (plan: seq<ProvisionVM>, failure: Option<Error>, ghost owners: seq<(string, nat)>)
      requires Shape() && Listed() && FlavorsOk(cfg, cloud.flavors)
      modifies this, cloud`available, records.Keys
      ensures Shape() && Plannable(cfg, plan)
      ensures var s := CheckExisting(cfg, old(Abs()), reps);
              && Abs() == (if plan == [] || s.provisioning then s
                           else s.(waiting := s.waiting + plan, provisioning := true))
              && if HasAvailable(s) && s.idle != [] then
                   SitesOk(SitesOf(s.avail, cloud.flavors))
                   && PlansFrom(s, cloud.flavors, places, zone, plan, owners, failure)
                 else plan == [] && failure.None?
      ensures records.Keys == old(records.Keys)
    {
      plan, failure, owners := [], None, [];
      CheckExistingWorkerNodes(reps);
      ghost var s := Abs();
      assert s == CheckExisting(cfg, old(Abs()), reps);
      var has := HasAvailableCores();
      SitesAreOk(cfg, cloud.available, cloud.flavors);
      if has {
        plan, failure, owners := DetermineRequiredInstancesNumbers(places, zone);
      }
    }

    method CollectStep(q: Query, reps: NodeReports, places: nat -> Option<string>,
                       zone: Option<string> -> Option<string>)
      returns (plan: seq<ProvisionVM>, failure: Option<Error>, ghost owners: seq<(string, nat)>)
      requires Shape() && Listed() && FlavorsOk(cfg, cloud.flavors)
      requires Sorted(q.idle, JobId) && Sorted(q.priorities, EntryId)
      modifies this, cloud`available, records.Keys
      ensures Shape() && Plannable(cfg, plan) && Abs() == Collect(cfg, old(Abs()), q, reps, plan)
      ensures match PlanningState(cfg, old(Abs()), q, reps)
              case None => plan == [] && failure.None?
              case Some(s) => SitesOk(SitesOf(s.avail, cloud.flavors))
                              && PlansFrom(s, cloud.flavors, places, zone, plan, owners, failure)
      ensures records.Keys == old(records.Keys)
    {
      plan, failure, owners := [], None, [];
      QueryCluster(q);
      if q.jobsUp && q.nodesUp && q.mauiUp && !sleeping && !provisioning {
        plan, failure, owners := CheckAndPlan(reps, places, zone);
      }
    }

    /** The plan, if there is one, is the planner's for the state after the nodes were checked. An exception of
        the planner leaves that state as it is. */
    method CollectClusterInformation(q: Query, reps: NodeReports, places: nat -> Option<string>,
                                     zone: Option<string> -> Option<string>)
      returns (plan: seq<ProvisionVM>, failure: Option<Error>, ghost owners: seq<(string, nat)>)
      requires Valid() && FlavorsOk(cfg, cloud.flavors)
      requires Sorted(q.idle, JobId) && Sorted(q.priorities, EntryId)
      modifies this, cloud`available, records.Keys
      ensures Valid() && Possible(cfg, old(Abs()), Collecting(q, reps, plan))
      ensures Abs() == Step(cfg, old(Abs()), Collecting(q, reps, plan)) && HoldsAnswers(old(Abs()), Abs(), q)
      ensures match PlanningState(cfg, old(Abs()), q, reps)
              case None => plan == [] && failure.None?
              case Some(s) => SitesOk(SitesOf(s.avail, cloud.flavors))
                              && PlansFrom(s, cloud.flavors, places, zone, plan, owners, failure)
      ensures records.Keys == old(records.Keys)
    {
      ghost var st := Abs();
      OnRecord(cfg, st);
      plan, failure, owners := CollectStep(q, reps, places, zone);
      CollectHolds(cfg, st, q, reps, plan);
      RunLaws.StepKeeps(cfg, st, Collecting(q, reps, plan));
    }

    // ----- the administrator's commands -----

    method KillVm(name: string, force: bool) returns (refusal: Option<Error>)
      requires Valid()
      modifies this, records.Keys
      ensures Valid() && Abs() == Step(cfg, old(Abs()), Killing(name, force))
      ensures refusal == KillRefusal(old(Abs()), name, force)
      ensures records.Keys == old(records.Keys)
    {
      ghost var st := Abs();
      OnRecord(cfg, st);
      FindVmFinds(existing, name);
      refusal := KillStep(name, force);
      RunLaws.StepKeeps(cfg, st, Killing(name, force));
    }

    method KillStep(name: string, force: bool) returns (refusal: Option<Error>)
      requires Shape() && Listed()
      modifies this`existing, this`deleting, this`records, records.Keys
      ensures Shape() && Abs() == Kill(old(Abs()), name, force) && refusal == KillRefusal(old(Abs()), name, force)
      ensures records.Keys == old(records.Keys)
    {
      FindVmFinds(existing, name);
      var v := FindVm(existing, name);
      if v.None? {
        return Some(Refused("not found in vm list"));
      }
      var wn := FindNode(workerNodes, v.value.hostname);
      if wn.None? {
        return Some(Refused("not a worker node"));
      }
      if wn.value.jobs && !force {
        return Some(Refused("busy"));
      }
      ForceVm(v.value, force);
      ghost var s := Abs();
      assert s == SetInfo(old(Abs()), v.value, old(records[v.value]).(forceOff := force));
      RetireVm(v.value);
      return None;
    }

    method ForceExisting(accepted: VM -> bool)
      requires Recorded() && Listed()
      modifies this`records, this`destroyed, records.Keys
      ensures Recorded() && records.Keys == old(records.Keys)
      ensures Abs() == ForcedOff(old(Abs()), accepted, |old(existing)|)
    {
      ghost var trace := ForceTrace(Abs(), accepted);
      var vms := existing;
      for k := 0 to |vms|
        invariant Recorded() && records.Keys == old(records.Keys) && Abs() == trace[k]
      {
        assert ForcedAt(trace, vms, accepted, k);
        ForceAndDestroy(vms[k], accepted(vms[k]));
      }
    }

    method DestroyStarting(accepted: VM -> bool)
      requires Recorded() && forall v | v in starting :: v in records
      modifies this`records, this`destroyed, records.Keys
      ensures Recorded() && records.Keys == old(records.Keys)
      ensures Abs() == DestroyedAll(old(Abs()), old(starting), accepted, |old(starting)|)
    {
      ghost var trace := DestroyTrace(Abs(), starting, accepted);
      var vms := starting;
      for k := 0 to |vms|
        invariant Recorded() && records.Keys == old(records.Keys) && Abs() == trace[k]
      {
        assert DestroyedAt(trace, vms, accepted, k);
        VmDestroy(vms[k], accepted(vms[k]));
      }
    }

    method ForceStep(accepted: VM -> bool)
      requires Shape() && Listed() && forall v | v in starting :: v in records
      modifies this, records.Keys
      ensures Shape() && Abs() == Lifecycle.ForceOff(old(Abs()), accepted)
      ensures records.Keys == old(records.Keys)
    {
      ghost var st := Abs();
      ForceExisting(accepted);
      ghost var s := Abs();
      ForcedLists(st, accepted);
      deleting := deleting + existing;
      existing := [];
      ghost var t := Abs();
      assert t == s.(deleting := s.deleting + s.existing, existing := []);
      DestroyStarting(accepted);
      ghost var u := Abs();
      assert u == DestroyedAll(t, t.starting, accepted, |t.starting|);
      DestroyedLists(t, t.starting, accepted);
      deleting := deleting + starting;
      starting := [];
    }

    /** forceoff: destroys every VM in service or starting. */
    method ForceOff(accepted: VM -> bool)
      requires Valid()
      modifies this, records.Keys
      ensures Valid() && Abs() == Step(cfg, old(Abs()), ForcingOff(accepted))
      ensures records.Keys == old(records.Keys)
    {
      ghost var st := Abs();
      OnRecord(cfg, st);
      ForceStep(accepted);
      RunLaws.StepKeeps(cfg, st, ForcingOff(accepted));
    }

    method ToggleSleepMode()
      requires Valid()
      modifies this`sleeping
      ensures Valid() && Abs() == Step(cfg, old(Abs()), TogglingSleep)
    {
      ghost var st := Abs();
      sleeping := !sleeping;
      RunLaws.StepKeeps(cfg, st, TogglingSleep);
    }

    // ----- _load_existing_worker_nodes -----

    /** What becomes of a VM found in the cloud; the node query has been made. */
    method JudgeVm(v: VM, rep: LoadReport) returns (fate: LoadFate)
      ensures fate == LoadFateOf(v, rep)
    {
      if !rep.hasIp(v) {
        return IsDestroyed;
      }
      var wn := FindNode(rep.nodes, v.hostname);
      if wn.None? {
        return if v.hostname in rep.persistent then GoesOn else IsDestroyed;
      }
      if !wn.value.jobs && !rep.sameImage(v) {
        return IsDestroyed;
      }
      return if Contains(wn.value.state, "offline") || Contains(wn.value.state, "down") then IsDestroyed
             else StaysInService;
    }

    method JudgeExisting(rep: LoadReport) returns (on: seq<VM>, off: seq<VM>)
      ensures on == Judged(existing, rep, GoesOn, |existing|)
      ensures off == Judged(existing, rep, IsDestroyed, |existing|)
    {
      on, off := [], [];
      for k := 0 to |existing|
        invariant on == Judged(existing, rep, GoesOn, k) && off == Judged(existing, rep, IsDestroyed, k)
      {
        var fate := JudgeVm(existing[k], rep);
        if fate == GoesOn {
          on := on + [existing[k]];
        } else if fate == IsDestroyed {
          off := off + [existing[k]];
        }
      }
    }

    /** Takes broken nodes without a VM off the list. */
    method DropOrphans()
      modifies this`workerNodes
      ensures workerNodes == Drop(old(workerNodes), Orphans(existing, old(workerNodes)))
    {
      ghost var orphans := Orphans(existing, workerNodes);
      var nodes := workerNodes;
      var gone := [];
      for k := 0 to |nodes|
        invariant gone == Keep(nodes[..k], orphans)
      {
        assert nodes[..k + 1][..k] == nodes[..k] && nodes[k] in nodes;
        if FindVm(existing, nodes[k].name).None?
           && (Contains(nodes[k].state, "down") || Contains(nodes[k].state, "offline"))
        {
          gone := gone + [nodes[k]];
        }
      }
      assert nodes[..|nodes|] == nodes;
      RemoveCollected(nodes, orphans);
      KeepSplits(nodes, orphans);
      RemoveNodes(gone);
    }

    method RemoveNodes(gone: seq<WorkerNode>)
      requires multiset(gone) <= multiset(workerNodes)
      modifies this`workerNodes
      ensures workerNodes == RemoveEach(old(workerNodes), gone)
    {
      ghost var trace := RemoveTrace(workerNodes, gone);
      for k := 0 to |gone|
        invariant workerNodes == trace[k]
      {
        assert RemovedAt(trace, gone, k);
        workerNodes := Remove(workerNodes, gone[k]);
      }
    }

    method GoOnAll(vms: seq<VM>)
      requires multiset(vms) <= multiset(existing)
      modifies this`existing, this`starting
      ensures Abs() == GoneOn(old(Abs()), vms, |vms|)
    {
      ghost var trace := GoOnTrace(Abs(), vms);
      for k := 0 to |vms|
        invariant Abs() == trace[k]
      {
        assert GoneOnAt(trace, vms, k);
        existing := Remove(existing, vms[k]);
        starting := starting + [vms[k]];
      }
    }

    method GiveUpVm(v: VM, accepted: bool)
      requires Recorded() && v in records && v in existing
      modifies this`existing, this`deleting, this`records, this`destroyed, v
      ensures Recorded() && records.Keys == old(records.Keys) && Abs() == DestroyOne(old(Abs()), v, accepted)
    {
      VmDestroy(v, accepted);
      RetireVm(v);
    }

    method GiveUpAll(vms: seq<VM>, accepted: VM -> bool)
      requires Recorded() && multiset(vms) <= multiset(existing) && forall v | v in vms :: v in records
      modifies this`existing, this`deleting, this`records, this`destroyed, records.Keys
      ensures Recorded() && records.Keys == old(records.Keys)
      ensures Abs() == DestroyedOnes(old(Abs()), vms, accepted, |vms|)
    {
      ghost var trace := GiveUpTrace(Abs(), vms, accepted, []);
      for k := 0 to |vms|
        invariant Recorded() && records.Keys == old(records.Keys) && Abs() == trace[k]
      {
        assert GivenUpAt(trace, vms, accepted, k);
        GiveUpVm(vms[k], accepted(vms[k]));
      }
    }

    /** Marks as many VMs of the wanted flavor static as are missing. */
    method MarkBase(vms: seq<VM>, rep: LoadReport)
      requires Recorded() && DeficitsOk(cfg, cloud.statics)
      requires forall v | v in vms :: v in records && v.resource in cfg.quota
      modifies this`records, cloud`statics, records.Keys
      ensures Recorded() && records.Keys == old(records.Keys) && DeficitsOk(cfg, cloud.statics)
      ensures Abs() == Marked(cfg, old(Abs()), vms, rep, |vms|)
    {
      ghost var trace := MarkTrace(cfg, Abs(), vms, rep);
      for k := 0 to |vms|
        invariant Recorded() && records.Keys == old(records.Keys) && DeficitsOk(cfg, cloud.statics) && Abs() == trace[k]
      {
        assert MarkedAt(cfg, trace, vms, rep, k);
        if rep.baseFlavor(vms[k]) {
          MarkIfNeeded(vms[k]);
        }
      }
    }

    method IsIdle(v: VM) returns (idle: bool)
      requires Recorded() && v in records
      ensures idle == IsIdleDynamic(Abs(), v)
    {
      var wn := FindNode(workerNodes, v.hostname);
      idle := v.info.dynamic && !(wn.Some? && wn.value.jobs);
    }

    /** Looks at VM i of the trimming loop. */
    method TrimNext(v: VM, accepted: VM -> bool, ghost st: State, ghost vms: seq<VM>, ghost i: nat, ghost run: TrimRun)
      returns (given: bool)
      requires Follows(run, st, vms, accepted) && i < |vms| && v == vms[i]
      requires run.count[i + 1] < run.excess && run.count[i + 1] <= |run.victims|
      requires Recorded() && v in records && Abs() == run.trace[run.count[i + 1]]
      modifies this`existing, this`deleting, this`records, this`destroyed, v
      ensures Recorded() && records.Keys == old(records.Keys)
      ensures run.count[i] == run.count[i + 1] + (if given then 1 else 0) <= |run.victims|
      ensures Abs() == run.trace[run.count[i]]
    {
      ghost var k := run.count[i + 1];
      assert TrimAt(st, vms, run.excess, run.victims, run.count, i);
      assert SameMarks(st, run.trace[k], vms);
      SameIdle(st, run.trace[k], vms, v);
      given := IsIdle(v);
      if given {
        assert GivenUpAt(run.trace, run.victims, accepted, k);
        GiveUpVm(v, accepted(v));
      }
    }

    /** Gives up idle dynamic VMs, from the end of the list, until the quota is met or the list is empty. */
    method TrimVms(vms: seq<VM>, quota: int, used: nat, accepted: VM -> bool, ghost run: TrimRun) returns (num: int)
      requires Follows(run, Abs(), vms, accepted) && run.excess == used - quota
      requires Recorded() && forall v | v in vms :: v in records
      modifies this`existing, this`deleting, this`records, this`destroyed, records.Keys
      ensures Recorded() && records.Keys == old(records.Keys)
      ensures num == used - |run.victims| && Abs() == run.trace[|run.victims|]
    {
      ghost var st := Abs();
      var rest := vms;
      num := used;
      assert TrimEnds(vms, run.excess, run.victims, run.count, |rest|);
      while num > quota && rest != []
        invariant rest <= vms && num == used - run.count[|rest|]
        invariant TrimEnds(vms, run.excess, run.victims, run.count, |rest|)
        invariant Recorded() && records.Keys == old(records.Keys) && Abs() == run.trace[run.count[|rest|]]
        decreases |rest|
      {
        var v := rest[|rest| - 1];
        rest := rest[..|rest| - 1];
        assert TrimEnds(vms, run.excess, run.victims, run.count, |rest|);
        var given := TrimNext(v, accepted, st, vms, |rest|, run);
        if given {
          num := num - 1;
        }
      }
    }

    method TrimAndCount(vms: seq<VM>, r: string, accepted: VM -> bool, ghost run: TrimRun)
      requires Shape() && r in cfg.quota && (forall v | v in vms :: v in records)
      requires Follows(run, Abs(), vms, accepted) && run.excess == Used(vms, records, r) - cfg.quota[r]
      modifies this`existing, this`deleting, this`records, this`destroyed, cloud`available, records.Keys
      ensures Shape() && records.Keys == old(records.Keys) && Abs() == AfterTrim(run, r)
    {
      var used := CountUsed(vms, r);
      var num := TrimVms(vms, cloud.quota[r], used, accepted, run);
      cloud.available := cloud.available[r := cloud.quota[r] - num];
    }

    method TrimOveruse(vms: seq<VM>, r: string, rep: LoadReport)
      requires Shape() && Listed() && r in cfg.quota
      requires multiset(vms) <= multiset(existing) && forall v | v in vms :: v in records
      modifies this`existing, this`deleting, this`records, this`destroyed, cloud`available, records.Keys
      ensures Shape() && Listed() && records.Keys == old(records.Keys)
      ensures Abs() == Trimmed(cfg, old(Abs()), vms, r, rep)
    {
      ghost var run := TrimTrace(cfg, Abs(), vms, r, rep);
      TrimmedLists(cfg, Abs(), vms, r, rep);
      TrimAndCount(vms, r, rep.accepted, run);
    }

    method AskForStatics(r: string, rep: LoadReport)
      requires r in cfg.quota && DeficitsOk(cfg, cloud.statics)
      modifies this`waiting
      ensures Abs() == AskedStatics(cfg, old(Abs()), r, rep)
    {
      if NeedsMore(cloud.statics[r]) {
        var list := cloud.GetProvisionList(r, rep.first(r), cfg.locations);
        waiting := waiting + list;
      }
    }

    method MarkMissing(vms: seq<VM>, r: string, rep: LoadReport)
      requires Recorded() && DeficitsOk(cfg, cloud.statics) && r in cfg.quota
      requires forall v | v in vms :: v in records && v.resource in cfg.quota
      modifies this`records, cloud`statics, records.Keys
      ensures Recorded() && records.Keys == old(records.Keys) && DeficitsOk(cfg, cloud.statics)
      ensures Abs() == MarkedFor(cfg, old(Abs()), vms, r, rep)
    {
      if NeedsMore(cloud.statics[r]) {
        MarkBase(vms, rep);
      }
    }

    method TrimAndAsk(vms: seq<VM>, r: string, rep: LoadReport)
      requires Shape() && Listed() && r in cfg.quota && DeficitsOk(cfg, cloud.statics)
      requires multiset(vms) <= multiset(existing) && forall v | v in vms :: v in records
      modifies this`existing, this`deleting, this`records, this`destroyed, this`waiting, cloud`available, records.Keys
      ensures Shape() && Listed() && records.Keys == old(records.Keys)
      ensures Abs() == AskedStatics(cfg, Trimmed(cfg, old(Abs()), vms, r, rep), r, rep)
    {
      TrimOveruse(vms, r, rep);
      AskForStatics(r, rep);
    }

    method LoadOneResource(r: string, rep: LoadReport)
      requires Shape() && Listed() && r in cfg.quota && DeficitsOk(cfg, cloud.statics)
      modifies this`existing, this`deleting, this`records, this`destroyed, this`waiting, cloud`available, cloud`statics,
               records.Keys
      ensures Shape() && Listed() && records.Keys == old(records.Keys) && DeficitsOk(cfg, cloud.statics)
      ensures Abs() == LoadResource(cfg, old(Abs()), r, rep)
    {
      var vms := VmsOf(existing, r);
      LoadLaws.VmsOfIn(existing, r);
      MarkMissing(vms, r, rep);
      TrimAndAsk(vms, r, rep);
    }

    method LoadNext(rep: LoadReport, ghost trace: seq<State>, k: nat)
      requires Shape() && Listed() && DeficitsOk(cfg, cloud.statics)
      requires |trace| == |cfg.order| + 1 && k < |cfg.order| && LoadedAt(cfg, trace, rep, k) && Abs() == trace[k]
      modifies this`existing, this`deleting, this`records, this`destroyed, this`waiting, cloud`available, cloud`statics,
               records.Keys
      ensures Shape() && Listed() && records.Keys == old(records.Keys) && DeficitsOk(cfg, cloud.statics)
      ensures Abs() == trace[k + 1]
    {
      assert cfg.order[k] in cfg.order;
      LoadOneResource(cfg.order[k], rep);
    }

    method LoadResources(rep: LoadReport)
      requires Shape() && Listed() && DeficitsOk(cfg, cloud.statics)
      modifies this`existing, this`deleting, this`records, this`destroyed, this`waiting, cloud`available, cloud`statics,
               records.Keys
      ensures Shape() && records.Keys == old(records.Keys)
      ensures Abs() == LoadedResources(cfg, old(Abs()), rep, |cfg.order|)
    {
      ghost var trace := LoadTrace(cfg, Abs(), rep);
      for k := 0 to |cfg.order|
        invariant Shape() && Listed() && records.Keys == old(records.Keys) && DeficitsOk(cfg, cloud.statics)
        invariant Abs() == trace[k]
      {
        LoadNext(rep, trace, k);
      }
    }

    /** Sorts the VMs of the cloud out by what Torque knows of them. */
    method SortOutExisting(rep: LoadReport, on: seq<VM>, off: seq<VM>)
      requires Shape() && Listed() && SortedOut(existing, on, off)
      modifies this`existing, this`starting, this`deleting, this`records, this`destroyed, records.Keys
      ensures Shape() && Listed() && records.Keys == old(records.Keys)
      ensures Abs() == DestroyedOnes(GoneOn(old(Abs()), on, |on|), off, rep.accepted, |off|)
    {
      RestAfterGoneOn(Abs(), on, off);
      GoneOnLists(Abs(), on);
      GoOnAll(on);
      GivenUpLists(Abs(), off, rep.accepted);
      GiveUpAll(off, rep.accepted);
    }

    method ScreenExisting(rep: LoadReport)
      requires Shape() && Listed()
      modifies this`existing, this`starting, this`deleting, this`workerNodes, this`records, this`destroyed, records.Keys
      ensures Shape() && Listed() && records.Keys == old(records.Keys) && Abs() == Screened(old(Abs()), rep)
    {
      workerNodes := rep.nodes;
      var on, off := JudgeExisting(rep);
      JudgedSortedOut(existing, rep);
      DropOrphans();
      ghost var s := Abs();
      assert s == old(Abs()).(workerNodes := Drop(rep.nodes, Orphans(old(existing), rep.nodes)));
      SortOutExisting(rep, on, off);
    }

    /** Everything before the first launch. */
    method LoadAll(rep: LoadReport)
      requires Shape() && Listed() && DeficitsOk(cfg, cloud.statics)
      modifies this, cloud, records.Keys
      ensures Shape() && Abs() == LoadMoves(cfg, old(Abs()), rep)
    {
      ScreenExisting(rep);
      LoadResources(rep);
      if starting != [] {
        provisioning := true;
      }
    }

    method LoadExistingWorkerNodes(rep: LoadReport, answers: nat -> Option<NewVm>) returns (started: seq<VM>)
      requires Shape() && NoDup(cfg.order) && LoadLaws.Fresh(cfg, Abs())
      modifies this, cloud, records.Keys
      ensures Valid() && Abs() == Load(cfg, old(Abs()), rep, started)
      ensures StaticTotals(cfg, Abs()) == StaticTotals(cfg, old(Abs()))
    {
      ghost var st := Abs();
      OnRecord(cfg, st);
      LoadAll(rep);
      started := [];
      if waiting != [] {
        started := LaunchInstances(answers);
      }
      LoadLaws.LoadEstablishes(cfg, st, rep, started);
    }

    // ----- whatever happens -----

    /** Does what the pollers or the administrator ask for; the event says what it was. The cloud poller updates
        the provision status only while the flag is up. */
    method Take(input: Input) returns (ghost e: Event)
      requires Valid() && FlavorsOk(cfg, cloud.flavors) && Answerable(input)
      modifies this, cloud`available, cloud`statics, records.Keys
      ensures Valid() && Possible(cfg, old(Abs()), e) && Abs() == Step(cfg, old(Abs()), e)
      ensures fresh(records.Keys - old(records.Keys))
    {
      match input
      case PollJobs(q, reps, places, zone) =>
        var plan, failure;
        ghost var owners;
        plan, failure, owners := CollectClusterInformation(q, reps, places, zone);
        e := Collecting(q, reps, plan);
      case PollStarting(reps, answers) =>
        var started := [];
        if provisioning {
          started := UpdateProvisionStatus(reps, answers);
        }
        e := Provisioning(reps, started);
      case PollDeleting(reps, answers) =>
        var started := CheckCleanup(reps, answers);
        e := CleaningUp(reps, started);
      case AskKill(name, force) =>
        var refusal := KillVm(name, force);
        e := Killing(name, force);
      case AskForceOff(accepted) =>
        ForceOff(accepted);
        e := ForcingOff(accepted);
      case AskSleep =>
        ToggleSleepMode();
        e := TogglingSleep;
    }

    method TakeNext(input: Input, ghost states: seq<State>, ghost events: seq<Event>)
      returns (ghost longer: seq<State>, ghost more: seq<Event>)
      requires Valid() && FlavorsOk(cfg, cloud.flavors) && Answerable(input)
      requires RunLaws.Chain(cfg, states, events) && states[|events|] == Abs()
      modifies this, cloud`available, cloud`statics, records.Keys
      ensures Valid() && fresh(records.Keys - old(records.Keys))
      ensures RunLaws.Chain(cfg, longer, more) && |more| == |events| + 1
      ensures longer[0] == states[0] && longer[|more|] == Abs()
    {
      ghost var e := Take(input);
      RunLaws.ChainGrows(cfg, states, events, Abs(), e);
      longer, more := states + [Abs()], events + [e];
    }

    method TakeAll(inputs: seq<Input>) returns (ghost states: seq<State>, ghost events: seq<Event>)
      requires Valid() && FlavorsOk(cfg, cloud.flavors) && forall k :: 0 <= k < |inputs| ==> Answerable(inputs[k])
      modifies this, cloud`available, cloud`statics, records.Keys
      ensures Valid() && RunLaws.Chain(cfg, states, events) && |events| == |inputs|
      ensures states[0] == old(Abs()) && states[|events|] == Abs()
    {
      ghost var origin := Abs();
      states, events := [origin], [];
      var k := 0;
      while k < |inputs|
        invariant Valid() && RunLaws.Chain(cfg, states, events) && |events| == k <= |inputs|
        invariant states[0] == origin && states[k] == Abs()
        invariant fresh(records.Keys - old(records.Keys))
      {
        states, events := TakeNext(inputs[k], states, events);
        k := k + 1;
      }
    }

    /** Whatever is asked for in whatever order, the object goes through a run, and so keeps what every run keeps. */
    method Serve(inputs: seq<Input>) returns (ghost events: seq<Event>)
      requires Valid() && FlavorsOk(cfg, cloud.flavors) && forall k :: 0 <= k < |inputs| ==> Answerable(inputs[k])
      modifies this, cloud`available, cloud`statics, records.Keys
      ensures Valid() && |events| == |inputs| && Run(cfg, old(Abs()), events)
      ensures Abs() == After(cfg, old(Abs()), events, |events|) && RunLaws.Kept(cfg, old(Abs()), Abs())
    {
      ghost var states;
      states, events := TakeAll(inputs);
      RunLaws.ChainIsRun(cfg, states, events);
    }
  }
}
