/** The steps of res_management.py's ResourceCenter as functions on its state. VMs are the objects
    themselves, so identity is kept; their changing fields are in the map `info`. The class in
    ResourceCenter.dfy is proved to follow these functions, and LifecycleLaws.dfy proves what they promise.
    What the cloud, Torque and Maui answer is an arbitrary argument of each step. */
module Lifecycle {
  import opened Outcomes
  import opened Sequences
  import opened Strings
  import opened CloudTools
  import opened Priorities

  /** One record of pbsnodes: `jobs` says whether the record lists running jobs. */
  datatype WorkerNode = WorkerNode(name: string, state: string, jobs: bool)

  /** `order` is the iteration order of the dictionary of resources. */
  datatype Config = Config(order: seq<string>, quota: map<string, int>, locations: seq<Location>, defaultZone: string,
                           batch: int, maxIdle: int, maxDown: int, maxInaccessible: int, interval: int)

  datatype State = State(
    existing: seq<VM>, starting: seq<VM>, deleting: seq<VM>, waiting: seq<ProvisionVM>,
    provisioning: bool, sleeping: bool,
    info: map<VM, Info>, avail: map<string, int>, deficit: map<string, seq<StaticReq>>,
    workerNodes: seq<WorkerNode>, idle: seq<Job>, running: nat,
    destroyed: seq<VM>)

  function InfoOf(st: State, v: VM): Info {
    if v in st.info then st.info[v] else FRESH
  }

  function SetInfo(st: State, v: VM, i: Info): State {
    st.(info := st.info[v := i])
  }

  function DeficitOf(st: State, r: string): seq<StaticReq> {
    if r in st.deficit then st.deficit[r] else []
  }

  function FindVm(vms: seq<VM>, name: string): Option<VM> {
    if vms == [] then None
    else if vms[0].hostname == name then Some(vms[0])
    else FindVm(vms[1..], name)
  }

  function FindNode(nodes: seq<WorkerNode>, name: string): Option<WorkerNode> {
    if nodes == [] then None
    else if nodes[0].name == name then Some(nodes[0])
    else FindNode(nodes[1..], name)
  }

  // ----- the cloud -----

  /** The result codes 0 to 4 of vm_check. */
  datatype CloudCode = Active | Configuring | Building | Gone | Failed

  /** What vm_check writes to the VM: an active one gets the default zone, whatever zone it was started in. */
  function Checked(cfg: Config, i: Info, code: CloudCode, status: string): Info {
    if code.Gone? then i
    else if code.Active? || code.Configuring? then i.(state := Some(status), zone := Some(cfg.defaultZone))
    else i.(state := Some(status))
  }

  /** vm_destroy: when the cloud accepts the request, the deletion time is set. */
  function Destroy(st: State, v: VM, accepted: bool): State {
    st.(destroyed := st.destroyed + [v],
        info := st.info[v := InfoOf(st, v).(deleteIssued := InfoOf(st, v).deleteIssued || accepted)])
  }

  // ----- update_available_cores -----

  /** How many VMs of the list are dynamic VMs of the resource. */
  function Used(vms: seq<VM>, info: map<VM, Info>, r: string): nat {
    if vms == [] then 0
    else
      var v := vms[|vms| - 1];
      Used(vms[..|vms| - 1], info, r) + if v in info && info[v].dynamic && v.resource == r then 1 else 0
  }

  function FreeNodes(cfg: Config, st: State, r: string): int
    requires r in cfg.quota
  {
    cfg.quota[r] - (Used(st.existing, st.info, r) + Used(st.deleting, st.info, r))
  }

  function UpdateAvailable(cfg: Config, st: State): State {
    st.(avail := map r | r in cfg.quota :: FreeNodes(cfg, st, r))
  }

  // ----- launch_instances -----

  function StaticSet(w: seq<ProvisionVM>): set<ProvisionVM> {
    set p | p in w && p.isStatic
  }

  function StaticOnly(w: seq<ProvisionVM>): seq<ProvisionVM> {
    Keep(w, StaticSet(w))
  }

  function Slots(cfg: Config, st: State): int {
    cfg.batch - |st.starting|
  }

  predicate MayLaunch(cfg: Config, st: State) {
    st.waiting != [] && Slots(cfg, st) > 0
  }

  /** The VMs that one call can start: new objects, one for each request from the front, at most one per slot.
      Fewer than that means that the cloud refused the next one. */
  ghost predicate Startable(cfg: Config, st: State, started: seq<VM>) {
    if MayLaunch(cfg, st) then
      && |started| <= Min(Slots(cfg, st), |st.waiting|)
      && NoDup(started)
      && (forall i :: 0 <= i < |started| ==> started[i] !in st.info && started[i].resource == st.waiting[i].resource)
    else started == []
  }

  /** The requests left after n VMs were started: when the batch is full, only static ones. */
  function LeftWaiting(w: seq<ProvisionVM>, n: nat, full: bool): seq<ProvisionVM> {
    var rest := if n <= |w| then w[n..] else [];
    if full then StaticOnly(rest) else rest
  }

  function Launch(cfg: Config, st: State, started: seq<VM>): State {
    if !MayLaunch(cfg, st) then st
    else
      st.(provisioning := true,
          starting := st.starting + started,
          info := st.info + (map v | v in started :: FRESH),
          waiting := LeftWaiting(st.waiting, |started|, |started| == Slots(cfg, st)))
  }

  // ----- update_provision_status -----

  /** What one pass learns about a starting VM: the vm_check result, whether Torque accepted the node and Maui
      shows it, whether it takes too long, the state in its Torque record if there is one, and whether the cloud
      accepts a destroy request. */
  datatype StartReport = StartReport(code: CloudCode, status: string, added: bool, visible: bool, late: bool,
                                     torque: Option<string>, accepted: bool)

  /** `nodes` is the answer to the node query made after a VM joins Torque. */
  datatype StartReports = StartReports(of: VM -> StartReport, nodes: seq<WorkerNode>)

  datatype StartFate = ReadyToUse | ToDelete | StillStarting

  function StartFateOf(cfg: Config, i: Info, r: StartReport): StartFate {
    if !i.cloudReady then
      match r.code
      case Active => if r.added && r.visible then StillStarting else ToDelete
      case Configuring => if r.late then ToDelete else StillStarting
      case Building => if r.late then ToDelete else StillStarting
      case Gone => ToDelete
      case Failed => ToDelete
    else
      match r.torque
      case None => StillStarting
      case Some(s) =>
        if s == "free" || s == "job-exclusive" then ReadyToUse
        else if i.stateTime > cfg.maxInaccessible then ToDelete
        else StillStarting
  }

  function StartInfo(cfg: Config, i: Info, r: StartReport): Info {
    if i.cloudReady then i
    else
      var c := Checked(cfg, i, r.code, r.status);
      if r.code.Active? then c.(cloudReady := true) else c
  }

  predicate Joins(i: Info, r: StartReport) {
    !i.cloudReady && r.code.Active? && r.added && r.visible
  }

  function InspectOne(cfg: Config, st: State, v: VM, reps: StartReports): State {
    var i := InfoOf(st, v);
    SetInfo(st, v, StartInfo(cfg, i, reps.of(v)))
      .(workerNodes := if Joins(i, reps.of(v)) then reps.nodes else st.workerNodes)
  }

  /** The state after the first k starting VMs have been looked at. */
  function Inspected(cfg: Config, st: State, reps: StartReports, k: nat): State
    requires k <= |st.starting|
  {
    if k == 0 then st else InspectOne(cfg, Inspected(cfg, st, reps, k - 1), st.starting[k - 1], reps)
  }

  /** The first k starting VMs that meet the given fate, in order. */
  function Fated(cfg: Config, st: State, reps: StartReports, fate: StartFate, k: nat): seq<VM>
    requires k <= |st.starting|
  {
    if k == 0 then []
    else
      var v := st.starting[k - 1];
      Fated(cfg, st, reps, fate, k - 1)
      + if StartFateOf(cfg, InfoOf(st, v), reps.of(v)) == fate then [v] else []
  }

  /** need_vm: if a static VM is missing in the VM's zone, this VM becomes static and one fewer is missing. */
  function MarkStatic(cfg: Config, st: State, v: VM): State {
    var reqs := DeficitOf(st, v.resource);
    var zone := InfoOf(st, v).zone;
    if Wants(reqs, zone, cfg.locations) then
      st.(deficit := st.deficit[v.resource := TakeOne(reqs, zone, cfg.locations)],
          info := st.info[v := InfoOf(st, v).(dynamic := false)])
    else st
  }

  function ReadyOne(cfg: Config, st: State, v: VM): State {
    var s := MarkStatic(cfg, st.(starting := RemoveFirst(st.starting, v)), v);
    s.(existing := s.existing + [v])
  }

  function Readied(cfg: Config, st: State, vms: seq<VM>, k: nat): State
    requires k <= |vms|
  {
    if k == 0 then st else ReadyOne(cfg, Readied(cfg, st, vms, k - 1), vms[k - 1])
  }

  function Again(v: VM, i: Info): ProvisionVM {
    ProvisionVM(v.flavor, i.zone, v.resource, !i.dynamic)
  }

  /** A failed VM is asked for again if it had got a zone, destroyed, and moved to the deleting list. */
  function FailOne(st: State, v: VM, accepted: bool): State {
    var w := if InfoOf(st, v).zone.Some? then st.waiting + [Again(v, InfoOf(st, v))] else st.waiting;
    var s := Destroy(st.(waiting := w), v, accepted);
    s.(starting := RemoveFirst(s.starting, v), deleting := s.deleting + [v])
  }

  function FailedOnes(st: State, reps: StartReports, vms: seq<VM>, k: nat): State
    requires k <= |vms|
  {
    if k == 0 then st else FailOne(FailedOnes(st, reps, vms, k - 1), vms[k - 1], reps.of(vms[k - 1]).accepted)
  }

  /** One pass of update_provision_status, up to the launch of waiting requests. */
  function ProvisionMoves(cfg: Config, st: State, reps: StartReports): State {
    var n := |st.starting|;
    var ready := Fated(cfg, st, reps, ReadyToUse, n);
    var failed := Fated(cfg, st, reps, ToDelete, n);
    var s := Readied(cfg, Inspected(cfg, st, reps, n), ready, |ready|);
    UpdateAvailable(cfg, FailedOnes(s, reps, failed, |failed|))
  }

  predicate NothingPending(st: State) {
    st.starting == [] && st.waiting == []
  }

  function ProvisionPass(cfg: Config, st: State, reps: StartReports, started: seq<VM>): State {
    var s := ProvisionMoves(cfg, st, reps);
    if NothingPending(s) then s.(provisioning := false) else Launch(cfg, s, started)
  }

  // ----- check_cleanup -----

  /** get_wn_in_torque: the query failed, no such node, or its record. */
  datatype TorqueRecord = Unknown | Absent | Present(jobs: bool)

  /** What one pass learns about a VM being deleted; `retry` says that the last destroy request is long ago. */
  datatype CleanupReport = CleanupReport(code: CloudCode, status: string, torque: TorqueRecord, retry: bool,
                                         accepted: bool)

  datatype CleanupFate =
    | Deleted                               // forgotten
    | Cancelled                             // returns to the existing VMs
    | StillDeleting(unhook: bool, destroy: bool)  // removed from Torque, destroyed in the cloud

  function CleanupFateOf(v: VM, i: Info, r: CleanupReport): CleanupFate {
    if v.hostname == "" then
      if r.code.Gone? then Deleted else StillDeleting(false, false)
    else
      match r.torque
      case Unknown => StillDeleting(false, false)
      case Absent => if r.code.Gone? then Deleted else StillDeleting(false, !i.deleteIssued || r.retry)
      case Present(jobs) =>
        if r.code.Gone? then StillDeleting(true, false)
        else if !jobs then StillDeleting(true, true)
        else if i.forceOff then StillDeleting(false, false)
        else Cancelled
  }

  /** Destroying a VM without jobs sets its deletion time even when the cloud refuses. */
  function SweepOne(cfg: Config, st: State, v: VM, r: CleanupReport): State {
    var fate := CleanupFateOf(v, InfoOf(st, v), r);
    var s := SetInfo(st, v, Checked(cfg, InfoOf(st, v), r.code, r.status));
    if fate.StillDeleting? && fate.destroy then Destroy(s, v, r.accepted || fate.unhook) else s
  }

  function Swept(cfg: Config, st: State, reps: VM -> CleanupReport, k: nat): State
    requires k <= |st.deleting|
  {
    if k == 0 then st else SweepOne(cfg, Swept(cfg, st, reps, k - 1), st.deleting[k - 1], reps(st.deleting[k - 1]))
  }

  function Ended(st: State, reps: VM -> CleanupReport, fate: CleanupFate, k: nat): seq<VM>
    requires k <= |st.deleting|
  {
    if k == 0 then []
    else
      var v := st.deleting[k - 1];
      Ended(st, reps, fate, k - 1) + if CleanupFateOf(v, InfoOf(st, v), reps(v)) == fate then [v] else []
  }

  /** A deleted static VM is missing again at its location, and a static replacement is requested. */
  function DeleteOne(cfg: Config, st: State, v: VM): State {
    var s := st.(deleting := RemoveFirst(st.deleting, v));
    var i := InfoOf(st, v);
    var location := LocationOf(cfg.locations, i.zone);
    if i.dynamic || location.None? then s
    else
      s.(deficit := s.deficit[v.resource := AddReq(DeficitOf(s, v.resource), location.value, 1)],
         waiting := s.waiting + [Again(v, i)])
  }

  function DeletedOnes(cfg: Config, st: State, vms: seq<VM>, k: nat): State
    requires k <= |vms|
  {
    if k == 0 then st else DeleteOne(cfg, DeletedOnes(cfg, st, vms, k - 1), vms[k - 1])
  }

  function CancelOne(st: State, v: VM): State {
    st.(existing := st.existing + [v], deleting := RemoveFirst(st.deleting, v))
  }

  function CancelledOnes(st: State, vms: seq<VM>, k: nat): State
    requires k <= |vms|
  {
    if k == 0 then st else CancelOne(CancelledOnes(st, vms, k - 1), vms[k - 1])
  }

  function CleanupMoves(cfg: Config, st: State, reps: VM -> CleanupReport): State {
    var n := |st.deleting|;
    var gone := Ended(st, reps, Deleted, n);
    var back := Ended(st, reps, Cancelled, n);
    var s := DeletedOnes(cfg, Swept(cfg, st, reps, n), gone, |gone|);
    UpdateAvailable(cfg, CancelledOnes(s, back, |back|))
  }

  /** The state in which check_cleanup may launch, if it does. */
  predicate CleanupLaunches(s: State) {
    s.waiting != [] && !s.provisioning
  }

  function CleanupPass(cfg: Config, st: State, reps: VM -> CleanupReport, started: seq<VM>): State {
    if st.deleting == [] then st
    else
      var s := CleanupMoves(cfg, st, reps);
      if CleanupLaunches(s) then Launch(cfg, s, started) else s
  }

  // ----- check_existing_worker_nodes -----

  /** Maui's state of each node, and whether the cloud accepts a destroy request. */
  datatype NodeReports = NodeReports(state: string -> Option<string>, accepted: VM -> bool)

  /** state_time counts the polls during which the state stayed the same. */
  function Observe(cfg: Config, st: State, v: VM, s: Option<string>): State {
    var i := InfoOf(st, v);
    SetInfo(st, v, i.(state := s, stateTime := if i.state != s then 0 else i.stateTime + cfg.interval))
  }

  /** Shuts an idle VM down and forgets it. */
  function ShutDown(cfg: Config, st: State, v: VM, accepted: bool): State {
    var s := Destroy(SetInfo(st, v, InfoOf(st, v).(forceOff := true)), v, accepted);
    UpdateAvailable(cfg, s.(existing := RemoveFirst(s.existing, v))).(provisioning := false)
  }

  predicate Swappable(st: State, v: VM, w: VM) {
    InfoOf(st, w).dynamic && w.vcpus == v.vcpus && InfoOf(st, w).zone == InfoOf(st, v).zone && w.resource == v.resource
  }

  /** The VM of the first other busy node that can take over the static role. */
  function Partner(st: State, nodes: seq<WorkerNode>, wn: WorkerNode, v: VM): Option<VM> {
    if nodes == [] then None
    else
      var w := FindVm(st.existing, nodes[0].name);
      if nodes[0].name != wn.name && nodes[0].jobs && w.Some? && Swappable(st, v, w.value) then w
      else Partner(st, nodes[1..], wn, v)
  }

  function Swap(st: State, v: VM, w: VM): State {
    var s := SetInfo(st, v, InfoOf(st, v).(dynamic := true));
    SetInfo(s, w, InfoOf(s, w).(dynamic := false))
  }

  function Retire(st: State, v: VM): State {
    st.(deleting := st.deleting + [v], existing := RemoveFirst(st.existing, v))
  }

  /** What to do about a VM after its node has been looked at. */
  datatype NodeAction = Leave | Stop | HandOver(to: VM) | MoveOut

  function ActionFor(cfg: Config, st: State, wn: WorkerNode, v: VM, state: Option<string>): NodeAction {
    var i := InfoOf(st, v);
    if wn.jobs then Leave
    else if state == Some("free") && i.stateTime > cfg.maxIdle then
      if i.dynamic then Stop
      else
        var w := if st.running > 0 then Partner(st, st.workerNodes, wn, v) else None;
        if w.Some? then HandOver(w.value) else Leave
    else if state == Some("drained") then MoveOut
    else if state.Some? && Contains(Lower(wn.state), "down") && Contains(state.value, "down")
            && i.stateTime > cfg.maxDown then MoveOut
    else Leave
  }

  function Act(cfg: Config, st: State, v: VM, action: NodeAction, accepted: bool): State {
    match action
    case Leave => st
    case Stop => ShutDown(cfg, st, v, accepted)
    case HandOver(w) => ShutDown(cfg, Swap(st, v, w), v, accepted)
    case MoveOut => Retire(st, v)
  }

  function CheckNode(cfg: Config, st: State, wn: WorkerNode, reps: NodeReports): State {
    var found := FindVm(st.existing, wn.name);
    if found.None? then st
    else
      var s := Observe(cfg, st, found.value, reps.state(wn.name));
      Act(cfg, s, found.value, ActionFor(cfg, s, wn, found.value, reps.state(wn.name)), reps.accepted(found.value))
  }

  function CheckedNodes(cfg: Config, st: State, reps: NodeReports, k: nat): State
    requires k <= |st.workerNodes|
  {
    if k == 0 then st else CheckNode(cfg, CheckedNodes(cfg, st, reps, k - 1), st.workerNodes[k - 1], reps)
  }

  function CheckExisting(cfg: Config, st: State, reps: NodeReports): State {
    UpdateAvailable(cfg, CheckedNodes(cfg, st, reps, |st.workerNodes|))
  }

  // ----- collect_cluster_information -----

  /** The answers of qstat, Maui and pbsnodes; the idle jobs come ordered by number. */
  datatype Query = Query(jobsUp: bool, idle: seq<Job>, running: nat, mauiUp: bool, priorities: seq<Entry>,
                         nodesUp: bool, nodes: seq<WorkerNode>)

  /** The state after the three queries. */
  function Queried(st: State, q: Query): State {
    var s := st.(idle := q.idle, running := q.running);
    if !q.jobsUp then s
    else s.(idle := if q.mauiUp then Prioritised(q.idle, q.priorities) else q.idle, workerNodes := q.nodes)
  }

  predicate MayAct(st: State, q: Query) {
    q.jobsUp && q.nodesUp && q.mauiUp && !st.sleeping && !st.provisioning
  }

  predicate HasAvailable(st: State) {
    exists r | r in st.avail :: st.avail[r] > 0
  }

  /** The state in which the planner runs, if it does. */
  function PlanningState(cfg: Config, st: State, q: Query, reps: NodeReports): Option<State> {
    if !MayAct(st, q) then None
    else
      var s := CheckExisting(cfg, Queried(st, q), reps);
      if HasAvailable(s) && s.idle != [] then Some(s) else None
  }

  function Collect(cfg: Config, st: State, q: Query, reps: NodeReports, plan: seq<ProvisionVM>): State {
    if !MayAct(st, q) then Queried(st, q)
    else
      var s := CheckExisting(cfg, Queried(st, q), reps);
      if PlanningState(cfg, st, q, reps).Some? && plan != [] && !s.provisioning then
        s.(waiting := s.waiting + plan, provisioning := true)
      else s
  }

  // ----- the administrator's commands -----

  /** Why kill_vm refuses, if it does. */
  function KillRefusal(st: State, name: string, force: bool): Option<Error> {
    var v := FindVm(st.existing, name);
    if v.None? then Some(Refused("not found in vm list"))
    else
      var wn := FindNode(st.workerNodes, v.value.hostname);
      if wn.None? then Some(Refused("not a worker node"))
      else if wn.value.jobs && !force then Some(Refused("busy"))
      else None
  }

  function Kill(st: State, name: string, force: bool): State {
    var v := FindVm(st.existing, name);
    if KillRefusal(st, name, force).Some? || v.None? then st
    else Retire(SetInfo(st, v.value, InfoOf(st, v.value).(forceOff := force)), v.value)
  }

  function ForceOne(st: State, v: VM, accepted: bool): State {
    Destroy(SetInfo(st, v, InfoOf(st, v).(forceOff := true)), v, accepted)
  }

  /** The first k existing VMs forced off and destroyed. */
  function ForcedOff(st: State, accepted: VM -> bool, k: nat): State
    requires k <= |st.existing|
  {
    if k == 0 then st
    else ForceOne(ForcedOff(st, accepted, k - 1), st.existing[k - 1], accepted(st.existing[k - 1]))
  }

  function DestroyedAll(st: State, vms: seq<VM>, accepted: VM -> bool, k: nat): State
    requires k <= |vms|
  {
    if k == 0 then st else Destroy(DestroyedAll(st, vms, accepted, k - 1), vms[k - 1], accepted(vms[k - 1]))
  }

  function ForceOff(st: State, accepted: VM -> bool): State {
    var s := ForcedOff(st, accepted, |st.existing|);
    var t := s.(deleting := s.deleting + s.existing, existing := []);
    var u := DestroyedAll(t, t.starting, accepted, |t.starting|);
    u.(deleting := u.deleting + u.starting, starting := [])
  }

  // ----- runs -----

  datatype Event =
    | Collecting(query: Query, nodes: NodeReports, plan: seq<ProvisionVM>)
    | Provisioning(starts: StartReports, started: seq<VM>)
    | CleaningUp(ends: VM -> CleanupReport, started: seq<VM>)
    | Killing(name: string, force: bool)
    | ForcingOff(accepted: VM -> bool)
    | TogglingSleep

  /** The cloud poller runs update_provision_status only while the flag is up. */
  function Step(cfg: Config, st: State, e: Event): State {
    match e
    case Collecting(q, nodes, plan) => Collect(cfg, st, q, nodes, plan)
    case Provisioning(starts, started) => if st.provisioning then ProvisionPass(cfg, st, starts, started) else st
    case CleaningUp(ends, started) => CleanupPass(cfg, st, ends, started)
    case Killing(name, force) => Kill(st, name, force)
    case ForcingOff(accepted) => ForceOff(st, accepted)
    case TogglingSleep => st.(sleeping := !st.sleeping)
  }

  /** A planned VM is a dynamic one of a configured resource. */
  ghost predicate Plannable(cfg: Config, plan: seq<ProvisionVM>) {
    forall p | p in plan :: p.resource in cfg.quota && !p.isStatic
  }

  /** What an event carries is possible: planned requests are the planner's, started VMs are new objects. */
  ghost predicate Possible(cfg: Config, st: State, e: Event) {
    match e
    case Collecting(q, nodes, plan) => Plannable(cfg, plan)
    case Provisioning(starts, started) =>
      st.provisioning ==> Startable(cfg, ProvisionMoves(cfg, st, starts), started)
    case CleaningUp(ends, started) =>
      var s := CleanupMoves(cfg, st, ends);
      st.deleting != [] && CleanupLaunches(s) ==> Startable(cfg, s, started)
    case Killing(name, force) => true
    case ForcingOff(accepted) => true
    case TogglingSleep => true
  }

  /** The state after the first k events. */
  function After(cfg: Config, st: State, events: seq<Event>, k: nat): State
    requires k <= |events|
  {
    if k == 0 then st else Step(cfg, After(cfg, st, events, k - 1), events[k - 1])
  }

  ghost predicate Run(cfg: Config, st: State, events: seq<Event>) {
    forall k :: 0 <= k < |events| ==> Possible(cfg, After(cfg, st, events, k), events[k])
  }
}
