/** What check_existing_worker_nodes, collect_cluster_information and the administrator's commands keep. */
module NodeLaws {
  import opened Outcomes
  import opened Sequences
  import opened CloudTools
  import opened Lifecycle
  import opened LifecycleInvariant

  lemma {:induction false} FindVmFinds(vms: seq<VM>, name: string)
    ensures var f := FindVm(vms, name); f.Some? ==> f.value in vms && f.value.hostname == name
    ensures FindVm(vms, name).None? <==> forall v | v in vms :: v.hostname != name
  {
    if vms != [] {
      assert vms == [vms[0]] + vms[1..];
      FindVmFinds(vms[1..], name);
    }
  }

  lemma {:induction false} PartnerFinds(st: State, nodes: seq<WorkerNode>, wn: WorkerNode, v: VM)
    ensures var w := Partner(st, nodes, wn, v);
            w.Some? ==> w.value in st.existing && w.value.hostname != wn.name && Swappable(st, v, w.value)
  {
    if nodes != [] {
      FindVmFinds(st.existing, nodes[0].name);
      PartnerFinds(st, nodes[1..], wn, v);
    }
  }

  // ----- one node -----

  lemma ShutDownStep(cfg: Config, st: State, v: VM, accepted: bool)
    requires ConfigOk(cfg) && Core(cfg, st) && v in st.existing && InfoOf(st, v).dynamic
    ensures KeepsKinds(cfg, st, ShutDown(cfg, st, v, accepted))
  {
    OnBooks(st, v);
    var forced := SetInfo(st, v, InfoOf(st, v).(forceOff := true));
    InfoKeepsKinds(cfg, st, v, InfoOf(st, v).(forceOff := true));
    var s := Destroy(forced, v, accepted);
    DestroyStep(cfg, forced, v, accepted);
    KeepsKindsTwice(cfg, st, forced, s);
    ForgetStep(cfg, st, s, v);
  }

  lemma ForgetStep(cfg: Config, st: State, s: State, v: VM)
    requires KeepsKinds(cfg, st, s) && v in s.existing && InfoOf(s, v).dynamic
    ensures var t := s.(existing := RemoveFirst(s.existing, v));
            KeepsKinds(cfg, st, UpdateAvailable(cfg, t).(provisioning := false))
  {
    var t := s.(existing := RemoveFirst(s.existing, v));
    ForgetDynamic(cfg, s, v);
    KeepsKindsTwice(cfg, st, s, t);
    OtherFields(cfg, t, UpdateAvailable(cfg, t).(provisioning := false));
    KeepsKindsTwice(cfg, st, t, UpdateAvailable(cfg, t).(provisioning := false));
  }

  lemma ObserveStep(cfg: Config, st: State, v: VM, s: Option<string>)
    requires ConfigOk(cfg) && Core(cfg, st) && v in st.existing
    ensures KeepsKinds(cfg, st, Observe(cfg, st, v, s))
  {
    OnBooks(st, v);
    var i := InfoOf(st, v);
    InfoKeepsKinds(cfg, st, v, i.(state := s, stateTime := if i.state != s then 0 else i.stateTime + cfg.interval));
  }

  lemma TakeOverStep(cfg: Config, st: State, v: VM, w: VM, accepted: bool)
    requires ConfigOk(cfg) && Core(cfg, st) && v in st.existing && w in st.existing && v != w
    requires !InfoOf(st, v).dynamic && Swappable(st, v, w)
    ensures KeepsKinds(cfg, st, ShutDown(cfg, Swap(st, v, w), v, accepted))
  {
    var s := Swap(st, v, w);
    SwapStep(cfg, st, v, w);
    ShutDownStep(cfg, s, v, accepted);
    KeepsKindsTwice(cfg, st, s, ShutDown(cfg, s, v, accepted));
  }

  lemma ActStep(cfg: Config, st: State, wn: WorkerNode, v: VM, state: Option<string>, accepted: bool)
    requires ConfigOk(cfg) && Core(cfg, st) && v in st.existing && v.hostname == wn.name
    ensures KeepsKinds(cfg, st, Act(cfg, st, v, ActionFor(cfg, st, wn, v, state), accepted))
  {
    var action := ActionFor(cfg, st, wn, v, state);
    match action
    case Leave =>
    case Stop => ShutDownStep(cfg, st, v, accepted);
    case HandOver(w) =>
      PartnerFinds(st, st.workerNodes, wn, v);
      TakeOverStep(cfg, st, v, w, accepted);
    case MoveOut => RetireStep(cfg, st, v);
  }

  lemma ObserveShape(cfg: Config, st: State, v: VM, state: Option<string>)
    ensures var s := Observe(cfg, st, v, state); s == st.(info := s.info)
  {
  }

  lemma CheckNodeStep(cfg: Config, st: State, wn: WorkerNode, reps: NodeReports)
    requires ConfigOk(cfg) && Core(cfg, st)
    ensures KeepsKinds(cfg, st, CheckNode(cfg, st, wn, reps))
  {
    FindVmFinds(st.existing, wn.name);
    var found := FindVm(st.existing, wn.name);
    if found.Some? {
      var v, state := found.value, reps.state(wn.name);
      var s := Observe(cfg, st, v, state);
      ObserveStep(cfg, st, v, state);
      ObserveShape(cfg, st, v, state);
      ActStep(cfg, s, wn, v, state, reps.accepted(v));
      KeepsKindsTwice(cfg, st, s, CheckNode(cfg, st, wn, reps));
    }
  }

  // ----- the pass -----

  lemma CheckedNext(cfg: Config, st: State, reps: NodeReports, k: nat)
    requires ConfigOk(cfg) && k < |st.workerNodes|
    requires KeepsKinds(cfg, st, CheckedNodes(cfg, st, reps, k))
    ensures KeepsKinds(cfg, st, CheckedNodes(cfg, st, reps, k + 1))
  {
    var s := CheckedNodes(cfg, st, reps, k);
    CheckNodeStep(cfg, s, st.workerNodes[k], reps);
    KeepsKindsTwice(cfg, st, s, CheckNode(cfg, s, st.workerNodes[k], reps));
  }

  ghost function CheckedKinds(cfg: Config, st: State, reps: NodeReports): nat -> bool {
    (k: nat) => k <= |st.workerNodes| && KeepsKinds(cfg, st, CheckedNodes(cfg, st, reps, k))
  }

  lemma CheckedOnward(cfg: Config, st: State, reps: NodeReports, k: nat)
    requires ConfigOk(cfg)
    ensures k < |st.workerNodes| && CheckedKinds(cfg, st, reps)(k) ==> CheckedKinds(cfg, st, reps)(k + 1)
  {
    if k < |st.workerNodes| && KeepsKinds(cfg, st, CheckedNodes(cfg, st, reps, k)) {
      CheckedNext(cfg, st, reps, k);
    }
  }

  lemma CheckedOnwards(cfg: Config, st: State, reps: NodeReports)
    requires ConfigOk(cfg)
    ensures forall k: nat ::
              k < |st.workerNodes| && CheckedKinds(cfg, st, reps)(k) ==> CheckedKinds(cfg, st, reps)(k + 1)
  {
    forall k: nat
      ensures k < |st.workerNodes| && CheckedKinds(cfg, st, reps)(k) ==> CheckedKinds(cfg, st, reps)(k + 1)
    {
      CheckedOnward(cfg, st, reps, k);
    }
  }

  lemma CheckedKeeps(cfg: Config, st: State, reps: NodeReports, k: nat)
    requires ConfigOk(cfg) && KeepsKinds(cfg, st, st) && k <= |st.workerNodes|
    ensures KeepsKinds(cfg, st, CheckedNodes(cfg, st, reps, k))
  {
    CheckedOnwards(cfg, st, reps);
    assert CheckedKinds(cfg, st, reps)(0);
    Induct(CheckedKinds(cfg, st, reps), k);
  }

  /** One pass keeps the static VMs of every kind, that is of every resource, zone and size, although it swaps
      roles and removes VMs on the way. */
  lemma CheckExistingKeepsKinds(cfg: Config, st: State, reps: NodeReports)
    requires ConfigOk(cfg) && Core(cfg, st)
    ensures KeepsKinds(cfg, st, CheckExisting(cfg, st, reps))
  {
    var s := CheckedNodes(cfg, st, reps, |st.workerNodes|);
    CheckedKeeps(cfg, st, reps, |st.workerNodes|);
    OtherFields(cfg, s, UpdateAvailable(cfg, s));
    KeepsKindsTwice(cfg, st, s, UpdateAvailable(cfg, s));
  }

  /** Some record of the VM's node lists no jobs. */
  ghost predicate HasIdleRecord(nodes: seq<WorkerNode>, v: VM) {
    exists i :: 0 <= i < |nodes| && nodes[i].name == v.hostname && !nodes[i].jobs
  }

  ghost predicate AllIdle(nodes: seq<WorkerNode>, vms: seq<VM>) {
    forall v | v in vms :: HasIdleRecord(nodes, v)
  }

  /** From a to b, VMs are destroyed, retired or dropped only if a record of theirs lists no jobs, and the
      starting VMs and the requests are left alone. */
  ghost predicate TouchesOnlyIdle(a: State, b: State, nodes: seq<WorkerNode>, killed: seq<VM>, retired: seq<VM>) {
    && b.destroyed == a.destroyed + killed && AllIdle(nodes, killed)
    && b.deleting == a.deleting + retired && AllIdle(nodes, retired)
    && (forall v | v in a.existing :: v in b.existing || v in killed || v in retired)
    && b.starting == a.starting && b.waiting == a.waiting && b.workerNodes == a.workerNodes
    && b.idle == a.idle && b.running == a.running && b.sleeping == a.sleeping
    && (b.provisioning ==> a.provisioning)
  }

  lemma {:induction false} OthersStay(s: seq<VM>, v: VM)
    ensures forall w | w in s :: w == v || w in RemoveFirst(s, v)
  {
    if s != [] {
      assert s == [s[0]] + s[1..];
      OthersStay(s[1..], v);
    }
  }

  /** What an action does to the lists and the log. */
  lemma ActShape(cfg: Config, st: State, v: VM, action: NodeAction, accepted: bool)
    ensures var t := Act(cfg, st, v, action, accepted);
            && t == st.(existing := t.existing, deleting := t.deleting, info := t.info, avail := t.avail,
                        destroyed := t.destroyed, provisioning := t.provisioning)
            && (t.provisioning ==> st.provisioning)
            && t.existing == (if action.Leave? then st.existing else RemoveFirst(st.existing, v))
            && t.destroyed == st.destroyed + (if action.Stop? || action.HandOver? then [v] else [])
            && t.deleting == st.deleting + (if action.MoveOut? then [v] else [])
  {
  }

  lemma TouchNode(cfg: Config, st: State, wn: WorkerNode, reps: NodeReports, nodes: seq<WorkerNode>)
    returns (killed: seq<VM>, retired: seq<VM>)
    requires wn in nodes
    ensures TouchesOnlyIdle(st, CheckNode(cfg, st, wn, reps), nodes, killed, retired)
  {
    killed, retired := [], [];
    var found := FindVm(st.existing, wn.name);
    FindVmFinds(st.existing, wn.name);
    if found.Some? {
      var v, state := found.value, reps.state(wn.name);
      var s := Observe(cfg, st, v, state);
      ObserveShape(cfg, st, v, state);
      var action := ActionFor(cfg, s, wn, v, state);
      ActShape(cfg, s, v, action, reps.accepted(v));
      OthersStay(st.existing, v);
      killed := if action.Stop? || action.HandOver? then [v] else [];
      retired := if action.MoveOut? then [v] else [];
      if !action.Leave? {
        var i :| 0 <= i < |nodes| && nodes[i] == wn;
        assert HasIdleRecord(nodes, v);
      }
    }
  }

  lemma TouchTwice(a: State, b: State, c: State, nodes: seq<WorkerNode>,
                   k0: seq<VM>, r0: seq<VM>, k1: seq<VM>, r1: seq<VM>)
    requires TouchesOnlyIdle(a, b, nodes, k0, r0) && TouchesOnlyIdle(b, c, nodes, k1, r1)
    ensures TouchesOnlyIdle(a, c, nodes, k0 + k1, r0 + r1)
  {
  }

  lemma {:induction false} CheckedTouch(cfg: Config, st: State, reps: NodeReports, k: nat)
    returns (killed: seq<VM>, retired: seq<VM>)
    requires k <= |st.workerNodes|
    ensures TouchesOnlyIdle(st, CheckedNodes(cfg, st, reps, k), st.workerNodes, killed, retired)
  {
    killed, retired := [], [];
    if k > 0 {
      var k0, r0 := CheckedTouch(cfg, st, reps, k - 1);
      var s := CheckedNodes(cfg, st, reps, k - 1);
      var k1, r1 := TouchNode(cfg, s, st.workerNodes[k - 1], reps, st.workerNodes);
      TouchTwice(st, s, CheckedNodes(cfg, st, reps, k), st.workerNodes, k0, r0, k1, r1);
      killed, retired := k0 + k1, r0 + r1;
    }
  }

  /** One pass destroys or retires only VMs with an idle record. */
  lemma CheckExistingTouchesOnlyIdle(cfg: Config, st: State, reps: NodeReports)
    returns (killed: seq<VM>, retired: seq<VM>)
    ensures TouchesOnlyIdle(st, CheckExisting(cfg, st, reps), st.workerNodes, killed, retired)
  {
    killed, retired := CheckedTouch(cfg, st, reps, |st.workerNodes|);
  }

  // ----- collect_cluster_information -----

  lemma CheckedQueryKeeps(cfg: Config, st: State, q: Query, reps: NodeReports)
    requires ConfigOk(cfg) && Core(cfg, st) && NothingPending(st)
    ensures Conserves(cfg, st, CheckExisting(cfg, Queried(st, q), reps))
    ensures NothingPending(CheckExisting(cfg, Queried(st, q), reps))
  {
    var s := Queried(st, q);
    OtherFields(cfg, st, s);
    CheckExistingKeepsKinds(cfg, s, reps);
    KindsGiveTotals(cfg, s, CheckExisting(cfg, s, reps));
    ConservesTwice(cfg, st, s, CheckExisting(cfg, s, reps));
    var killed, retired := CheckExistingTouchesOnlyIdle(cfg, s, reps);
  }

  lemma CollectKeeps(cfg: Config, st: State, q: Query, reps: NodeReports, plan: seq<ProvisionVM>)
    requires ConfigOk(cfg) && Inv(cfg, st) && Plannable(cfg, plan)
    ensures Conserves(cfg, st, Collect(cfg, st, q, reps, plan)) && FlagOk(Collect(cfg, st, q, reps, plan))
  {
    if !MayAct(st, q) {
      OtherFields(cfg, st, Queried(st, q));
    } else {
      CheckedQueryKeeps(cfg, st, q, reps);
      var s := CheckExisting(cfg, Queried(st, q), reps);
      var t := Collect(cfg, st, q, reps, plan);
      OtherFields(cfg, s, t);
      ConservesTwice(cfg, st, s, t);
    }
  }

  // ----- the administrator's commands -----

  lemma KillKeeps(cfg: Config, st: State, name: string, force: bool)
    requires ConfigOk(cfg) && Core(cfg, st)
    ensures Conserves(cfg, st, Kill(st, name, force))
  {
    FindVmFinds(st.existing, name);
    if KillRefusal(st, name, force).None? {
      var v := FindVm(st.existing, name).value;
      var i := InfoOf(st, v).(forceOff := force);
      OnBooks(st, v);
      InfoKeepsKinds(cfg, st, v, i);
      RetireStep(cfg, SetInfo(st, v, i), v);
      KeepsKindsTwice(cfg, st, SetInfo(st, v, i), Kill(st, name, force));
      KindsGiveTotals(cfg, st, Kill(st, name, force));
    }
  }

  /** Only records and the destroy log differ. */
  ghost predicate SameLists(a: State, b: State) {
    b == a.(info := b.info, destroyed := b.destroyed)
  }

  lemma ForceStep(cfg: Config, st: State, s: State, v: VM, accepted: bool)
    requires ConfigOk(cfg) && KeepsKinds(cfg, st, s) && SameLists(st, s) && v in Books(st)
    ensures KeepsKinds(cfg, st, ForceOne(s, v, accepted)) && SameLists(st, ForceOne(s, v, accepted))
  {
    assert Books(s) == Books(st);
    var i := InfoOf(s, v).(forceOff := true);
    InfoKeepsKinds(cfg, s, v, i);
    KeepsKindsTwice(cfg, st, s, SetInfo(s, v, i));
    DestroyStep(cfg, SetInfo(s, v, i), v, accepted);
    KeepsKindsTwice(cfg, st, SetInfo(s, v, i), ForceOne(s, v, accepted));
  }

  ghost predicate Forced(cfg: Config, st: State, s: State) {
    KeepsKinds(cfg, st, s) && SameLists(st, s)
  }

  lemma ForcedNext(cfg: Config, st: State, accepted: VM -> bool, k: nat)
    requires ConfigOk(cfg) && k < |st.existing| && Forced(cfg, st, ForcedOff(st, accepted, k))
    ensures Forced(cfg, st, ForcedOff(st, accepted, k + 1))
  {
    OnBooks(st, st.existing[k]);
    ForceStep(cfg, st, ForcedOff(st, accepted, k), st.existing[k], accepted(st.existing[k]));
  }

  ghost function ForcedSoFar(cfg: Config, st: State, accepted: VM -> bool): nat -> bool {
    (k: nat) => k <= |st.existing| && Forced(cfg, st, ForcedOff(st, accepted, k))
  }

  lemma ForcedOnward(cfg: Config, st: State, accepted: VM -> bool, k: nat)
    requires ConfigOk(cfg)
    ensures k < |st.existing| && ForcedSoFar(cfg, st, accepted)(k) ==> ForcedSoFar(cfg, st, accepted)(k + 1)
  {
    if k < |st.existing| && Forced(cfg, st, ForcedOff(st, accepted, k)) {
      ForcedNext(cfg, st, accepted, k);
    }
  }

  lemma ForcedOnwards(cfg: Config, st: State, accepted: VM -> bool)
    requires ConfigOk(cfg)
    ensures forall k: nat ::
              k < |st.existing| && ForcedSoFar(cfg, st, accepted)(k) ==> ForcedSoFar(cfg, st, accepted)(k + 1)
  {
    forall k: nat
      ensures k < |st.existing| && ForcedSoFar(cfg, st, accepted)(k) ==> ForcedSoFar(cfg, st, accepted)(k + 1)
    {
      ForcedOnward(cfg, st, accepted, k);
    }
  }

  lemma ForcedKeeps(cfg: Config, st: State, accepted: VM -> bool, k: nat)
    requires ConfigOk(cfg) && Forced(cfg, st, st) && k <= |st.existing|
    ensures Forced(cfg, st, ForcedOff(st, accepted, k))
  {
    ForcedOnwards(cfg, st, accepted);
    assert ForcedSoFar(cfg, st, accepted)(0);
    Induct(ForcedSoFar(cfg, st, accepted), k);
  }

  lemma DestroyedNext(cfg: Config, st: State, vms: seq<VM>, accepted: VM -> bool, k: nat)
    requires ConfigOk(cfg) && k < |vms| && vms[k] in Books(st)
    requires Forced(cfg, st, DestroyedAll(st, vms, accepted, k))
    ensures Forced(cfg, st, DestroyedAll(st, vms, accepted, k + 1))
  {
    var s := DestroyedAll(st, vms, accepted, k);
    assert Books(s) == Books(st);
    DestroyStep(cfg, s, vms[k], accepted(vms[k]));
    KeepsKindsTwice(cfg, st, s, Destroy(s, vms[k], accepted(vms[k])));
  }

  lemma {:induction false} DestroyedKeeps(cfg: Config, st: State, vms: seq<VM>, accepted: VM -> bool, k: nat)
    requires ConfigOk(cfg) && Forced(cfg, st, st) && k <= |vms| && forall v | v in vms :: v in Books(st)
    ensures Forced(cfg, st, DestroyedAll(st, vms, accepted, k))
  {
    if k > 0 {
      DestroyedKeeps(cfg, st, vms, accepted, k - 1);
      DestroyedNext(cfg, st, vms, accepted, k - 1);
    }
  }

  lemma AllToDeleting(cfg: Config, st: State)
    requires Core(cfg, st)
    ensures var t := st.(deleting := st.deleting + st.existing, existing := []);
            KeepsKinds(cfg, st, t) && Books(t) == Books(st)
  {
    var t := st.(deleting := st.deleting + st.existing, existing := []);
    assert Books(t) == Books(st);
    forall k
      ensures StaticHeld(st, k) == StaticHeld(t, k)
    {
      CountAppend(st.deleting, st.existing, st.info, k);
    }
  }

  lemma StartingAllToDeleting(cfg: Config, st: State)
    requires Core(cfg, st)
    ensures var t := st.(deleting := st.deleting + st.starting, starting := []);
            KeepsKinds(cfg, st, t) && Books(t) == Books(st)
  {
    var t := st.(deleting := st.deleting + st.starting, starting := []);
    assert Books(t) == Books(st);
    forall k
      ensures StaticHeld(st, k) == StaticHeld(t, k)
    {
      CountAppend(st.deleting, st.starting, st.info, k);
      CountDynamic(st.starting, st.info, k);
    }
  }

  /** Forcing everything off keeps the static VMs of every kind, and empties the existing and starting lists. */
  lemma ForceOffKeeps(cfg: Config, st: State, accepted: VM -> bool)
    requires ConfigOk(cfg) && Core(cfg, st)
    ensures var s := ForceOff(st, accepted);
            && KeepsKinds(cfg, st, s)
            && s.existing == [] && s.starting == [] && s.deleting == st.deleting + st.existing + st.starting
            && s.waiting == st.waiting && s.provisioning == st.provisioning
  {
    var s := ForcedOff(st, accepted, |st.existing|);
    ForcedKeeps(cfg, st, accepted, |st.existing|);
    var t := s.(deleting := s.deleting + s.existing, existing := []);
    AllToDeleting(cfg, s);
    KeepsKindsTwice(cfg, st, s, t);
    forall v | v in t.starting
      ensures v in Books(t)
    {
      OnBooks(t, v);
    }
    var u := DestroyedAll(t, t.starting, accepted, |t.starting|);
    DestroyedKeeps(cfg, t, t.starting, accepted, |t.starting|);
    KeepsKindsTwice(cfg, st, t, u);
    StartingAllToDeleting(cfg, u);
    KeepsKindsTwice(cfg, st, u, ForceOff(st, accepted));
  }
}
