/** What one look at a worker node does, told from the node's record, Maui's answer and the state before: when a VM is
    shut down, when a static one hands its role over and to whom, and when a VM is retired. */
module NodeActionLaws {
  import opened Outcomes
  import opened Sequences
  import opened Strings
  import opened CloudTools
  import opened Lifecycle
  import opened LifecycleInvariant
  import opened NodeLaws

  /** state_time grows by the poll interval while the state stays the same, and starts again at 0. */
  function TimeAfter(cfg: Config, i: Info, m: Option<string>): int {
    if i.state == m then i.stateTime + cfg.interval else 0
  }

  /** Node j is another busy one, and its VM is a dynamic one like v. */
  predicate StandsIn(st: State, nodes: seq<WorkerNode>, wn: WorkerNode, v: VM, j: nat) {
    && j < |nodes| && nodes[j].name != wn.name && nodes[j].jobs
    && var w := FindVm(st.existing, nodes[j].name);
       && w.Some? && InfoOf(st, w.value).dynamic && w.value.vcpus == v.vcpus && w.value.resource == v.resource
       && InfoOf(st, w.value).zone == InfoOf(st, v).zone
  }

  /** The VM of the first such node. */
  ghost predicate TakesOver(st: State, nodes: seq<WorkerNode>, wn: WorkerNode, v: VM, u: VM) {
    exists j: nat :: StandsIn(st, nodes, wn, v, j) && FindVm(st.existing, nodes[j].name) == Some(u)
                     && forall i: nat :: i < j ==> !StandsIn(st, nodes, wn, v, i)
  }

  ghost predicate CanHandOver(st: State, wn: WorkerNode, v: VM) {
    st.running > 0 && exists j: nat :: StandsIn(st, st.workerNodes, wn, v, j)
  }

  /** The node has no jobs and has been free for longer than a node may be idle. */
  predicate IsIdleLong(cfg: Config, wn: WorkerNode, i: Info, m: Option<string>) {
    !wn.jobs && m == Some("free") && TimeAfter(cfg, i, m) > cfg.maxIdle
  }

  ghost predicate IsStopped(cfg: Config, st: State, wn: WorkerNode, v: VM, m: Option<string>) {
    IsIdleLong(cfg, wn, InfoOf(st, v), m) && (InfoOf(st, v).dynamic || CanHandOver(st, wn, v))
  }

  /** The node has no jobs and is drained, or has been down for too long by Torque and Maui. */
  predicate IsMovedOut(cfg: Config, wn: WorkerNode, i: Info, m: Option<string>) {
    && !wn.jobs
    && (m == Some("drained")
        || (m.Some? && Contains(Lower(wn.state), "down") && Contains(m.value, "down")
            && TimeAfter(cfg, i, m) > cfg.maxDown))
  }

  lemma {:induction false} PartnerIsFirst(st: State, nodes: seq<WorkerNode>, wn: WorkerNode, v: VM) returns (j: nat)
    ensures j <= |nodes| && forall i: nat :: i < j ==> !StandsIn(st, nodes, wn, v, i)
    ensures j < |nodes| ==>
              StandsIn(st, nodes, wn, v, j) && Partner(st, nodes, wn, v) == FindVm(st.existing, nodes[j].name)
    ensures j == |nodes| ==> Partner(st, nodes, wn, v) == None
  {
    j := 0;
    if nodes != [] && !StandsIn(st, nodes, wn, v, 0) {
      var k := PartnerIsFirst(st, nodes[1..], wn, v);
      j := k + 1;
      forall i: nat | i < j
        ensures !StandsIn(st, nodes, wn, v, i)
      {
        assert i > 0 ==> (StandsIn(st, nodes, wn, v, i) <==> StandsIn(st, nodes[1..], wn, v, i - 1));
      }
    }
  }

  /** There is a partner exactly if some node stands in, and then it is the VM of the first one. */
  lemma PartnerTakesOver(st: State, nodes: seq<WorkerNode>, wn: WorkerNode, v: VM)
    ensures Partner(st, nodes, wn, v).Some? <==> exists j: nat :: StandsIn(st, nodes, wn, v, j)
    ensures forall u :: Partner(st, nodes, wn, v) == Some(u) <==> TakesOver(st, nodes, wn, v, u)
  {
    var j := PartnerIsFirst(st, nodes, wn, v);
    if j == |nodes| {
      assert forall i: nat :: !StandsIn(st, nodes, wn, v, i);
    }
  }

  /** Looking at a node writes nothing that matters to who stands in. */
  lemma ObservedStandsIn(cfg: Config, st: State, wn: WorkerNode, v: VM, m: Option<string>, j: nat)
    requires v.hostname == wn.name
    ensures StandsIn(Observe(cfg, st, v, m), st.workerNodes, wn, v, j) <==> StandsIn(st, st.workerNodes, wn, v, j)
  {
    if j < |st.workerNodes| {
      FindVmFinds(st.existing, st.workerNodes[j].name);
    }
  }

  /** The lists, the log and the flag after the step. */
  ghost predicate StepLists(st: State, s: State, v: VM, stopped: bool, out: bool) {
    && s.existing == (if stopped || out then RemoveFirst(st.existing, v) else st.existing)
    && s.deleting == st.deleting + (if out then [v] else [])
    && s.destroyed == st.destroyed + (if stopped then [v] else [])
    && s.provisioning == (st.provisioning && !stopped)
    && s == st.(existing := s.existing, deleting := s.deleting, destroyed := s.destroyed,
                provisioning := s.provisioning, info := s.info, avail := s.avail)
  }

  /** The free nodes are counted anew when a VM was stopped. */
  ghost predicate StepCounts(cfg: Config, st: State, s: State, stopped: bool) {
    s.avail == if stopped then (map r | r in cfg.quota :: FreeNodes(cfg, s, r)) else st.avail
  }

  /** The record of the VM after the step. */
  function RecordAfter(cfg: Config, i: Info, m: Option<string>, stopped: bool, accepted: bool): Info {
    i.(state := m, stateTime := TimeAfter(cfg, i, m), dynamic := i.dynamic || stopped,
       forceOff := i.forceOff || stopped, deleteIssued := i.deleteIssued || (stopped && accepted))
  }

  /** The record of VM u after the step: a VM that takes over becomes static, and else only v's record changes. */
  ghost predicate StepRecord(cfg: Config, st: State, s: State, wn: WorkerNode, v: VM, m: Option<string>,
                             stopped: bool, accepted: bool, u: VM)
  {
    InfoOf(s, u)
    == if u == v then RecordAfter(cfg, InfoOf(st, v), m, stopped, accepted)
       else if stopped && !InfoOf(st, v).dynamic && TakesOver(st, st.workerNodes, wn, v, u) then
         InfoOf(st, u).(dynamic := false)
       else InfoOf(st, u)
  }

  /** The action for the observed state, by the state before. */
  lemma ActionByReport(cfg: Config, st: State, wn: WorkerNode, v: VM, m: Option<string>)
    requires v.hostname == wn.name
    ensures var s := Observe(cfg, st, v, m);
            var a := ActionFor(cfg, s, wn, v, m);
            && (a.Stop? <==> IsStopped(cfg, st, wn, v, m) && InfoOf(st, v).dynamic)
            && (a.HandOver? <==> IsStopped(cfg, st, wn, v, m) && !InfoOf(st, v).dynamic)
            && (a.HandOver? ==> TakesOver(st, st.workerNodes, wn, v, a.to) && a.to != v)
            && (a.MoveOut? <==> IsMovedOut(cfg, wn, InfoOf(st, v), m))
  {
    var s := Observe(cfg, st, v, m);
    PartnerTakesOver(s, st.workerNodes, wn, v);
    PartnerFinds(s, st.workerNodes, wn, v);
    forall j: nat
      ensures StandsIn(s, st.workerNodes, wn, v, j) <==> StandsIn(st, st.workerNodes, wn, v, j)
    {
      ObservedStandsIn(cfg, st, wn, v, m, j);
    }
    assert !Contains("free", "down") by {
      assert "free"[0..][..4] == "free";
    }
  }

  lemma ShutDownDoes(cfg: Config, o: State, v: VM, accepted: bool)
    ensures var s := ShutDown(cfg, o, v, accepted);
            && StepLists(o, s, v, true, false) && StepCounts(cfg, o, s, true)
            && InfoOf(s, v) == InfoOf(o, v).(forceOff := true, deleteIssued := InfoOf(o, v).deleteIssued || accepted)
            && forall u :: u != v ==> InfoOf(s, u) == InfoOf(o, u)
  {
    assert o.deleting + [] == o.deleting;
  }

  lemma SwapDoes(o: State, v: VM, w: VM)
    requires v != w
    ensures var s := Swap(o, v, w);
            && s == o.(info := s.info)
            && InfoOf(s, v) == InfoOf(o, v).(dynamic := true) && InfoOf(s, w) == InfoOf(o, w).(dynamic := false)
            && forall u :: u != v && u != w ==> InfoOf(s, u) == InfoOf(o, u)
  {
  }

  lemma RetireDoes(cfg: Config, o: State, v: VM)
    ensures StepLists(o, Retire(o, v), v, false, true) && StepCounts(cfg, o, Retire(o, v), false)
    ensures Retire(o, v).info == o.info
  {
    assert o.destroyed + [] == o.destroyed;
  }

  lemma ObserveDoes(cfg: Config, st: State, v: VM, m: Option<string>)
    ensures var o := Observe(cfg, st, v, m);
            && o == st.(info := o.info)
            && InfoOf(o, v) == InfoOf(st, v).(state := m, stateTime := TimeAfter(cfg, InfoOf(st, v), m))
            && forall u :: u != v ==> InfoOf(o, u) == InfoOf(st, u)
  {
  }

  /** After observing, the action does to the lists what it is named for. */
  lemma ActLists(cfg: Config, st: State, o: State, v: VM, a: NodeAction, accepted: bool)
    requires o == st.(info := o.info) && (a.HandOver? ==> a.to != v)
    ensures StepLists(st, Act(cfg, o, v, a, accepted), v, a.Stop? || a.HandOver?, a.MoveOut?)
    ensures StepCounts(cfg, st, Act(cfg, o, v, a, accepted), a.Stop? || a.HandOver?)
  {
    match a
    case Leave => assert st.deleting + [] == st.deleting && st.destroyed + [] == st.destroyed;
    case Stop => ShutDownDoes(cfg, o, v, accepted);
    case HandOver(w) =>
      SwapDoes(o, v, w);
      ShutDownDoes(cfg, Swap(o, v, w), v, accepted);
    case MoveOut => RetireDoes(cfg, o, v);
  }

  lemma ActRecord(cfg: Config, o: State, v: VM, a: NodeAction, accepted: bool, u: VM)
    requires a.HandOver? ==> a.to != v
    ensures var stopped, i := a.Stop? || a.HandOver?, InfoOf(o, u);
            InfoOf(Act(cfg, o, v, a, accepted), u)
            == if u == v then
                 i.(dynamic := i.dynamic || a.HandOver?, forceOff := i.forceOff || stopped,
                    deleteIssued := i.deleteIssued || (stopped && accepted))
               else if a == HandOver(u) then i.(dynamic := false)
               else i
  {
    match a
    case Leave =>
    case Stop => ShutDownDoes(cfg, o, v, accepted);
    case HandOver(w) =>
      SwapDoes(o, v, w);
      ShutDownDoes(cfg, Swap(o, v, w), v, accepted);
    case MoveOut => RetireDoes(cfg, o, v);
  }

  /** A look at the node of a VM shuts it down exactly if it is stopped as said, retires it exactly if it is moved
      out as said, and else leaves the lists, the log, the flag and the counts alone. */
  lemma NodeStepExactly(cfg: Config, st: State, wn: WorkerNode, reps: NodeReports)
    ensures var found, m, s := FindVm(st.existing, wn.name), reps.state(wn.name), CheckNode(cfg, st, wn, reps);
            match found
            case None => s == st
            case Some(v) =>
              && StepLists(st, s, v, IsStopped(cfg, st, wn, v, m), IsMovedOut(cfg, wn, InfoOf(st, v), m))
              && StepCounts(cfg, st, s, IsStopped(cfg, st, wn, v, m))
  {
    FindVmFinds(st.existing, wn.name);
    var found := FindVm(st.existing, wn.name);
    if found.Some? {
      var v, m := found.value, reps.state(wn.name);
      var o := Observe(cfg, st, v, m);
      ObserveDoes(cfg, st, v, m);
      ActionByReport(cfg, st, wn, v, m);
      ActLists(cfg, st, o, v, ActionFor(cfg, o, wn, v, m), reps.accepted(v));
    }
  }

  /** And it writes the observed state and how long it has lasted, marks what it stops, and makes the first partner of
      a stopped static VM static. */
  lemma NodeStepWrites(cfg: Config, st: State, wn: WorkerNode, reps: NodeReports, u: VM)
    ensures var found, m, s := FindVm(st.existing, wn.name), reps.state(wn.name), CheckNode(cfg, st, wn, reps);
            found.Some? ==>
              StepRecord(cfg, st, s, wn, found.value, m, IsStopped(cfg, st, wn, found.value, m),
                         reps.accepted(found.value), u)
  {
    FindVmFinds(st.existing, wn.name);
    var found := FindVm(st.existing, wn.name);
    if found.Some? {
      var v, m := found.value, reps.state(wn.name);
      var o := Observe(cfg, st, v, m);
      ObserveDoes(cfg, st, v, m);
      ActionByReport(cfg, st, wn, v, m);
      var a := ActionFor(cfg, o, wn, v, m);
      ActRecord(cfg, o, v, a, reps.accepted(v), u);
      PartnerTakesOver(st, st.workerNodes, wn, v);
      if u != v && a.HandOver? {
        FirstIsOne(st, st.workerNodes, wn, v, a.to, u);
      }
    }
  }

  lemma FirstIsOne(st: State, nodes: seq<WorkerNode>, wn: WorkerNode, v: VM, a: VM, b: VM)
    requires TakesOver(st, nodes, wn, v, a)
    ensures TakesOver(st, nodes, wn, v, b) <==> a == b
  {
    PartnerTakesOver(st, nodes, wn, v);
  }

  // ----- the pass -----

  lemma {:induction false} OtherRemoved(vms: seq<VM>, u: VM, name: string)
    requires u.hostname != name
    ensures FindVm(RemoveFirst(vms, u), name) == FindVm(vms, name)
  {
    if vms != [] && vms[0] != u {
      OtherRemoved(vms[1..], u, name);
    }
  }

  /** From a to b nothing happens to the VM. */
  ghost predicate LeavesVm(a: State, b: State, v: VM) {
    && InfoOf(b, v) == InfoOf(a, v) && multiset(b.existing)[v] == multiset(a.existing)[v]
    && multiset(b.deleting)[v] == multiset(a.deleting)[v] && multiset(b.destroyed)[v] == multiset(a.destroyed)[v]
    && FindVm(b.existing, v.hostname) == FindVm(a.existing, v.hostname)
    && b.workerNodes == a.workerNodes && b.running == a.running
  }

  /** No record of the VM's node lists jobs. */
  ghost predicate NotBusy(nodes: seq<WorkerNode>, v: VM) {
    forall j :: 0 <= j < |nodes| && nodes[j].name == v.hostname ==> !nodes[j].jobs
  }

  /** Only a busy VM takes over. */
  lemma IdleStaysOut(st: State, wn: WorkerNode, v: VM, u: VM)
    requires NotBusy(st.workerNodes, v)
    ensures !TakesOver(st, st.workerNodes, wn, u, v)
  {
    forall j: nat | StandsIn(st, st.workerNodes, wn, u, j)
      ensures FindVm(st.existing, st.workerNodes[j].name) != Some(v)
    {
      FindVmFinds(st.existing, st.workerNodes[j].name);
    }
  }

  lemma OtherNodeLeaves(cfg: Config, st: State, wn: WorkerNode, reps: NodeReports, v: VM)
    requires wn.name != v.hostname && NotBusy(st.workerNodes, v)
    ensures LeavesVm(st, CheckNode(cfg, st, wn, reps), v)
  {
    NodeStepExactly(cfg, st, wn, reps);
    NodeStepWrites(cfg, st, wn, reps, v);
    FindVmFinds(st.existing, wn.name);
    var found := FindVm(st.existing, wn.name);
    if found.Some? {
      var u := found.value;
      IdleStaysOut(st, wn, v, u);
      OtherRemoved(st.existing, u, v.hostname);
      RemoveFirstBag(st.existing, u);
    }
  }

  lemma LeavesTwice(a: State, b: State, c: State, v: VM)
    requires LeavesVm(a, b, v) && LeavesVm(b, c, v)
    ensures LeavesVm(a, c, v)
  {
  }

  ghost predicate NodeAt(cfg: Config, states: seq<State>, nodes: seq<WorkerNode>, reps: NodeReports, k: nat)
    requires |states| == |nodes| + 1 && k < |nodes|
  {
    states[k + 1] == CheckNode(cfg, states[k], nodes[k], reps)
  }

  /** The states of the pass, one before each node. */
  lemma NodeStates(cfg: Config, st: State, reps: NodeReports, j: nat) returns (states: seq<State>)
    requires j <= |st.workerNodes|
    ensures var n := |st.workerNodes|;
            && |states| == n + 1 && states[0] == st
            && states[j] == CheckedNodes(cfg, st, reps, j) && states[n] == CheckedNodes(cfg, st, reps, n)
    ensures forall k: nat | k < |st.workerNodes| :: NodeAt(cfg, states, st.workerNodes, reps, k)
  {
    states := seq(|st.workerNodes| + 1, k requires 0 <= k <= |st.workerNodes| => CheckedNodes(cfg, st, reps, k));
  }

  /** The looks at other nodes leave the VM alone. */
  lemma {:induction false} OtherNodesLeave(cfg: Config, states: seq<State>, nodes: seq<WorkerNode>, reps: NodeReports,
                                           from: nat, n: nat, v: VM)
    requires |states| == |nodes| + 1 && from <= n <= |nodes| && states[from].workerNodes == nodes && NotBusy(nodes, v)
    requires forall k: nat | k < |nodes| :: NodeAt(cfg, states, nodes, reps, k)
    requires forall k :: from <= k < n ==> nodes[k].name != v.hostname
    ensures LeavesVm(states[from], states[n], v)
  {
    if from < n {
      OtherNodesLeave(cfg, states, nodes, reps, from, n - 1, v);
      assert NodeAt(cfg, states, nodes, reps, n - 1);
      OtherNodeLeaves(cfg, states[n - 1], nodes[n - 1], reps, v);
      LeavesTwice(states[from], states[n - 1], states[n], v);
    }
  }

  /** What the pass makes of a VM that stays, is stopped, or is moved out. */
  ghost predicate PassEnds(cfg: Config, st: State, s: State, v: VM, m: Option<string>, stopped: bool, out: bool) {
    && (v in s.existing <==> !stopped && !out)
    && multiset(s.destroyed)[v] == multiset(st.destroyed)[v] + (if stopped then 1 else 0)
    && multiset(s.deleting)[v] == multiset(st.deleting)[v] + (if out then 1 else 0)
    && InfoOf(s, v).state == m && InfoOf(s, v).stateTime == TimeAfter(cfg, InfoOf(st, v), m)
  }

  /** The VM's node has one record, the j-th, and that lists no jobs. */
  ghost predicate OneIdleRecord(nodes: seq<WorkerNode>, v: VM, j: nat) {
    && j < |nodes| && nodes[j].name == v.hostname && !nodes[j].jobs
    && forall k :: 0 <= k < |nodes| && k != j ==> nodes[k].name != v.hostname
  }

  lemma DecidedInPass(cfg: Config, states: seq<State>, nodes: seq<WorkerNode>, reps: NodeReports, j: nat, v: VM)
    requires |states| == |nodes| + 1 && states[0].workerNodes == nodes && OneIdleRecord(nodes, v, j)
    requires forall k: nat | k < |nodes| :: NodeAt(cfg, states, nodes, reps, k)
    requires FindVm(states[0].existing, v.hostname) == Some(v) && multiset(states[0].existing)[v] == 1
    ensures var m := reps.state(v.hostname);
            PassEnds(cfg, states[0], states[|nodes|], v, m, IsStopped(cfg, states[j], nodes[j], v, m),
                     IsMovedOut(cfg, nodes[j], InfoOf(states[0], v), m))
    ensures InfoOf(states[j], v) == InfoOf(states[0], v)
  {
    var st, wn, m := states[0], nodes[j], reps.state(v.hostname);
    OtherNodesLeave(cfg, states, nodes, reps, 0, j, v);
    assert NodeAt(cfg, states, nodes, reps, j);
    ItsNode(cfg, st, states[j], wn, reps, v);
    OtherNodesLeave(cfg, states, nodes, reps, j + 1, |nodes|, v);
    EndsLater(cfg, st, states[j + 1], states[|nodes|], v, m, IsStopped(cfg, states[j], wn, v, m),
              IsMovedOut(cfg, wn, InfoOf(st, v), m));
  }

  /** In a whole pass, a VM whose node has one record, without jobs, is shut down exactly if the node has been free
      for too long and the VM is dynamic, or jobs run and, when its turn comes, another busy node carries a dynamic
      VM like it; it is retired exactly if the node is drained or has been down for too long. */
  lemma OneRecordDecides(cfg: Config, st: State, reps: NodeReports, j: nat, v: VM)
    requires Partition(Books(st)) && OneIdleRecord(st.workerNodes, v, j) && FindVm(st.existing, v.hostname) == Some(v)
    ensures var wn, i, m := st.workerNodes[j], InfoOf(st, v), reps.state(v.hostname);
            PassEnds(cfg, st, CheckExisting(cfg, st, reps), v, m,
                     IsIdleLong(cfg, wn, i, m)
                     && (i.dynamic || CanHandOver(CheckedNodes(cfg, st, reps, j), wn, v)),
                     IsMovedOut(cfg, wn, i, m))
  {
    var wn, i, m := st.workerNodes[j], InfoOf(st, v), reps.state(v.hostname);
    var states := NodeStates(cfg, st, reps, j);
    FindVmFinds(st.existing, v.hostname);
    AtMostOnce(st, v);
    InBag(st.existing, v);
    DecidedInPass(cfg, states, st.workerNodes, reps, j, v);
    EndsCounted(cfg, st, states[|st.workerNodes|], v, m, IsStopped(cfg, states[j], wn, v, m),
                IsMovedOut(cfg, wn, i, m));
  }

  lemma EndsCounted(cfg: Config, st: State, s: State, v: VM, m: Option<string>, stopped: bool, out: bool)
    requires PassEnds(cfg, st, s, v, m, stopped, out)
    ensures PassEnds(cfg, st, UpdateAvailable(cfg, s), v, m, stopped, out)
  {
  }

  lemma ItsNode(cfg: Config, st: State, before: State, wn: WorkerNode, reps: NodeReports, v: VM)
    requires LeavesVm(st, before, v) && FindVm(st.existing, v.hostname) == Some(v) && wn.name == v.hostname
    requires multiset(st.existing)[v] == 1
    ensures var m := reps.state(wn.name);
            && PassEnds(cfg, st, CheckNode(cfg, before, wn, reps), v, m, IsStopped(cfg, before, wn, v, m),
                        IsMovedOut(cfg, wn, InfoOf(st, v), m))
            && CheckNode(cfg, before, wn, reps).workerNodes == st.workerNodes
  {
    NodeStepExactly(cfg, before, wn, reps);
    NodeStepWrites(cfg, before, wn, reps, v);
    RemoveFirstBag(before.existing, v);
    InBag(RemoveFirst(before.existing, v), v);
    InBag(before.existing, v);
  }

  lemma InBag(s: seq<VM>, v: VM)
    ensures v in s <==> multiset(s)[v] > 0
  {
  }

  lemma EndsLater(cfg: Config, st: State, s: State, t: State, v: VM, m: Option<string>, stopped: bool, out: bool)
    requires PassEnds(cfg, st, s, v, m, stopped, out) && LeavesVm(s, t, v)
    ensures PassEnds(cfg, st, t, v, m, stopped, out)
  {
    InBag(s.existing, v);
    InBag(t.existing, v);
  }
}
