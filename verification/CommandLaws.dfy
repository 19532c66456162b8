/** What the administrator's commands do, told from the command and the state before. */
module CommandLaws {
  import opened Sequences
  import opened CloudTools
  import opened Lifecycle
  import opened LifecycleInvariant
  import opened NodeLaws

  lemma {:induction false} FindNodeFinds(nodes: seq<WorkerNode>, name: string)
    ensures var f := FindNode(nodes, name); f.Some? ==> f.value in nodes && f.value.name == name
    ensures FindNode(nodes, name).None? <==> forall n | n in nodes :: n.name != name
  {
    if nodes != [] {
      assert nodes == [nodes[0]] + nodes[1..];
      FindNodeFinds(nodes[1..], name);
    }
  }

  /** A known VM with a node, which is not busy unless the kill is forced. */
  predicate MayKill(st: State, name: string, force: bool) {
    && FindVm(st.existing, name).Some? && FindNode(st.workerNodes, name).Some?
    && (force || !FindNode(st.workerNodes, name).value.jobs)
  }

  /** kill_vm refuses without effect exactly if it may not kill; else the VM moves to the deleting list with the
      force mark of this kill, and nothing else changes. */
  lemma KillExactly(st: State, name: string, force: bool)
    ensures KillRefusal(st, name, force).None? <==> MayKill(st, name, force)
    ensures !MayKill(st, name, force) ==> Kill(st, name, force) == st
    ensures MayKill(st, name, force) ==>
              var v, s := FindVm(st.existing, name).value, Kill(st, name, force);
              && s == st.(existing := RemoveFirst(st.existing, v), deleting := st.deleting + [v], info := s.info)
              && InfoOf(s, v) == InfoOf(st, v).(forceOff := force)
              && forall u :: u != v ==> InfoOf(s, u) == InfoOf(st, u)
  {
    FindVmFinds(st.existing, name);
    FindNodeFinds(st.workerNodes, name);
  }

  lemma {:induction false} ForcedWrites(st: State, accepted: VM -> bool, k: nat, v: VM)
    requires k <= |st.existing|
    ensures var s, i := ForcedOff(st, accepted, k), InfoOf(st, v);
            && s.destroyed == st.destroyed + st.existing[..k]
            && InfoOf(s, v) == if v in st.existing[..k]
                               then i.(forceOff := true, deleteIssued := i.deleteIssued || accepted(v)) else i
  {
    if k > 0 {
      ForcedWrites(st, accepted, k - 1, v);
      assert st.existing[..k] == st.existing[..k - 1] + [st.existing[k - 1]];
    }
  }

  lemma {:induction false} DestroyedWrites(st: State, vms: seq<VM>, accepted: VM -> bool, k: nat, v: VM)
    requires k <= |vms|
    ensures var s, i := DestroyedAll(st, vms, accepted, k), InfoOf(st, v);
            && s.destroyed == st.destroyed + vms[..k]
            && InfoOf(s, v) == if v in vms[..k] then i.(deleteIssued := i.deleteIssued || accepted(v)) else i
  {
    if k > 0 {
      DestroyedWrites(st, vms, accepted, k - 1, v);
      assert vms[..k] == vms[..k - 1] + [vms[k - 1]];
    }
  }

  /** forceoff destroys every existing and then every starting VM, once each, marks the existing ones as forced off,
      and writes to no other VM. */
  lemma ForceOffExactly(cfg: Config, st: State, accepted: VM -> bool, v: VM)
    requires ConfigOk(cfg) && Core(cfg, st)
    ensures var s, i := ForceOff(st, accepted), InfoOf(st, v);
            && s.destroyed == st.destroyed + st.existing + st.starting
            && s.existing == [] && s.starting == [] && s.deleting == st.deleting + st.existing + st.starting
            && InfoOf(s, v)
               == i.(forceOff := i.forceOff || v in st.existing,
                     deleteIssued := i.deleteIssued || ((v in st.existing || v in st.starting) && accepted(v)))
  {
    ForceOffKeeps(cfg, st, accepted);
    var s := ForcedOff(st, accepted, |st.existing|);
    ForcedWrites(st, accepted, |st.existing|, v);
    ForcedLists(cfg, st, accepted);
    assert st.existing[..|st.existing|] == st.existing && st.starting[..|st.starting|] == st.starting;
    var t := s.(deleting := s.deleting + s.existing, existing := []);
    DestroyedWrites(t, t.starting, accepted, |t.starting|, v);
  }

  lemma ForcedLists(cfg: Config, st: State, accepted: VM -> bool)
    requires ConfigOk(cfg) && Core(cfg, st)
    ensures ForcedOff(st, accepted, |st.existing|).starting == st.starting
  {
    ForcedKeeps(cfg, st, accepted, |st.existing|);
  }
}
