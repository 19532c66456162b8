/** _load_existing_worker_nodes of res_management.py as functions on the state: what a restarted controller
    does with the VMs it finds in the cloud. */
module Loading {
  import opened Outcomes
  import opened Sequences
  import opened Strings
  import opened CloudTools
  import opened Lifecycle

  /** What the cloud, Torque and the persistent file say at the start. `baseFlavor` says which VMs have the
      flavor wanted of a static VM, and `first` is the id of the resource's first flavor. */
  datatype LoadReport = LoadReport(
    persistent: seq<string>, nodes: seq<WorkerNode>, hasIp: VM -> bool, sameImage: VM -> bool, baseFlavor: VM -> bool,
    accepted: VM -> bool, first: string -> string)

  datatype LoadFate = StaysInService | GoesOn | IsDestroyed

  /** A VM that Torque does not know goes on starting if the file lists it; one without address, with an old
      image while idle, or with a broken node is destroyed. */
  function LoadFateOf(v: VM, rep: LoadReport): LoadFate {
    if !rep.hasIp(v) then IsDestroyed
    else
      var wn := FindNode(rep.nodes, v.hostname);
      if wn.None? then (if v.hostname in rep.persistent then GoesOn else IsDestroyed)
      else if !wn.value.jobs && !rep.sameImage(v) then IsDestroyed
      else if Contains(wn.value.state, "offline") || Contains(wn.value.state, "down") then IsDestroyed
      else StaysInService
  }

  function Judged(vms: seq<VM>, rep: LoadReport, fate: LoadFate, k: nat): seq<VM>
    requires k <= |vms|
  {
    if k == 0 then []
    else Judged(vms, rep, fate, k - 1) + if LoadFateOf(vms[k - 1], rep) == fate then [vms[k - 1]] else []
  }

  /** Broken nodes of VMs that no longer exist. */
  function Orphans(vms: seq<VM>, nodes: seq<WorkerNode>): set<WorkerNode> {
    set n | n in nodes && FindVm(vms, n.name).None? && (Contains(n.state, "down") || Contains(n.state, "offline"))
  }

  function GoOnOne(st: State, v: VM): State {
    st.(existing := RemoveFirst(st.existing, v), starting := st.starting + [v])
  }

  function GoneOn(st: State, vms: seq<VM>, k: nat): State
    requires k <= |vms|
  {
    if k == 0 then st else GoOnOne(GoneOn(st, vms, k - 1), vms[k - 1])
  }

  function DestroyOne(st: State, v: VM, accepted: bool): State {
    Retire(Destroy(st, v, accepted), v)
  }

  function DestroyedOnes(st: State, vms: seq<VM>, accepted: VM -> bool, k: nat): State
    requires k <= |vms|
  {
    if k == 0 then st else DestroyOne(DestroyedOnes(st, vms, accepted, k - 1), vms[k - 1], accepted(vms[k - 1]))
  }

  // ----- static marks and overuse, resource by resource -----

  function VmsOf(vms: seq<VM>, r: string): seq<VM> {
    Keep(vms, set v | v in vms && v.resource == r)
  }

  function MarkIfBase(cfg: Config, st: State, v: VM, rep: LoadReport): State {
    if rep.baseFlavor(v) then MarkStatic(cfg, st, v) else st
  }

  function Marked(cfg: Config, st: State, vms: seq<VM>, rep: LoadReport, k: nat): State
    requires k <= |vms|
  {
    if k == 0 then st else MarkIfBase(cfg, Marked(cfg, st, vms, rep, k - 1), vms[k - 1], rep)
  }

  predicate IsBusy(nodes: seq<WorkerNode>, v: VM) {
    var wn := FindNode(nodes, v.hostname);
    wn.Some? && wn.value.jobs
  }

  predicate IsIdleDynamic(st: State, v: VM) {
    InfoOf(st, v).dynamic && !IsBusy(st.workerNodes, v)
  }

  /** The idle dynamic VMs that are given up, from the end of the list, until the excess is used up or the list
      is empty. */
  function Victims(st: State, vms: seq<VM>, excess: int): seq<VM> {
    if excess <= 0 || vms == [] then []
    else
      var v := vms[|vms| - 1];
      if IsIdleDynamic(st, v) then [v] + Victims(st, vms[..|vms| - 1], excess - 1)
      else Victims(st, vms[..|vms| - 1], excess)
  }

  /** As written the loop pops from the empty list when the excess is not used up. */
  function VictimsAsWritten(st: State, vms: seq<VM>, excess: int): Result<seq<VM>> {
    if excess <= 0 then Ok([])
    else if vms == [] then Raised(IndexError)
    else
      var v := vms[|vms| - 1];
      var idle := IsIdleDynamic(st, v);
      match VictimsAsWritten(st, vms[..|vms| - 1], if idle then excess - 1 else excess) {
        case Raised(e) => Raised(e)
        case Ok(rest) => Ok(if idle then [v] + rest else rest)
      }
  }

  function MarkedFor(cfg: Config, st: State, vms: seq<VM>, r: string, rep: LoadReport): State {
    if NeedsMore(DeficitOf(st, r)) then Marked(cfg, st, vms, rep, |vms|) else st
  }

  /** How many dynamic VMs there are beyond the resource's quota. */
  function Excess(cfg: Config, st: State, vms: seq<VM>, r: string): int {
    Used(vms, st.info, r) - if r in cfg.quota then cfg.quota[r] else 0
  }

  function Trimmed(cfg: Config, st: State, vms: seq<VM>, r: string, rep: LoadReport): State {
    var victims := Victims(st, vms, Excess(cfg, st, vms, r));
    var s := DestroyedOnes(st, victims, rep.accepted, |victims|);
    s.(avail := s.avail[r := |victims| - Excess(cfg, st, vms, r)])
  }

  function AskedStatics(cfg: Config, st: State, r: string, rep: LoadReport): State {
    if NeedsMore(DeficitOf(st, r)) then
      st.(waiting := st.waiting + ProvisionList(DeficitOf(st, r), rep.first(r), r, cfg.locations))
    else st
  }

  function LoadResource(cfg: Config, st: State, r: string, rep: LoadReport): State {
    var vms := VmsOf(st.existing, r);
    AskedStatics(cfg, Trimmed(cfg, MarkedFor(cfg, st, vms, r, rep), vms, r, rep), r, rep)
  }

  function LoadedResources(cfg: Config, st: State, rep: LoadReport, k: nat): State
    requires k <= |cfg.order|
  {
    if k == 0 then st else LoadResource(cfg, LoadedResources(cfg, st, rep, k - 1), cfg.order[k - 1], rep)
  }

  /** The VMs of the cloud sorted out by what Torque knows of them; `st` holds them as existing ones. */
  function Screened(st: State, rep: LoadReport): State {
    var n := |st.existing|;
    var on := Judged(st.existing, rep, GoesOn, n);
    var off := Judged(st.existing, rep, IsDestroyed, n);
    var s := st.(workerNodes := Drop(rep.nodes, Orphans(st.existing, rep.nodes)));
    DestroyedOnes(GoneOn(s, on, |on|), off, rep.accepted, |off|)
  }

  /** Everything before the first launch. */
  function LoadMoves(cfg: Config, st: State, rep: LoadReport): State {
    var u := LoadedResources(cfg, Screened(st, rep), rep, |cfg.order|);
    u.(provisioning := u.provisioning || u.starting != [])
  }

  function Load(cfg: Config, st: State, rep: LoadReport, started: seq<VM>): State {
    var s := LoadMoves(cfg, st, rep);
    if s.waiting != [] then Launch(cfg, s, started) else s
  }
}
