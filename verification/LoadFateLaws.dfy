/** What loading does with each VM of the cloud and each node of Torque, told from the reports. */
module LoadFateLaws {
  import opened Outcomes
  import opened Sequences
  import opened Strings
  import opened CloudTools
  import opened Lifecycle
  import opened LifecycleLaws
  import opened FateLaws
  import opened Loading
  import opened LoadLaws

  /** It has an address, Torque does not know it, and the file of nodes lists it: it was starting. */
  predicate IsStillStarting(v: VM, rep: LoadReport) {
    rep.hasIp(v) && FindNode(rep.nodes, v.hostname).None? && v.hostname in rep.persistent
  }

  /** It has no address, or neither Torque nor the file knows it, or its node is idle with an old image, offline or
      down. */
  predicate IsThrownAway(v: VM, rep: LoadReport) {
    var wn := FindNode(rep.nodes, v.hostname);
    || !rep.hasIp(v)
    || (wn.None? && v.hostname !in rep.persistent)
    || (wn.Some? && !wn.value.jobs && !rep.sameImage(v))
    || (wn.Some? && (Contains(wn.value.state, "offline") || Contains(wn.value.state, "down")))
  }

  lemma LoadFateByReport(v: VM, rep: LoadReport)
    ensures LoadFateOf(v, rep)
         == if IsThrownAway(v, rep) then IsDestroyed else if IsStillStarting(v, rep) then GoesOn else StaysInService
  {
  }

  lemma JudgedByReport(vms: seq<VM>, rep: LoadReport, fate: LoadFate, v: VM)
    ensures multiset(Judged(vms, rep, fate, |vms|))[v] == if LoadFateOf(v, rep) == fate then multiset(vms)[v] else 0
  {
    WholePrefix(vms);
    JudgedIsKeep(vms, rep, fate, |vms|);
    KeepCounts(vms, JudgedSet(vms, rep, fate), v);
  }

  lemma {:induction false} DestroyedLog(st: State, vms: seq<VM>, accepted: VM -> bool, k: nat)
    requires k <= |vms|
    ensures DestroyedOnes(st, vms, accepted, k).destroyed == st.destroyed + vms[..k]
  {
    if k > 0 {
      DestroyedLog(st, vms, accepted, k - 1);
      assert vms[..k] == vms[..k - 1] + [vms[k - 1]];
    }
  }

  /** How often the VM is in each list and in the log, when of n VMs some go on and some are destroyed. */
  ghost predicate ScreenEnds(st: State, s: State, v: VM, on: nat, off: nat) {
    && multiset(s.existing)[v] == multiset(st.existing)[v] - on - off
    && multiset(s.starting)[v] == multiset(st.starting)[v] + on
    && multiset(s.deleting)[v] == multiset(st.deleting)[v] + off
    && multiset(s.destroyed)[v] == multiset(st.destroyed)[v] + off
  }

  lemma ScreenLists(st: State, on: seq<VM>, off: seq<VM>, accepted: VM -> bool, v: VM)
    requires multiset(on) + multiset(off) <= multiset(st.existing)
    ensures ScreenEnds(st, DestroyedOnes(GoneOn(st, on, |on|), off, accepted, |off|), v, multiset(on)[v],
                       multiset(off)[v])
  {
    WholePrefix(on);
    WholePrefix(off);
    GoneOnShape(st, on, |on|);
    RemoveEachBag(st.existing, on);
    var g := GoneOn(st, on, |on|);
    DestroyedShape(g, off, accepted, |off|);
    RemoveEachBag(g.existing, off);
    DestroyedLog(g, off, accepted, |off|);
  }

  /** Each VM of the cloud goes on starting, is destroyed, or stays, exactly as the reports say. */
  lemma ScreenedExactly(st: State, rep: LoadReport, v: VM)
    ensures var n, thrown := multiset(st.existing)[v], IsThrownAway(v, rep);
            ScreenEnds(st, Screened(st, rep), v, if !thrown && IsStillStarting(v, rep) then n else 0,
                       if thrown then n else 0)
  {
    var n := |st.existing|;
    JudgedFit(st.existing, rep);
    JudgedByReport(st.existing, rep, GoesOn, v);
    JudgedByReport(st.existing, rep, IsDestroyed, v);
    LoadFateByReport(v, rep);
    var s := st.(workerNodes := Drop(rep.nodes, Orphans(st.existing, rep.nodes)));
    ScreenLists(s, Judged(st.existing, rep, GoesOn, n), Judged(st.existing, rep, IsDestroyed, n), rep.accepted, v);
  }

  /** The nodes of Torque stay, except those that are down or offline and belong to no VM. */
  lemma OrphansGo(st: State, rep: LoadReport, wn: WorkerNode)
    ensures wn in Screened(st, rep).workerNodes
       <==> wn in rep.nodes && ((exists v :: v in st.existing && v.hostname == wn.name)
                                || !(Contains(wn.state, "down") || Contains(wn.state, "offline")))
  {
    var n := |st.existing|;
    var on, off := Judged(st.existing, rep, GoesOn, n), Judged(st.existing, rep, IsDestroyed, n);
    var s := st.(workerNodes := Drop(rep.nodes, Orphans(st.existing, rep.nodes)));
    GoneOnShape(s, on, |on|);
    DestroyedShape(GoneOn(s, on, |on|), off, rep.accepted, |off|);
    KeepMembers(rep.nodes, Orphans(st.existing, rep.nodes), wn);
    KnownByName(st.existing, wn.name);
  }

  lemma {:induction false} KnownByName(vms: seq<VM>, name: string)
    ensures FindVm(vms, name).Some? <==> exists v :: v in vms && v.hostname == name
  {
    if vms != [] {
      assert vms == [vms[0]] + vms[1..];
      KnownByName(vms[1..], name);
    }
  }

  lemma MarkSettles(cfg: Config, s: State, w: VM, rep: LoadReport, v: VM)
    requires (v == w && rep.baseFlavor(v)) || Settled(cfg, s, v)
    ensures Settled(cfg, MarkIfBase(cfg, s, w, rep), v)
  {
    if rep.baseFlavor(w) && !Wants(DeficitOf(s, v.resource), InfoOf(s, v).zone, cfg.locations) {
      StillUnwanted(DeficitOf(s, v.resource), InfoOf(s, w).zone, InfoOf(s, v).zone, cfg.locations);
    }
  }

  /** Marking takes every VM of the wanted flavor as static, unless none is missing in its zone, and no other VM. */
  lemma {:induction false} MarkedExactly(cfg: Config, st: State, vms: seq<VM>, rep: LoadReport, k: nat, v: VM)
    requires k <= |vms|
    ensures v in vms[..k] && rep.baseFlavor(v) ==> Settled(cfg, Marked(cfg, st, vms, rep, k), v)
    ensures !rep.baseFlavor(v) ==> InfoOf(Marked(cfg, st, vms, rep, k), v) == InfoOf(st, v)
  {
    if k > 0 {
      MarkedExactly(cfg, st, vms, rep, k - 1, v);
      assert vms[..k] == vms[..k - 1] + [vms[k - 1]];
      if v in vms[..k] && rep.baseFlavor(v) {
        MarkSettles(cfg, Marked(cfg, st, vms, rep, k - 1), vms[k - 1], rep, v);
      }
    }
  }

  // ----- overuse -----

  ghost function IdleIn(st: State, vms: seq<VM>): set<VM> {
    set v | v in vms && InfoOf(st, v).dynamic
            && !(exists wn :: FindNode(st.workerNodes, v.hostname) == Some(wn) && wn.jobs)
  }

  /** The victims are the last dynamic VMs without jobs, from the end of the list. */
  lemma {:induction false} VictimsAreLast(st: State, vms: seq<VM>, all: seq<VM>, excess: int, i: nat)
    requires vms <= all && i < |Victims(st, vms, excess)|
    ensures var idle := Keep(vms, IdleIn(st, all));
            i < |idle| && Victims(st, vms, excess)[i] == idle[|idle| - 1 - i]
  {
    if vms == [] || excess <= 0 {
      assert false;
    } else {
      var front, last := vms[..|vms| - 1], vms[|vms| - 1];
      assert last in all && vms == front + [last];
      if last in IdleIn(st, all) {
        assert IsIdleDynamic(st, last);
        if i > 0 {
          VictimsAreLast(st, front, all, excess - 1, i - 1);
        }
      } else {
        VictimsAreLast(st, front, all, excess, i);
      }
    }
  }

  lemma VictimCount(st: State, vms: seq<VM>, excess: int) returns (n: nat)
    ensures n == |Victims(st, vms, excess)| && n == Min(Max(0, excess), IdleCount(st, vms))
  {
    TrimsExactly(st, vms, excess);
    n := |Victims(st, vms, excess)|;
  }

  lemma TrimSets(cfg: Config, st: State, vms: seq<VM>, r: string, rep: LoadReport, excess: int, n: nat)
    requires excess == Excess(cfg, st, vms, r) && n == |Victims(st, vms, excess)|
    ensures TrimLeaves(cfg, st, vms, r, rep, n - excess)
  {
  }

  /** So many free nodes are counted after trimming. */
  ghost predicate TrimLeaves(cfg: Config, st: State, vms: seq<VM>, r: string, rep: LoadReport, free: int) {
    var avail := Trimmed(cfg, st, vms, r, rep).avail;
    r in avail && avail[r] == free
  }

  lemma ExcessIs(cfg: Config, st: State, vms: seq<VM>, r: string)
    requires r in cfg.quota
    ensures Excess(cfg, st, vms, r) == Used(vms, st.info, r) - cfg.quota[r]
  {
  }

  /** After trimming, the free nodes are as many as VMs were given up, less the dynamic VMs beyond the quota. */
  lemma TrimCounts(cfg: Config, st: State, vms: seq<VM>, r: string, rep: LoadReport, excess: int, idle: nat)
    requires r in cfg.quota && excess == Used(vms, st.info, r) - cfg.quota[r] && idle == IdleCount(st, vms)
    ensures TrimLeaves(cfg, st, vms, r, rep, Min(Max(0, excess), idle) - excess)
  {
    ExcessIs(cfg, st, vms, r);
    var n := VictimCount(st, vms, excess);
    TrimSets(cfg, st, vms, r, rep, excess, n);
  }

  // ----- static VMs at loading -----

  lemma TrimmedSettles(cfg: Config, st: State, vms: seq<VM>, r: string, rep: LoadReport, v: VM)
    requires Settled(cfg, st, v)
    ensures Settled(cfg, Trimmed(cfg, st, vms, r, rep), v)
  {
    var victims := Victims(st, vms, Excess(cfg, st, vms, r));
    DestroyedShape(st, victims, rep.accepted, |victims|);
    DestroyedZone(st, victims, rep.accepted, |victims|, v);
  }

  lemma {:induction false} DestroyedZone(st: State, vms: seq<VM>, accepted: VM -> bool, k: nat, v: VM)
    requires k <= |vms|
    ensures var s := DestroyedOnes(st, vms, accepted, k);
            InfoOf(s, v).dynamic == InfoOf(st, v).dynamic && InfoOf(s, v).zone == InfoOf(st, v).zone
  {
    if k > 0 {
      DestroyedZone(st, vms, accepted, k - 1, v);
    }
  }

  /** Loading a resource takes every VM of it with the wanted flavor as static, unless none is missing in its zone. */
  lemma LoadResourceSettles(cfg: Config, st: State, r: string, rep: LoadReport, v: VM)
    requires v in st.existing && v.resource == r && rep.baseFlavor(v)
    ensures Settled(cfg, LoadResource(cfg, st, r, rep), v)
  {
    var vms := VmsOf(st.existing, r);
    KeepMembers(st.existing, ResourceSet(st.existing, r), v);
    WholePrefix(vms);
    var m := MarkedFor(cfg, st, vms, r, rep);
    if NeedsMore(DeficitOf(st, r)) {
      MarkedExactly(cfg, st, vms, rep, |vms|, v);
    } else {
      NothingWanted(DeficitOf(st, r), InfoOf(st, v).zone, cfg.locations);
    }
    TrimmedSettles(cfg, m, vms, r, rep, v);
  }

  lemma NothingWanted(reqs: seq<StaticReq>, zone: Option<string>, locations: seq<Location>)
    requires !NeedsMore(reqs)
    ensures !Wants(reqs, zone, locations)
  {
    forall i | 0 <= i < |reqs|
      ensures !Suits(reqs[i], zone, locations)
    {
      assert reqs[i].count == 0;
    }
  }
}
