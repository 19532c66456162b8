/** What becomes of each VM in a pass, told from its record before the pass and from what the pass learns about it,
    and what the pass writes and asks for. */
module FateLaws {
  import opened Outcomes
  import opened Sequences
  import opened CloudTools
  import opened Lifecycle
  import opened LifecycleInvariant
  import opened LifecycleLaws
  import opened CleanupLaws

  // ----- starting VMs -----

  /** Ready in the cloud before, and Torque can use it. */
  predicate IsUsable(i: Info, r: StartReport) {
    i.cloudReady && (r.torque == Some("free") || r.torque == Some("job-exclusive"))
  }

  /** Gone or broken, not accepted by Torque or Maui, too late, or too long unusable in Torque. */
  predicate IsGivenUp(cfg: Config, i: Info, r: StartReport) {
    || (!i.cloudReady && (r.code.Gone? || r.code.Failed?))
    || (!i.cloudReady && r.code.Active? && !(r.added && r.visible))
    || (!i.cloudReady && (r.code.Configuring? || r.code.Building?) && r.late)
    || (i.cloudReady && r.torque.Some? && !IsUsable(i, r) && i.stateTime > cfg.maxInaccessible)
  }

  lemma FateByReport(cfg: Config, i: Info, r: StartReport)
    ensures StartFateOf(cfg, i, r)
         == if IsUsable(i, r) then ReadyToUse else if IsGivenUp(cfg, i, r) then ToDelete else StillStarting
  {
  }

  lemma FatedByReport(cfg: Config, st: State, reps: StartReports, fate: StartFate, v: VM)
    ensures var n := |st.starting|;
            && (v in Fated(cfg, st, reps, fate, n)
                <==> v in st.starting && StartFateOf(cfg, InfoOf(st, v), reps.of(v)) == fate)
            && multiset(Fated(cfg, st, reps, fate, n))[v]
               == if StartFateOf(cfg, InfoOf(st, v), reps.of(v)) == fate then multiset(st.starting)[v] else 0
  {
    WholePrefix(st.starting);
    FatedIsKeep(cfg, st, reps, fate, |st.starting|);
    KeepMembers(st.starting, FateSet(cfg, st, reps, fate), v);
    KeepCounts(st.starting, FateSet(cfg, st, reps, fate), v);
    assert v in st.starting <==> multiset(st.starting)[v] > 0;
  }

  /** The list that a VM is in after the pass, and how often it has been destroyed: a starting VM joins the existing
      ones exactly if it is usable, is destroyed and joins the deleting ones exactly if it is given up, and else
      goes on starting; no other VM is touched. */
  ghost predicate StartEnds(st: State, s: State, v: VM, usable: bool, givenUp: bool) {
    && (v in s.existing <==> v in st.existing || (v in st.starting && usable))
    && (v in s.deleting <==> v in st.deleting || (v in st.starting && givenUp))
    && (v in s.starting <==> v in st.starting && !usable && !givenUp)
    && multiset(s.destroyed)[v] == multiset(st.destroyed)[v] + if v in st.starting && givenUp then 1 else 0
  }

  lemma StartEndsExactly(cfg: Config, st: State, reps: StartReports, v: VM)
    requires Core(cfg, st)
    ensures StartEnds(st, ProvisionMoves(cfg, st, reps), v, IsUsable(InfoOf(st, v), reps.of(v)),
                      IsGivenUp(cfg, InfoOf(st, v), reps.of(v)))
  {
    ProvisionMovesOnly(cfg, st, reps);
    FateByReport(cfg, InfoOf(st, v), reps.of(v));
    FatedByReport(cfg, st, reps, ReadyToUse, v);
    FatedByReport(cfg, st, reps, ToDelete, v);
    FatedByReport(cfg, st, reps, StillStarting, v);
    StartingOnce(st);
    assert v in st.starting <==> multiset(st.starting)[v] > 0;
  }

  // ----- what the pass writes to them -----

  /** An active or configuring VM gets the default zone. */
  function ZoneAfter(cfg: Config, i: Info, r: StartReport): Option<string> {
    if !i.cloudReady && (r.code.Active? || r.code.Configuring?) then Some(cfg.defaultZone) else i.zone
  }

  /** What vm_check wrote, that an active VM is ready in the cloud, and whether a destroy request was accepted. */
  ghost predicate StartWrites(cfg: Config, i: Info, after: Info, r: StartReport) {
    && (after.cloudReady <==> i.cloudReady || r.code.Active?)
    && after.zone == ZoneAfter(cfg, i, r)
    && after.state == (if i.cloudReady || r.code.Gone? then i.state else Some(r.status))
    && after.stateTime == i.stateTime && after.forceOff == i.forceOff
    && (after.deleteIssued <==> i.deleteIssued || (IsGivenUp(cfg, i, r) && r.accepted))
  }

  lemma FailOneInfo(s: State, w: VM, accepted: bool, v: VM)
    ensures var i := InfoOf(s, v);
            InfoOf(FailOne(s, w, accepted), v)
            == if v == w then i.(deleteIssued := i.deleteIssued || accepted) else i
  {
  }

  ghost function FailedKnows(st: State, reps: StartReports, vms: seq<VM>, v: VM): nat -> bool {
    (k: nat) => k <= |vms| &&
      InfoOf(FailedOnes(st, reps, vms, k), v)
      == InfoOf(st, v).(deleteIssued := InfoOf(st, v).deleteIssued || (v in vms[..k] && reps.of(v).accepted))
  }

  lemma FailedKnowsNext(st: State, reps: StartReports, vms: seq<VM>, k: nat, v: VM)
    requires k < |vms| && FailedKnows(st, reps, vms, v)(k)
    ensures FailedKnows(st, reps, vms, v)(k + 1)
  {
    FailOneInfo(FailedOnes(st, reps, vms, k), vms[k], reps.of(vms[k]).accepted, v);
    assert vms[..k + 1] == vms[..k] + [vms[k]];
  }

  lemma FailedInfo(st: State, reps: StartReports, vms: seq<VM>, k: nat, v: VM)
    requires k <= |vms|
    ensures InfoOf(FailedOnes(st, reps, vms, k), v)
         == InfoOf(st, v).(deleteIssued := InfoOf(st, v).deleteIssued || (v in vms[..k] && reps.of(v).accepted))
  {
    forall i: nat | i < k && FailedKnows(st, reps, vms, v)(i)
      ensures FailedKnows(st, reps, vms, v)(i + 1)
    {
      FailedKnowsNext(st, reps, vms, i, v);
    }
    assert FailedOnes(st, reps, vms, 0) == st && v !in vms[..0];
    assert FailedKnows(st, reps, vms, v)(0);
    Induct(FailedKnows(st, reps, vms, v), k);
  }

  /** Marking a VM static changes nothing else of its record. */
  lemma {:induction false} ReadiedWrites(cfg: Config, st: State, vms: seq<VM>, k: nat, v: VM)
    requires k <= |vms|
    ensures InfoOf(Readied(cfg, st, vms, k), v)
         == InfoOf(st, v).(dynamic := InfoOf(Readied(cfg, st, vms, k), v).dynamic)
  {
    if k > 0 {
      ReadiedWrites(cfg, st, vms, k - 1, v);
      ReadyOneInfo(cfg, Readied(cfg, st, vms, k - 1), vms[k - 1], v);
    }
  }

  lemma ReadyOneInfo(cfg: Config, s: State, w: VM, v: VM)
    ensures var t := ReadyOne(cfg, s, w);
            && InfoOf(t, v) == InfoOf(s, v).(dynamic := InfoOf(t, v).dynamic)
            && (v != w ==> InfoOf(t, v) == InfoOf(s, v))
            && (v == w ==>
                  InfoOf(t, v).dynamic
                  == (InfoOf(s, v).dynamic && !Wants(DeficitOf(s, w.resource), InfoOf(s, w).zone, cfg.locations)))
  {
  }

  /** What becomes of the records after the inspection. */
  lemma MovesWrite(cfg: Config, s: State, reps: StartReports, ready: seq<VM>, failed: seq<VM>, v: VM)
    ensures var t := UpdateAvailable(cfg, FailedOnes(Readied(cfg, s, ready, |ready|), reps, failed, |failed|));
            InfoOf(t, v)
            == InfoOf(s, v).(dynamic := InfoOf(t, v).dynamic,
                             deleteIssued := InfoOf(s, v).deleteIssued || (v in failed && reps.of(v).accepted))
  {
    ReadiedWrites(cfg, s, ready, |ready|, v);
    WholePrefix(failed);
    FailedInfo(Readied(cfg, s, ready, |ready|), reps, failed, |failed|, v);
  }

  lemma InspectedRecord(cfg: Config, st: State, reps: StartReports, v: VM)
    requires Partition(Books(st)) && v in st.starting
    ensures InfoOf(Inspected(cfg, st, reps, |st.starting|), v) == StartInfo(cfg, InfoOf(st, v), reps.of(v))
  {
    StartingOnce(st);
    WholePrefix(st.starting);
    InspectedInfo(cfg, st, reps, |st.starting|, v);
  }

  lemma WritesByReport(cfg: Config, i: Info, r: StartReport, after: Info)
    requires after == StartInfo(cfg, i, r).(dynamic := after.dynamic,
                                            deleteIssued := i.deleteIssued || (IsGivenUp(cfg, i, r) && r.accepted))
    ensures StartWrites(cfg, i, after, r)
  {
  }

  lemma InfoByReport(cfg: Config, i: Info, r: StartReport)
    ensures StartInfo(cfg, i, r).deleteIssued == i.deleteIssued && StartInfo(cfg, i, r).dynamic == i.dynamic
    ensures StartInfo(cfg, i, r).zone == ZoneAfter(cfg, i, r)
  {
  }

  lemma StartRecord(cfg: Config, st: State, reps: StartReports, v: VM)
    requires Core(cfg, st) && v in st.starting
    ensures StartWrites(cfg, InfoOf(st, v), InfoOf(ProvisionMoves(cfg, st, reps), v), reps.of(v))
  {
    var n := |st.starting|;
    InspectedRecord(cfg, st, reps, v);
    FateByReport(cfg, InfoOf(st, v), reps.of(v));
    FatedByReport(cfg, st, reps, ToDelete, v);
    MovesWrite(cfg, Inspected(cfg, st, reps, n), reps, Fated(cfg, st, reps, ReadyToUse, n),
               Fated(cfg, st, reps, ToDelete, n), v);
    InfoByReport(cfg, InfoOf(st, v), reps.of(v));
    WritesByReport(cfg, InfoOf(st, v), reps.of(v), InfoOf(ProvisionMoves(cfg, st, reps), v));
  }

  /** The VM has just become active and joined Torque. */
  predicate HasJoined(i: Info, r: StartReport) {
    !i.cloudReady && r.code.Active? && r.added && r.visible
  }

  ghost function NodesAfter(cfg: Config, st: State, reps: StartReports): nat -> bool {
    (k: nat) => k <= |st.starting| &&
      Inspected(cfg, st, reps, k).workerNodes
      == if exists v :: v in st.starting[..k] && HasJoined(InfoOf(st, v), reps.of(v)) then reps.nodes
         else st.workerNodes
  }

  lemma NodesAfterNext(cfg: Config, st: State, reps: StartReports, k: nat)
    requires Partition(Books(st)) && k < |st.starting| && NodesAfter(cfg, st, reps)(k)
    ensures NodesAfter(cfg, st, reps)(k + 1)
  {
    var v := st.starting[k];
    StartingOnce(st);
    InspectedInfo(cfg, st, reps, k, v);
    NotBefore(st.starting, k);
    assert st.starting[..k + 1] == st.starting[..k] + [v];
  }

  /** The nodes are asked for anew exactly if some VM has joined. */
  lemma NodesAreRefreshed(cfg: Config, st: State, reps: StartReports)
    requires Core(cfg, st)
    ensures ProvisionMoves(cfg, st, reps).workerNodes
         == if exists v :: v in st.starting && HasJoined(InfoOf(st, v), reps.of(v)) then reps.nodes
            else st.workerNodes
  {
    var n := |st.starting|;
    var ready, failed := Fated(cfg, st, reps, ReadyToUse, n), Fated(cfg, st, reps, ToDelete, n);
    forall k: nat | k < n && NodesAfter(cfg, st, reps)(k)
      ensures NodesAfter(cfg, st, reps)(k + 1)
    {
      NodesAfterNext(cfg, st, reps, k);
    }
    assert Inspected(cfg, st, reps, 0) == st && st.starting[..0] == [];
    assert NodesAfter(cfg, st, reps)(0);
    Induct(NodesAfter(cfg, st, reps), n);
    WholePrefix(st.starting);
    MovesKeepNodes(cfg, Inspected(cfg, st, reps, n), reps, ready, failed);
  }

  lemma MovesKeepNodes(cfg: Config, s: State, reps: StartReports, ready: seq<VM>, failed: seq<VM>)
    ensures UpdateAvailable(cfg, FailedOnes(Readied(cfg, s, ready, |ready|), reps, failed, |failed|)).workerNodes
         == s.workerNodes
  {
    ReadiedShape(cfg, s, ready, |ready|);
    FailedShape(Readied(cfg, s, ready, |ready|), reps, failed, |failed|);
  }

  // ----- what failed VMs ask for -----

  /** A VM that is given up is asked for again, in the zone it has got by then, if any. */
  function RetryOf(cfg: Config, v: VM, i: Info, r: StartReport): seq<ProvisionVM> {
    if IsGivenUp(cfg, i, r) && ZoneAfter(cfg, i, r).Some? then
      [ProvisionVM(v.flavor, ZoneAfter(cfg, i, r), v.resource, false)]
    else []
  }

  function Retries(cfg: Config, st: State, reps: StartReports, k: nat): seq<ProvisionVM>
    requires k <= |st.starting|
  {
    if k == 0 then []
    else
      var v := st.starting[k - 1];
      Retries(cfg, st, reps, k - 1) + RetryOf(cfg, v, InfoOf(st, v), reps.of(v))
  }

  /** The requests for the given VMs, by their records. */
  function AgainFor(st: State, vms: seq<VM>): seq<ProvisionVM> {
    if vms == [] then []
    else
      var v := vms[|vms| - 1];
      AgainFor(st, vms[..|vms| - 1]) + if InfoOf(st, v).zone.Some? then [Again(v, InfoOf(st, v))] else []
  }

  lemma {:induction false} FailedAsk(st: State, reps: StartReports, vms: seq<VM>, k: nat)
    requires k <= |vms|
    ensures FailedOnes(st, reps, vms, k).waiting == st.waiting + AgainFor(st, vms[..k])
  {
    if k > 0 {
      FailedAsk(st, reps, vms, k - 1);
      FailedInfo(st, reps, vms, k - 1, vms[k - 1]);
      assert vms[..k][..k - 1] == vms[..k - 1];
    }
  }

  lemma AgainLast(s: State, vms: seq<VM>, v: VM)
    ensures AgainFor(s, vms + [v])
         == AgainFor(s, vms) + if InfoOf(s, v).zone.Some? then [Again(v, InfoOf(s, v))] else []
  {
    assert (vms + [v])[..|vms|] == vms;
  }

  lemma RetryNext(cfg: Config, st: State, reps: StartReports, s: State, k: nat)
    requires k < |st.starting|
    requires var v := st.starting[k];
             IsGivenUp(cfg, InfoOf(st, v), reps.of(v)) ==>
               InfoOf(s, v).dynamic && InfoOf(s, v).zone == ZoneAfter(cfg, InfoOf(st, v), reps.of(v))
    requires AgainFor(s, Fated(cfg, st, reps, ToDelete, k)) == Retries(cfg, st, reps, k)
    ensures AgainFor(s, Fated(cfg, st, reps, ToDelete, k + 1)) == Retries(cfg, st, reps, k + 1)
  {
    var v, before := st.starting[k], Fated(cfg, st, reps, ToDelete, k);
    FateByReport(cfg, InfoOf(st, v), reps.of(v));
    AgainLast(s, before, v);
    assert before + [] == before;
  }

  lemma {:induction false} AgainIsRetry(cfg: Config, st: State, reps: StartReports, s: State, k: nat)
    requires k <= |st.starting|
    requires forall v | v in st.starting && IsGivenUp(cfg, InfoOf(st, v), reps.of(v)) ::
               InfoOf(s, v).dynamic && InfoOf(s, v).zone == ZoneAfter(cfg, InfoOf(st, v), reps.of(v))
    ensures AgainFor(s, Fated(cfg, st, reps, ToDelete, k)) == Retries(cfg, st, reps, k)
  {
    if k > 0 {
      AgainIsRetry(cfg, st, reps, s, k - 1);
      RetryNext(cfg, st, reps, s, k - 1);
    }
  }

  lemma {:induction false} AgainSame(a: State, b: State, vms: seq<VM>)
    requires forall v | v in vms :: InfoOf(a, v) == InfoOf(b, v)
    ensures AgainFor(a, vms) == AgainFor(b, vms)
  {
    if vms != [] {
      AgainSame(a, b, vms[..|vms| - 1]);
    }
  }

  lemma MovesAsk(cfg: Config, s: State, reps: StartReports, ready: seq<VM>, failed: seq<VM>)
    requires forall v | v in failed :: v !in ready
    ensures var t := UpdateAvailable(cfg, FailedOnes(Readied(cfg, s, ready, |ready|), reps, failed, |failed|));
            t.waiting == s.waiting + AgainFor(s, failed)
  {
    var r := Readied(cfg, s, ready, |ready|);
    ReadiedShape(cfg, s, ready, |ready|);
    WholePrefix(failed);
    FailedAsk(r, reps, failed, |failed|);
    forall v | v in failed
      ensures InfoOf(r, v) == InfoOf(s, v)
    {
      ReadiedInfo(cfg, s, ready, |ready|, v);
    }
    AgainSame(r, s, failed);
  }

  lemma FailedRecord(cfg: Config, st: State, reps: StartReports, v: VM)
    requires Core(cfg, st) && v in st.starting
    ensures var i := InfoOf(Inspected(cfg, st, reps, |st.starting|), v);
            i.dynamic && i.zone == ZoneAfter(cfg, InfoOf(st, v), reps.of(v))
  {
    InspectedRecord(cfg, st, reps, v);
    InfoByReport(cfg, InfoOf(st, v), reps.of(v));
  }

  lemma FailedNotReady(cfg: Config, st: State, reps: StartReports)
    ensures forall v | v in Fated(cfg, st, reps, ToDelete, |st.starting|) ::
              v !in Fated(cfg, st, reps, ReadyToUse, |st.starting|)
  {
    forall v | v in Fated(cfg, st, reps, ToDelete, |st.starting|)
      ensures v !in Fated(cfg, st, reps, ReadyToUse, |st.starting|)
    {
      FatedByReport(cfg, st, reps, ToDelete, v);
      FatedByReport(cfg, st, reps, ReadyToUse, v);
    }
  }

  /** The waiting list grows by one request for each VM that is given up and has a zone, in order, with its own
      flavor, zone and resource. */
  lemma RetriesExactly(cfg: Config, st: State, reps: StartReports)
    requires Core(cfg, st)
    ensures ProvisionMoves(cfg, st, reps).waiting == st.waiting + Retries(cfg, st, reps, |st.starting|)
  {
    var n := |st.starting|;
    var ready, failed := Fated(cfg, st, reps, ReadyToUse, n), Fated(cfg, st, reps, ToDelete, n);
    InspectedShape(cfg, st, reps, n);
    FailedNotReady(cfg, st, reps);
    MovesAsk(cfg, Inspected(cfg, st, reps, n), reps, ready, failed);
    forall v | v in st.starting
      ensures var i := InfoOf(Inspected(cfg, st, reps, n), v);
              i.dynamic && i.zone == ZoneAfter(cfg, InfoOf(st, v), reps.of(v))
    {
      FailedRecord(cfg, st, reps, v);
    }
    AgainIsRetry(cfg, st, reps, Inspected(cfg, st, reps, n), n);
  }

  // ----- static VMs that are missing -----

  lemma {:induction false} StillUnwanted(reqs: seq<StaticReq>, taken: Option<string>, zone: Option<string>,
                                         locations: seq<Location>)
    requires !Wants(reqs, zone, locations)
    ensures !Wants(TakeOne(reqs, taken, locations), zone, locations)
  {
    if reqs != [] {
      assert !Suits(reqs[0], zone, locations);
      assert !Wants(reqs[1..], zone, locations) by {
        forall i | 0 <= i < |reqs[1..]|
          ensures !Suits(reqs[1..][i], zone, locations)
        {
          assert reqs[1..][i] == reqs[i + 1];
        }
      }
      StillUnwanted(reqs[1..], taken, zone, locations);
      var t := TakeOne(reqs, taken, locations);
      var rest := if Suits(reqs[0], taken, locations) then reqs[1..] else TakeOne(reqs[1..], taken, locations);
      forall i | 0 <= i < |t|
        ensures !Suits(t[i], zone, locations)
      {
        if i > 0 {
          assert t[i] == rest[i - 1];
        }
      }
    }
  }

  /** The VM is static, or no static VM is missing in its zone. */
  ghost predicate Settled(cfg: Config, s: State, v: VM) {
    !InfoOf(s, v).dynamic || !Wants(DeficitOf(s, v.resource), InfoOf(s, v).zone, cfg.locations)
  }

  lemma ReadySettles(cfg: Config, s: State, w: VM, v: VM)
    requires v == w || Settled(cfg, s, v)
    ensures Settled(cfg, ReadyOne(cfg, s, w), v)
  {
    ReadyOneInfo(cfg, s, w, v);
    var reqs, zone := DeficitOf(s, w.resource), InfoOf(s, w).zone;
    if !Wants(DeficitOf(s, v.resource), InfoOf(s, v).zone, cfg.locations) {
      StillUnwanted(DeficitOf(s, v.resource), zone, InfoOf(s, v).zone, cfg.locations);
    }
  }

  lemma {:induction false} ReadiedSettle(cfg: Config, st: State, vms: seq<VM>, k: nat, v: VM)
    requires k <= |vms| && v in vms[..k]
    ensures Settled(cfg, Readied(cfg, st, vms, k), v)
  {
    assert vms[..k] == vms[..k - 1] + [vms[k - 1]];
    if v != vms[k - 1] {
      ReadiedSettle(cfg, st, vms, k - 1, v);
    }
    ReadySettles(cfg, Readied(cfg, st, vms, k - 1), vms[k - 1], v);
  }

  /** A VM that becomes usable is taken as static unless no static VM of its resource is missing in its zone. */
  lemma UsableIsTaken(cfg: Config, st: State, reps: StartReports, v: VM)
    requires Core(cfg, st) && v in st.starting && IsUsable(InfoOf(st, v), reps.of(v))
    ensures Settled(cfg, ProvisionMoves(cfg, st, reps), v)
  {
    var n := |st.starting|;
    FatedByReport(cfg, st, reps, ReadyToUse, v);
    FatedByReport(cfg, st, reps, ToDelete, v);
    MovesSettle(cfg, Inspected(cfg, st, reps, n), reps, Fated(cfg, st, reps, ReadyToUse, n),
                Fated(cfg, st, reps, ToDelete, n), v);
  }

  lemma MovesSettle(cfg: Config, s: State, reps: StartReports, ready: seq<VM>, failed: seq<VM>, v: VM)
    requires v in ready && v !in failed
    ensures Settled(cfg, UpdateAvailable(cfg, FailedOnes(Readied(cfg, s, ready, |ready|), reps, failed, |failed|)), v)
  {
    WholePrefix(ready);
    WholePrefix(failed);
    ReadiedSettle(cfg, s, ready, |ready|, v);
    FailedInfo(Readied(cfg, s, ready, |ready|), reps, failed, |failed|, v);
    FailedShape(Readied(cfg, s, ready, |ready|), reps, failed, |failed|);
  }

  // ----- VMs being deleted -----

  /** Busy again, still in the cloud, and not forced off. */
  predicate IsBackInService(v: VM, i: Info, r: CleanupReport) {
    v.hostname != "" && r.torque == Present(true) && !r.code.Gone? && !i.forceOff
  }

  /** Gone from the cloud, and unknown to Torque or never part of it. */
  predicate IsForgotten(v: VM, r: CleanupReport) {
    r.code.Gone? && (v.hostname == "" || r.torque.Absent?)
  }

  /** Still in the cloud and without jobs in Torque, or not in Torque and not asked for yet, or too long ago. */
  predicate IsDestroyedNow(v: VM, i: Info, r: CleanupReport) {
    && v.hostname != "" && !r.code.Gone?
    && (r.torque == Present(false) || (r.torque.Absent? && (!i.deleteIssued || r.retry)))
  }

  /** In Torque, and gone from the cloud or without jobs. */
  predicate IsTakenOut(v: VM, r: CleanupReport) {
    v.hostname != "" && r.torque.Present? && (r.code.Gone? || !r.torque.jobs)
  }

  /** A pass forgets a VM, takes it back, or goes on deleting it, and then may take its node out of Torque and ask the
      cloud to destroy it. */
  lemma CleanupByReport(v: VM, i: Info, r: CleanupReport)
    ensures CleanupFateOf(v, i, r)
         == if IsForgotten(v, r) then Deleted
            else if IsBackInService(v, i, r) then Cancelled
            else StillDeleting(IsTakenOut(v, r), IsDestroyedNow(v, i, r))
  {
  }

  lemma EndedByReport(st: State, reps: VM -> CleanupReport, fate: CleanupFate, v: VM)
    ensures v in Ended(st, reps, fate, |st.deleting|)
       <==> v in st.deleting && CleanupFateOf(v, InfoOf(st, v), reps(v)) == fate
  {
    WholePrefix(st.deleting);
    EndedIsKeep(st, reps, fate, |st.deleting|);
    KeepMembers(st.deleting, EndSet(st, reps, fate), v);
  }

  /** What vm_check wrote, and whether a destroy request was made and accepted, or made for a VM without jobs. */
  function SweptInfo(cfg: Config, v: VM, i: Info, r: CleanupReport): Info {
    i.(state := if r.code.Gone? then i.state else Some(r.status),
       zone := if r.code.Active? || r.code.Configuring? then Some(cfg.defaultZone) else i.zone,
       deleteIssued := i.deleteIssued || (IsDestroyedNow(v, i, r) && (r.accepted || r.torque == Present(false))))
  }

  lemma SweepDestroys(cfg: Config, s: State, w: VM, r: CleanupReport)
    ensures SweepOne(cfg, s, w, r).destroyed
         == s.destroyed + if IsDestroyedNow(w, InfoOf(s, w), r) then [w] else []
  {
    CleanupByReport(w, InfoOf(s, w), r);
  }

  lemma SweepWrites(cfg: Config, s: State, w: VM, r: CleanupReport, v: VM)
    ensures InfoOf(SweepOne(cfg, s, w, r), v)
         == if v == w then SweptInfo(cfg, w, InfoOf(s, w), r) else InfoOf(s, v)
  {
    CleanupByReport(w, InfoOf(s, w), r);
    CheckedByReport(cfg, InfoOf(s, w), r.code, r.status);
  }

  lemma CheckedByReport(cfg: Config, i: Info, code: CloudCode, status: string)
    ensures Checked(cfg, i, code, status)
         == i.(state := if code.Gone? then i.state else Some(status),
               zone := if code.Active? || code.Configuring? then Some(cfg.defaultZone) else i.zone)
  {
  }

  /** The log and the record of the VM after the first k VMs have been looked at. */
  ghost function SweptLog(cfg: Config, st: State, reps: VM -> CleanupReport, v: VM): nat -> bool {
    (k: nat) => k <= |st.deleting| &&
      var s, done := Swept(cfg, st, reps, k), v in st.deleting[..k];
      && multiset(s.destroyed)[v]
         == multiset(st.destroyed)[v] + (if done && IsDestroyedNow(v, InfoOf(st, v), reps(v)) then 1 else 0)
      && InfoOf(s, v) == if done then SweptInfo(cfg, v, InfoOf(st, v), reps(v)) else InfoOf(st, v)
  }

  lemma SweptLogNext(cfg: Config, st: State, reps: VM -> CleanupReport, k: nat, v: VM)
    requires k < |st.deleting| && multiset(st.deleting)[v] <= 1 && SweptLog(cfg, st, reps, v)(k)
    ensures SweptLog(cfg, st, reps, v)(k + 1)
  {
    var w := st.deleting[k];
    SweepDestroys(cfg, Swept(cfg, st, reps, k), w, reps(w));
    SweepWrites(cfg, Swept(cfg, st, reps, k), w, reps(w), v);
    assert st.deleting[..k + 1] == st.deleting[..k] + [w];
    if v == w {
      NotBefore(st.deleting, k);
    }
  }

  lemma SweptRecord(cfg: Config, st: State, reps: VM -> CleanupReport, v: VM)
    requires multiset(st.deleting)[v] <= 1
    ensures SweptLog(cfg, st, reps, v)(|st.deleting|)
  {
    forall k: nat | k < |st.deleting| && SweptLog(cfg, st, reps, v)(k)
      ensures SweptLog(cfg, st, reps, v)(k + 1)
    {
      SweptLogNext(cfg, st, reps, k, v);
    }
    assert v !in st.deleting[..0] && Swept(cfg, st, reps, 0) == st;
    assert SweptLog(cfg, st, reps, v)(0);
    WholePrefix(st.deleting);
    Induct(SweptLog(cfg, st, reps, v), |st.deleting|);
  }

  lemma CleanupKeepsLog(cfg: Config, st: State, reps: VM -> CleanupReport)
    ensures var s, w := CleanupMoves(cfg, st, reps), Swept(cfg, st, reps, |st.deleting|);
            s.destroyed == w.destroyed && s.info == w.info
  {
    var n := |st.deleting|;
    var gone, back := Ended(st, reps, Deleted, n), Ended(st, reps, Cancelled, n);
    DeletedShape(cfg, Swept(cfg, st, reps, n), gone, |gone|);
    CancelledShape(DeletedOnes(cfg, Swept(cfg, st, reps, n), gone, |gone|), back, |back|);
  }

  /** Where a VM is after the pass, how often it has been destroyed, and its record: one being deleted is forgotten,
      returns to service or is destroyed in the pass exactly if its record and report say so; no other VM is
      touched. */
  ghost predicate CleanupEnds(cfg: Config, st: State, s: State, v: VM, r: CleanupReport) {
    var i, deleting := InfoOf(st, v), v in st.deleting;
    && (v in s.existing <==> v in st.existing || (deleting && IsBackInService(v, i, r)))
    && (v in s.deleting <==> deleting && !IsBackInService(v, i, r) && !IsForgotten(v, r))
    && (v in s.starting <==> v in st.starting)
    && multiset(s.destroyed)[v] == multiset(st.destroyed)[v] + (if deleting && IsDestroyedNow(v, i, r) then 1 else 0)
    && InfoOf(s, v) == if deleting then SweptInfo(cfg, v, i, r) else i
  }

  lemma CleanupEndsExactly(cfg: Config, st: State, reps: VM -> CleanupReport, v: VM)
    requires Core(cfg, st)
    ensures CleanupEnds(cfg, st, CleanupMoves(cfg, st, reps), v, reps(v))
  {
    CleanupMovesExactly(cfg, st, reps);
    CleanupKeepsLog(cfg, st, reps);
    AtMostOnce(st, v);
    SweptRecord(cfg, st, reps, v);
    WholePrefix(st.deleting);
    CleanupByReport(v, InfoOf(st, v), reps(v));
    EndedByReport(st, reps, Cancelled, v);
    KeepMembers(st.deleting, EndSet(st, reps, Deleted) + EndSet(st, reps, Cancelled), v);
  }

  /** A forced kill of a busy node stands: the next pass does not take the VM back. */
  lemma ForcedStaysDeleting(cfg: Config, st: State, reps: VM -> CleanupReport, v: VM)
    requires Core(cfg, st) && v in st.deleting && InfoOf(st, v).forceOff && !reps(v).code.Gone?
    ensures v in CleanupMoves(cfg, st, reps).deleting && v !in CleanupMoves(cfg, st, reps).existing
  {
    CleanupEndsExactly(cfg, st, reps, v);
    OnBooks(st, v);
    OnceOnBooks(st, v);
  }

  // ----- where deleted static VMs are missing -----

  /** A deleted static VM is missing again in its own zone, and nowhere else. */
  lemma MissingInItsZone(cfg: Config, st: State, v: VM, r: string, zone: string)
    requires forall i, j :: 0 <= i < j < |cfg.locations| ==> cfg.locations[i].name != cfg.locations[j].name
    ensures var i := InfoOf(st, v);
            MissingIn(DeficitOf(DeleteOne(cfg, st, v), r), cfg.locations, zone)
            == MissingIn(DeficitOf(st, r), cfg.locations, zone)
               + if v.resource == r && !i.dynamic && i.zone == Some(zone) && LocationOf(cfg.locations, i.zone).Some?
                 then 1 else 0
  {
    var location := LocationOf(cfg.locations, InfoOf(st, v).zone);
    LocationStandsFor(cfg.locations, InfoOf(st, v).zone);
    if location.Some? {
      AddReqInZone(DeficitOf(st, v.resource), location.value, 1, cfg.locations, zone);
    }
  }

  // ----- what deleted static VMs ask for -----

  /** A forgotten static VM is asked for again as a static one, if its zone belongs to a location. */
  function ReplacementOf(cfg: Config, v: VM, i: Info, r: CleanupReport): seq<ProvisionVM> {
    if IsForgotten(v, r) && !i.dynamic && LocationOf(cfg.locations, i.zone).Some? then
      [ProvisionVM(v.flavor, i.zone, v.resource, true)]
    else []
  }

  function Replacements(cfg: Config, st: State, reps: VM -> CleanupReport, k: nat): seq<ProvisionVM>
    requires k <= |st.deleting|
  {
    if k == 0 then []
    else
      var v := st.deleting[k - 1];
      Replacements(cfg, st, reps, k - 1) + ReplacementOf(cfg, v, InfoOf(st, v), reps(v))
  }

  /** The requests for the given VMs, by their records. */
  function ReplaceFor(cfg: Config, st: State, vms: seq<VM>): seq<ProvisionVM> {
    if vms == [] then []
    else
      var v := vms[|vms| - 1];
      ReplaceFor(cfg, st, vms[..|vms| - 1])
      + if !InfoOf(st, v).dynamic && LocationOf(cfg.locations, InfoOf(st, v).zone).Some? then [Again(v, InfoOf(st, v))]
        else []
  }

  lemma {:induction false} DeletedAsk(cfg: Config, st: State, vms: seq<VM>, k: nat)
    requires k <= |vms|
    ensures DeletedOnes(cfg, st, vms, k).waiting == st.waiting + ReplaceFor(cfg, st, vms[..k])
  {
    if k > 0 {
      DeletedAsk(cfg, st, vms, k - 1);
      DeletedShape(cfg, st, vms, k - 1);
      assert vms[..k][..k - 1] == vms[..k - 1];
    }
  }

  lemma ReplaceLast(cfg: Config, s: State, vms: seq<VM>, v: VM)
    ensures var i := InfoOf(s, v);
            ReplaceFor(cfg, s, vms + [v])
            == ReplaceFor(cfg, s, vms)
               + if !i.dynamic && LocationOf(cfg.locations, i.zone).Some? then [Again(v, i)] else []
  {
    assert (vms + [v])[..|vms|] == vms;
  }

  lemma ReplacementNext(cfg: Config, st: State, reps: VM -> CleanupReport, s: State, k: nat)
    requires k < |st.deleting|
    requires var v := st.deleting[k];
             IsForgotten(v, reps(v)) ==>
               InfoOf(s, v).dynamic == InfoOf(st, v).dynamic && InfoOf(s, v).zone == InfoOf(st, v).zone
    requires ReplaceFor(cfg, s, Ended(st, reps, Deleted, k)) == Replacements(cfg, st, reps, k)
    ensures ReplaceFor(cfg, s, Ended(st, reps, Deleted, k + 1)) == Replacements(cfg, st, reps, k + 1)
  {
    var v, before := st.deleting[k], Ended(st, reps, Deleted, k);
    CleanupByReport(v, InfoOf(st, v), reps(v));
    ReplaceLast(cfg, s, before, v);
    assert before + [] == before;
  }

  lemma {:induction false} ReplaceIsReplacement(cfg: Config, st: State, reps: VM -> CleanupReport, s: State, k: nat)
    requires k <= |st.deleting|
    requires forall v | v in st.deleting && IsForgotten(v, reps(v)) ::
               InfoOf(s, v).dynamic == InfoOf(st, v).dynamic && InfoOf(s, v).zone == InfoOf(st, v).zone
    ensures ReplaceFor(cfg, s, Ended(st, reps, Deleted, k)) == Replacements(cfg, st, reps, k)
  {
    if k > 0 {
      ReplaceIsReplacement(cfg, st, reps, s, k - 1);
      ReplacementNext(cfg, st, reps, s, k - 1);
    }
  }

  lemma ForgottenRecord(cfg: Config, st: State, reps: VM -> CleanupReport, v: VM)
    requires Partition(Books(st)) && v in st.deleting && IsForgotten(v, reps(v))
    ensures var i := InfoOf(Swept(cfg, st, reps, |st.deleting|), v);
            i.dynamic == InfoOf(st, v).dynamic && i.zone == InfoOf(st, v).zone
  {
    AtMostOnce(st, v);
    SweptRecord(cfg, st, reps, v);
    WholePrefix(st.deleting);
  }

  lemma CleanupKeepsWaiting(cfg: Config, st: State, reps: VM -> CleanupReport)
    ensures var w, gone := Swept(cfg, st, reps, |st.deleting|), Ended(st, reps, Deleted, |st.deleting|);
            CleanupMoves(cfg, st, reps).waiting == w.waiting + ReplaceFor(cfg, w, gone)
  {
    var n := |st.deleting|;
    var gone, back := Ended(st, reps, Deleted, n), Ended(st, reps, Cancelled, n);
    var w := Swept(cfg, st, reps, n);
    WholePrefix(gone);
    DeletedAsk(cfg, w, gone, |gone|);
    CancelledShape(DeletedOnes(cfg, w, gone, |gone|), back, |back|);
  }

  /** The waiting list grows by one static request for each static VM that is forgotten, in order, with its own
      flavor, zone and resource. */
  lemma ReplacementsExactly(cfg: Config, st: State, reps: VM -> CleanupReport)
    requires Core(cfg, st)
    ensures CleanupMoves(cfg, st, reps).waiting == st.waiting + Replacements(cfg, st, reps, |st.deleting|)
  {
    CleanupKeepsWaiting(cfg, st, reps);
    SweptShape(cfg, st, reps, |st.deleting|);
    forall v | v in st.deleting && IsForgotten(v, reps(v))
      ensures var i := InfoOf(Swept(cfg, st, reps, |st.deleting|), v);
              i.dynamic == InfoOf(st, v).dynamic && i.zone == InfoOf(st, v).zone
    {
      ForgottenRecord(cfg, st, reps, v);
    }
    ReplaceIsReplacement(cfg, st, reps, Swept(cfg, st, reps, |st.deleting|), |st.deleting|);
  }
}
