/** Which missing static VMs nobody is working on. A missing static VM is being worked on while a static request
    waits or a VM of the resource is starting; this module says when that covers what is missing. */
module CoverageLaws {
  import opened Outcomes
  import opened Sequences
  import opened CloudTools
  import opened Lifecycle
  import opened LifecycleInvariant
  import opened LifecycleLaws
  import opened CleanupLaws
  import opened NodeLaws
  import opened ProgressLaws
  import opened Loading
  import LoadLaws
  import RunLaws

  function AsksStatic(r: string): ProvisionVM -> bool {
    (p: ProvisionVM) => p.isStatic && p.resource == r
  }

  function AsksDynamic(r: string): ProvisionVM -> bool {
    (p: ProvisionVM) => !p.isStatic && p.resource == r
  }

  function IsOf(r: string): VM -> bool {
    (v: VM) => v.resource == r
  }

  /** The static VMs missing of the resource, less its static requests and its starting VMs. */
  function Uncovered(st: State, r: string): int {
    Deficit(DeficitOf(st, r)) - CountIf(st.waiting, AsksStatic(r)) - CountIf(st.starting, IsOf(r))
  }

  lemma SameUncovered(a: State, b: State, r: string)
    requires b.deficit == a.deficit && b.waiting == a.waiting && b.starting == a.starting
    ensures Uncovered(b, r) == Uncovered(a, r)
  {
  }

  // ----- launching -----

  lemma {:induction false} StartedAnswer(started: seq<VM>, requests: seq<ProvisionVM>, r: string)
    requires |started| == |requests|
    requires forall i :: 0 <= i < |started| ==> started[i].resource == requests[i].resource
    ensures CountIf(started, IsOf(r)) == CountIf(requests, AsksStatic(r)) + CountIf(requests, AsksDynamic(r))
  {
    if started != [] {
      var n := |started| - 1;
      StartedAnswer(started[..n], requests[..n], r);
      assert started[n].resource == requests[n].resource;
    }
  }

  /** How many of the requests that the launch meets are for dynamic VMs of the resource. */
  ghost function DynamicStarts(cfg: Config, st: State, started: seq<VM>, r: string): nat {
    if MayLaunch(cfg, st) && |started| <= |st.waiting| then CountIf(st.waiting[..|started|], AsksDynamic(r)) else 0
  }

  /** A launch drops dynamic requests only, so it uncovers nothing; each dynamic VM it starts may become static. */
  lemma LaunchUncovers(cfg: Config, st: State, started: seq<VM>, r: string)
    requires Startable(cfg, st, started)
    ensures Uncovered(Launch(cfg, st, started), r) == Uncovered(st, r) - DynamicStarts(cfg, st, started, r)
  {
    if MayLaunch(cfg, st) {
      var n := |started|;
      var rest := st.waiting[n..];
      assert st.waiting == st.waiting[..n] + rest;
      CountIfAppend(st.waiting[..n], rest, AsksStatic(r));
      CountIfKeep(rest, StaticSet(rest), AsksStatic(r));
      CountIfAppend(st.starting, started, IsOf(r));
      StartedAnswer(started, st.waiting[..n], r);
    }
  }

  // ----- update_provision_status -----

  lemma FatedLast(cfg: Config, st: State, reps: StartReports, fate: StartFate, r: string, k: nat)
    requires k < |st.starting|
    ensures var v := st.starting[k];
            CountIf(Fated(cfg, st, reps, fate, k + 1), IsOf(r))
            == CountIf(Fated(cfg, st, reps, fate, k), IsOf(r))
               + if StartFateOf(cfg, InfoOf(st, v), reps.of(v)) == fate && v.resource == r then 1 else 0
  {
    var v := st.starting[k];
    if StartFateOf(cfg, InfoOf(st, v), reps.of(v)) == fate {
      CountLast(Fated(cfg, st, reps, fate, k), v, IsOf(r));
    } else {
      assert Fated(cfg, st, reps, fate, k + 1) == Fated(cfg, st, reps, fate, k);
    }
  }

  /** How many of the first k starting VMs are of the resource, by fate. */
  ghost function CountByFate(cfg: Config, st: State, reps: StartReports, fate: StartFate, r: string, k: nat): nat
    requires k <= |st.starting|
  {
    CountIf(Fated(cfg, st, reps, fate, k), IsOf(r))
  }

  lemma FatesNext(cfg: Config, st: State, reps: StartReports, r: string, k: nat)
    requires k < |st.starting|
    ensures CountIf(st.starting[..k + 1], IsOf(r)) - CountIf(st.starting[..k], IsOf(r))
         == CountByFate(cfg, st, reps, ReadyToUse, r, k + 1) - CountByFate(cfg, st, reps, ReadyToUse, r, k)
            + CountByFate(cfg, st, reps, ToDelete, r, k + 1) - CountByFate(cfg, st, reps, ToDelete, r, k)
            + CountByFate(cfg, st, reps, StillStarting, r, k + 1) - CountByFate(cfg, st, reps, StillStarting, r, k)
  {
    assert st.starting[..k + 1] == st.starting[..k] + [st.starting[k]];
    CountLast(st.starting[..k], st.starting[k], IsOf(r));
    FatedLast(cfg, st, reps, ReadyToUse, r, k);
    FatedLast(cfg, st, reps, ToDelete, r, k);
    FatedLast(cfg, st, reps, StillStarting, r, k);
  }

  lemma {:induction false} FatesCount(cfg: Config, st: State, reps: StartReports, r: string, k: nat)
    requires k <= |st.starting|
    ensures CountIf(st.starting[..k], IsOf(r))
         == CountByFate(cfg, st, reps, ReadyToUse, r, k) + CountByFate(cfg, st, reps, ToDelete, r, k)
            + CountByFate(cfg, st, reps, StillStarting, r, k)
  {
    if k > 0 {
      FatesCount(cfg, st, reps, r, k - 1);
      FatesNext(cfg, st, reps, r, k - 1);
    }
  }

  /** The VM is of the resource and was not marked static. */
  ghost function StaysDynamic(info: map<VM, Info>, r: string): VM -> bool {
    (v: VM) => v.resource == r && !StaticOf(info, v, OfResource(r))
  }

  lemma {:induction false} MarkedOrNot(vms: seq<VM>, info: map<VM, Info>, r: string)
    ensures CountIf(vms, IsOf(r)) == StaticCount(vms, info, OfResource(r)) + CountIf(vms, StaysDynamic(info, r))
  {
    if vms != [] {
      MarkedOrNot(vms[..|vms| - 1], info, r);
    }
  }

  lemma {:induction false} InspectedMarks(cfg: Config, st: State, reps: StartReports, k: nat, v: VM)
    requires k <= |st.starting|
    ensures InfoOf(Inspected(cfg, st, reps, k), v).dynamic == InfoOf(st, v).dynamic
  {
    if k > 0 {
      InspectedMarks(cfg, st, reps, k - 1, v);
      InspectOneInfo(cfg, Inspected(cfg, st, reps, k - 1), reps, st.starting[k - 1], v);
    }
  }

  lemma {:induction false} FailedMarks(st: State, reps: StartReports, vms: seq<VM>, k: nat, v: VM)
    requires k <= |vms|
    ensures InfoOf(FailedOnes(st, reps, vms, k), v).dynamic == InfoOf(st, v).dynamic
  {
    if k > 0 {
      FailedMarks(st, reps, vms, k - 1, v);
    }
  }

  /** Only a VM that becomes ready can change its static mark. */
  lemma MovesMarks(cfg: Config, st: State, reps: StartReports, v: VM)
    requires v !in Fated(cfg, st, reps, ReadyToUse, |st.starting|)
    ensures InfoOf(ProvisionMoves(cfg, st, reps), v).dynamic == InfoOf(st, v).dynamic
  {
    var n := |st.starting|;
    var ready, failed := Fated(cfg, st, reps, ReadyToUse, n), Fated(cfg, st, reps, ToDelete, n);
    InspectedMarks(cfg, st, reps, n, v);
    ReadiedInfo(cfg, Inspected(cfg, st, reps, n), ready, |ready|, v);
    FailedMarks(Readied(cfg, Inspected(cfg, st, reps, n), ready, |ready|), reps, failed, |failed|, v);
  }

  lemma FatedWereStarting(cfg: Config, st: State, reps: StartReports, fate: StartFate, v: VM)
    requires v in Fated(cfg, st, reps, fate, |st.starting|)
    ensures v in st.starting && StartFateOf(cfg, InfoOf(st, v), reps.of(v)) == fate
  {
    WholePrefix(st.starting);
    FatedIsKeep(cfg, st, reps, fate, |st.starting|);
    KeepMembers(st.starting, FateSet(cfg, st, reps, fate), v);
  }

  lemma OthersKeepMarks(cfg: Config, st: State, reps: StartReports, v: VM)
    requires ConfigOk(cfg) && Core(cfg, st) && (v in st.existing || v in st.deleting)
    requires Core(cfg, ProvisionMoves(cfg, st, reps)) && v in Books(ProvisionMoves(cfg, st, reps))
    ensures forall r ::
              StaticOf(st.info, v, OfResource(r)) == StaticOf(ProvisionMoves(cfg, st, reps).info, v, OfResource(r))
  {
    OnBooks(st, v);
    OnceOnBooks(st, v);
    assert VmOk(cfg, st.info, v) && VmOk(cfg, ProvisionMoves(cfg, st, reps).info, v);
    if v in Fated(cfg, st, reps, ReadyToUse, |st.starting|) {
      FatedWereStarting(cfg, st, reps, ReadyToUse, v);
    }
    MovesMarks(cfg, st, reps, v);
  }

  /** How the static VMs of the resource split up after the moves: those that were static, and the ready VMs that
      became it. */
  lemma MovesHeld(cfg: Config, st: State, reps: StartReports, r: string)
    requires ConfigOk(cfg) && Core(cfg, st)
    ensures var s := ProvisionMoves(cfg, st, reps);
            StaticHeld(s, OfResource(r))
            == StaticHeld(st, OfResource(r))
               + StaticCount(Fated(cfg, st, reps, ReadyToUse, |st.starting|), s.info, OfResource(r))
  {
    var k := OfResource(r);
    var s := ProvisionMoves(cfg, st, reps);
    var ready := Fated(cfg, st, reps, ReadyToUse, |st.starting|);
    var failed := Fated(cfg, st, reps, ToDelete, |st.starting|);
    ProvisionMovesOnly(cfg, st, reps);
    ProvisionMovesConserve(cfg, st, reps);
    CountAppend(st.existing, ready, s.info, k);
    CountAppend(st.deleting, failed, s.info, k);
    FailedAreDynamic(cfg, st, reps);
    CountDynamic(failed, s.info, k);
    forall v | v in st.existing || v in st.deleting
      ensures StaticOf(st.info, v, k) == StaticOf(s.info, v, k)
    {
      OnBooks(st, v);
      OthersKeepMarks(cfg, st, reps, v);
    }
    CountSame(st.existing, st.info, s.info, k);
    CountSame(st.deleting, st.info, s.info, k);
  }

  lemma FailedAreDynamic(cfg: Config, st: State, reps: StartReports)
    requires ConfigOk(cfg) && Core(cfg, st)
    ensures AllDynamic(ProvisionMoves(cfg, st, reps).info, Fated(cfg, st, reps, ToDelete, |st.starting|))
  {
    var s := ProvisionMoves(cfg, st, reps);
    ProvisionMovesConserve(cfg, st, reps);
    forall v | v in Fated(cfg, st, reps, ToDelete, |st.starting|)
      ensures v in s.info && s.info[v].dynamic
    {
      FatedWereStarting(cfg, st, reps, ToDelete, v);
      OnBooks(st, v);
      assert VmOk(cfg, s.info, v);
      if v in Fated(cfg, st, reps, ReadyToUse, |st.starting|) {
        FatedWereStarting(cfg, st, reps, ReadyToUse, v);
      }
      MovesMarks(cfg, st, reps, v);
    }
  }

  /** The starting VMs of the resource that the pass loses: those that fail, and those that are ready but not taken
      as static. */
  ghost function LostStarts(cfg: Config, st: State, reps: StartReports, r: string): nat {
    var n := |st.starting|;
    CountIf(Fated(cfg, st, reps, ToDelete, n), IsOf(r))
    + CountIf(Fated(cfg, st, reps, ReadyToUse, n), StaysDynamic(ProvisionMoves(cfg, st, reps).info, r))
  }

  lemma DynamicAdds(before: seq<ProvisionVM>, after: seq<ProvisionVM>, r: string)
    requires AsksForDynamic(before, after)
    ensures CountIf(after, AsksStatic(r)) == CountIf(before, AsksStatic(r))
  {
    assert after == before + after[|before|..];
    CountIfAppend(before, after[|before|..], AsksStatic(r));
    CountIfNone(after[|before|..], AsksStatic(r));
  }

  /** Each lost start uncovers one missing static VM, since a retry asks for a dynamic VM. */
  lemma MovesUncover(cfg: Config, st: State, reps: StartReports, r: string)
    requires ConfigOk(cfg) && Core(cfg, st) && r in cfg.quota
    ensures Uncovered(ProvisionMoves(cfg, st, reps), r) == Uncovered(st, r) + LostStarts(cfg, st, reps, r)
  {
    var n := |st.starting|;
    var s := ProvisionMoves(cfg, st, reps);
    ProvisionMovesOnly(cfg, st, reps);
    ProvisionMovesConserve(cfg, st, reps);
    MovesHeld(cfg, st, reps, r);
    assert StaticTotals(cfg, s)[r] == StaticTotals(cfg, st)[r];
    MarkedOrNot(Fated(cfg, st, reps, ReadyToUse, n), s.info, r);
    FatesCount(cfg, st, reps, r, n);
    WholePrefix(st.starting);
    RetriesAreDynamic(cfg, st, reps);
    DynamicAdds(st.waiting, s.waiting, r);
  }

  // ----- check_cleanup -----

  /** A deleted static VM is missing again and asked for again. */
  lemma DeleteUncovers(cfg: Config, st: State, v: VM, r: string)
    ensures Uncovered(DeleteOne(cfg, st, v), r) == Uncovered(st, r)
  {
    var i := InfoOf(st, v);
    var location := LocationOf(cfg.locations, i.zone);
    if !i.dynamic && location.Some? {
      AddReqAdds(DeficitOf(st, v.resource), location.value, 1, cfg.locations);
      CountLast(st.waiting, Again(v, i), AsksStatic(r));
    }
  }

  lemma {:induction false} DeletedUncover(cfg: Config, st: State, vms: seq<VM>, k: nat, r: string)
    requires k <= |vms|
    ensures Uncovered(DeletedOnes(cfg, st, vms, k), r) == Uncovered(st, r)
  {
    if k > 0 {
      DeletedUncover(cfg, st, vms, k - 1, r);
      DeleteUncovers(cfg, DeletedOnes(cfg, st, vms, k - 1), vms[k - 1], r);
    }
  }

  lemma CleanupUncovers(cfg: Config, st: State, reps: VM -> CleanupReport, r: string)
    ensures Uncovered(CleanupMoves(cfg, st, reps), r) == Uncovered(st, r)
  {
    var n := |st.deleting|;
    var gone, back := Ended(st, reps, Deleted, n), Ended(st, reps, Cancelled, n);
    var s1 := Swept(cfg, st, reps, n);
    SweptShape(cfg, st, reps, n);
    SameUncovered(st, s1, r);
    var s2 := DeletedOnes(cfg, s1, gone, |gone|);
    DeletedUncover(cfg, s1, gone, |gone|, r);
    CancelledShape(s2, back, |back|);
    SameUncovered(s2, CleanupMoves(cfg, st, reps), r);
  }

  // ----- the other steps -----

  lemma CollectUncovers(cfg: Config, st: State, q: Query, nodes: NodeReports, plan: seq<ProvisionVM>, r: string)
    requires ConfigOk(cfg) && Core(cfg, st) && Plannable(cfg, plan)
    ensures Uncovered(Collect(cfg, st, q, nodes, plan), r) == Uncovered(st, r)
  {
    if MayAct(st, q) {
      var s := Queried(st, q);
      OtherFields(cfg, st, s);
      CheckExistingKeepsKinds(cfg, s, nodes);
      var killed, retired := CheckExistingTouchesOnlyIdle(cfg, s, nodes);
      var t := CheckExisting(cfg, s, nodes);
      SameUncovered(st, t, r);
      CountIfAppend(t.waiting, plan, AsksStatic(r));
      CountIfNone(plan, AsksStatic(r));
    }
  }

  /** What a step uncovers: the starting VMs of the resource that it loses. */
  ghost function Opened(cfg: Config, st: State, e: Event, r: string): nat {
    match e
    case Provisioning(starts, started) => if st.provisioning then LostStarts(cfg, st, starts, r) else 0
    case ForcingOff(accepted) => CountIf(st.starting, IsOf(r))
    case Collecting(q, nodes, plan) => 0
    case CleaningUp(ends, started) => 0
    case Killing(name, force) => 0
    case TogglingSleep => 0
  }

  /** What a step covers: the dynamic VMs of the resource that it starts. */
  ghost function Filled(cfg: Config, st: State, e: Event, r: string): nat {
    match e
    case Provisioning(starts, started) =>
      if st.provisioning then DynamicStarts(cfg, ProvisionMoves(cfg, st, starts), started, r) else 0
    case CleaningUp(ends, started) =>
      var s := CleanupMoves(cfg, st, ends);
      if st.deleting != [] && CleanupLaunches(s) then DynamicStarts(cfg, s, started, r) else 0
    case Collecting(q, nodes, plan) => 0
    case Killing(name, force) => 0
    case ForcingOff(accepted) => 0
    case TogglingSleep => 0
  }

  lemma ProvisionUncovers(cfg: Config, st: State, starts: StartReports, started: seq<VM>, r: string)
    requires ConfigOk(cfg) && Core(cfg, st) && r in cfg.quota
    requires Startable(cfg, ProvisionMoves(cfg, st, starts), started)
    ensures Uncovered(ProvisionPass(cfg, st, starts, started), r)
         == Uncovered(st, r) + LostStarts(cfg, st, starts, r)
            - DynamicStarts(cfg, ProvisionMoves(cfg, st, starts), started, r)
  {
    var s := ProvisionMoves(cfg, st, starts);
    MovesUncover(cfg, st, starts, r);
    if NothingPending(s) {
      SameUncovered(s, s.(provisioning := false), r);
    } else {
      LaunchUncovers(cfg, s, started, r);
    }
  }

  lemma CleanupPassUncovers(cfg: Config, st: State, ends: VM -> CleanupReport, started: seq<VM>, r: string)
    requires Possible(cfg, st, CleaningUp(ends, started))
    ensures Uncovered(CleanupPass(cfg, st, ends, started), r)
         == Uncovered(st, r) - Filled(cfg, st, CleaningUp(ends, started), r)
  {
    var s := CleanupMoves(cfg, st, ends);
    CleanupUncovers(cfg, st, ends, r);
    if st.deleting != [] && CleanupLaunches(s) {
      LaunchUncovers(cfg, s, started, r);
    }
  }

  lemma ForceOffUncovers(cfg: Config, st: State, accepted: VM -> bool, r: string)
    requires ConfigOk(cfg) && Core(cfg, st)
    ensures Uncovered(ForceOff(st, accepted), r) == Uncovered(st, r) + CountIf(st.starting, IsOf(r))
  {
    ForceOffKeeps(cfg, st, accepted);
  }

  /** A step uncovers exactly the starts that it loses, and covers exactly the dynamic VMs that it starts. */
  lemma StepUncovers(cfg: Config, st: State, e: Event, r: string)
    requires ConfigOk(cfg) && Inv(cfg, st) && Possible(cfg, st, e) && r in cfg.quota
    ensures Uncovered(Step(cfg, st, e), r) == Uncovered(st, r) + Opened(cfg, st, e, r) - Filled(cfg, st, e, r)
  {
    match e
    case Collecting(q, nodes, plan) => CollectUncovers(cfg, st, q, nodes, plan, r);
    case Provisioning(starts, started) =>
      if st.provisioning {
        ProvisionUncovers(cfg, st, starts, started, r);
      }
    case CleaningUp(ends, started) => CleanupPassUncovers(cfg, st, ends, started, r);
    case Killing(name, force) => SameUncovered(st, Kill(st, name, force), r);
    case ForcingOff(accepted) => ForceOffUncovers(cfg, st, accepted, r);
    case TogglingSleep => SameUncovered(st, st.(sleeping := !st.sleeping), r);
  }

  // ----- runs -----

  ghost function UncoveredAfter(cfg: Config, st: State, events: seq<Event>, r: string): nat -> int {
    (k: nat) => if k <= |events| then Uncovered(After(cfg, st, events, k), r) else 0
  }

  /** What event k uncovers, less what it covers. */
  ghost function Change(cfg: Config, st: State, events: seq<Event>, r: string): nat -> int {
    (k: nat) =>
      if k >= |events| then 0
      else
        Opened(cfg, After(cfg, st, events, k), events[k], r) - Filled(cfg, After(cfg, st, events, k), events[k], r)
  }

  lemma RunUncoversNext(cfg: Config, st: State, events: seq<Event>, r: string, k: nat)
    requires ConfigOk(cfg) && Inv(cfg, st) && Run(cfg, st, events) && k < |events| && r in cfg.quota
    ensures UncoveredAfter(cfg, st, events, r)(k + 1)
         == UncoveredAfter(cfg, st, events, r)(k) + Change(cfg, st, events, r)(k)
  {
    RunLaws.RunKeeps(cfg, st, events, k);
    RunLaws.RunNext(cfg, st, events, k);
    StepUncovers(cfg, After(cfg, st, events, k), events[k], r);
  }

  lemma RunTelescopes(cfg: Config, st: State, events: seq<Event>, r: string, k: nat)
    requires ConfigOk(cfg) && Inv(cfg, st) && Run(cfg, st, events) && k <= |events| && r in cfg.quota
    ensures UncoveredAfter(cfg, st, events, r)(k)
         == UncoveredAfter(cfg, st, events, r)(0) + SumTo(Change(cfg, st, events, r), k)
  {
    forall i: nat | i < k
      ensures UncoveredAfter(cfg, st, events, r)(i + 1)
           == UncoveredAfter(cfg, st, events, r)(i) + Change(cfg, st, events, r)(i)
    {
      RunUncoversNext(cfg, st, events, r, i);
    }
    Telescope(UncoveredAfter(cfg, st, events, r), Change(cfg, st, events, r), k);
  }

  /** In every state of every run the missing static VMs of a resource are covered by static requests and starting
      VMs, except for what the run has uncovered and not covered again. */
  lemma RunUncovers(cfg: Config, st: State, events: seq<Event>, r: string, k: nat)
    requires ConfigOk(cfg) && Inv(cfg, st) && Run(cfg, st, events) && k <= |events| && r in cfg.quota
    ensures Uncovered(After(cfg, st, events, k), r) == Uncovered(st, r) + SumTo(Change(cfg, st, events, r), k)
  {
    RunTelescopes(cfg, st, events, r, k);
  }

  /** So what is covered stays covered as long as no start is lost. */
  lemma StaysCovered(cfg: Config, st: State, events: seq<Event>, r: string, k: nat)
    requires ConfigOk(cfg) && Inv(cfg, st) && Run(cfg, st, events) && k <= |events| && r in cfg.quota
    requires Uncovered(st, r) <= 0
    requires forall i :: 0 <= i < k ==> Opened(cfg, After(cfg, st, events, i), events[i], r) == 0
    ensures Uncovered(After(cfg, st, events, k), r) <= 0
  {
    RunUncovers(cfg, st, events, r, k);
    SumNotPositive(Change(cfg, st, events, r), k);
  }

  // ----- loading -----

  lemma {:induction false} AllMet(list: seq<ProvisionVM>, r: string)
    requires forall p | p in list :: p.isStatic && p.resource == r
    ensures CountIf(list, AsksStatic(r)) == |list|
  {
    if list != [] {
      assert list[|list| - 1] in list;
      AllMet(list[..|list| - 1], r);
    }
  }

  lemma {:induction false} NoneMissing(reqs: seq<StaticReq>)
    requires !NeedsMore(reqs)
    ensures Deficit(reqs) == 0
  {
    if reqs != [] {
      assert reqs[0].count == 0;
      assert !NeedsMore(reqs[1..]) by {
        forall i | 0 <= i < |reqs[1..]|
          ensures reqs[1..][i].count == 0
        {
          assert reqs[1..][i] == reqs[i + 1];
        }
      }
      NoneMissing(reqs[1..]);
    }
  }

  /** What a resource misses at loading is asked for. */
  lemma AskedIsCovered(cfg: Config, st: State, r: string, rep: LoadReport)
    ensures Uncovered(AskedStatics(cfg, st, r, rep), r) <= 0
  {
    var reqs := DeficitOf(st, r);
    if NeedsMore(reqs) {
      var list := ProvisionList(reqs, rep.first(r), r, cfg.locations);
      ProvisionListMeetsDeficit(reqs, rep.first(r), r, cfg.locations);
      AllMet(list, r);
      CountIfAppend(st.waiting, list, AsksStatic(r));
    } else {
      NoneMissing(reqs);
    }
  }

  lemma {:induction false} MarkedElsewhere(cfg: Config, st: State, vms: seq<VM>, rep: LoadReport, k: nat, q: string)
    requires k <= |vms| && forall v | v in vms :: v.resource != q
    ensures DeficitOf(Marked(cfg, st, vms, rep, k), q) == DeficitOf(st, q)
  {
    if k > 0 {
      MarkedElsewhere(cfg, st, vms, rep, k - 1, q);
      assert vms[k - 1] in vms;
    }
  }

  lemma MarkedForUncovers(cfg: Config, st: State, vms: seq<VM>, r: string, rep: LoadReport, q: string)
    requires forall v | v in vms :: v.resource != q
    ensures Uncovered(MarkedFor(cfg, st, vms, r, rep), q) == Uncovered(st, q)
  {
    LoadLaws.MarkedShape(cfg, st, vms, rep, |vms|);
    MarkedElsewhere(cfg, st, vms, rep, |vms|, q);
  }

  lemma TrimmedUncovers(cfg: Config, st: State, vms: seq<VM>, r: string, rep: LoadReport, q: string)
    ensures Uncovered(Trimmed(cfg, st, vms, r, rep), q) == Uncovered(st, q)
  {
    var victims := Victims(st, vms, Excess(cfg, st, vms, r));
    LoadLaws.DestroyedShape(st, victims, rep.accepted, |victims|);
    SameUncovered(st, Trimmed(cfg, st, vms, r, rep), q);
  }

  lemma AskedUncovers(cfg: Config, st: State, r: string, rep: LoadReport, q: string)
    ensures Uncovered(AskedStatics(cfg, st, r, rep), q) <= Uncovered(st, q)
  {
    CountIfAppend(st.waiting, ProvisionList(DeficitOf(st, r), rep.first(r), r, cfg.locations), AsksStatic(q));
  }

  /** Loading one resource changes what another misses or asks for in no other way than by asking for more. */
  lemma LoadedElsewhere(cfg: Config, st: State, r: string, rep: LoadReport, q: string)
    requires q != r
    ensures Uncovered(LoadResource(cfg, st, r, rep), q) <= Uncovered(st, q)
  {
    var vms := VmsOf(st.existing, r);
    LoadLaws.VmsOfIn(st.existing, r);
    MarkedForUncovers(cfg, st, vms, r, rep, q);
    var m := MarkedFor(cfg, st, vms, r, rep);
    TrimmedUncovers(cfg, m, vms, r, rep, q);
    AskedUncovers(cfg, Trimmed(cfg, m, vms, r, rep), r, rep, q);
  }

  /** The first k resources are covered. */
  ghost predicate CoveredUpTo(cfg: Config, s: State, k: nat) {
    forall i :: 0 <= i < k && i < |cfg.order| ==> Uncovered(s, cfg.order[i]) <= 0
  }

  lemma LoadedCoversNext(cfg: Config, s: State, rep: LoadReport, k: nat)
    requires NoDup(cfg.order) && k < |cfg.order| && CoveredUpTo(cfg, s, k)
    ensures CoveredUpTo(cfg, LoadResource(cfg, s, cfg.order[k], rep), k + 1)
  {
    var r := cfg.order[k];
    var vms := VmsOf(s.existing, r);
    AskedIsCovered(cfg, Trimmed(cfg, MarkedFor(cfg, s, vms, r, rep), vms, r, rep), r, rep);
    forall i | 0 <= i < k
      ensures Uncovered(LoadResource(cfg, s, r, rep), cfg.order[i]) <= 0
    {
      LoadedElsewhere(cfg, s, r, rep, cfg.order[i]);
    }
  }

  ghost function LoadedCovered(cfg: Config, st: State, rep: LoadReport): nat -> bool {
    (k: nat) => k <= |cfg.order| && CoveredUpTo(cfg, LoadedResources(cfg, st, rep, k), k)
  }

  lemma LoadedIsCovered(cfg: Config, st: State, rep: LoadReport)
    requires NoDup(cfg.order)
    ensures CoveredUpTo(cfg, LoadedResources(cfg, st, rep, |cfg.order|), |cfg.order|)
  {
    forall k: nat | k < |cfg.order| && LoadedCovered(cfg, st, rep)(k)
      ensures LoadedCovered(cfg, st, rep)(k + 1)
    {
      LoadedCoversNext(cfg, LoadedResources(cfg, st, rep, k), rep, k);
    }
    assert LoadedCovered(cfg, st, rep)(0);
    Induct(LoadedCovered(cfg, st, rep), |cfg.order|);
  }

  /** After loading, whatever is missing of a resource is asked for or starting. */
  lemma LoadCovers(cfg: Config, st: State, rep: LoadReport, started: seq<VM>, r: string)
    requires ConfigOk(cfg) && NoDup(cfg.order) && r in cfg.quota
    requires LoadMoves(cfg, st, rep).waiting != [] ==> Startable(cfg, LoadMoves(cfg, st, rep), started)
    ensures Uncovered(Load(cfg, st, rep, started), r) <= 0
  {
    var s, u := LoadMoves(cfg, st, rep), LoadedResources(cfg, Screened(st, rep), rep, |cfg.order|);
    LoadedIsCovered(cfg, Screened(st, rep), rep);
    assert r in cfg.order;
    SameUncovered(u, s, r);
    if s.waiting != [] {
      LaunchUncovers(cfg, s, started, r);
    }
  }

  // ----- a deficit that nothing works on -----

  lemma FatedAlone(cfg: Config, st: State, v: VM, reps: StartReports, fate: StartFate)
    requires st.starting == [v]
    ensures Fated(cfg, st, reps, fate, 1)
         == if StartFateOf(cfg, InfoOf(st, v), reps.of(v)) == fate then [v] else []
  {
    assert Fated(cfg, st, reps, fate, 0) == [];
  }

  /** What the pass makes of a VM that is starting alone. */
  function MovedAlone(cfg: Config, st: State, v: VM, reps: StartReports): State {
    var s := InspectOne(cfg, st, v, reps);
    match StartFateOf(cfg, InfoOf(st, v), reps.of(v))
    case ReadyToUse => ReadyOne(cfg, s, v)
    case ToDelete => FailOne(s, v, reps.of(v).accepted)
    case StillStarting => s
  }

  lemma MovesAlone(cfg: Config, st: State, v: VM, reps: StartReports)
    requires st.starting == [v]
    ensures ProvisionMoves(cfg, st, reps) == UpdateAvailable(cfg, MovedAlone(cfg, st, v, reps))
  {
    FatedAlone(cfg, st, v, reps, ReadyToUse);
    FatedAlone(cfg, st, v, reps, ToDelete);
    var s := InspectOne(cfg, st, v, reps);
    assert Inspected(cfg, st, reps, 0) == st;
    assert Inspected(cfg, st, reps, 1) == s;
    assert Readied(cfg, s, [v], 0) == s;
    assert Readied(cfg, s, [v], 1) == ReadyOne(cfg, s, v);
    assert FailedOnes(s, reps, [v], 0) == s;
    assert FailedOnes(s, reps, [v], 1) == FailOne(s, v, reps.of(v).accepted);
  }

  /** One resource, one location, and a batch of one. */
  ghost predicate OneSlot(cfg: Config, r: string) {
    && cfg.batch == 1 && cfg.order == [r] && cfg.quota.Keys == {r}
    && cfg.locations == [Location("MEL", cfg.defaultZone)]
  }

  function StaticRequest(cfg: Config, flavor: string, r: string): ProvisionVM {
    ProvisionVM(flavor, Some(cfg.defaultZone), r, true)
  }

  /** The state in which the pass finds or leaves the VM: `missing` static VMs, one VM starting. */
  ghost predicate OneStarts(cfg: Config, st: State, r: string, v: VM, i: Info, missing: nat) {
    && st.starting == [v] && v.resource == r && st.provisioning
    && v in st.info && st.info[v] == i && DeficitOf(st, r) == [StaticReq("MEL", missing)]
  }

  const REFUSED := StartReport(Active, "ACTIVE", false, false, false, None, true)
  const JOINS := StartReport(Active, "ACTIVE", true, true, false, None, true)
  const USABLE := StartReport(Active, "ACTIVE", true, true, false, Some("free"), true)

  function Same(r: StartReport): StartReports {
    StartReports((v: VM) => r, [])
  }

  function JoinedInfo(cfg: Config): Info {
    FRESH.(state := Some("ACTIVE"), zone := Some(cfg.defaultZone), cloudReady := true)
  }

  lemma RefusedMoves(cfg: Config, st: State, r: string, a: VM, p: ProvisionVM)
    requires OneSlot(cfg, r) && OneStarts(cfg, st, r, a, FRESH, 2) && st.waiting == [p]
    ensures var s := ProvisionMoves(cfg, st, Same(REFUSED));
            && s.waiting == [p, ProvisionVM(a.flavor, Some(cfg.defaultZone), r, false)] && s.starting == []
            && s.deficit == st.deficit && s.provisioning && s.info.Keys == st.info.Keys
  {
    MovesAlone(cfg, st, a, Same(REFUSED));
  }

  lemma NoStaticLeft(p: ProvisionVM)
    requires !p.isStatic
    ensures StaticOnly([p]) == []
  {
    assert Keep([p][..0], StaticSet([p])) == [];
  }

  /** The event is possible in the state and leads to the other one. */
  ghost predicate LeadsTo(cfg: Config, st: State, e: Event, s: State) {
    Possible(cfg, st, e) && s == Step(cfg, st, e)
  }

  /** The first VM cannot join Torque: it is asked for again, as a dynamic VM. The static request behind it takes
      the only slot, so the batch is full and the dynamic request is dropped. */
  lemma RetryIsDropped(cfg: Config, st: State, r: string, a: VM, b: VM, p: ProvisionVM) returns (s: State)
    requires OneSlot(cfg, r) && OneStarts(cfg, st, r, a, FRESH, 2)
    requires st.waiting == [p] && p.isStatic && p.resource == r && b !in st.info && a != b && b.resource == r
    ensures LeadsTo(cfg, st, Provisioning(Same(REFUSED), [b]), s)
    ensures OneStarts(cfg, s, r, b, FRESH, 2) && s.waiting == []
  {
    RefusedMoves(cfg, st, r, a, p);
    var again := ProvisionVM(a.flavor, Some(cfg.defaultZone), r, false);
    assert [p, again][1..] == [again];
    NoStaticLeft(again);
    s := ProvisionPass(cfg, st, Same(REFUSED), [b]);
  }

  lemma ThenJoins(cfg: Config, st: State, r: string, b: VM) returns (s: State)
    requires OneSlot(cfg, r) && OneStarts(cfg, st, r, b, FRESH, 2) && st.waiting == []
    ensures LeadsTo(cfg, st, Provisioning(Same(JOINS), []), s)
    ensures OneStarts(cfg, s, r, b, JoinedInfo(cfg), 2) && s.waiting == []
  {
    MovesAlone(cfg, st, b, Same(JOINS));
    s := ProvisionPass(cfg, st, Same(JOINS), []);
  }

  lemma UsedMoves(cfg: Config, st: State, r: string, b: VM)
    requires OneSlot(cfg, r) && OneStarts(cfg, st, r, b, JoinedInfo(cfg), 2) && st.waiting == []
    ensures NothingPending(ProvisionMoves(cfg, st, Same(USABLE)))
    ensures DeficitOf(ProvisionMoves(cfg, st, Same(USABLE)), r) == [StaticReq("MEL", 1)]
  {
    MovesAlone(cfg, st, b, Same(USABLE));
    assert Suits(DeficitOf(st, r)[0], Some(cfg.defaultZone), cfg.locations);
  }

  /** The second VM takes the place of one missing static VM; nothing is left to start for the other. */
  lemma ThenIsUsed(cfg: Config, st: State, r: string, b: VM) returns (s: State)
    requires OneSlot(cfg, r) && OneStarts(cfg, st, r, b, JoinedInfo(cfg), 2) && st.waiting == []
    ensures LeadsTo(cfg, st, Provisioning(Same(USABLE), []), s)
    ensures NothingPending(s) && !s.provisioning && DeficitOf(s, r) == [StaticReq("MEL", 1)]
  {
    UsedMoves(cfg, st, r, b);
    s := ProvisionPass(cfg, st, Same(USABLE), []);
  }

  /** Two static VMs are missing; one is starting and the other asked for. */
  function TwoMissing(cfg: Config, r: string, a: VM, flavor: string): State
    requires r in cfg.quota
  {
    State([], [a], [], [StaticRequest(cfg, flavor, r)], true, false, map[a := FRESH], map[r := cfg.quota[r]],
          map[r := [StaticReq("MEL", 2)]], [], [], 0, [])
  }

  /** Before loading: no VM in the cloud, two static ones configured. */
  function NothingYet(cfg: Config, r: string): State
    requires r in cfg.quota
  {
    State([], [], [], [], false, false, map[], map[r := cfg.quota[r]], map[r := [StaticReq("MEL", 2)]], [], [], 0, [])
  }

  lemma AsksForBoth(cfg: Config, r: string, rep: LoadReport)
    requires OneSlot(cfg, r) && rep.nodes == []
    ensures var p := StaticRequest(cfg, rep.first(r), r);
            LoadMoves(cfg, NothingYet(cfg, r), rep) == NothingYet(cfg, r).(waiting := [p, p])
  {
    var st, p := NothingYet(cfg, r), StaticRequest(cfg, rep.first(r), r);
    assert Screened(st, rep) == st;
    assert VmsOf([], r) == [];
    assert LoadedResources(cfg, st, rep, 0) == st;
    assert Trimmed(cfg, st, [], r, rep) == st;
    TwoRequests(cfg, st.deficit[r], rep.first(r), r, p);
    assert NeedsMore(st.deficit[r]) by {
      assert st.deficit[r][0].count > 0;
    }
  }

  lemma TwoRequests(cfg: Config, reqs: seq<StaticReq>, flavor: string, r: string, p: ProvisionVM)
    requires OneSlot(cfg, r) && reqs == [StaticReq("MEL", 2)] && p == StaticRequest(cfg, flavor, r)
    ensures ProvisionList(reqs, flavor, r, cfg.locations) == [p, p]
  {
    assert ProvisionList(reqs[..0], flavor, r, cfg.locations) == [];
    assert Repeat(p, 2) == [p] + Repeat(p, 1);
    assert Repeat(p, 1) == [p] + Repeat(p, 0);
  }

  lemma OneLeft(p: ProvisionVM)
    requires p.isStatic
    ensures LeftWaiting([p, p], 1, true) == [p]
  {
    assert [p, p][1..] == [p];
    KeepAll([p]);
  }

  lemma LaunchesOne(cfg: Config, s: State, a: VM, p: ProvisionVM)
    requires cfg.batch == 1 && s.starting == [] && s.waiting == [p, p] && p.isStatic && s.info == map[]
    requires a.resource == p.resource
    ensures Startable(cfg, s, [a])
    ensures Launch(cfg, s, [a]) == s.(provisioning := true, starting := [a], info := map[a := FRESH], waiting := [p])
  {
    OneLeft(p);
    var none: map<VM, Info> := map[];
    assert none + (map v | v in [a] :: FRESH) == map[a := FRESH];
    assert s.starting + [a] == [a];
    assert Slots(cfg, s) == 1;
  }

  /** Loading leads there. */
  lemma LoadsTwoMissing(cfg: Config, r: string, a: VM, rep: LoadReport)
    requires OneSlot(cfg, r) && a.resource == r && rep.nodes == []
    ensures Startable(cfg, LoadMoves(cfg, NothingYet(cfg, r), rep), [a])
    ensures Load(cfg, NothingYet(cfg, r), rep, [a]) == TwoMissing(cfg, r, a, rep.first(r))
  {
    var p := StaticRequest(cfg, rep.first(r), r);
    AsksForBoth(cfg, r, rep);
    LaunchesOne(cfg, LoadMoves(cfg, NothingYet(cfg, r), rep), a, p);
  }

  function LosingEvents(b: VM): seq<Event> {
    [Provisioning(Same(REFUSED), [b]), Provisioning(Same(JOINS), []), Provisioning(Same(USABLE), [])]
  }

  lemma ThreeSteps(cfg: Config, es: seq<Event>, s0: State, s1: State, s2: State, s3: State)
    requires |es| == 3
    requires LeadsTo(cfg, s0, es[0], s1) && LeadsTo(cfg, s1, es[1], s2) && LeadsTo(cfg, s2, es[2], s3)
    ensures Run(cfg, s0, es) && After(cfg, s0, es, |es|) == s3
  {
    assert After(cfg, s0, es, 0) == s0;
    assert After(cfg, s0, es, 1) == s1;
    assert After(cfg, s0, es, 2) == s2;
  }

  lemma TwoAreCovered(cfg: Config, r: string, a: VM, flavor: string)
    requires r in cfg.quota && a.resource == r
    ensures Uncovered(TwoMissing(cfg, r, a, flavor), r) == 0
  {
    var p := StaticRequest(cfg, flavor, r);
    CountLast([], p, AsksStatic(r));
    CountLast([], a, IsOf(r));
    assert [] + [p] == [p] && [] + [a] == [a];
    OneMissing(2);
  }

  lemma OneMissing(n: nat)
    ensures Deficit([StaticReq("MEL", n)]) == n
  {
    assert [StaticReq("MEL", n)][1..] == [];
  }

  lemma LosingSteps(cfg: Config, st: State, r: string, a: VM, b: VM, p: ProvisionVM) returns (s: State)
    requires OneSlot(cfg, r) && OneStarts(cfg, st, r, a, FRESH, 2)
    requires st.waiting == [p] && p.isStatic && p.resource == r && b !in st.info && a != b && b.resource == r
    ensures Run(cfg, st, LosingEvents(b)) && s == After(cfg, st, LosingEvents(b), |LosingEvents(b)|)
    ensures NothingPending(s) && !s.provisioning && DeficitOf(s, r) == [StaticReq("MEL", 1)]
  {
    var s1 := RetryIsDropped(cfg, st, r, a, b, p);
    var s2 := ThenJoins(cfg, s1, r, b);
    s := ThenIsUsed(cfg, s2, r, b);
    ThreeSteps(cfg, LosingEvents(b), st, s1, s2, s);
  }

  /** A run after which a static VM is missing, nothing is waiting or starting for it, and the flag is down. */
  lemma DeficitIsLost(cfg: Config, r: string, a: VM, b: VM, flavor: string)
    requires OneSlot(cfg, r) && a.resource == r && b.resource == r && a != b
    ensures var st, events := TwoMissing(cfg, r, a, flavor), LosingEvents(b);
            && Run(cfg, st, events) && Uncovered(st, r) == 0
            && var s := After(cfg, st, events, |events|);
               NothingPending(s) && !s.provisioning && Deficit(DeficitOf(s, r)) == 1 && Uncovered(s, r) == 1
  {
    TwoAreCovered(cfg, r, a, flavor);
    var s := LosingSteps(cfg, TwoMissing(cfg, r, a, flavor), r, a, b, StaticRequest(cfg, flavor, r));
    OneMissing(1);
  }
}
