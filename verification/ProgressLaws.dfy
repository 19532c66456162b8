/** What a launch leaves behind, that provisioning ends, and that deletion makes progress. */
module ProgressLaws {
  import opened Outcomes
  import opened Sequences
  import opened CloudTools
  import opened Lifecycle
  import opened LifecycleInvariant
  import opened LifecycleLaws
  import opened CleanupLaws
  import opened FateLaws

  // ----- what a launch leaves waiting -----

  lemma {:induction false} KeepSame(s: seq<ProvisionVM>, a: set<ProvisionVM>, b: set<ProvisionVM>)
    requires forall p | p in s :: p in a <==> p in b
    ensures Keep(s, a) == Keep(s, b)
  {
    if s != [] {
      KeepSame(s[..|s| - 1], a, b);
    }
  }

  lemma {:induction false} KeepAppend(s: seq<ProvisionVM>, t: seq<ProvisionVM>, k: set<ProvisionVM>)
    ensures Keep(s + t, k) == Keep(s, k) + Keep(t, k)
  {
    if t == [] {
      assert s + t == s;
    } else {
      assert (s + t)[..|s + t| - 1] == s + t[..|t| - 1];
      KeepAppend(s, t[..|t| - 1], k);
    }
  }

  lemma StaticAppend(s: seq<ProvisionVM>, t: seq<ProvisionVM>)
    ensures StaticOnly(s + t) == StaticOnly(s) + StaticOnly(t)
  {
    KeepAppend(s, t, StaticSet(s + t));
    KeepSame(s, StaticSet(s + t), StaticSet(s));
    KeepSame(t, StaticSet(s + t), StaticSet(t));
  }

  lemma StaticOfStatic(s: seq<ProvisionVM>)
    ensures StaticOnly(StaticOnly(s)) == StaticOnly(s)
  {
    forall p | p in StaticOnly(s)
      ensures p.isStatic
    {
      KeepMembers(s, StaticSet(s), p);
    }
    KeepAll(StaticOnly(s));
  }

  lemma {:induction false} KeepAllIn(s: seq<ProvisionVM>, k: set<ProvisionVM>)
    requires forall p | p in s :: p in k
    ensures Keep(s, k) == s
  {
    if s != [] {
      KeepAllIn(s[..|s| - 1], k);
    }
  }

  lemma KeepAll(s: seq<ProvisionVM>)
    requires forall p | p in s :: p.isStatic
    ensures StaticOnly(s) == s
  {
    KeepAllIn(s, StaticSet(s));
  }

  /** An entered launch leaves the untouched rest after a refused start; when the batch is full, it leaves every
      static request of the rest as often as it was there, and no dynamic one. */
  lemma LaunchLeaves(cfg: Config, st: State, started: seq<VM>, p: ProvisionVM)
    requires MayLaunch(cfg, st) && Startable(cfg, st, started)
    ensures var left := Launch(cfg, st, started).waiting;
            var rest := st.waiting[|started|..];
            && (|started| < Slots(cfg, st) ==> left == rest)
            && (|started| == Slots(cfg, st) ==>
                  multiset(left)[p] == if p.isStatic then multiset(rest)[p] else 0)
  {
    var rest := st.waiting[|started|..];
    KeepCounts(rest, StaticSet(rest), p);
  }

  /** No static request is lost: those not started are still waiting, in order. */
  lemma StaticRequestsSurvive(cfg: Config, st: State, started: seq<VM>)
    requires Startable(cfg, st, started)
    ensures |started| <= |st.waiting|
    ensures StaticOnly(Launch(cfg, st, started).waiting) == StaticOnly(st.waiting[|started|..])
    ensures StaticOnly(st.waiting)
         == StaticOnly(st.waiting[..|started|]) + StaticOnly(Launch(cfg, st, started).waiting)
  {
    var n := |started|;
    assert st.waiting == st.waiting[..n] + st.waiting[n..];
    StaticAppend(st.waiting[..n], st.waiting[n..]);
    StaticOfStatic(st.waiting[n..]);
    assert !MayLaunch(cfg, st) ==> st.waiting[n..] == st.waiting;
  }

  // ----- what failed starts ask for -----

  /** The waiting list has grown by requests for dynamic VMs only. */
  ghost predicate AsksForDynamic(before: seq<ProvisionVM>, after: seq<ProvisionVM>) {
    before <= after && forall p | p in after[|before|..] :: !p.isStatic
  }

  lemma AskOnce(st: State, s: State, v: VM, accepted: bool)
    requires AsksForDynamic(st.waiting, s.waiting) && InfoOf(s, v).dynamic
    ensures AsksForDynamic(st.waiting, FailOne(s, v, accepted).waiting)
  {
    var t := FailOne(s, v, accepted);
    var n := |st.waiting|;
    assert t.waiting == s.waiting || t.waiting[n..] == s.waiting[n..] + [Again(v, InfoOf(s, v))];
  }

  lemma {:induction false} FailuresAsk(cfg: Config, st: State, reps: StartReports, vms: seq<VM>, k: nat)
    requires ConfigOk(cfg) && OnlyMoves(cfg, st, st) && k <= |vms| && multiset(vms) <= multiset(st.starting)
    ensures AsksForDynamic(st.waiting, FailedOnes(st, reps, vms, k).waiting)
  {
    if k > 0 {
      FailuresAsk(cfg, st, reps, vms, k - 1);
      FailedKeeps(cfg, st, reps, vms, k - 1);
      FailedShape(st, reps, vms, k - 1);
      StillThere(st.starting, vms, k - 1);
      AskOnce(st, FailedOnes(st, reps, vms, k - 1), vms[k - 1], reps.of(vms[k - 1]).accepted);
    }
  }

  /** Every starting VM is dynamic, so whatever request a failed one was started for, it is asked for again as a
      dynamic VM: the mark of a static request does not survive a failed start. */
  lemma RetriesAreDynamic(cfg: Config, st: State, reps: StartReports)
    requires ConfigOk(cfg) && Core(cfg, st)
    ensures AsksForDynamic(st.waiting, ProvisionMoves(cfg, st, reps).waiting)
  {
    var n := |st.starting|;
    var ready, failed := Fated(cfg, st, reps, ReadyToUse, n), Fated(cfg, st, reps, ToDelete, n);
    var s1 := Inspected(cfg, st, reps, n);
    FatesFit(cfg, st, reps);
    InspectedShape(cfg, st, reps, n);
    InspectedKeeps(cfg, st, reps, n);
    var s2 := Readied(cfg, s1, ready, |ready|);
    ReadiedKeeps(cfg, s1, ready, |ready|);
    ReadiedShape(cfg, s1, ready, |ready|);
    WholePrefix(ready);
    RemoveEachBag(st.starting, ready);
    FailuresAsk(cfg, s2, reps, failed, |failed|);
  }

  // ----- provisioning ends -----

  function NotReady(vms: seq<VM>, info: map<VM, Info>): nat {
    if vms == [] then 0
    else
      var v := vms[|vms| - 1];
      NotReady(vms[..|vms| - 1], info) + if v in info && info[v].cloudReady then 0 else 1
  }

  /** Three for a waiting request, two for a VM that is not yet ready in the cloud, one for one that is. */
  function Outstanding(st: State): nat {
    3 * |st.waiting| + |st.starting| + NotReady(st.starting, st.info)
  }

  /** The VM is active, joins Torque at once, and once it has joined it is usable, free or already busy. */
  predicate GoesWell(r: StartReport) {
    && r.code.Active? && r.added && r.visible
    && (r.torque == Some("free") || r.torque == Some("job-exclusive"))
  }

  ghost predicate AllGoWell(st: State, reps: StartReports) {
    forall v | v in st.starting :: GoesWell(reps.of(v))
  }

  /** The cloud and Torque do everything at once and without failure. */
  ghost predicate Smooth(cfg: Config, st: State, reps: StartReports, started: seq<VM>) {
    && AllGoWell(st, reps)
    && var s := ProvisionMoves(cfg, st, reps);
       MayLaunch(cfg, s) ==> |started| == Min(Slots(cfg, s), |s.waiting|)
  }

  lemma {:induction false} NoneFails(cfg: Config, st: State, reps: StartReports, k: nat)
    requires k <= |st.starting|
    requires AllGoWell(st, reps)
    requires forall v | v in st.starting :: v in st.info
    ensures Fated(cfg, st, reps, ToDelete, k) == []
    ensures |Fated(cfg, st, reps, StillStarting, k)| == NotReady(st.starting[..k], st.info)
  {
    if k > 0 {
      NoneFails(cfg, st, reps, k - 1);
      assert st.starting[..k][..k - 1] == st.starting[..k - 1];
      assert st.starting[k - 1] in st.starting;
    }
  }

  lemma {:induction false} AllReady(vms: seq<VM>, info: map<VM, Info>)
    requires forall v | v in vms :: v in info && info[v].cloudReady
    ensures NotReady(vms, info) == 0
  {
    if vms != [] {
      AllReady(vms[..|vms| - 1], info);
    }
  }

  lemma StillAreReady(cfg: Config, st: State, reps: StartReports, v: VM)
    requires Core(cfg, st) && v in Fated(cfg, st, reps, StillStarting, |st.starting|)
    requires reps.of(v).code.Active?
    ensures var n := |st.starting|;
            var ready := Fated(cfg, st, reps, ReadyToUse, n);
            InfoOf(Readied(cfg, Inspected(cfg, st, reps, n), ready, |ready|), v).cloudReady
  {
    var n := |st.starting|;
    var ready := Fated(cfg, st, reps, ReadyToUse, n);
    WholePrefix(st.starting);
    FatedIsKeep(cfg, st, reps, StillStarting, n);
    FatedIsKeep(cfg, st, reps, ReadyToUse, n);
    KeepMembers(st.starting, FateSet(cfg, st, reps, StillStarting), v);
    KeepMembers(st.starting, FateSet(cfg, st, reps, ReadyToUse), v);
    StartingOnce(st);
    InspectedInfo(cfg, st, reps, n, v);
    ReadiedInfo(cfg, Inspected(cfg, st, reps, n), ready, |ready|, v);
  }

  /** A smooth pass, before launching, takes one point per starting VM. */
  lemma SmoothMoves(cfg: Config, st: State, reps: StartReports)
    requires ConfigOk(cfg) && Core(cfg, st)
    requires AllGoWell(st, reps)
    ensures var s := ProvisionMoves(cfg, st, reps);
            && s.waiting == st.waiting
            && |s.starting| == NotReady(st.starting, st.info) && NotReady(s.starting, s.info) == 0
  {
    var n := |st.starting|;
    var s := ProvisionMoves(cfg, st, reps);
    WholePrefix(st.starting);
    forall v | v in st.starting
      ensures v in st.info
    {
      OnBooks(st, v);
      assert VmOk(cfg, st.info, v);
    }
    NoneFails(cfg, st, reps, n);
    ProvisionMovesOnly(cfg, st, reps);
    ProvisionMovesConserve(cfg, st, reps);
    var ready := Fated(cfg, st, reps, ReadyToUse, n);
    InspectedShape(cfg, st, reps, n);
    ReadiedShape(cfg, Inspected(cfg, st, reps, n), ready, |ready|);
    forall v | v in s.starting
      ensures v in s.info && s.info[v].cloudReady
    {
      OnBooks(s, v);
      assert VmOk(cfg, s.info, v);
      StillStartingWasStarting(cfg, st, reps, v);
      StillAreReady(cfg, st, reps, v);
    }
    AllReady(s.starting, s.info);
  }

  lemma StillStartingWasStarting(cfg: Config, st: State, reps: StartReports, v: VM)
    requires v in Fated(cfg, st, reps, StillStarting, |st.starting|)
    ensures v in st.starting
  {
    WholePrefix(st.starting);
    FatedIsKeep(cfg, st, reps, StillStarting, |st.starting|);
    KeepMembers(st.starting, FateSet(cfg, st, reps, StillStarting), v);
  }

  lemma {:induction false} StartedCount(s: seq<VM>, started: seq<VM>, info: map<VM, Info>)
    requires forall v | v in s :: v in info && info[v].cloudReady && v !in started
    ensures NotReady(s + started, info + (map v | v in started :: FRESH)) <= |started|
    decreases |started|, |s|
  {
    var all := info + (map v | v in started :: FRESH);
    AllReady(s, all);
    NotReadyAppend(s, started, all);
    NotReadyBound(started, all);
  }

  lemma {:induction false} NotReadyAppend(s: seq<VM>, t: seq<VM>, info: map<VM, Info>)
    ensures NotReady(s + t, info) == NotReady(s, info) + NotReady(t, info)
  {
    if t == [] {
      assert s + t == s;
    } else {
      assert (s + t)[..|s + t| - 1] == s + t[..|t| - 1];
      NotReadyAppend(s, t[..|t| - 1], info);
    }
  }

  lemma {:induction false} NotReadyBound(s: seq<VM>, info: map<VM, Info>)
    ensures NotReady(s, info) <= |s|
  {
    if s != [] {
      NotReadyBound(s[..|s| - 1], info);
    }
  }

  /** A smooth pass lowers the flag or gets strictly closer to it. */
  lemma SmoothPassDecreases(cfg: Config, st: State, reps: StartReports, started: seq<VM>)
    requires ConfigOk(cfg) && Core(cfg, st)
    requires Startable(cfg, ProvisionMoves(cfg, st, reps), started) && Smooth(cfg, st, reps, started)
    ensures var t := ProvisionPass(cfg, st, reps, started);
            !t.provisioning || Outstanding(t) < Outstanding(st)
  {
    var s := ProvisionMoves(cfg, st, reps);
    SmoothMoves(cfg, st, reps);
    NotReadyBound(st.starting, st.info);
    if !NothingPending(s) && MayLaunch(cfg, s) {
      ProvisionMovesConserve(cfg, st, reps);
      LaunchLowers(cfg, s, started);
    }
  }

  lemma LaunchLowers(cfg: Config, s: State, started: seq<VM>)
    requires Core(cfg, s) && NotReady(s.starting, s.info) == 0
    requires MayLaunch(cfg, s) && Startable(cfg, s, started) && |started| == Min(Slots(cfg, s), |s.waiting|)
    ensures Outstanding(Launch(cfg, s, started)) < Outstanding(s)
  {
    var t := Launch(cfg, s, started);
    KeepIsShort(s.waiting[|started|..], StaticSet(s.waiting[|started|..]));
    NotReadyZero(s.starting, s.info);
    forall v | v in s.starting
      ensures v !in started
    {
      OnBooks(s, v);
      assert VmOk(cfg, s.info, v);
    }
    StartedCount(s.starting, started, s.info);
  }

  lemma {:induction false} NotReadyZero(s: seq<VM>, info: map<VM, Info>)
    requires NotReady(s, info) == 0
    ensures forall v | v in s :: v in info && info[v].cloudReady
  {
    if s != [] {
      NotReadyZero(s[..|s| - 1], info);
    }
  }

  /** A pass, with its reports and the VMs it starts. */
  datatype Pass = Pass(reps: StartReports, started: seq<VM>)

  function DoPass(cfg: Config): (State, Pass) -> State {
    (s: State, p: Pass) => ProvisionPass(cfg, s, p.reps, p.started)
  }

  ghost function SmoothPass(cfg: Config): (State, Pass) -> bool {
    (s: State, p: Pass) =>
      Startable(cfg, ProvisionMoves(cfg, s, p.reps), p.started) && Smooth(cfg, s, p.reps, p.started)
  }

  lemma PassAdvances(cfg: Config, st: State, p: Pass)
    requires ConfigOk(cfg) && Core(cfg, st) && st.provisioning && SmoothPass(cfg)(st, p)
    ensures var t := DoPass(cfg)(st, p);
            Core(cfg, t) && (!t.provisioning || Outstanding(t) < Outstanding(st))
  {
    ProvisionPassKeeps(cfg, st, p.reps, p.started);
    SmoothPassDecreases(cfg, st, p.reps, p.started);
  }

  /** If every pass is smooth, the flag goes down after at most one pass more than there is work. */
  lemma ProvisioningEnds(cfg: Config, st: State, passes: seq<Pass>) returns (k: nat)
    requires ConfigOk(cfg) && Core(cfg, st) && |passes| > Outstanding(st)
    requires AllSmooth(DoPass(cfg), st, passes, SmoothPass(cfg))
    ensures k <= Outstanding(st) + 1 && k <= |passes| && !Folded(DoPass(cfg), st, passes, k).provisioning
  {
    var f, smooth := DoPass(cfg), SmoothPass(cfg);
    var ok, going := (s: State) => Core(cfg, s), (s: State) => s.provisioning;
    forall s, p | ok(s) && going(s) && smooth(s, p)
      ensures ok(f(s, p)) && (!going(f(s, p)) || Outstanding(f(s, p)) < Outstanding(s))
    {
      PassAdvances(cfg, s, p);
    }
    k := LoopEnds(f, st, passes, ok, going, Outstanding, smooth);
  }

  // ----- deletion makes progress -----

  /** Requests take effect before the next pass: a VM whose destroy request was accepted, or that the pass
      destroyed, is gone, and one that was taken out of Torque is not found there. */
  ghost predicate TakesEffect(cfg: Config, st: State, v: VM, first: VM -> CleanupReport, second: VM -> CleanupReport) {
    var after := CleanupMoves(cfg, st, first);
    && (InfoOf(st, v).deleteIssued ==> first(v).code.Gone?)
    && (first(v).code.Gone? || multiset(after.destroyed)[v] > multiset(st.destroyed)[v] ==> second(v).code.Gone?)
    && (first(v).torque.Absent? || IsTakenOut(v, first(v)) ==> second(v).torque.Absent?)
  }

  lemma StaysDeleting(cfg: Config, st: State, reps: VM -> CleanupReport, v: VM)
    requires v in st.deleting && CleanupFateOf(v, InfoOf(st, v), reps(v)).StillDeleting?
    ensures v in CleanupMoves(cfg, st, reps).deleting
  {
    CleanupMovesExactly(cfg, st, reps);
    KeepMembers(st.deleting, EndSet(st, reps, Deleted) + EndSet(st, reps, Cancelled), v);
  }

  lemma LaunchKeepsDeleting(cfg: Config, s: State, started: seq<VM>)
    ensures Launch(cfg, s, started).deleting == s.deleting
  {
  }

  /** A VM with a hostname and without jobs leaves the books within two passes, if queries succeed and requests
      take effect in between. */
  lemma DeletionProgress(cfg: Config, st: State, v: VM, first: VM -> CleanupReport, started: seq<VM>,
                         second: VM -> CleanupReport)
    requires ConfigOk(cfg) && Inv(cfg, st)
    requires CleanupLaunches(CleanupMoves(cfg, st, first)) ==> Startable(cfg, CleanupMoves(cfg, st, first), started)
    requires v in st.deleting && v.hostname != ""
    requires !first(v).torque.Unknown? && first(v).torque != Present(true)
    requires TakesEffect(cfg, st, v, first, second)
    ensures var mid := CleanupPass(cfg, st, first, started);
            v !in Books(mid) || v !in Books(CleanupMoves(cfg, mid, second))
  {
    CleanupByReport(v, InfoOf(st, v), first(v));
    CleanupEndsExactly(cfg, st, first, v);
    if CleanupFateOf(v, InfoOf(st, v), first(v)).StillDeleting? {
      CleanupPassKeeps(cfg, st, first, started);
      StaysDeleting(cfg, st, first, v);
      LaunchKeepsDeleting(cfg, CleanupMoves(cfg, st, first), started);
      SecondPassForgets(cfg, CleanupPass(cfg, st, first, started), second, v);
    } else {
      DeletedLeaves(cfg, st, first, v);
      LaunchBringsNew(cfg, CleanupMoves(cfg, st, first), started, v);
    }
  }

  lemma SecondPassForgets(cfg: Config, mid: State, second: VM -> CleanupReport, v: VM)
    requires ConfigOk(cfg) && Core(cfg, mid) && v in mid.deleting
    requires second(v).code.Gone? && second(v).torque.Absent?
    ensures v !in Books(CleanupMoves(cfg, mid, second))
  {
    OnBooks(mid, v);
    ForgottenOnlyWhenGone(cfg, mid, second, v);
  }

  lemma DeletedLeaves(cfg: Config, st: State, first: VM -> CleanupReport, v: VM)
    requires ConfigOk(cfg) && Core(cfg, st)
    requires v in st.deleting && CleanupFateOf(v, InfoOf(st, v), first(v)) == Deleted
    ensures v !in Books(CleanupMoves(cfg, st, first)) && v in CleanupMoves(cfg, st, first).info
  {
    OnBooks(st, v);
    assert VmOk(cfg, st.info, v);
    ForgottenOnlyWhenGone(cfg, st, first, v);
    KnownStays(cfg, st, first, v);
  }

  lemma LaunchBringsNew(cfg: Config, s: State, started: seq<VM>, v: VM)
    requires v in s.info && v !in Books(s)
    ensures CleanupLaunches(s) && Startable(cfg, s, started) ==> v !in Books(Launch(cfg, s, started))
  {
    if Startable(cfg, s, started) {
      LaunchBooks(cfg, s, started);
    }
  }

  /** No pass forgets the record of a VM. */
  lemma KnownStays(cfg: Config, st: State, reps: VM -> CleanupReport, v: VM)
    requires v in st.info
    ensures v in CleanupMoves(cfg, st, reps).info
  {
    var n := |st.deleting|;
    SweptKnows(cfg, st, reps, n, v);
    var s := Swept(cfg, st, reps, n);
    var gone := Ended(st, reps, Deleted, n);
    DeletedShape(cfg, s, gone, |gone|);
    var back := Ended(st, reps, Cancelled, n);
    CancelledShape(DeletedOnes(cfg, s, gone, |gone|), back, |back|);
  }

  lemma {:induction false} SweptKnows(cfg: Config, st: State, reps: VM -> CleanupReport, k: nat, v: VM)
    requires v in st.info && k <= |st.deleting|
    ensures v in Swept(cfg, st, reps, k).info
  {
    if k > 0 {
      SweptKnows(cfg, st, reps, k - 1, v);
    }
  }

  /** A busy VM that was not forced off and is still in the cloud returns to the existing VMs. */
  lemma BusyVmReturns(cfg: Config, st: State, reps: VM -> CleanupReport, v: VM)
    requires v in st.deleting && v.hostname != "" && !InfoOf(st, v).forceOff
    requires reps(v).torque == Present(true) && !reps(v).code.Gone?
    ensures var s := CleanupMoves(cfg, st, reps); v in s.existing && v !in s.deleting
  {
    var n := |st.deleting|;
    CleanupMovesExactly(cfg, st, reps);
    EndedIsKeep(st, reps, Cancelled, n);
    WholePrefix(st.deleting);
    KeepMembers(st.deleting, EndSet(st, reps, Cancelled), v);
    KeepMembers(st.deleting, EndSet(st, reps, Deleted) + EndSet(st, reps, Cancelled), v);
  }
}
