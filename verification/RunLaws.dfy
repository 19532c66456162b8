/** What every run of the controller keeps, whatever the cloud, Torque, Maui and the administrator do. */
module RunLaws {
  import opened Sequences
  import opened CloudTools
  import opened Lifecycle
  import opened LifecycleInvariant
  import opened LifecycleLaws
  import opened CleanupLaws
  import opened NodeLaws

  /** Every step keeps the partition, the flag invariant and the static VMs of every resource. */
  lemma StepKeeps(cfg: Config, st: State, e: Event)
    requires ConfigOk(cfg) && Inv(cfg, st) && Possible(cfg, st, e)
    ensures Inv(cfg, Step(cfg, st, e))
    ensures StaticTotals(cfg, Step(cfg, st, e)) == StaticTotals(cfg, st)
  {
    match e
    case Collecting(q, nodes, plan) => CollectKeeps(cfg, st, q, nodes, plan);
    case Provisioning(starts, started) =>
      if st.provisioning {
        ProvisionPassKeeps(cfg, st, starts, started);
      }
    case CleaningUp(ends, started) => CleanupPassKeeps(cfg, st, ends, started);
    case Killing(name, force) =>
      KillKeeps(cfg, st, name, force);
      KillLeavesFlag(cfg, st, name, force);
    case ForcingOff(accepted) =>
      ForceOffKeeps(cfg, st, accepted);
      KindsGiveTotals(cfg, st, ForceOff(st, accepted));
    case TogglingSleep => OtherFields(cfg, st, st.(sleeping := !st.sleeping));
  }

  lemma KillLeavesFlag(cfg: Config, st: State, name: string, force: bool)
    ensures var s := Kill(st, name, force);
            s.provisioning == st.provisioning && s.starting == st.starting && s.waiting == st.waiting
  {
  }

  // ----- the batch bound -----

  lemma LaunchWithinBatch(cfg: Config, st: State, started: seq<VM>)
    requires Startable(cfg, st, started)
    ensures |Launch(cfg, st, started).starting| <= Max(|st.starting|, cfg.batch)
  {
  }

  lemma CollectWithinBatch(cfg: Config, st: State, q: Query, nodes: NodeReports, plan: seq<ProvisionVM>)
    ensures Collect(cfg, st, q, nodes, plan).starting == st.starting
  {
    var killed, retired := CheckExistingTouchesOnlyIdle(cfg, Queried(st, q), nodes);
  }

  lemma ProvisionWithinBatch(cfg: Config, st: State, starts: StartReports, started: seq<VM>)
    requires Startable(cfg, ProvisionMoves(cfg, st, starts), started)
    ensures |ProvisionPass(cfg, st, starts, started).starting| <= Max(|st.starting|, cfg.batch)
  {
    var s := ProvisionMoves(cfg, st, starts);
    ProvisionMovesOnly(cfg, st, starts);
    FatedIsKeep(cfg, st, starts, StillStarting, |st.starting|);
    WholePrefix(st.starting);
    KeepIsShort(st.starting, FateSet(cfg, st, starts, StillStarting));
    assert |s.starting| <= |st.starting|;
    LaunchWithinBatch(cfg, s, started);
  }

  lemma CleanupWithinBatch(cfg: Config, st: State, ends: VM -> CleanupReport, started: seq<VM>)
    requires Possible(cfg, st, CleaningUp(ends, started))
    ensures |CleanupPass(cfg, st, ends, started).starting| <= Max(|st.starting|, cfg.batch)
  {
    CleanupMovesExactly(cfg, st, ends);
    if st.deleting != [] && CleanupLaunches(CleanupMoves(cfg, st, ends)) {
      LaunchWithinBatch(cfg, CleanupMoves(cfg, st, ends), started);
    }
  }

  lemma StepWithinBatch(cfg: Config, st: State, e: Event)
    requires Possible(cfg, st, e)
    ensures |Step(cfg, st, e).starting| <= Max(|st.starting|, cfg.batch)
  {
    match e
    case Collecting(q, nodes, plan) => CollectWithinBatch(cfg, st, q, nodes, plan);
    case Provisioning(starts, started) =>
      if st.provisioning {
        ProvisionWithinBatch(cfg, st, starts, started);
      }
    case CleaningUp(ends, started) => CleanupWithinBatch(cfg, st, ends, started);
    case Killing(name, force) => KillLeavesFlag(cfg, st, name, force);
    case ForcingOff(accepted) => assert ForceOff(st, accepted).starting == [];
    case TogglingSleep =>
  }

  // ----- whole runs -----

  /** What a run that began in st keeps: the partition, the flag invariant, the static VMs of each resource,
      and that no more VMs are starting than a batch, or than at the beginning. */
  ghost predicate Kept(cfg: Config, st: State, s: State) {
    && Inv(cfg, s)
    && StaticTotals(cfg, s) == StaticTotals(cfg, st)
    && |s.starting| <= Max(|st.starting|, cfg.batch)
  }

  ghost function KeptAfter(cfg: Config, st: State, events: seq<Event>): nat -> bool {
    (k: nat) => k <= |events| && Kept(cfg, st, After(cfg, st, events, k))
  }

  lemma StepKept(cfg: Config, st: State, s: State, e: Event)
    requires ConfigOk(cfg)
    ensures Kept(cfg, st, s) && Possible(cfg, s, e) ==> Kept(cfg, st, Step(cfg, s, e))
  {
    if Kept(cfg, st, s) && Possible(cfg, s, e) {
      StepKeeps(cfg, s, e);
      StepWithinBatch(cfg, s, e);
    }
  }

  lemma RunNext(cfg: Config, st: State, events: seq<Event>, k: nat)
    requires Run(cfg, st, events) && k < |events|
    ensures Possible(cfg, After(cfg, st, events, k), events[k])
    ensures After(cfg, st, events, k + 1) == Step(cfg, After(cfg, st, events, k), events[k])
  {
  }

  lemma KeptNext(cfg: Config, st: State, events: seq<Event>, k: nat)
    ensures ConfigOk(cfg) && Run(cfg, st, events) && k < |events| && KeptAfter(cfg, st, events)(k)
            ==> KeptAfter(cfg, st, events)(k + 1)
  {
    if ConfigOk(cfg) && Run(cfg, st, events) && k < |events| {
      RunNext(cfg, st, events, k);
      StepKept(cfg, st, After(cfg, st, events, k), events[k]);
    }
  }

  lemma KeptOnwards(cfg: Config, st: State, events: seq<Event>)
    ensures ConfigOk(cfg) && Run(cfg, st, events) ==>
              forall k: nat :: k < |events| && KeptAfter(cfg, st, events)(k) ==> KeptAfter(cfg, st, events)(k + 1)
  {
    forall k: nat
      ensures ConfigOk(cfg) && Run(cfg, st, events) && k < |events| && KeptAfter(cfg, st, events)(k)
              ==> KeptAfter(cfg, st, events)(k + 1)
    {
      KeptNext(cfg, st, events, k);
    }
  }

  lemma KeptThroughout(cfg: Config, st: State, events: seq<Event>, k: nat)
    requires ConfigOk(cfg) && Run(cfg, st, events) && k <= |events|
    ensures KeptAfter(cfg, st, events)(0) ==> KeptAfter(cfg, st, events)(k)
  {
    KeptOnwards(cfg, st, events);
    if KeptAfter(cfg, st, events)(0) {
      Induct(KeptAfter(cfg, st, events), k);
    }
  }

  /** In every state of every run the lists partition the known VMs, nothing is stranded while the flag is
      down, each resource has as many static VMs, provided or missing, as at the start, and the batch bound
      holds. */
  lemma RunKeeps(cfg: Config, st: State, events: seq<Event>, k: nat)
    requires ConfigOk(cfg) && Inv(cfg, st) && Run(cfg, st, events) && k <= |events|
    ensures Kept(cfg, st, After(cfg, st, events, k))
  {
    assert KeptAfter(cfg, st, events)(0);
    KeptThroughout(cfg, st, events, k);
  }

  // ----- runs as chains of states -----

  ghost predicate StepAt(cfg: Config, states: seq<State>, events: seq<Event>, k: nat)
    requires |states| == |events| + 1 && k < |events|
  {
    Possible(cfg, states[k], events[k]) && states[k + 1] == Step(cfg, states[k], events[k])
  }

  /** The states follow each other by the events. */
  ghost predicate Chain(cfg: Config, states: seq<State>, events: seq<Event>) {
    |states| == |events| + 1 && forall k: nat | k < |events| :: StepAt(cfg, states, events, k)
  }

  lemma ChainGrows(cfg: Config, states: seq<State>, events: seq<Event>, s: State, e: Event)
    requires Chain(cfg, states, events) && Possible(cfg, states[|events|], e) && s == Step(cfg, states[|events|], e)
    ensures Chain(cfg, states + [s], events + [e])
  {
    forall k: nat | k < |events + [e]|
      ensures StepAt(cfg, states + [s], events + [e], k)
    {
      if k < |events| {
        StepStays(cfg, states, events, s, e, k);
      } else {
        LastStep(cfg, states, events, s, e);
      }
    }
  }

  lemma StepStays(cfg: Config, states: seq<State>, events: seq<Event>, s: State, e: Event, k: nat)
    requires |states| == |events| + 1 && k < |events| && StepAt(cfg, states, events, k)
    ensures StepAt(cfg, states + [s], events + [e], k)
  {
    assert (states + [s])[k] == states[k] && (states + [s])[k + 1] == states[k + 1] && (events + [e])[k] == events[k];
  }

  lemma LastStep(cfg: Config, states: seq<State>, events: seq<Event>, s: State, e: Event)
    requires |states| == |events| + 1
    requires Possible(cfg, states[|events|], e) && s == Step(cfg, states[|events|], e)
    ensures StepAt(cfg, states + [s], events + [e], |events|)
  {
    var n := |events|;
    assert (states + [s])[n] == states[n] && (states + [s])[n + 1] == s && (events + [e])[n] == e;
  }

  lemma {:induction false} ChainStates(cfg: Config, states: seq<State>, events: seq<Event>, k: nat)
    requires Chain(cfg, states, events) && k <= |events|
    ensures After(cfg, states[0], events, k) == states[k]
  {
    if k > 0 {
      ChainStates(cfg, states, events, k - 1);
      assert StepAt(cfg, states, events, k - 1);
    }
  }

  /** A chain is a run, and so keeps what every run keeps. */
  lemma ChainIsRun(cfg: Config, states: seq<State>, events: seq<Event>)
    requires ConfigOk(cfg) && Chain(cfg, states, events) && Inv(cfg, states[0])
    ensures Run(cfg, states[0], events) && After(cfg, states[0], events, |events|) == states[|events|]
    ensures Kept(cfg, states[0], states[|events|])
  {
    forall k | 0 <= k < |events|
      ensures Possible(cfg, After(cfg, states[0], events, k), events[k])
    {
      ChainStates(cfg, states, events, k);
      assert StepAt(cfg, states, events, k);
    }
    ChainStates(cfg, states, events, |events|);
    RunKeeps(cfg, states[0], events, |events|);
  }

  // ----- planning is exact -----

  /** All dynamic VMs of a resource on the books: existing, starting or deleting. */
  ghost function DynamicVms(st: State, r: string): set<VM> {
    set v | v in Books(st) && InfoOf(st, v).dynamic && v.resource == r
  }

  ghost function DynamicIn(vms: seq<VM>, info: map<VM, Info>, r: string): set<VM> {
    set v | v in vms && v in info && info[v].dynamic && v.resource == r
  }

  lemma {:induction false} UsedIsSize(vms: seq<VM>, info: map<VM, Info>, r: string)
    requires forall v | v in vms :: multiset(vms)[v] == 1
    ensures Used(vms, info, r) == |DynamicIn(vms, info, r)|
  {
    if vms != [] {
      var n := |vms| - 1;
      var t, z := vms[..n], vms[n];
      assert vms == t + [z];
      assert z !in t by {
        assert multiset(vms)[z] == multiset(t)[z] + 1;
      }
      forall v | v in t
        ensures multiset(t)[v] == 1
      {
        assert v in vms && multiset(vms)[v] == multiset(t)[v];
      }
      UsedIsSize(t, info, r);
      UsedOneMore(t, z, info, r);
    }
  }

  lemma UsedOneMore(t: seq<VM>, z: VM, info: map<VM, Info>, r: string)
    requires z !in t
    ensures |DynamicIn(t + [z], info, r)|
         == |DynamicIn(t, info, r)| + if z in info && info[z].dynamic && z.resource == r then 1 else 0
  {
    var one := if z in info && info[z].dynamic && z.resource == r then {z} else {};
    assert DynamicIn(t + [z], info, r) == DynamicIn(t, info, r) + one;
    assert DynamicIn(t, info, r) !! one;
  }

  lemma UsedOnBooks(cfg: Config, st: State, r: string)
    requires Core(cfg, st) && st.starting == []
    ensures Used(st.existing, st.info, r) + Used(st.deleting, st.info, r) == |DynamicVms(st, r)|
  {
    forall v | v in st.existing
      ensures multiset(st.existing)[v] == 1 && v !in st.deleting
    {
      OnBooks(st, v);
      OnceOnBooks(st, v);
    }
    forall v | v in st.deleting
      ensures multiset(st.deleting)[v] == 1
    {
      OnBooks(st, v);
      OnceOnBooks(st, v);
    }
    UsedIsSize(st.existing, st.info, r);
    UsedIsSize(st.deleting, st.info, r);
    var a, b := DynamicIn(st.existing, st.info, r), DynamicIn(st.deleting, st.info, r);
    assert a !! b;
    BothLists(cfg, st, r);
  }

  lemma BothLists(cfg: Config, st: State, r: string)
    requires Core(cfg, st) && st.starting == []
    ensures DynamicVms(st, r) == DynamicIn(st.existing, st.info, r) + DynamicIn(st.deleting, st.info, r)
  {
    forall v
      ensures v in DynamicVms(st, r) <==> v in DynamicIn(st.existing, st.info, r) + DynamicIn(st.deleting, st.info, r)
    {
      OnBooks(st, v);
      assert v in Books(st) ==> VmOk(cfg, st.info, v);
    }
  }

  /** Whenever the planner runs, nothing is starting or waiting, and the free nodes it sees are exactly the
      quota less all dynamic VMs on the books, although starting VMs are never counted. */
  lemma PlanningIsExact(cfg: Config, st: State, q: Query, reps: NodeReports, r: string)
    requires ConfigOk(cfg) && Inv(cfg, st) && r in cfg.quota
    ensures match PlanningState(cfg, st, q, reps)
            case None => true
            case Some(s) => NothingPending(s) && r in s.avail && s.avail[r] == cfg.quota[r] - |DynamicVms(s, r)|
  {
    var planning := PlanningState(cfg, st, q, reps);
    if planning.Some? {
      CheckedQueryKeeps(cfg, st, q, reps);
      UsedOnBooks(cfg, planning.value, r);
    }
  }

  /** The same in every state of every run. */
  lemma RunPlansExactly(cfg: Config, st: State, events: seq<Event>, k: nat, q: Query, reps: NodeReports, r: string)
    requires ConfigOk(cfg) && Inv(cfg, st) && Run(cfg, st, events) && k <= |events| && r in cfg.quota
    ensures match PlanningState(cfg, After(cfg, st, events, k), q, reps)
            case None => true
            case Some(s) => NothingPending(s) && r in s.avail && s.avail[r] == cfg.quota[r] - |DynamicVms(s, r)|
  {
    RunKeeps(cfg, st, events, k);
    PlanningIsExact(cfg, After(cfg, st, events, k), q, reps, r);
  }
}
