/** What whole passes of the controller keep, and what whole runs keep. */
module LifecycleLaws {
  import opened Sequences
  import opened CloudTools
  import opened Lifecycle
  import opened LifecycleInvariant

  // ----- update_available_cores and launch_instances -----

  lemma UpdateStep(cfg: Config, st: State)
    requires Core(cfg, st)
    ensures Conserves(cfg, st, UpdateAvailable(cfg, st)) && Books(UpdateAvailable(cfg, st)) == Books(st)
  {
    OtherFields(cfg, st, UpdateAvailable(cfg, st));
  }

  lemma LeftAreOld(w: seq<ProvisionVM>, n: nat, full: bool)
    ensures forall p | p in LeftWaiting(w, n, full) :: p in w
  {
    var rest := if n <= |w| then w[n..] else [];
    forall p | p in LeftWaiting(w, n, full)
      ensures p in w
    {
      KeepMembers(rest, StaticSet(rest), p);
    }
  }

  lemma NoDupBag(s: seq<VM>)
    requires NoDup(s)
    ensures forall v | v in s :: multiset(s)[v] == 1
  {
    if s != [] {
      var n := |s| - 1;
      assert s == s[..n] + [s[n]];
      NoDupBag(s[..n]);
      assert s[n] !in s[..n];
    }
  }

  lemma LaunchStep(cfg: Config, st: State, started: seq<VM>)
    requires Core(cfg, st) && Startable(cfg, st, started)
    ensures Conserves(cfg, st, Launch(cfg, st, started))
    ensures Books(Launch(cfg, st, started)) == Books(st) + multiset(started)
  {
    LaunchBooks(cfg, st, started);
    LaunchKeepsTotals(cfg, st, started);
    if MayLaunch(cfg, st) {
      var s := Launch(cfg, st, started);
      StartedKeepVms(cfg, st, started);
      LeftAreOld(st.waiting, |started|, |started| == Slots(cfg, st));
      assert RequestsOk(cfg, s.waiting);
      StartedAreDynamic(st, started);
      assert Core(cfg, s);
    }
  }

  lemma LaunchBooks(cfg: Config, st: State, started: seq<VM>)
    requires Startable(cfg, st, started)
    ensures Books(Launch(cfg, st, started)) == Books(st) + multiset(started)
  {
    var s := Launch(cfg, st, started);
    assert MayLaunch(cfg, st) ==> multiset(s.starting) == multiset(st.starting) + multiset(started);
  }

  lemma StartedAreDynamic(st: State, started: seq<VM>)
    requires AllDynamic(st.info, st.starting)
    ensures AllDynamic(st.info + (map v | v in started :: FRESH), st.starting + started)
  {
  }

  lemma StartedKeepVms(cfg: Config, st: State, started: seq<VM>)
    requires Core(cfg, st) && MayLaunch(cfg, st) && Startable(cfg, st, started)
    ensures var books := Books(st) + multiset(started);
            Partition(books) && VmsOk(cfg, Launch(cfg, st, started).info, books)
  {
    NoDupBag(started);
    var info := Launch(cfg, st, started).info;
    var books := Books(st) + multiset(started);
    forall v | v in books
      ensures books[v] == 1 && VmOk(cfg, info, v)
    {
      if v in started {
        var i :| 0 <= i < |started| && started[i] == v;
        assert st.waiting[i] in st.waiting;
        assert v in Books(st) ==> VmOk(cfg, st.info, v);
      } else {
        assert v in Books(st) && VmOk(cfg, st.info, v);
      }
    }
  }

  lemma LaunchKeepsTotals(cfg: Config, st: State, started: seq<VM>)
    requires Core(cfg, st) && Startable(cfg, st, started)
    ensures StaticTotals(cfg, Launch(cfg, st, started)) == StaticTotals(cfg, st)
  {
    var s := Launch(cfg, st, started);
    forall v | v in st.existing || v in st.deleting
      ensures v in st.info && v in s.info && s.info[v] == st.info[v]
    {
      OnBooks(st, v);
      assert VmOk(cfg, st.info, v);
    }
    forall r | r in cfg.quota
      ensures StaticTotal(st, r) == StaticTotal(s, r)
    {
      CountSame(st.existing, st.info, s.info, OfResource(r));
      CountSame(st.deleting, st.info, s.info, OfResource(r));
    }
  }

  // ----- update_provision_status -----

  lemma InspectShape(cfg: Config, st: State, v: VM, reps: StartReports)
    ensures var s := InspectOne(cfg, st, v, reps); s == st.(info := s.info, workerNodes := s.workerNodes)
  {
  }

  lemma {:induction false} InspectedShape(cfg: Config, st: State, reps: StartReports, k: nat)
    requires k <= |st.starting|
    ensures var s := Inspected(cfg, st, reps, k); s == st.(info := s.info, workerNodes := s.workerNodes)
  {
    if k > 0 {
      InspectedShape(cfg, st, reps, k - 1);
      InspectShape(cfg, Inspected(cfg, st, reps, k - 1), st.starting[k - 1], reps);
    }
  }

  lemma InspectStep(cfg: Config, s: State, v: VM, reps: StartReports)
    requires ConfigOk(cfg) && Core(cfg, s) && v in Books(s)
    ensures Conserves(cfg, s, InspectOne(cfg, s, v, reps)) && Books(InspectOne(cfg, s, v, reps)) == Books(s)
  {
    var t := SetInfo(s, v, StartInfo(cfg, InfoOf(s, v), reps.of(v)));
    InfoStep(cfg, s, v, StartInfo(cfg, InfoOf(s, v), reps.of(v)));
    OtherFields(cfg, t, InspectOne(cfg, s, v, reps));
    ConservesTwice(cfg, s, t, InspectOne(cfg, s, v, reps));
  }

  lemma InspectedNext(cfg: Config, st: State, reps: StartReports, k: nat)
    requires ConfigOk(cfg) && k < |st.starting|
    requires OnlyMoves(cfg, st, Inspected(cfg, st, reps, k))
    ensures OnlyMoves(cfg, st, Inspected(cfg, st, reps, k + 1))
  {
    var s := Inspected(cfg, st, reps, k);
    OnBooks(st, st.starting[k]);
    InspectStep(cfg, s, st.starting[k], reps);
    ConservesTwice(cfg, st, s, InspectOne(cfg, s, st.starting[k], reps));
  }

  lemma {:induction false} InspectedKeeps(cfg: Config, st: State, reps: StartReports, k: nat)
    requires ConfigOk(cfg) && OnlyMoves(cfg, st, st) && k <= |st.starting|
    ensures OnlyMoves(cfg, st, Inspected(cfg, st, reps, k))
  {
    if k > 0 {
      InspectedKeeps(cfg, st, reps, k - 1);
      InspectedNext(cfg, st, reps, k - 1);
    }
  }

  /** The ready VMs leave the starting list, in order, for the existing list. */
  ghost predicate ReadiedFrame(st: State, s: State, vms: seq<VM>) {
    && s.starting == RemoveEach(st.starting, vms)
    && s.existing == st.existing + vms
    && s == st.(starting := s.starting, existing := s.existing, info := s.info, deficit := s.deficit)
  }

  lemma ReadyShape(cfg: Config, st: State, v: VM)
    ensures var s := ReadyOne(cfg, st, v);
            && s.starting == RemoveFirst(st.starting, v) && s.existing == st.existing + [v]
            && s == st.(starting := s.starting, existing := s.existing, info := s.info, deficit := s.deficit)
  {
  }

  lemma ReadiedFrameStep(cfg: Config, st: State, s: State, vms: seq<VM>, v: VM)
    requires ReadiedFrame(st, s, vms)
    ensures ReadiedFrame(st, ReadyOne(cfg, s, v), vms + [v])
  {
    ReadyShape(cfg, s, v);
    RemoveEachTwice(st.starting, vms, [v]);
    RemoveOne(s.starting, v);
  }

  lemma {:induction false} ReadiedShape(cfg: Config, st: State, vms: seq<VM>, k: nat)
    requires k <= |vms|
    ensures ReadiedFrame(st, Readied(cfg, st, vms, k), vms[..k])
  {
    if k > 0 {
      ReadiedShape(cfg, st, vms, k - 1);
      ReadiedFrameStep(cfg, st, Readied(cfg, st, vms, k - 1), vms[..k - 1], vms[k - 1]);
      assert vms[..k] == vms[..k - 1] + [vms[k - 1]];
    }
  }

  lemma ReadyNext(cfg: Config, st: State, s: State, vms: seq<VM>, k: nat)
    requires ConfigOk(cfg) && k < |vms| && multiset(vms) <= multiset(st.starting)
    requires Conserves(cfg, st, s) && ReadiedFrame(st, s, vms[..k]) && Books(s) == Books(st)
    ensures Conserves(cfg, st, ReadyOne(cfg, s, vms[k])) && Books(ReadyOne(cfg, s, vms[k])) == Books(st)
  {
    StillThere(st.starting, vms, k);
    ReadyStep(cfg, s, vms[k]);
    ConservesTwice(cfg, st, s, ReadyOne(cfg, s, vms[k]));
  }

  /** Whether the first k moves have only moved VMs. */
  ghost function ReadiedMoves(cfg: Config, st: State, vms: seq<VM>): nat -> bool {
    (k: nat) => k <= |vms| && OnlyMoves(cfg, st, Readied(cfg, st, vms, k))
  }

  lemma ReadiedNext(cfg: Config, st: State, vms: seq<VM>, k: nat)
    requires ConfigOk(cfg) && k < |vms| && multiset(vms) <= multiset(st.starting)
    requires OnlyMoves(cfg, st, Readied(cfg, st, vms, k))
    ensures OnlyMoves(cfg, st, Readied(cfg, st, vms, k + 1))
  {
    ReadiedShape(cfg, st, vms, k);
    ReadyNext(cfg, st, Readied(cfg, st, vms, k), vms, k);
  }

  lemma ReadiedOnward(cfg: Config, st: State, vms: seq<VM>, k: nat)
    requires ConfigOk(cfg) && multiset(vms) <= multiset(st.starting)
    ensures k < |vms| && ReadiedMoves(cfg, st, vms)(k) ==> ReadiedMoves(cfg, st, vms)(k + 1)
  {
    if k < |vms| && OnlyMoves(cfg, st, Readied(cfg, st, vms, k)) {
      ReadiedNext(cfg, st, vms, k);
    }
  }

  lemma ReadiedOnwards(cfg: Config, st: State, vms: seq<VM>)
    requires ConfigOk(cfg) && multiset(vms) <= multiset(st.starting)
    ensures forall k: nat :: k < |vms| && ReadiedMoves(cfg, st, vms)(k) ==> ReadiedMoves(cfg, st, vms)(k + 1)
  {
    forall k: nat
      ensures k < |vms| && ReadiedMoves(cfg, st, vms)(k) ==> ReadiedMoves(cfg, st, vms)(k + 1)
    {
      ReadiedOnward(cfg, st, vms, k);
    }
  }

  lemma ReadiedKeeps(cfg: Config, st: State, vms: seq<VM>, k: nat)
    requires ConfigOk(cfg) && OnlyMoves(cfg, st, st) && k <= |vms| && multiset(vms) <= multiset(st.starting)
    ensures OnlyMoves(cfg, st, Readied(cfg, st, vms, k))
  {
    ReadiedOnwards(cfg, st, vms);
    assert ReadiedMoves(cfg, st, vms)(0);
    Induct(ReadiedMoves(cfg, st, vms), k);
  }

  /** When the first k elements have been removed, the next one is still in the list. */
  lemma StillThere(s: seq<VM>, xs: seq<VM>, k: nat)
    requires k < |xs| && multiset(xs) <= multiset(s)
    ensures xs[k] in RemoveEach(s, xs[..k])
  {
    RemoveEachBag(s, xs[..k]);
    assert xs == xs[..k] + [xs[k]] + xs[k + 1..];
    assert multiset(RemoveEach(s, xs[..k]))[xs[k]] > 0;
  }

  lemma FailShape(st: State, v: VM, accepted: bool)
    ensures var s := FailOne(st, v, accepted);
            && s.starting == RemoveFirst(st.starting, v) && s.deleting == st.deleting + [v]
            && s.destroyed == st.destroyed + [v]
            && s == st.(starting := s.starting, deleting := s.deleting, info := s.info, waiting := s.waiting,
                        destroyed := s.destroyed)
  {
  }

  /** The failed VMs leave the starting list, in order, for the deleting list and the destroy log. */
  ghost predicate FailedFrame(st: State, s: State, vms: seq<VM>) {
    && s.starting == RemoveEach(st.starting, vms)
    && s.deleting == st.deleting + vms
    && s.destroyed == st.destroyed + vms
    && s == st.(starting := s.starting, deleting := s.deleting, info := s.info, waiting := s.waiting,
                destroyed := s.destroyed)
  }

  lemma FailedFrameStep(st: State, s: State, vms: seq<VM>, v: VM, accepted: bool)
    requires FailedFrame(st, s, vms)
    ensures FailedFrame(st, FailOne(s, v, accepted), vms + [v])
  {
    FailShape(s, v, accepted);
    RemoveEachTwice(st.starting, vms, [v]);
    RemoveOne(s.starting, v);
  }

  lemma {:induction false} FailedShape(st: State, reps: StartReports, vms: seq<VM>, k: nat)
    requires k <= |vms|
    ensures FailedFrame(st, FailedOnes(st, reps, vms, k), vms[..k])
  {
    if k > 0 {
      FailedShape(st, reps, vms, k - 1);
      var v := vms[k - 1];
      FailedFrameStep(st, FailedOnes(st, reps, vms, k - 1), vms[..k - 1], v, reps.of(v).accepted);
      assert vms[..k] == vms[..k - 1] + [v];
    }
  }

  lemma FailNext(cfg: Config, st: State, s: State, vms: seq<VM>, k: nat, accepted: bool)
    requires ConfigOk(cfg) && k < |vms| && multiset(vms) <= multiset(st.starting)
    requires Conserves(cfg, st, s) && FailedFrame(st, s, vms[..k]) && Books(s) == Books(st)
    ensures Conserves(cfg, st, FailOne(s, vms[k], accepted)) && Books(FailOne(s, vms[k], accepted)) == Books(st)
  {
    StillThere(st.starting, vms, k);
    FailStep(cfg, s, vms[k], accepted);
    ConservesTwice(cfg, st, s, FailOne(s, vms[k], accepted));
  }

  ghost function FailedMoves(cfg: Config, st: State, reps: StartReports, vms: seq<VM>): nat -> bool {
    (k: nat) => k <= |vms| && OnlyMoves(cfg, st, FailedOnes(st, reps, vms, k))
  }

  lemma FailedNext(cfg: Config, st: State, reps: StartReports, vms: seq<VM>, k: nat)
    requires ConfigOk(cfg) && k < |vms| && multiset(vms) <= multiset(st.starting)
    requires OnlyMoves(cfg, st, FailedOnes(st, reps, vms, k))
    ensures OnlyMoves(cfg, st, FailedOnes(st, reps, vms, k + 1))
  {
    FailedShape(st, reps, vms, k);
    FailNext(cfg, st, FailedOnes(st, reps, vms, k), vms, k, reps.of(vms[k]).accepted);
  }

  lemma FailedOnward(cfg: Config, st: State, reps: StartReports, vms: seq<VM>, k: nat)
    requires ConfigOk(cfg) && multiset(vms) <= multiset(st.starting)
    ensures k < |vms| && FailedMoves(cfg, st, reps, vms)(k) ==> FailedMoves(cfg, st, reps, vms)(k + 1)
  {
    if k < |vms| && OnlyMoves(cfg, st, FailedOnes(st, reps, vms, k)) {
      FailedNext(cfg, st, reps, vms, k);
    }
  }

  lemma FailedOnwards(cfg: Config, st: State, reps: StartReports, vms: seq<VM>)
    requires ConfigOk(cfg) && multiset(vms) <= multiset(st.starting)
    ensures forall k: nat ::
              k < |vms| && FailedMoves(cfg, st, reps, vms)(k) ==> FailedMoves(cfg, st, reps, vms)(k + 1)
  {
    forall k: nat
      ensures k < |vms| && FailedMoves(cfg, st, reps, vms)(k) ==> FailedMoves(cfg, st, reps, vms)(k + 1)
    {
      FailedOnward(cfg, st, reps, vms, k);
    }
  }

  lemma FailedKeeps(cfg: Config, st: State, reps: StartReports, vms: seq<VM>, k: nat)
    requires ConfigOk(cfg) && OnlyMoves(cfg, st, st) && k <= |vms| && multiset(vms) <= multiset(st.starting)
    ensures OnlyMoves(cfg, st, FailedOnes(st, reps, vms, k))
  {
    FailedOnwards(cfg, st, reps, vms);
    assert FailedMoves(cfg, st, reps, vms)(0);
    Induct(FailedMoves(cfg, st, reps, vms), k);
  }

  /** The elements of s with the fate, as a set. */
  ghost function FateSet(cfg: Config, st: State, reps: StartReports, fate: StartFate): set<VM> {
    set v | v in st.starting && StartFateOf(cfg, InfoOf(st, v), reps.of(v)) == fate
  }

  lemma {:induction false} FatedIsKeep(cfg: Config, st: State, reps: StartReports, fate: StartFate, k: nat)
    requires k <= |st.starting|
    ensures Fated(cfg, st, reps, fate, k) == Keep(st.starting[..k], FateSet(cfg, st, reps, fate))
  {
    if k > 0 {
      FatedIsKeep(cfg, st, reps, fate, k - 1);
      KeepPrefix(st.starting, FateSet(cfg, st, reps, fate), k - 1);
      assert st.starting[k - 1] in st.starting;
    }
  }

  lemma {:induction false} TakeOutTwo<T>(s: seq<T>, a: set<T>, b: set<T>)
    requires a !! b
    ensures Keep(Drop(s, a), b) == Keep(s, b)
    ensures Drop(Drop(s, a), b) == Drop(s, a + b)
  {
    if s != [] {
      var n := |s| - 1;
      TakeOutTwo(s[..n], a, b);
      if s[n] !in a {
        assert Drop(s, a)[..|Drop(s, a)| - 1] == Drop(s[..n], a);
      } else {
        assert Drop(s, a) == Drop(s[..n], a);
      }
    }
  }

  lemma {:induction false} DropIsKeep<T>(s: seq<T>, a: set<T>, b: set<T>)
    requires forall x | x in s :: x in a <==> x !in b
    ensures Drop(s, a) == Keep(s, b)
  {
    if s != [] {
      DropIsKeep(s[..|s| - 1], a, b);
    }
  }

  lemma FatesFit(cfg: Config, st: State, reps: StartReports)
    ensures var n := |st.starting|;
            multiset(Fated(cfg, st, reps, ReadyToUse, n)) + multiset(Fated(cfg, st, reps, ToDelete, n))
            <= multiset(st.starting)
  {
    var s, n := st.starting, |st.starting|;
    assert s[..n] == s;
    var a, b := FateSet(cfg, st, reps, ReadyToUse), FateSet(cfg, st, reps, ToDelete);
    FatedIsKeep(cfg, st, reps, ReadyToUse, n);
    FatedIsKeep(cfg, st, reps, ToDelete, n);
    KeepSplits(s, a);
    TakeOutTwo(s, a, b);
    KeepSplits(Drop(s, a), b);
  }

  /** Removing the ready and then the failed VMs leaves exactly those that are still starting. */
  lemma RestStillStarting(cfg: Config, st: State, reps: StartReports)
    ensures var n := |st.starting|;
            RemoveEach(RemoveEach(st.starting, Fated(cfg, st, reps, ReadyToUse, n)), Fated(cfg, st, reps, ToDelete, n))
            == Fated(cfg, st, reps, StillStarting, n)
  {
    var s, n := st.starting, |st.starting|;
    WholePrefix(s);
    var a := FateSet(cfg, st, reps, ReadyToUse);
    var b := FateSet(cfg, st, reps, ToDelete);
    FatedIsKeep(cfg, st, reps, ReadyToUse, n);
    FatedIsKeep(cfg, st, reps, ToDelete, n);
    FatedIsKeep(cfg, st, reps, StillStarting, n);
    RemoveCollected(s, a);
    TakeOutTwo(s, a, b);
    RemoveCollected(Drop(s, a), b);
    ThreeFates(cfg, st, reps);
  }

  lemma ThreeFates(cfg: Config, st: State, reps: StartReports)
    ensures Drop(st.starting, FateSet(cfg, st, reps, ReadyToUse) + FateSet(cfg, st, reps, ToDelete))
         == Keep(st.starting, FateSet(cfg, st, reps, StillStarting))
  {
    var a := FateSet(cfg, st, reps, ReadyToUse) + FateSet(cfg, st, reps, ToDelete);
    var c := FateSet(cfg, st, reps, StillStarting);
    forall x | x in st.starting
      ensures x in a <==> x !in c
    {
    }
    DropIsKeep(st.starting, a, c);
  }

  lemma InspectOneInfo(cfg: Config, st: State, reps: StartReports, w: VM, v: VM)
    ensures InfoOf(InspectOne(cfg, st, w, reps), v)
         == if v == w then StartInfo(cfg, InfoOf(st, v), reps.of(v)) else InfoOf(st, v)
  {
  }

  lemma NotBefore(s: seq<VM>, k: nat)
    requires k < |s| && multiset(s)[s[k]] == 1
    ensures s[k] !in s[..k]
  {
    assert s == s[..k] + [s[k]] + s[k + 1..];
    assert multiset(s)[s[k]] >= multiset(s[..k])[s[k]] + 1;
  }

  /** What the pass has written to the VMs it has looked at. */
  lemma {:induction false} InspectedInfo(cfg: Config, st: State, reps: StartReports, k: nat, v: VM)
    requires k <= |st.starting| && (forall w | w in st.starting :: multiset(st.starting)[w] == 1)
    ensures InfoOf(Inspected(cfg, st, reps, k), v)
         == if v in st.starting[..k] then StartInfo(cfg, InfoOf(st, v), reps.of(v)) else InfoOf(st, v)
  {
    if k > 0 {
      var w := st.starting[k - 1];
      InspectedInfo(cfg, st, reps, k - 1, v);
      InspectOneInfo(cfg, Inspected(cfg, st, reps, k - 1), reps, w, v);
      NotBefore(st.starting, k - 1);
      assert st.starting[..k] == st.starting[..k - 1] + [w];
    }
  }

  /** Marking VMs static changes the records of no other VM. */
  lemma {:induction false} ReadiedInfo(cfg: Config, st: State, vms: seq<VM>, k: nat, v: VM)
    requires k <= |vms| && v !in vms
    ensures InfoOf(Readied(cfg, st, vms, k), v) == InfoOf(st, v)
  {
    if k > 0 {
      ReadiedInfo(cfg, st, vms, k - 1, v);
    }
  }

  lemma StartingOnce(st: State)
    requires Partition(Books(st))
    ensures forall w | w in st.starting :: multiset(st.starting)[w] == 1
  {
    forall w | w in st.starting
      ensures multiset(st.starting)[w] == 1
    {
      OnBooks(st, w);
      OnceOnBooks(st, w);
    }
  }

  /** Before launching, a pass only moves VMs: the ready ones join the existing ones, the failed ones are
      destroyed and join the deleting ones, the others stay, all in their old order. */
  lemma ProvisionMovesOnly(cfg: Config, st: State, reps: StartReports)
    ensures var s := ProvisionMoves(cfg, st, reps);
            var n := |st.starting|;
            && s.existing == st.existing + Fated(cfg, st, reps, ReadyToUse, n)
            && s.starting == Fated(cfg, st, reps, StillStarting, n)
            && s.deleting == st.deleting + Fated(cfg, st, reps, ToDelete, n)
            && s.destroyed == st.destroyed + Fated(cfg, st, reps, ToDelete, n)
            && s.provisioning == st.provisioning
  {
    var n := |st.starting|;
    var ready := Fated(cfg, st, reps, ReadyToUse, n);
    var failed := Fated(cfg, st, reps, ToDelete, n);
    var s1 := Inspected(cfg, st, reps, n);
    InspectedShape(cfg, st, reps, n);
    WholePrefix(ready);
    WholePrefix(failed);
    var s2 := Readied(cfg, s1, ready, |ready|);
    ReadiedShape(cfg, s1, ready, |ready|);
    FailedShape(s2, reps, failed, |failed|);
    RestStillStarting(cfg, st, reps);
  }

  lemma WholePrefix(s: seq<VM>)
    ensures s[..|s|] == s
  {
  }

  /** It conserves the static VMs of every resource, and no VM comes or goes. */
  lemma ProvisionMovesConserve(cfg: Config, st: State, reps: StartReports)
    requires ConfigOk(cfg) && Core(cfg, st)
    ensures Conserves(cfg, st, ProvisionMoves(cfg, st, reps))
    ensures Books(ProvisionMoves(cfg, st, reps)) == Books(st)
  {
    var n := |st.starting|;
    var ready := Fated(cfg, st, reps, ReadyToUse, n);
    FatesFit(cfg, st, reps);
    var s1 := Inspected(cfg, st, reps, n);
    InspectedShape(cfg, st, reps, n);
    InspectedKeeps(cfg, st, reps, n);
    var s2 := Readied(cfg, s1, ready, |ready|);
    ReadiedKeeps(cfg, s1, ready, |ready|);
    ReadiedShape(cfg, s1, ready, |ready|);
    WholePrefix(ready);
    ConservesTwice(cfg, st, s1, s2);
    RemoveEachBag(st.starting, ready);
    FailuresConserve(cfg, st, s2, reps, Fated(cfg, st, reps, ToDelete, n));
  }

  lemma FailuresConserve(cfg: Config, st: State, s: State, reps: StartReports, failed: seq<VM>)
    requires ConfigOk(cfg) && Conserves(cfg, st, s) && multiset(failed) <= multiset(s.starting)
    ensures var t := UpdateAvailable(cfg, FailedOnes(s, reps, failed, |failed|));
            Conserves(cfg, st, t) && Books(t) == Books(s)
  {
    var t := FailedOnes(s, reps, failed, |failed|);
    FailedKeeps(cfg, s, reps, failed, |failed|);
    ConservesTwice(cfg, st, s, t);
    UpdateStep(cfg, t);
    ConservesTwice(cfg, st, t, UpdateAvailable(cfg, t));
  }

  lemma ProvisionPassKeeps(cfg: Config, st: State, reps: StartReports, started: seq<VM>)
    requires ConfigOk(cfg) && Core(cfg, st) && st.provisioning
    requires Startable(cfg, ProvisionMoves(cfg, st, reps), started)
    ensures Conserves(cfg, st, ProvisionPass(cfg, st, reps, started))
    ensures FlagOk(ProvisionPass(cfg, st, reps, started))
  {
    ProvisionMovesOnly(cfg, st, reps);
    ProvisionMovesConserve(cfg, st, reps);
    var s := ProvisionMoves(cfg, st, reps);
    if NothingPending(s) {
      OtherFields(cfg, s, s.(provisioning := false));
      ConservesTwice(cfg, st, s, s.(provisioning := false));
    } else {
      LaunchStep(cfg, s, started);
      ConservesTwice(cfg, st, s, Launch(cfg, s, started));
    }
  }
}
