/** What loading promises: it establishes the invariant of every run, and trims exactly the overuse it can. */
module LoadLaws {
  import opened Outcomes
  import opened Sequences
  import opened CloudTools
  import opened Lifecycle
  import opened LifecycleInvariant
  import opened LifecycleLaws
  import opened Loading

  // ----- overuse trimming -----

  function IdleCount(st: State, vms: seq<VM>): nat {
    if vms == [] then 0
    else IdleCount(st, vms[..|vms| - 1]) + if IsIdleDynamic(st, vms[|vms| - 1]) then 1 else 0
  }

  /** Trimming gives up exactly as many idle dynamic VMs as are in excess or as there are, and no static or busy
      one. */
  lemma {:induction false} TrimsExactly(st: State, vms: seq<VM>, excess: int)
    ensures |Victims(st, vms, excess)| == Min(Max(0, excess), IdleCount(st, vms))
    ensures forall v | v in Victims(st, vms, excess) :: v in vms && IsIdleDynamic(st, v)
    ensures multiset(Victims(st, vms, excess)) <= multiset(vms)
  {
    if vms != [] {
      var front, last := vms[..|vms| - 1], vms[|vms| - 1];
      assert vms == front + [last];
      TrimsExactly(st, front, if IsIdleDynamic(st, last) then excess - 1 else excess);
    }
  }

  /** As written the loop raises IndexError exactly when there are fewer idle dynamic VMs than are in excess;
      otherwise it gives up the same VMs. */
  lemma {:induction false} TrimAsWritten(st: State, vms: seq<VM>, excess: int)
    ensures VictimsAsWritten(st, vms, excess)
         == if excess > IdleCount(st, vms) then Raised(IndexError) else Ok(Victims(st, vms, excess))
  {
    if excess > 0 && vms != [] {
      TrimAsWritten(st, vms[..|vms| - 1], if IsIdleDynamic(st, vms[|vms| - 1]) then excess - 1 else excess);
    }
  }

  /** When every VM is busy, there is no idle one to give up. */
  lemma {:induction false} BusyAreNotIdle(st: State, vms: seq<VM>)
    requires forall v | v in vms :: IsBusy(st.workerNodes, v)
    ensures IdleCount(st, vms) == 0
  {
    if vms != [] {
      assert vms[|vms| - 1] in vms;
      BusyAreNotIdle(st, vms[..|vms| - 1]);
    }
  }

  /** So two busy dynamic VMs of a resource whose quota was lowered to one are enough for the loop to fail. */
  lemma BusyOveruseFails(cfg: Config, st: State, a: VM, b: VM, r: string)
    requires r in cfg.quota && cfg.quota[r] == 1 && a.resource == r && b.resource == r
    requires st.info == map[a := FRESH, b := FRESH]
    requires st.workerNodes == [WorkerNode(a.hostname, "job-exclusive", true),
                                WorkerNode(b.hostname, "job-exclusive", true)]
    ensures Excess(cfg, st, [a, b], r) == 1 && VictimsAsWritten(st, [a, b], 1) == Raised(IndexError)
    ensures Victims(st, [a, b], 1) == []
  {
    var vms := [a, b];
    assert Used(vms[..1][..0], st.info, r) == 0;
    assert Used(vms[..1], st.info, r) == 1;
    assert Used(vms, st.info, r) == 2;
    var rest := st.workerNodes[1..];
    assert rest == [WorkerNode(b.hostname, "job-exclusive", true)];
    assert FindNode(rest, b.hostname) == Some(rest[0]);
    assert IsBusy(st.workerNodes, a) && IsBusy(st.workerNodes, b);
    BusyAreNotIdle(st, vms);
    TrimAsWritten(st, vms, 1);
    assert Victims(st, vms[..1][..0], 1) == [];
    assert Victims(st, vms[..1], 1) == [];
  }

  // ----- single steps -----

  lemma GoOnTotals(cfg: Config, st: State, v: VM)
    requires v in st.existing && v in st.info && st.info[v].dynamic
    ensures StaticTotals(cfg, GoOnOne(st, v)) == StaticTotals(cfg, st)
  {
    forall r | r in cfg.quota
      ensures StaticTotal(st, r) == StaticTotal(GoOnOne(st, v), r)
    {
      CountRemove(st.existing, v, st.info, OfResource(r));
    }
  }

  lemma GoOnStep(cfg: Config, st: State, v: VM)
    requires Core(cfg, st) && v in st.existing && InfoOf(st, v).dynamic
    ensures OnlyMoves(cfg, st, GoOnOne(st, v))
  {
    RemoveFirstBag(st.existing, v);
    assert Books(GoOnOne(st, v)) == Books(st);
    OnBooks(st, v);
    assert VmOk(cfg, st.info, v);
    GoOnTotals(cfg, st, v);
  }

  lemma DestroyOneStep(cfg: Config, st: State, v: VM, accepted: bool)
    requires ConfigOk(cfg) && Core(cfg, st) && v in st.existing
    ensures OnlyMoves(cfg, st, DestroyOne(st, v, accepted))
  {
    OnBooks(st, v);
    var s := Destroy(st, v, accepted);
    DestroyStep(cfg, st, v, accepted);
    RetireStep(cfg, s, v);
    KindsGiveTotals(cfg, s, Retire(s, v));
    ConservesTwice(cfg, st, s, Retire(s, v));
  }

  // ----- shapes -----

  ghost predicate GoneOnFrame(st: State, s: State, vms: seq<VM>) {
    && s.existing == RemoveEach(st.existing, vms)
    && s.starting == st.starting + vms
    && s == st.(existing := s.existing, starting := s.starting)
  }

  lemma {:induction false} GoneOnShape(st: State, vms: seq<VM>, k: nat)
    requires k <= |vms|
    ensures GoneOnFrame(st, GoneOn(st, vms, k), vms[..k])
  {
    if k > 0 {
      GoneOnShape(st, vms, k - 1);
      assert vms[..k][..k - 1] == vms[..k - 1];
    }
  }

  ghost predicate DestroyedFrame(st: State, s: State, vms: seq<VM>) {
    && s.existing == RemoveEach(st.existing, vms)
    && s.deleting == st.deleting + vms
    && s == st.(existing := s.existing, deleting := s.deleting, info := s.info, destroyed := s.destroyed)
  }

  lemma DestroyOneShape(st: State, v: VM, accepted: bool)
    ensures var s := DestroyOne(st, v, accepted);
            && s.existing == RemoveFirst(st.existing, v) && s.deleting == st.deleting + [v]
            && s == st.(existing := s.existing, deleting := s.deleting, info := s.info, destroyed := s.destroyed)
            && (forall w :: InfoOf(s, w).dynamic == InfoOf(st, w).dynamic)
  {
  }

  lemma {:induction false} DestroyedShape(st: State, vms: seq<VM>, accepted: VM -> bool, k: nat)
    requires k <= |vms|
    ensures DestroyedFrame(st, DestroyedOnes(st, vms, accepted, k), vms[..k])
  {
    if k > 0 {
      DestroyedShape(st, vms, accepted, k - 1);
      DestroyOneShape(DestroyedOnes(st, vms, accepted, k - 1), vms[k - 1], accepted(vms[k - 1]));
      assert vms[..k][..k - 1] == vms[..k - 1];
    }
  }

  lemma {:induction false} DestroyedDynamic(st: State, vms: seq<VM>, accepted: VM -> bool, k: nat, w: VM)
    requires k <= |vms|
    ensures InfoOf(DestroyedOnes(st, vms, accepted, k), w).dynamic == InfoOf(st, w).dynamic
  {
    if k > 0 {
      DestroyedDynamic(st, vms, accepted, k - 1, w);
      DestroyOneShape(DestroyedOnes(st, vms, accepted, k - 1), vms[k - 1], accepted(vms[k - 1]));
    }
  }

  // ----- folds -----

  lemma GoneOnNext(cfg: Config, st: State, vms: seq<VM>, k: nat)
    requires k < |vms| && multiset(vms) <= multiset(st.existing) && (forall v | v in vms :: InfoOf(st, v).dynamic)
    requires OnlyMoves(cfg, st, GoneOn(st, vms, k))
    ensures OnlyMoves(cfg, st, GoneOn(st, vms, k + 1))
  {
    var s := GoneOn(st, vms, k);
    GoneOnShape(st, vms, k);
    StillThere(st.existing, vms, k);
    assert vms[k] in vms && s.info == st.info;
    GoOnStep(cfg, s, vms[k]);
    ConservesTwice(cfg, st, s, GoOnOne(s, vms[k]));
  }

  ghost function GoneOnMoves(cfg: Config, st: State, vms: seq<VM>): nat -> bool {
    (k: nat) => k <= |vms| && OnlyMoves(cfg, st, GoneOn(st, vms, k))
  }

  lemma GoneOnOnward(cfg: Config, st: State, vms: seq<VM>, k: nat)
    requires multiset(vms) <= multiset(st.existing) && forall v | v in vms :: InfoOf(st, v).dynamic
    ensures k < |vms| && GoneOnMoves(cfg, st, vms)(k) ==> GoneOnMoves(cfg, st, vms)(k + 1)
  {
    if k < |vms| && OnlyMoves(cfg, st, GoneOn(st, vms, k)) {
      GoneOnNext(cfg, st, vms, k);
    }
  }

  lemma GoneOnOnwards(cfg: Config, st: State, vms: seq<VM>)
    requires multiset(vms) <= multiset(st.existing) && forall v | v in vms :: InfoOf(st, v).dynamic
    ensures forall k: nat :: k < |vms| && GoneOnMoves(cfg, st, vms)(k) ==> GoneOnMoves(cfg, st, vms)(k + 1)
  {
    forall k: nat
      ensures k < |vms| && GoneOnMoves(cfg, st, vms)(k) ==> GoneOnMoves(cfg, st, vms)(k + 1)
    {
      GoneOnOnward(cfg, st, vms, k);
    }
  }

  lemma GoneOnKeeps(cfg: Config, st: State, vms: seq<VM>, k: nat)
    requires k <= |vms| && multiset(vms) <= multiset(st.existing) && (forall v | v in vms :: InfoOf(st, v).dynamic)
    requires OnlyMoves(cfg, st, st)
    ensures OnlyMoves(cfg, st, GoneOn(st, vms, k))
  {
    GoneOnOnwards(cfg, st, vms);
    assert GoneOnMoves(cfg, st, vms)(0);
    Induct(GoneOnMoves(cfg, st, vms), k);
  }

  lemma DestroyedNext(cfg: Config, st: State, vms: seq<VM>, accepted: VM -> bool, k: nat)
    requires ConfigOk(cfg) && k < |vms| && multiset(vms) <= multiset(st.existing)
    requires OnlyMoves(cfg, st, DestroyedOnes(st, vms, accepted, k))
    ensures OnlyMoves(cfg, st, DestroyedOnes(st, vms, accepted, k + 1))
  {
    var s := DestroyedOnes(st, vms, accepted, k);
    DestroyedShape(st, vms, accepted, k);
    StillThere(st.existing, vms, k);
    DestroyOneStep(cfg, s, vms[k], accepted(vms[k]));
    ConservesTwice(cfg, st, s, DestroyOne(s, vms[k], accepted(vms[k])));
  }

  ghost function DestroyedMoves(cfg: Config, st: State, vms: seq<VM>, accepted: VM -> bool): nat -> bool {
    (k: nat) => k <= |vms| && OnlyMoves(cfg, st, DestroyedOnes(st, vms, accepted, k))
  }

  lemma DestroyedOnward(cfg: Config, st: State, vms: seq<VM>, accepted: VM -> bool, k: nat)
    requires ConfigOk(cfg) && multiset(vms) <= multiset(st.existing)
    ensures k < |vms| && DestroyedMoves(cfg, st, vms, accepted)(k) ==> DestroyedMoves(cfg, st, vms, accepted)(k + 1)
  {
    if k < |vms| && OnlyMoves(cfg, st, DestroyedOnes(st, vms, accepted, k)) {
      DestroyedNext(cfg, st, vms, accepted, k);
    }
  }

  lemma DestroyedOnwards(cfg: Config, st: State, vms: seq<VM>, accepted: VM -> bool)
    requires ConfigOk(cfg) && multiset(vms) <= multiset(st.existing)
    ensures forall k: nat ::
              k < |vms| && DestroyedMoves(cfg, st, vms, accepted)(k) ==> DestroyedMoves(cfg, st, vms, accepted)(k + 1)
  {
    forall k: nat
      ensures k < |vms| && DestroyedMoves(cfg, st, vms, accepted)(k) ==> DestroyedMoves(cfg, st, vms, accepted)(k + 1)
    {
      DestroyedOnward(cfg, st, vms, accepted, k);
    }
  }

  lemma DestroyedKeep(cfg: Config, st: State, vms: seq<VM>, accepted: VM -> bool, k: nat)
    requires ConfigOk(cfg) && OnlyMoves(cfg, st, st) && k <= |vms| && multiset(vms) <= multiset(st.existing)
    ensures OnlyMoves(cfg, st, DestroyedOnes(st, vms, accepted, k))
  {
    DestroyedOnwards(cfg, st, vms, accepted);
    assert DestroyedMoves(cfg, st, vms, accepted)(0);
    Induct(DestroyedMoves(cfg, st, vms, accepted), k);
  }

  lemma MarkIfShape(cfg: Config, st: State, v: VM, rep: LoadReport)
    ensures var s := MarkIfBase(cfg, st, v, rep);
            s == st.(info := s.info, deficit := s.deficit) && forall w :: w != v ==> InfoOf(s, w) == InfoOf(st, w)
  {
  }

  lemma {:induction false} MarkedShape(cfg: Config, st: State, vms: seq<VM>, rep: LoadReport, k: nat)
    requires k <= |vms|
    ensures var s := Marked(cfg, st, vms, rep, k); s == st.(info := s.info, deficit := s.deficit)
  {
    if k > 0 {
      MarkedShape(cfg, st, vms, rep, k - 1);
      MarkIfShape(cfg, Marked(cfg, st, vms, rep, k - 1), vms[k - 1], rep);
    }
  }

  lemma {:induction false} MarkedInfo(cfg: Config, st: State, vms: seq<VM>, rep: LoadReport, k: nat, w: VM)
    requires k <= |vms| && w !in vms[..k]
    ensures InfoOf(Marked(cfg, st, vms, rep, k), w) == InfoOf(st, w)
  {
    if k > 0 {
      assert vms[..k] == vms[..k - 1] + [vms[k - 1]];
      MarkedInfo(cfg, st, vms, rep, k - 1, w);
      MarkIfShape(cfg, Marked(cfg, st, vms, rep, k - 1), vms[k - 1], rep);
    }
  }

  lemma MarkedNext(cfg: Config, st: State, vms: seq<VM>, rep: LoadReport, k: nat)
    requires ConfigOk(cfg) && k < |vms| && NoDup(vms)
    requires forall v | v in vms :: v in st.existing && InfoOf(st, v).dynamic
    requires OnlyMoves(cfg, st, Marked(cfg, st, vms, rep, k))
    ensures OnlyMoves(cfg, st, Marked(cfg, st, vms, rep, k + 1))
  {
    var s := Marked(cfg, st, vms, rep, k);
    MarkedShape(cfg, st, vms, rep, k);
    assert vms[k] in vms && vms[k] !in vms[..k];
    MarkedInfo(cfg, st, vms, rep, k, vms[k]);
    MarkStep(cfg, s, vms[k]);
    ConservesTwice(cfg, st, s, MarkIfBase(cfg, s, vms[k], rep));
  }

  lemma {:induction false} MarkedKeep(cfg: Config, st: State, vms: seq<VM>, rep: LoadReport, k: nat)
    requires ConfigOk(cfg) && OnlyMoves(cfg, st, st) && k <= |vms| && NoDup(vms)
    requires forall v | v in vms :: v in st.existing && InfoOf(st, v).dynamic
    ensures OnlyMoves(cfg, st, Marked(cfg, st, vms, rep, k))
  {
    if k > 0 {
      MarkedKeep(cfg, st, vms, rep, k - 1);
      MarkedNext(cfg, st, vms, rep, k - 1);
    }
  }

  // ----- one resource -----

  ghost function ResourceSet(vms: seq<VM>, r: string): set<VM> {
    set v | v in vms && v.resource == r
  }

  lemma {:induction false} KeepNoDup(s: seq<VM>, k: set<VM>)
    requires NoDup(s)
    ensures NoDup(Keep(s, k))
  {
    if s != [] {
      var t := s[..|s| - 1];
      KeepNoDup(t, k);
      KeepMembers(t, k, s[|s| - 1]);
    }
  }

  lemma VmsOfIn(vms: seq<VM>, r: string)
    ensures multiset(VmsOf(vms, r)) <= multiset(vms)
    ensures forall v | v in VmsOf(vms, r) :: v in vms && v.resource == r
  {
    var k := ResourceSet(vms, r);
    KeepSplits(vms, k);
    forall v | v in VmsOf(vms, r)
      ensures v in vms && v.resource == r
    {
      KeepMembers(vms, k, v);
    }
  }

  lemma VmsOfAre(vms: seq<VM>, r: string)
    requires NoDup(vms)
    ensures NoDup(VmsOf(vms, r)) && multiset(VmsOf(vms, r)) <= multiset(vms)
    ensures forall v | v in VmsOf(vms, r) :: v in vms && v.resource == r
  {
    VmsOfIn(vms, r);
    KeepNoDup(vms, ResourceSet(vms, r));
  }

  lemma TwiceInBag(s: seq<VM>, i: nat, j: nat)
    requires i < j < |s| && s[i] == s[j]
    ensures multiset(s)[s[i]] >= 2
  {
    assert s == s[..j] + [s[j]] + s[j + 1..];
    assert s[..j][i] == s[i];
  }

  lemma ExistingNoDup(st: State)
    requires Partition(Books(st))
    ensures NoDup(st.existing)
  {
    forall i, j | 0 <= i < j < |st.existing| && st.existing[i] == st.existing[j]
      ensures false
    {
      TwiceInBag(st.existing, i, j);
      AtMostOnce(st, st.existing[i]);
    }
  }

  /** Existing VMs of the resources are dynamic. */
  ghost predicate StillDynamic(st: State, resources: seq<string>) {
    forall v | v in st.existing :: v.resource in resources ==> InfoOf(st, v).dynamic
  }

  lemma MarkedForKeeps(cfg: Config, st: State, vms: seq<VM>, r: string, rep: LoadReport)
    requires ConfigOk(cfg) && Core(cfg, st) && NoDup(vms)
    requires forall v | v in vms :: v in st.existing && InfoOf(st, v).dynamic
    ensures OnlyMoves(cfg, st, MarkedFor(cfg, st, vms, r, rep))
  {
    MarkedKeep(cfg, st, vms, rep, |vms|);
  }

  lemma TrimmedKeeps(cfg: Config, st: State, vms: seq<VM>, r: string, rep: LoadReport)
    requires ConfigOk(cfg) && Core(cfg, st) && multiset(vms) <= multiset(st.existing)
    ensures OnlyMoves(cfg, st, Trimmed(cfg, st, vms, r, rep))
  {
    var victims := Victims(st, vms, Excess(cfg, st, vms, r));
    TrimsExactly(st, vms, Excess(cfg, st, vms, r));
    var s := DestroyedOnes(st, victims, rep.accepted, |victims|);
    DestroyedKeep(cfg, st, victims, rep.accepted, |victims|);
    OtherFields(cfg, s, Trimmed(cfg, st, vms, r, rep));
    ConservesTwice(cfg, st, s, Trimmed(cfg, st, vms, r, rep));
  }

  lemma AskedStaticsKeeps(cfg: Config, st: State, r: string, rep: LoadReport)
    requires Core(cfg, st) && r in cfg.quota
    ensures Conserves(cfg, st, AskedStatics(cfg, st, r, rep))
  {
    ProvisionListMeetsDeficit(DeficitOf(st, r), rep.first(r), r, cfg.locations);
    OtherFields(cfg, st, AskedStatics(cfg, st, r, rep));
  }

  lemma LoadResourceKeeps(cfg: Config, st: State, r: string, rep: LoadReport)
    requires ConfigOk(cfg) && Core(cfg, st) && r in cfg.quota && StillDynamic(st, [r])
    ensures Conserves(cfg, st, LoadResource(cfg, st, r, rep))
  {
    var vms := VmsOf(st.existing, r);
    ExistingNoDup(st);
    VmsOfAre(st.existing, r);
    var s := MarkedFor(cfg, st, vms, r, rep);
    MarkedForKeeps(cfg, st, vms, r, rep);
    MarkedShape(cfg, st, vms, rep, |vms|);
    var t := Trimmed(cfg, s, vms, r, rep);
    TrimmedKeeps(cfg, s, vms, r, rep);
    ConservesTwice(cfg, st, s, t);
    AskedStaticsKeeps(cfg, t, r, rep);
    ConservesTwice(cfg, st, t, AskedStatics(cfg, t, r, rep));
  }

  /** A step from a to b leaves the VMs of the given resources dynamic, and starts nothing. */
  ghost predicate LeavesAlone(a: State, b: State, others: seq<string>) {
    && (StillDynamic(a, others) ==> StillDynamic(b, others))
    && b.starting == a.starting && b.provisioning == a.provisioning
  }

  lemma MarkedForElsewhere(cfg: Config, st: State, vms: seq<VM>, r: string, rep: LoadReport, others: seq<string>)
    requires r !in others && forall v | v in vms :: v.resource == r
    ensures LeavesAlone(st, MarkedFor(cfg, st, vms, r, rep), others)
  {
    MarkedShape(cfg, st, vms, rep, |vms|);
    WholePrefix(vms);
    forall v: VM | v.resource in others
      ensures InfoOf(Marked(cfg, st, vms, rep, |vms|), v) == InfoOf(st, v)
    {
      MarkedInfo(cfg, st, vms, rep, |vms|, v);
    }
  }

  lemma TrimmedElsewhere(cfg: Config, st: State, vms: seq<VM>, r: string, rep: LoadReport, others: seq<string>)
    ensures LeavesAlone(st, Trimmed(cfg, st, vms, r, rep), others)
  {
    var victims := Victims(st, vms, Excess(cfg, st, vms, r));
    DestroyedShape(st, victims, rep.accepted, |victims|);
    WholePrefix(victims);
    forall v | v in Trimmed(cfg, st, vms, r, rep).existing
      ensures v in st.existing && InfoOf(Trimmed(cfg, st, vms, r, rep), v).dynamic == InfoOf(st, v).dynamic
    {
      RemoveEachMembers(st.existing, victims);
      DestroyedDynamic(st, victims, rep.accepted, |victims|, v);
    }
  }

  lemma LoadResourceElsewhere(cfg: Config, st: State, r: string, rep: LoadReport, others: seq<string>)
    requires Partition(Books(st)) && r !in others
    ensures LeavesAlone(st, LoadResource(cfg, st, r, rep), others)
  {
    var vms := VmsOf(st.existing, r);
    ExistingNoDup(st);
    VmsOfAre(st.existing, r);
    MarkedForElsewhere(cfg, st, vms, r, rep, others);
    TrimmedElsewhere(cfg, MarkedFor(cfg, st, vms, r, rep), vms, r, rep, others);
  }

  // ----- the whole load -----

  ghost predicate Loaded(cfg: Config, st: State, s: State, k: nat)
    requires k <= |cfg.order|
  {
    && Conserves(cfg, st, s) && StillDynamic(s, cfg.order[k..])
    && s.starting == st.starting && s.provisioning == st.provisioning
  }

  lemma LoadedNext(cfg: Config, st: State, rep: LoadReport, k: nat)
    requires ConfigOk(cfg) && NoDup(cfg.order) && k < |cfg.order|
    requires Loaded(cfg, st, LoadedResources(cfg, st, rep, k), k)
    ensures Loaded(cfg, st, LoadedResources(cfg, st, rep, k + 1), k + 1)
  {
    var s := LoadedResources(cfg, st, rep, k);
    var r := cfg.order[k];
    assert r in cfg.order[k..] && r !in cfg.order[k + 1..];
    assert forall x :: x in cfg.order[k + 1..] ==> x in cfg.order[k..];
    LoadResourceKeeps(cfg, s, r, rep);
    LoadResourceElsewhere(cfg, s, r, rep, cfg.order[k + 1..]);
    ConservesTwice(cfg, st, s, LoadResource(cfg, s, r, rep));
  }

  lemma {:induction false} LoadedKeep(cfg: Config, st: State, rep: LoadReport, k: nat)
    requires ConfigOk(cfg) && NoDup(cfg.order) && k <= |cfg.order| && Loaded(cfg, st, st, 0)
    ensures Loaded(cfg, st, LoadedResources(cfg, st, rep, k), k)
  {
    if k > 0 {
      LoadedKeep(cfg, st, rep, k - 1);
      LoadedNext(cfg, st, rep, k - 1);
    }
  }

  ghost function JudgedSet(vms: seq<VM>, rep: LoadReport, fate: LoadFate): set<VM> {
    set v | v in vms && LoadFateOf(v, rep) == fate
  }

  lemma {:induction false} JudgedIsKeep(vms: seq<VM>, rep: LoadReport, fate: LoadFate, k: nat)
    requires k <= |vms|
    ensures Judged(vms, rep, fate, k) == Keep(vms[..k], JudgedSet(vms, rep, fate))
  {
    if k > 0 {
      JudgedIsKeep(vms, rep, fate, k - 1);
      KeepPrefix(vms, JudgedSet(vms, rep, fate), k - 1);
      assert vms[k - 1] in vms;
    }
  }

  lemma JudgedFit(vms: seq<VM>, rep: LoadReport)
    ensures multiset(Judged(vms, rep, GoesOn, |vms|)) + multiset(Judged(vms, rep, IsDestroyed, |vms|)) <= multiset(vms)
    ensures forall v | v in Judged(vms, rep, GoesOn, |vms|) :: v in vms
  {
    WholePrefix(vms);
    var a, b := JudgedSet(vms, rep, GoesOn), JudgedSet(vms, rep, IsDestroyed);
    JudgedIsKeep(vms, rep, GoesOn, |vms|);
    JudgedIsKeep(vms, rep, IsDestroyed, |vms|);
    KeepSplits(vms, a);
    TakeOutTwo(vms, a, b);
    KeepSplits(Drop(vms, a), b);
    forall v | v in Judged(vms, rep, GoesOn, |vms|)
      ensures v in vms
    {
      KeepMembers(vms, a, v);
    }
  }

  /** The VMs of the cloud as they are before loading: all of configured resources, all dynamic. */
  ghost predicate Fresh(cfg: Config, st: State) {
    Core(cfg, st) && NothingPending(st) && !st.provisioning && AllDynamic(st.info, st.existing)
  }

  lemma ScreenedKeeps(cfg: Config, st: State, rep: LoadReport)
    requires ConfigOk(cfg) && Fresh(cfg, st)
    ensures var t := Screened(st, rep);
            Conserves(cfg, st, t) && StillDynamic(t, cfg.order) && t.provisioning == st.provisioning
  {
    var n := |st.existing|;
    var on := Judged(st.existing, rep, GoesOn, n);
    var off := Judged(st.existing, rep, IsDestroyed, n);
    var s := st.(workerNodes := Drop(rep.nodes, Orphans(st.existing, rep.nodes)));
    JudgedFit(st.existing, rep);
    OtherFields(cfg, st, s);
    var g := GoneOn(s, on, |on|);
    GoneOnKeeps(cfg, s, on, |on|);
    GoneOnShape(s, on, |on|);
    WholePrefix(on);
    ConservesTwice(cfg, st, s, g);
    RemoveEachBag(s.existing, on);
    DestroyRest(cfg, st, g, rep, off);
    var t := DestroyedOnes(g, off, rep.accepted, |off|);
    DestroyedShape(g, off, rep.accepted, |off|);
    WholePrefix(off);
    RemoveEachMembers(g.existing, off);
    RemoveEachMembers(s.existing, on);
    forall v | v in t.existing
      ensures InfoOf(t, v).dynamic
    {
      DestroyedDynamic(g, off, rep.accepted, |off|, v);
    }
  }

  lemma DestroyRest(cfg: Config, st: State, g: State, rep: LoadReport, off: seq<VM>)
    requires ConfigOk(cfg) && Conserves(cfg, st, g) && multiset(off) <= multiset(g.existing)
    ensures Conserves(cfg, st, DestroyedOnes(g, off, rep.accepted, |off|))
  {
    DestroyedKeep(cfg, g, off, rep.accepted, |off|);
    ConservesTwice(cfg, st, g, DestroyedOnes(g, off, rep.accepted, |off|));
  }

  lemma LoadMovesKeep(cfg: Config, st: State, rep: LoadReport)
    requires ConfigOk(cfg) && NoDup(cfg.order) && Fresh(cfg, st)
    ensures Conserves(cfg, st, LoadMoves(cfg, st, rep))
    ensures var s := LoadMoves(cfg, st, rep); s.provisioning <==> s.starting != []
  {
    var t := Screened(st, rep);
    ScreenedKeeps(cfg, st, rep);
    assert cfg.order[0..] == cfg.order;
    LoadedKeep(cfg, t, rep, |cfg.order|);
    var u := LoadedResources(cfg, t, rep, |cfg.order|);
    ConservesTwice(cfg, st, t, u);
    OtherFields(cfg, u, LoadMoves(cfg, st, rep));
    ConservesTwice(cfg, st, u, LoadMoves(cfg, st, rep));
  }

  /** Loading establishes what every run keeps, with as many static VMs, provided or missing, as configured. */
  lemma LoadEstablishes(cfg: Config, st: State, rep: LoadReport, started: seq<VM>)
    requires ConfigOk(cfg) && NoDup(cfg.order) && Fresh(cfg, st)
    requires LoadMoves(cfg, st, rep).waiting != [] ==> Startable(cfg, LoadMoves(cfg, st, rep), started)
    ensures Inv(cfg, Load(cfg, st, rep, started))
    ensures StaticTotals(cfg, Load(cfg, st, rep, started)) == StaticTotals(cfg, st)
  {
    var s := LoadMoves(cfg, st, rep);
    LoadMovesKeep(cfg, st, rep);
    if s.waiting != [] {
      LaunchStep(cfg, s, started);
      ConservesTwice(cfg, st, s, Launch(cfg, s, started));
    }
  }

  lemma {:induction false} NoStatics(vms: seq<VM>, info: map<VM, Info>, r: string)
    requires AllDynamic(info, vms)
    ensures StaticCount(vms, info, OfResource(r)) == 0
  {
    CountDynamic(vms, info, OfResource(r));
  }

  /** So the static VMs of a resource, provided or missing, are as many as its configuration asks for. */
  lemma LoadMeetsConfiguration(cfg: Config, st: State, rep: LoadReport, started: seq<VM>, r: string)
    requires ConfigOk(cfg) && NoDup(cfg.order) && Fresh(cfg, st) && st.deleting == [] && r in cfg.quota
    requires LoadMoves(cfg, st, rep).waiting != [] ==> Startable(cfg, LoadMoves(cfg, st, rep), started)
    ensures StaticTotal(Load(cfg, st, rep, started), r) == Deficit(DeficitOf(st, r))
  {
    LoadEstablishes(cfg, st, rep, started);
    NoStatics(st.existing, st.info, r);
    assert StaticTotals(cfg, Load(cfg, st, rep, started))[r] == StaticTotals(cfg, st)[r];
  }
}
