/** What every small step of the controller keeps: the partition of the VMs, and for each resource the number of
    static VMs that are provided or still missing. */
module LifecycleInvariant {
  import opened Outcomes
  import opened Sequences
  import opened CloudTools
  import opened Lifecycle

  /** The batch is not empty, and the zone that vm_check writes is the zone of some location. */
  ghost predicate ConfigOk(cfg: Config) {
    && cfg.batch >= 1
    && (forall r | r in cfg.order :: r in cfg.quota)
    && (forall r | r in cfg.quota :: r in cfg.order)
    && Mapped(cfg, Some(cfg.defaultZone))
  }

  ghost predicate Mapped(cfg: Config, zone: Option<string>) {
    LocationOf(cfg.locations, zone).Some?
  }

  ghost function Books(st: State): multiset<VM> {
    multiset(st.existing) + multiset(st.starting) + multiset(st.deleting)
  }

  /** The VM is known and of a configured resource; if static, its zone belongs to a location. */
  ghost predicate VmOk(cfg: Config, info: map<VM, Info>, v: VM) {
    v in info && v.resource in cfg.quota && (info[v].dynamic || Mapped(cfg, info[v].zone))
  }

  /** No VM is twice in a list or in two lists. */
  ghost predicate Partition(books: multiset<VM>) {
    forall v | v in books :: books[v] == 1
  }

  ghost predicate VmsOk(cfg: Config, info: map<VM, Info>, books: multiset<VM>) {
    forall v | v in books :: VmOk(cfg, info, v)
  }

  ghost predicate AllDynamic(info: map<VM, Info>, vms: seq<VM>) {
    forall v | v in vms :: v in info && info[v].dynamic
  }

  ghost predicate DeficitsOk(cfg: Config, deficit: map<string, seq<StaticReq>>) {
    deficit.Keys == cfg.quota.Keys && forall r | r in deficit :: Covered(deficit[r], cfg.locations)
  }

  ghost predicate RequestsOk(cfg: Config, waiting: seq<ProvisionVM>) {
    forall p | p in waiting :: p.resource in cfg.quota
  }

  ghost predicate Core(cfg: Config, st: State) {
    && Partition(Books(st))
    && VmsOk(cfg, st.info, Books(st))
    && AllDynamic(st.info, st.starting)
    && DeficitsOk(cfg, st.deficit)
    && RequestsOk(cfg, st.waiting)
  }

  /** While the flag is down nothing is starting or waiting, so the poller strands nothing. */
  ghost predicate FlagOk(st: State) {
    !st.provisioning ==> NothingPending(st)
  }

  ghost predicate Inv(cfg: Config, st: State) {
    Core(cfg, st) && FlagOk(st)
  }

  // ----- counting static VMs -----

  /** Which static VMs to count: those of a resource, or those that can stand in for each other. */
  datatype Kind = OfResource(resource: string) | Alike(resource: string, zone: Option<string>, vcpus: int)

  ghost predicate StaticOf(info: map<VM, Info>, v: VM, k: Kind) {
    && v in info && !info[v].dynamic && v.resource == k.resource
    && (k.Alike? ==> info[v].zone == k.zone && v.vcpus == k.vcpus)
  }

  ghost function StaticCount(vms: seq<VM>, info: map<VM, Info>, k: Kind): nat {
    if vms == [] then 0
    else StaticCount(vms[..|vms| - 1], info, k) + if StaticOf(info, vms[|vms| - 1], k) then 1 else 0
  }

  /** Static VMs in service or on their way out. */
  ghost function StaticHeld(st: State, k: Kind): nat {
    StaticCount(st.existing, st.info, k) + StaticCount(st.deleting, st.info, k)
  }

  /** The static VMs of a resource: those still missing and those held. */
  ghost function StaticTotal(st: State, r: string): nat {
    Deficit(DeficitOf(st, r)) + StaticHeld(st, OfResource(r))
  }

  ghost function StaticTotals(cfg: Config, st: State): map<string, nat> {
    map r | r in cfg.quota :: StaticTotal(st, r)
  }

  ghost function StaticKinds(st: State): imap<Kind, nat> {
    imap k: Kind :: StaticHeld(st, k)
  }

  /** A step from a to b keeps the invariant and conserves the static VMs of every resource. */
  ghost predicate Conserves(cfg: Config, a: State, b: State) {
    Core(cfg, b) && StaticTotals(cfg, a) == StaticTotals(cfg, b)
  }

  /** And no VM comes or goes. */
  ghost predicate OnlyMoves(cfg: Config, a: State, b: State) {
    Conserves(cfg, a, b) && Books(b) == Books(a)
  }

  /** A step from a to b keeps the invariant and the static VMs of every kind. */
  ghost predicate KeepsKinds(cfg: Config, a: State, b: State) {
    Core(cfg, b) && a.deficit == b.deficit && StaticKinds(a) == StaticKinds(b)
  }

  lemma {:induction false} CountAppend(s: seq<VM>, t: seq<VM>, info: map<VM, Info>, k: Kind)
    ensures StaticCount(s + t, info, k) == StaticCount(s, info, k) + StaticCount(t, info, k)
  {
    if t == [] {
      assert s + t == s;
    } else {
      assert (s + t)[..|s + t| - 1] == s + t[..|t| - 1];
      CountAppend(s, t[..|t| - 1], info, k);
    }
  }

  lemma CountOne(v: VM, info: map<VM, Info>, k: Kind)
    ensures StaticCount([v], info, k) == if StaticOf(info, v, k) then 1 else 0
  {
    assert [v][..0] == [];
  }

  lemma {:induction false} CountRemove(s: seq<VM>, v: VM, info: map<VM, Info>, k: Kind)
    requires v in s
    ensures StaticCount(RemoveFirst(s, v), info, k)
         == StaticCount(s, info, k) - if StaticOf(info, v, k) then 1 else 0
  {
    assert s == [s[0]] + s[1..];
    CountAppend([s[0]], s[1..], info, k);
    CountOne(s[0], info, k);
    if s[0] != v {
      CountRemove(s[1..], v, info, k);
      CountAppend([s[0]], RemoveFirst(s[1..], v), info, k);
    }
  }

  lemma {:induction false} CountDynamic(s: seq<VM>, info: map<VM, Info>, k: Kind)
    requires AllDynamic(info, s)
    ensures StaticCount(s, info, k) == 0
  {
    if s != [] {
      CountDynamic(s[..|s| - 1], info, k);
    }
  }

  lemma {:induction false} CountSame(s: seq<VM>, a: map<VM, Info>, b: map<VM, Info>, k: Kind)
    requires forall v | v in s :: StaticOf(a, v, k) == StaticOf(b, v, k)
    ensures StaticCount(s, a, k) == StaticCount(s, b, k)
  {
    if s != [] {
      CountSame(s[..|s| - 1], a, b, k);
    }
  }

  /** Only the changed VM can change a count. */
  lemma {:induction false} CountUpdate(s: seq<VM>, info: map<VM, Info>, v: VM, i: Info, k: Kind)
    requires multiset(s)[v] <= 1
    ensures StaticCount(s, info[v := i], k)
         == if v !in s || StaticOf(info, v, k) == StaticOf(info[v := i], v, k) then StaticCount(s, info, k)
            else if StaticOf(info, v, k) then StaticCount(s, info, k) - 1
            else StaticCount(s, info, k) + 1
  {
    if s != [] {
      var n := |s| - 1;
      assert s == s[..n] + [s[n]];
      CountUpdate(s[..n], info, v, i, k);
      assert v in s[..n] <==> multiset(s[..n])[v] > 0;
    }
  }

  // ----- membership -----

  lemma OnBooks(st: State, v: VM)
    ensures v in Books(st) <==> v in st.existing || v in st.starting || v in st.deleting
    ensures Books(st)[v] == multiset(st.existing)[v] + multiset(st.starting)[v] + multiset(st.deleting)[v]
  {
  }

  /** A VM on the books is in exactly one list, once. */
  lemma OnceOnBooks(st: State, v: VM)
    requires Partition(Books(st)) && v in Books(st)
    ensures multiset(st.existing)[v] <= 1 && multiset(st.starting)[v] <= 1 && multiset(st.deleting)[v] <= 1
    ensures v in st.existing ==> v !in st.starting && v !in st.deleting
    ensures v in st.starting ==> v !in st.existing && v !in st.deleting
    ensures v in st.deleting ==> v !in st.existing && v !in st.starting
  {
    assert Books(st)[v] == 1;
    assert v in st.existing <==> multiset(st.existing)[v] > 0;
    assert v in st.starting <==> multiset(st.starting)[v] > 0;
    assert v in st.deleting <==> multiset(st.deleting)[v] > 0;
  }

  lemma AtMostOnce(st: State, v: VM)
    requires Partition(Books(st))
    ensures multiset(st.existing)[v] <= 1 && multiset(st.starting)[v] <= 1 && multiset(st.deleting)[v] <= 1
  {
    if v in Books(st) {
      OnceOnBooks(st, v);
    }
  }

  // ----- small steps -----

  lemma ConservesTwice(cfg: Config, a: State, b: State, c: State)
    requires Conserves(cfg, a, b) && Conserves(cfg, b, c)
    ensures Conserves(cfg, a, c)
  {
  }

  lemma KindsGiveTotals(cfg: Config, a: State, b: State)
    requires KeepsKinds(cfg, a, b)
    ensures Conserves(cfg, a, b)
  {
    forall r | r in cfg.quota
      ensures StaticTotal(a, r) == StaticTotal(b, r)
    {
      assert StaticKinds(a)[OfResource(r)] == StaticKinds(b)[OfResource(r)];
    }
  }

  lemma KeepsKindsTwice(cfg: Config, a: State, b: State, c: State)
    requires KeepsKinds(cfg, a, b) && KeepsKinds(cfg, b, c)
    ensures KeepsKinds(cfg, a, c)
  {
  }

  /** Flags, queries, logs and requests for configured resources do not matter to the VMs. */
  lemma OtherFields(cfg: Config, a: State, b: State)
    requires Core(cfg, a)
    requires b == a.(waiting := b.waiting, provisioning := b.provisioning, sleeping := b.sleeping, avail := b.avail,
                     workerNodes := b.workerNodes, idle := b.idle, running := b.running, destroyed := b.destroyed)
    requires RequestsOk(cfg, b.waiting)
    ensures Conserves(cfg, a, b) && KeepsKinds(cfg, a, b) && Books(b) == Books(a)
  {
  }

  lemma UpdateKeepsVms(cfg: Config, info: map<VM, Info>, books: multiset<VM>, v: VM, i: Info)
    requires VmsOk(cfg, info, books)
    requires v in books ==> i.dynamic || Mapped(cfg, i.zone)
    ensures VmsOk(cfg, info[v := i], books)
  {
    forall w | w in books
      ensures VmOk(cfg, info[v := i], w)
    {
      assert VmOk(cfg, info, w);
    }
  }

  /** Changing a record without changing its static mark moves nothing. */
  lemma InfoStep(cfg: Config, st: State, v: VM, i: Info)
    requires ConfigOk(cfg) && Core(cfg, st) && v in Books(st)
    requires i.dynamic == InfoOf(st, v).dynamic
    requires i.zone == InfoOf(st, v).zone || i.zone == Some(cfg.defaultZone)
    ensures Conserves(cfg, st, SetInfo(st, v, i)) && Books(SetInfo(st, v, i)) == Books(st)
  {
    var s := SetInfo(st, v, i);
    assert VmOk(cfg, st.info, v);
    UpdateKeepsVms(cfg, st.info, Books(st), v, i);
    AtMostOnce(st, v);
    forall r | r in cfg.quota
      ensures StaticTotal(st, r) == StaticTotal(s, r)
    {
      CountUpdate(st.existing, st.info, v, i, OfResource(r));
      CountUpdate(st.deleting, st.info, v, i, OfResource(r));
    }
  }

  /** Changing what is neither the static mark nor the zone keeps every kind. */
  lemma InfoKeepsKinds(cfg: Config, st: State, v: VM, i: Info)
    requires ConfigOk(cfg) && Core(cfg, st) && v in Books(st)
    requires i.dynamic == InfoOf(st, v).dynamic && i.zone == InfoOf(st, v).zone
    ensures KeepsKinds(cfg, st, SetInfo(st, v, i)) && Books(SetInfo(st, v, i)) == Books(st)
  {
    var s := SetInfo(st, v, i);
    InfoStep(cfg, st, v, i);
    assert VmOk(cfg, st.info, v);
    AtMostOnce(st, v);
    forall k
      ensures StaticHeld(st, k) == StaticHeld(s, k)
    {
      CountUpdate(st.existing, st.info, v, i, k);
      CountUpdate(st.deleting, st.info, v, i, k);
    }
  }

  lemma DestroyStep(cfg: Config, st: State, v: VM, accepted: bool)
    requires ConfigOk(cfg) && Core(cfg, st) && v in Books(st)
    ensures Conserves(cfg, st, Destroy(st, v, accepted)) && KeepsKinds(cfg, st, Destroy(st, v, accepted))
    ensures Books(Destroy(st, v, accepted)) == Books(st)
  {
    var i := InfoOf(st, v).(deleteIssued := InfoOf(st, v).deleteIssued || accepted);
    var s := SetInfo(st, v, i);
    InfoKeepsKinds(cfg, st, v, i);
    OtherFields(cfg, s, Destroy(st, v, accepted));
    KeepsKindsTwice(cfg, st, s, Destroy(st, v, accepted));
    KindsGiveTotals(cfg, st, Destroy(st, v, accepted));
  }

  // ----- moving between the lists -----

  lemma RemoveKeepsDynamic(st: State, v: VM)
    requires AllDynamic(st.info, st.starting)
    ensures AllDynamic(st.info, RemoveFirst(st.starting, v))
  {
    RemoveFirstBag(st.starting, v);
    forall w | w in RemoveFirst(st.starting, v)
      ensures w in st.starting
    {
      assert w in multiset(RemoveFirst(st.starting, v));
    }
  }

  lemma DynamicAddsNone(vms: seq<VM>, v: VM, info: map<VM, Info>, r: string)
    requires v in info && info[v].dynamic
    ensures StaticCount(vms + [v], info, OfResource(r)) == StaticCount(vms, info, OfResource(r))
  {
    CountAppend(vms, [v], info, OfResource(r));
    CountOne(v, info, OfResource(r));
  }

  /** A dynamic VM that leaves the starting list for another changes no static VMs. */
  lemma DynamicMoves(cfg: Config, st: State, t: State, v: VM)
    requires v in st.info && st.info[v].dynamic && t.info == st.info && t.deficit == st.deficit
    requires (t.existing == st.existing + [v] && t.deleting == st.deleting)
             || (t.existing == st.existing && t.deleting == st.deleting + [v])
    ensures StaticTotals(cfg, st) == StaticTotals(cfg, t)
  {
    forall r | r in cfg.quota
      ensures StaticTotal(st, r) == StaticTotal(t, r)
    {
      DynamicAddsNone(st.existing, v, st.info, r);
      DynamicAddsNone(st.deleting, v, st.info, r);
    }
  }

  lemma StartingToExisting(cfg: Config, st: State, v: VM)
    requires Core(cfg, st) && v in st.starting
    ensures var t := st.(starting := RemoveFirst(st.starting, v), existing := st.existing + [v]);
            Conserves(cfg, st, t) && Books(t) == Books(st)
  {
    var t := st.(starting := RemoveFirst(st.starting, v), existing := st.existing + [v]);
    RemoveFirstBag(st.starting, v);
    assert Books(t) == Books(st);
    RemoveKeepsDynamic(st, v);
    DynamicMoves(cfg, st, t, v);
  }

  lemma StartingToDeleting(cfg: Config, st: State, v: VM)
    requires Core(cfg, st) && v in st.starting
    ensures var t := st.(starting := RemoveFirst(st.starting, v), deleting := st.deleting + [v]);
            Conserves(cfg, st, t) && Books(t) == Books(st)
  {
    var t := st.(starting := RemoveFirst(st.starting, v), deleting := st.deleting + [v]);
    RemoveFirstBag(st.starting, v);
    assert Books(t) == Books(st);
    RemoveKeepsDynamic(st, v);
    DynamicMoves(cfg, st, t, v);
  }

  lemma CancelStep(cfg: Config, st: State, v: VM)
    requires Core(cfg, st) && v in st.deleting
    ensures Conserves(cfg, st, CancelOne(st, v)) && Books(CancelOne(st, v)) == Books(st)
  {
    var t := CancelOne(st, v);
    RemoveFirstBag(st.deleting, v);
    assert Books(t) == Books(st);
    forall r | r in cfg.quota
      ensures StaticTotal(st, r) == StaticTotal(t, r)
    {
      CountRemove(st.deleting, v, st.info, OfResource(r));
      CountAppend(st.existing, [v], st.info, OfResource(r));
      CountOne(v, st.info, OfResource(r));
    }
  }

  lemma RetireStep(cfg: Config, st: State, v: VM)
    requires Core(cfg, st) && v in st.existing
    ensures KeepsKinds(cfg, st, Retire(st, v)) && Books(Retire(st, v)) == Books(st)
  {
    var t := Retire(st, v);
    RemoveFirstBag(st.existing, v);
    assert Books(t) == Books(st);
    forall k
      ensures StaticHeld(st, k) == StaticHeld(t, k)
    {
      CountRemove(st.existing, v, st.info, k);
      CountAppend(st.deleting, [v], st.info, k);
      CountOne(v, st.info, k);
    }
  }

  // ----- static marks -----

  /** A VM that need_vm accepts has the zone of a location. */
  lemma WantedIsMapped(cfg: Config, reqs: seq<StaticReq>, zone: Option<string>)
    requires ConfigOk(cfg) && Wants(reqs, zone, cfg.locations)
    ensures Mapped(cfg, zone)
  {
    var i :| 0 <= i < |reqs| && Suits(reqs[i], zone, cfg.locations);
    LocationOfMapped(cfg.locations, reqs[i].location);
  }

  /** Marking an existing dynamic VM static meets exactly one missing static VM. */
  lemma MarkStep(cfg: Config, st: State, v: VM)
    requires ConfigOk(cfg) && Core(cfg, st)
    requires v in st.existing && InfoOf(st, v).dynamic
    ensures Conserves(cfg, st, MarkStatic(cfg, st, v)) && Books(MarkStatic(cfg, st, v)) == Books(st)
  {
    if Wants(DeficitOf(st, v.resource), InfoOf(st, v).zone, cfg.locations) {
      assert v in Books(st) && VmOk(cfg, st.info, v);
      MarkKeepsCore(cfg, st, v);
      MarkKeepsTotals(cfg, st, v);
    }
  }

  lemma MarkKeepsCore(cfg: Config, st: State, v: VM)
    requires ConfigOk(cfg) && Core(cfg, st)
    requires v in st.existing && v in st.info && v.resource in cfg.quota
    requires Wants(DeficitOf(st, v.resource), InfoOf(st, v).zone, cfg.locations)
    ensures Core(cfg, MarkStatic(cfg, st, v))
  {
    var reqs := DeficitOf(st, v.resource);
    var zone := InfoOf(st, v).zone;
    WantedIsMapped(cfg, reqs, zone);
    TakeOneMeetsOne(reqs, zone, cfg.locations);
    OnBooks(st, v);
    OnceOnBooks(st, v);
    UpdateKeepsVms(cfg, st.info, Books(st), v, InfoOf(st, v).(dynamic := false));
    assert Books(MarkStatic(cfg, st, v)) == Books(st);
  }

  lemma MarkKeepsTotals(cfg: Config, st: State, v: VM)
    requires Partition(Books(st))
    requires v in st.existing && v in st.info && v.resource in st.deficit && st.info[v].dynamic
    requires Wants(DeficitOf(st, v.resource), InfoOf(st, v).zone, cfg.locations)
    ensures StaticTotals(cfg, MarkStatic(cfg, st, v)) == StaticTotals(cfg, st)
  {
    var s := MarkStatic(cfg, st, v);
    var i := InfoOf(st, v).(dynamic := false);
    TakeOneMeetsOne(DeficitOf(st, v.resource), InfoOf(st, v).zone, cfg.locations);
    OnBooks(st, v);
    OnceOnBooks(st, v);
    forall r | r in cfg.quota
      ensures StaticTotal(st, r) == StaticTotal(s, r)
    {
      CountUpdate(st.existing, st.info, v, i, OfResource(r));
      CountUpdate(st.deleting, st.info, v, i, OfResource(r));
    }
  }

  lemma ReadyStep(cfg: Config, st: State, v: VM)
    requires ConfigOk(cfg) && Core(cfg, st) && v in st.starting
    ensures Conserves(cfg, st, ReadyOne(cfg, st, v)) && Books(ReadyOne(cfg, st, v)) == Books(st)
  {
    var moved := st.(starting := RemoveFirst(st.starting, v), existing := st.existing + [v]);
    StartingToExisting(cfg, st, v);
    MarkStep(cfg, moved, v);
    assert ReadyOne(cfg, st, v) == MarkStatic(cfg, moved, v);
    ConservesTwice(cfg, st, moved, MarkStatic(cfg, moved, v));
  }

  lemma FailStep(cfg: Config, st: State, v: VM, accepted: bool)
    requires ConfigOk(cfg) && Core(cfg, st) && v in st.starting
    ensures Conserves(cfg, st, FailOne(st, v, accepted)) && Books(FailOne(st, v, accepted)) == Books(st)
  {
    assert v in Books(st) && VmOk(cfg, st.info, v);
    var w := if InfoOf(st, v).zone.Some? then st.waiting + [Again(v, InfoOf(st, v))] else st.waiting;
    var asked := st.(waiting := w);
    OtherFields(cfg, st, asked);
    var s := Destroy(asked, v, accepted);
    DestroyStep(cfg, asked, v, accepted);
    ConservesTwice(cfg, st, asked, s);
    StartingToDeleting(cfg, s, v);
    ConservesTwice(cfg, st, s, FailOne(st, v, accepted));
  }

  // ----- forgetting a VM -----

  lemma ForgetKeepsVms(cfg: Config, info: map<VM, Info>, books: multiset<VM>, v: VM)
    requires Partition(books) && VmsOk(cfg, info, books)
    ensures Partition(books - multiset{v}) && VmsOk(cfg, info, books - multiset{v})
  {
    var rest := books - multiset{v};
    forall w | w in rest
      ensures rest[w] == 1 && VmOk(cfg, info, w)
    {
      assert w in books && books[w] == 1;
    }
  }

  /** Forgetting a dynamic VM leaves the static ones alone. */
  lemma ForgetDynamic(cfg: Config, st: State, v: VM)
    requires Core(cfg, st) && v in st.existing && InfoOf(st, v).dynamic
    ensures var s := st.(existing := RemoveFirst(st.existing, v));
            KeepsKinds(cfg, st, s) && Books(s) == Books(st) - multiset{v}
  {
    var s := st.(existing := RemoveFirst(st.existing, v));
    RemoveFirstBag(st.existing, v);
    assert Books(s) == Books(st) - multiset{v};
    ForgetKeepsVms(cfg, st.info, Books(st), v);
    forall k
      ensures StaticHeld(st, k) == StaticHeld(s, k)
    {
      CountRemove(st.existing, v, st.info, k);
    }
  }

  lemma ForgetDeleted(cfg: Config, st: State, v: VM)
    requires Core(cfg, st) && v in st.deleting
    ensures var s := st.(deleting := RemoveFirst(st.deleting, v));
            && Core(cfg, s) && Books(s) == Books(st) - multiset{v}
            && forall k :: StaticHeld(s, k) == StaticHeld(st, k) - if StaticOf(st.info, v, k) then 1 else 0
  {
    var s := st.(deleting := RemoveFirst(st.deleting, v));
    RemoveFirstBag(st.deleting, v);
    assert Books(s) == Books(st) - multiset{v};
    ForgetKeepsVms(cfg, st.info, Books(st), v);
    forall k
      ensures StaticHeld(s, k) == StaticHeld(st, k) - if StaticOf(st.info, v, k) then 1 else 0
    {
      CountRemove(st.deleting, v, st.info, k);
    }
  }

  /** A deleted VM leaves the books; a static one is missing again. */
  lemma DeleteStep(cfg: Config, st: State, v: VM)
    requires ConfigOk(cfg) && Core(cfg, st) && v in st.deleting
    ensures Conserves(cfg, st, DeleteOne(cfg, st, v))
    ensures Books(DeleteOne(cfg, st, v)) == Books(st) - multiset{v}
  {
    var s := st.(deleting := RemoveFirst(st.deleting, v));
    ForgetDeleted(cfg, st, v);
    assert v in Books(st) && VmOk(cfg, st.info, v);
    if InfoOf(st, v).dynamic {
      assert DeleteOne(cfg, st, v) == s;
      TotalsAfterForget(cfg, st, s, s, v);
    } else {
      AskAgain(cfg, s, v);
      assert DeleteOne(cfg, st, v) == AskedAgain(cfg, s, v);
      TotalsAfterForget(cfg, st, s, AskedAgain(cfg, s, v), v);
    }
  }

  lemma TotalsAfterForget(cfg: Config, st: State, s: State, t: State, v: VM)
    requires v in st.info && s.deficit == st.deficit
    requires forall k :: StaticHeld(s, k) == StaticHeld(st, k) - if StaticOf(st.info, v, k) then 1 else 0
    requires t.existing == s.existing && t.deleting == s.deleting && t.info == s.info
    requires forall r :: Deficit(DeficitOf(t, r))
               == Deficit(DeficitOf(s, r)) + if r == v.resource && !st.info[v].dynamic then 1 else 0
    ensures StaticTotals(cfg, t) == StaticTotals(cfg, st)
  {
    forall r | r in cfg.quota
      ensures StaticTotal(st, r) == StaticTotal(t, r)
    {
      assert StaticHeld(t, OfResource(r)) == StaticHeld(s, OfResource(r));
    }
  }

  ghost function AskedAgain(cfg: Config, s: State, v: VM): State
    requires Mapped(cfg, InfoOf(s, v).zone)
  {
    s.(deficit := s.deficit[v.resource := AddReq(DeficitOf(s, v.resource),
                                                LocationOf(cfg.locations, InfoOf(s, v).zone).value, 1)],
       waiting := s.waiting + [Again(v, InfoOf(s, v))])
  }

  lemma AskAgain(cfg: Config, s: State, v: VM)
    requires Core(cfg, s) && v.resource in cfg.quota && Mapped(cfg, InfoOf(s, v).zone)
    ensures var t := AskedAgain(cfg, s, v);
            && Core(cfg, t) && Books(t) == Books(s)
            && forall r :: Deficit(DeficitOf(t, r)) == Deficit(DeficitOf(s, r)) + if r == v.resource then 1 else 0
  {
    LocationOfIsMapped(cfg.locations, InfoOf(s, v).zone);
    AddReqAdds(DeficitOf(s, v.resource), LocationOf(cfg.locations, InfoOf(s, v).zone).value, 1, cfg.locations);
  }

  // ----- swapping the static role -----

  lemma SwapStep(cfg: Config, st: State, v: VM, w: VM)
    requires Core(cfg, st) && v in st.existing && w in st.existing && v != w
    requires !InfoOf(st, v).dynamic && Swappable(st, v, w)
    ensures KeepsKinds(cfg, st, Swap(st, v, w)) && Books(Swap(st, v, w)) == Books(st)
  {
    var i, j := InfoOf(st, v).(dynamic := true), InfoOf(st, w).(dynamic := false);
    var s := SetInfo(st, v, i);
    var t := Swap(st, v, w);
    assert t == SetInfo(s, w, j);
    assert v in Books(st) && w in Books(st) && VmOk(cfg, st.info, v) && VmOk(cfg, st.info, w);
    UpdateKeepsVms(cfg, st.info, Books(st), v, i);
    UpdateKeepsVms(cfg, s.info, Books(st), w, j);
    OnceOnBooks(st, v);
    OnceOnBooks(st, w);
    forall k
      ensures StaticHeld(st, k) == StaticHeld(t, k)
    {
      CountUpdate(st.existing, st.info, v, i, k);
      CountUpdate(st.deleting, st.info, v, i, k);
      CountUpdate(st.existing, s.info, w, j, k);
      CountUpdate(st.deleting, s.info, w, j, k);
    }
  }
}
