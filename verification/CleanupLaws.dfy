/** What check_cleanup keeps, what it forgets, and that deletion makes progress. */
module CleanupLaws {
  import opened Sequences
  import opened CloudTools
  import opened Lifecycle
  import opened LifecycleInvariant
  import opened LifecycleLaws

  lemma SweepShape(cfg: Config, st: State, v: VM, r: CleanupReport)
    ensures var s := SweepOne(cfg, st, v, r); s == st.(info := s.info, destroyed := s.destroyed)
  {
  }

  lemma {:induction false} SweptShape(cfg: Config, st: State, reps: VM -> CleanupReport, k: nat)
    requires k <= |st.deleting|
    ensures var s := Swept(cfg, st, reps, k); s == st.(info := s.info, destroyed := s.destroyed)
  {
    if k > 0 {
      SweptShape(cfg, st, reps, k - 1);
      SweepShape(cfg, Swept(cfg, st, reps, k - 1), st.deleting[k - 1], reps(st.deleting[k - 1]));
    }
  }

  /** Sweeping changes the records of no other VM. */
  lemma {:induction false} SweptElsewhere(cfg: Config, st: State, reps: VM -> CleanupReport, k: nat, v: VM)
    requires k <= |st.deleting| && v !in st.deleting[..k]
    ensures InfoOf(Swept(cfg, st, reps, k), v) == InfoOf(st, v)
  {
    if k > 0 {
      assert st.deleting[..k] == st.deleting[..k - 1] + [st.deleting[k - 1]];
      SweptElsewhere(cfg, st, reps, k - 1, v);
    }
  }

  lemma SweepStep(cfg: Config, st: State, v: VM, r: CleanupReport)
    requires ConfigOk(cfg) && Core(cfg, st) && v in Books(st)
    ensures Conserves(cfg, st, SweepOne(cfg, st, v, r)) && Books(SweepOne(cfg, st, v, r)) == Books(st)
  {
    var fate := CleanupFateOf(v, InfoOf(st, v), r);
    var i := Checked(cfg, InfoOf(st, v), r.code, r.status);
    var s := SetInfo(st, v, i);
    InfoStep(cfg, st, v, i);
    if fate.StillDeleting? && fate.destroy {
      DestroyStep(cfg, s, v, r.accepted || fate.unhook);
      ConservesTwice(cfg, st, s, Destroy(s, v, r.accepted || fate.unhook));
    }
  }

  lemma SweptStep(cfg: Config, st: State, reps: VM -> CleanupReport, k: nat)
    requires ConfigOk(cfg) && k < |st.deleting|
    requires OnlyMoves(cfg, st, Swept(cfg, st, reps, k))
    ensures OnlyMoves(cfg, st, Swept(cfg, st, reps, k + 1))
  {
    OnBooks(st, st.deleting[k]);
    var s := Swept(cfg, st, reps, k);
    SweepStep(cfg, s, st.deleting[k], reps(st.deleting[k]));
    ConservesTwice(cfg, st, s, Swept(cfg, st, reps, k + 1));
  }

  lemma {:induction false} SweptKeeps(cfg: Config, st: State, reps: VM -> CleanupReport, k: nat)
    requires ConfigOk(cfg) && OnlyMoves(cfg, st, st) && k <= |st.deleting|
    ensures OnlyMoves(cfg, st, Swept(cfg, st, reps, k))
  {
    if k > 0 {
      SweptKeeps(cfg, st, reps, k - 1);
      SweptStep(cfg, st, reps, k - 1);
    }
  }

  ghost predicate DeletedFrame(st: State, s: State, vms: seq<VM>) {
    && s.deleting == RemoveEach(st.deleting, vms)
    && s == st.(deleting := s.deleting, deficit := s.deficit, waiting := s.waiting)
  }

  lemma DeleteShape(cfg: Config, st: State, v: VM)
    ensures var s := DeleteOne(cfg, st, v);
            && s.deleting == RemoveFirst(st.deleting, v)
            && s == st.(deleting := s.deleting, deficit := s.deficit, waiting := s.waiting)
  {
  }

  lemma {:induction false} DeletedShape(cfg: Config, st: State, vms: seq<VM>, k: nat)
    requires k <= |vms|
    ensures DeletedFrame(st, DeletedOnes(cfg, st, vms, k), vms[..k])
  {
    if k > 0 {
      DeletedShape(cfg, st, vms, k - 1);
      DeleteShape(cfg, DeletedOnes(cfg, st, vms, k - 1), vms[k - 1]);
      assert vms[..k][..k - 1] == vms[..k - 1];
    }
  }

  lemma OneMoreOut(books: multiset<VM>, vms: seq<VM>, k: nat)
    requires k < |vms|
    ensures books - multiset(vms[..k]) - multiset{vms[k]} == books - multiset(vms[..k + 1])
  {
    assert vms[..k + 1] == vms[..k] + [vms[k]];
  }

  lemma DeleteNext(cfg: Config, st: State, s: State, vms: seq<VM>, k: nat)
    requires ConfigOk(cfg) && k < |vms| && multiset(vms) <= multiset(st.deleting)
    requires Conserves(cfg, st, s) && DeletedFrame(st, s, vms[..k])
    requires Books(s) == Books(st) - multiset(vms[..k])
    ensures Conserves(cfg, st, DeleteOne(cfg, s, vms[k]))
    ensures Books(DeleteOne(cfg, s, vms[k])) == Books(st) - multiset(vms[..k + 1])
  {
    StillThere(st.deleting, vms, k);
    DeleteStep(cfg, s, vms[k]);
    ConservesTwice(cfg, st, s, DeleteOne(cfg, s, vms[k]));
    OneMoreOut(Books(st), vms, k);
  }

  lemma DeletedNext(cfg: Config, st: State, vms: seq<VM>, k: nat)
    requires ConfigOk(cfg) && k < |vms| && multiset(vms) <= multiset(st.deleting)
    requires Conserves(cfg, st, DeletedOnes(cfg, st, vms, k))
    requires Books(DeletedOnes(cfg, st, vms, k)) == Books(st) - multiset(vms[..k])
    ensures Conserves(cfg, st, DeletedOnes(cfg, st, vms, k + 1))
    ensures Books(DeletedOnes(cfg, st, vms, k + 1)) == Books(st) - multiset(vms[..k + 1])
  {
    DeletedShape(cfg, st, vms, k);
    DeleteNext(cfg, st, DeletedOnes(cfg, st, vms, k), vms, k);
  }

  lemma {:induction false} DeletedKeep(cfg: Config, st: State, vms: seq<VM>, k: nat)
    requires ConfigOk(cfg) && Conserves(cfg, st, st) && k <= |vms| && multiset(vms) <= multiset(st.deleting)
    ensures Conserves(cfg, st, DeletedOnes(cfg, st, vms, k))
    ensures Books(DeletedOnes(cfg, st, vms, k)) == Books(st) - multiset(vms[..k])
  {
    if k > 0 {
      DeletedKeep(cfg, st, vms, k - 1);
      DeletedNext(cfg, st, vms, k - 1);
    }
  }

  ghost predicate CancelledFrame(st: State, s: State, vms: seq<VM>) {
    && s.deleting == RemoveEach(st.deleting, vms)
    && s.existing == st.existing + vms
    && s == st.(deleting := s.deleting, existing := s.existing)
  }

  lemma {:induction false} CancelledShape(st: State, vms: seq<VM>, k: nat)
    requires k <= |vms|
    ensures CancelledFrame(st, CancelledOnes(st, vms, k), vms[..k])
  {
    if k > 0 {
      CancelledShape(st, vms, k - 1);
      assert vms[..k][..k - 1] == vms[..k - 1];
    }
  }

  lemma CancelNext(cfg: Config, st: State, s: State, vms: seq<VM>, k: nat)
    requires k < |vms| && multiset(vms) <= multiset(st.deleting)
    requires Conserves(cfg, st, s) && CancelledFrame(st, s, vms[..k]) && Books(s) == Books(st)
    ensures Conserves(cfg, st, CancelOne(s, vms[k])) && Books(CancelOne(s, vms[k])) == Books(st)
  {
    StillThere(st.deleting, vms, k);
    CancelStep(cfg, s, vms[k]);
    ConservesTwice(cfg, st, s, CancelOne(s, vms[k]));
  }

  lemma CancelledNext(cfg: Config, st: State, vms: seq<VM>, k: nat)
    requires k < |vms| && multiset(vms) <= multiset(st.deleting)
    requires OnlyMoves(cfg, st, CancelledOnes(st, vms, k))
    ensures OnlyMoves(cfg, st, CancelledOnes(st, vms, k + 1))
  {
    CancelledShape(st, vms, k);
    CancelNext(cfg, st, CancelledOnes(st, vms, k), vms, k);
  }

  lemma {:induction false} CancelledKeep(cfg: Config, st: State, vms: seq<VM>, k: nat)
    requires OnlyMoves(cfg, st, st) && k <= |vms| && multiset(vms) <= multiset(st.deleting)
    ensures OnlyMoves(cfg, st, CancelledOnes(st, vms, k))
  {
    if k > 0 {
      CancelledKeep(cfg, st, vms, k - 1);
      CancelledNext(cfg, st, vms, k - 1);
    }
  }

  ghost function EndSet(st: State, reps: VM -> CleanupReport, fate: CleanupFate): set<VM> {
    set v | v in st.deleting && CleanupFateOf(v, InfoOf(st, v), reps(v)) == fate
  }

  lemma {:induction false} EndedIsKeep(st: State, reps: VM -> CleanupReport, fate: CleanupFate, k: nat)
    requires k <= |st.deleting|
    ensures Ended(st, reps, fate, k) == Keep(st.deleting[..k], EndSet(st, reps, fate))
  {
    if k > 0 {
      EndedIsKeep(st, reps, fate, k - 1);
      KeepPrefix(st.deleting, EndSet(st, reps, fate), k - 1);
      assert st.deleting[k - 1] in st.deleting;
    }
  }

  lemma EndsFit(st: State, reps: VM -> CleanupReport)
    ensures var n := |st.deleting|;
            multiset(Ended(st, reps, Deleted, n)) + multiset(Ended(st, reps, Cancelled, n)) <= multiset(st.deleting)
  {
    var s, n := st.deleting, |st.deleting|;
    assert s[..n] == s;
    var a, b := EndSet(st, reps, Deleted), EndSet(st, reps, Cancelled);
    EndedIsKeep(st, reps, Deleted, n);
    EndedIsKeep(st, reps, Cancelled, n);
    KeepSplits(s, a);
    TakeOutTwo(s, a, b);
    KeepSplits(Drop(s, a), b);
  }

  /** A pass forgets exactly the VMs judged deleted, returns the cancelled ones to the existing VMs, and leaves
      the others in place and in order. */
  lemma CleanupMovesExactly(cfg: Config, st: State, reps: VM -> CleanupReport)
    ensures var s := CleanupMoves(cfg, st, reps);
            var n := |st.deleting|;
            && s.existing == st.existing + Ended(st, reps, Cancelled, n)
            && s.starting == st.starting
            && s.deleting == Drop(st.deleting, EndSet(st, reps, Deleted) + EndSet(st, reps, Cancelled))
            && s.provisioning == st.provisioning
  {
    var n := |st.deleting|;
    var gone, back := Ended(st, reps, Deleted, n), Ended(st, reps, Cancelled, n);
    SweptShape(cfg, st, reps, n);
    DeletedShape(cfg, Swept(cfg, st, reps, n), gone, |gone|);
    CancelledShape(DeletedOnes(cfg, Swept(cfg, st, reps, n), gone, |gone|), back, |back|);
    assert gone[..|gone|] == gone && back[..|back|] == back;
    RestStillDeleting(st, reps);
  }

  /** Removing the deleted and then the cancelled VMs leaves exactly the others. */
  lemma RestStillDeleting(st: State, reps: VM -> CleanupReport)
    ensures var n := |st.deleting|;
            RemoveEach(RemoveEach(st.deleting, Ended(st, reps, Deleted, n)), Ended(st, reps, Cancelled, n))
            == Drop(st.deleting, EndSet(st, reps, Deleted) + EndSet(st, reps, Cancelled))
  {
    var n := |st.deleting|;
    var a, b := EndSet(st, reps, Deleted), EndSet(st, reps, Cancelled);
    assert st.deleting[..n] == st.deleting;
    EndedIsKeep(st, reps, Deleted, n);
    EndedIsKeep(st, reps, Cancelled, n);
    RemoveCollected(st.deleting, a);
    TakeOutTwo(st.deleting, a, b);
    RemoveCollected(Drop(st.deleting, a), b);
  }

  /** It conserves the static VMs of every resource. */
  lemma CleanupMovesConserve(cfg: Config, st: State, reps: VM -> CleanupReport)
    requires ConfigOk(cfg) && Core(cfg, st)
    ensures Conserves(cfg, st, CleanupMoves(cfg, st, reps))
    ensures Books(CleanupMoves(cfg, st, reps)) == Books(st) - multiset(Ended(st, reps, Deleted, |st.deleting|))
  {
    var n := |st.deleting|;
    var gone, back := Ended(st, reps, Deleted, n), Ended(st, reps, Cancelled, n);
    EndsFit(st, reps);
    assert gone[..|gone|] == gone;
    var s1 := Swept(cfg, st, reps, n);
    SweptKeeps(cfg, st, reps, n);
    SweptShape(cfg, st, reps, n);
    var s2 := DeletedOnes(cfg, s1, gone, |gone|);
    DeletedKeep(cfg, s1, gone, |gone|);
    DeletedShape(cfg, s1, gone, |gone|);
    ConservesTwice(cfg, st, s1, s2);
    RemoveEachBag(st.deleting, gone);
    var s3 := CancelledOnes(s2, back, |back|);
    CancelledKeep(cfg, s2, back, |back|);
    ConservesTwice(cfg, st, s2, s3);
    UpdateStep(cfg, s3);
    ConservesTwice(cfg, st, s3, UpdateAvailable(cfg, s3));
  }

  lemma EndedMembers(st: State, reps: VM -> CleanupReport, v: VM)
    ensures v in Ended(st, reps, Deleted, |st.deleting|)
       <==> v in st.deleting && reps(v).code.Gone? && (v.hostname == "" || reps(v).torque.Absent?)
  {
    EndedIsKeep(st, reps, Deleted, |st.deleting|);
    assert st.deleting[..|st.deleting|] == st.deleting;
    KeepMembers(st.deleting, EndSet(st, reps, Deleted), v);
  }

  lemma TakenOut(books: multiset<VM>, out: seq<VM>, v: VM)
    requires Partition(books) && v in books
    ensures v !in books - multiset(out) <==> v in out
  {
    var bag: multiset<VM> := multiset(out);
    assert books[v] == 1;
    assert v in out <==> bag[v] > 0;
  }

  /** A VM is forgotten exactly when it is gone from the cloud and either Torque has no record of it or it has
      no hostname. */
  lemma ForgottenOnlyWhenGone(cfg: Config, st: State, reps: VM -> CleanupReport, v: VM)
    requires ConfigOk(cfg) && Core(cfg, st) && v in Books(st)
    ensures v !in Books(CleanupMoves(cfg, st, reps))
       <==> v in st.deleting && reps(v).code.Gone? && (v.hostname == "" || reps(v).torque.Absent?)
  {
    CleanupMovesConserve(cfg, st, reps);
    EndedMembers(st, reps, v);
    TakenOut(Books(st), Ended(st, reps, Deleted, |st.deleting|), v);
  }

  lemma CleanupPassKeeps(cfg: Config, st: State, reps: VM -> CleanupReport, started: seq<VM>)
    requires ConfigOk(cfg) && Inv(cfg, st)
    requires st.deleting != [] && CleanupLaunches(CleanupMoves(cfg, st, reps)) ==>
               Startable(cfg, CleanupMoves(cfg, st, reps), started)
    ensures Conserves(cfg, st, CleanupPass(cfg, st, reps, started))
    ensures FlagOk(CleanupPass(cfg, st, reps, started))
  {
    if st.deleting != [] {
      CleanupMovesExactly(cfg, st, reps);
      CleanupMovesConserve(cfg, st, reps);
      var s := CleanupMoves(cfg, st, reps);
      if CleanupLaunches(s) {
        LaunchStep(cfg, s, started);
        ConservesTwice(cfg, st, s, Launch(cfg, s, started));
        assert MayLaunch(cfg, s);
      }
    }
  }
}
