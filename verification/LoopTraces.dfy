/** The loops of ResourceCenter.dfy go through the states that Lifecycle.dfy describes as folds. A trace lists
    those states, one for each element that has been dealt with; its steps are stated one by one. */
module LoopTraces {
  import opened Sequences
  import opened CloudTools
  import opened Lifecycle
  import opened LifecycleInvariant
  import opened LifecycleLaws
  import opened CleanupLaws
  import opened Loading
  import LoadLaws

  /** The VMs of the lists are on record, and their resources are configured. */
  lemma OnRecord(cfg: Config, st: State)
    requires Core(cfg, st)
    ensures forall v | v in st.existing || v in st.starting || v in st.deleting ::
              v in st.info && v.resource in cfg.quota
  {
    forall v | v in st.existing || v in st.starting || v in st.deleting
      ensures v in st.info && v.resource in cfg.quota
    {
      OnBooks(st, v);
      assert VmOk(cfg, st.info, v);
    }
  }

  lemma AllCounted(cfg: Config, st: State, avail: map<string, int>)
    requires ConfigOk(cfg) && avail.Keys == cfg.quota.Keys
    requires forall i :: 0 <= i < |cfg.order| ==> avail[cfg.order[i]] == FreeNodes(cfg, st, cfg.order[i])
    ensures avail == UpdateAvailable(cfg, st).avail
  {
    forall r | r in cfg.quota
      ensures avail[r] == FreeNodes(cfg, st, r)
    {
      assert r in cfg.order;
    }
  }

  ghost predicate Once(vms: seq<VM>) {
    forall v | v in vms :: multiset(vms)[v] == 1
  }

  /** The fate of a VM does not depend on the VMs looked at before it. */
  lemma SameFate(cfg: Config, st: State, reps: StartReports, k: nat)
    requires Once(st.starting) && k < |st.starting|
    ensures InfoOf(Inspected(cfg, st, reps, k), st.starting[k]) == InfoOf(st, st.starting[k])
  {
    InspectedInfo(cfg, st, reps, k, st.starting[k]);
    NotBefore(st.starting, k);
  }

  ghost predicate InspectedAt(cfg: Config, st: State, reps: StartReports, trace: seq<State>, k: nat)
    requires |trace| == |st.starting| + 1 && k < |st.starting|
  {
    && trace[k + 1] == InspectOne(cfg, trace[k], st.starting[k], reps)
    && InfoOf(trace[k], st.starting[k]) == InfoOf(st, st.starting[k])
  }

  lemma InspectTrace(cfg: Config, st: State, reps: StartReports) returns (trace: seq<State>)
    requires Once(st.starting)
    ensures var n := |st.starting|; |trace| == n + 1 && trace[0] == st && trace[n] == Inspected(cfg, st, reps, n)
    ensures forall k: nat | k < |st.starting| :: InspectedAt(cfg, st, reps, trace, k)
  {
    trace := seq(|st.starting| + 1, k requires 0 <= k <= |st.starting| => Inspected(cfg, st, reps, k));
    forall k: nat | k < |st.starting|
      ensures InspectedAt(cfg, st, reps, trace, k)
    {
      SameFate(cfg, st, reps, k);
    }
  }

  ghost predicate ReadiedAt(cfg: Config, trace: seq<State>, vms: seq<VM>, k: nat)
    requires |trace| == |vms| + 1 && k < |vms|
  {
    trace[k + 1] == ReadyOne(cfg, trace[k], vms[k]) && vms[k] in trace[k].starting
  }

  lemma ReadyTrace(cfg: Config, st: State, vms: seq<VM>) returns (trace: seq<State>)
    requires multiset(vms) <= multiset(st.starting)
    ensures |trace| == |vms| + 1 && trace[0] == st && trace[|vms|] == Readied(cfg, st, vms, |vms|)
    ensures forall k: nat | k < |vms| :: ReadiedAt(cfg, trace, vms, k)
  {
    trace := seq(|vms| + 1, k requires 0 <= k <= |vms| => Readied(cfg, st, vms, k));
    forall k: nat | k < |vms|
      ensures ReadiedAt(cfg, trace, vms, k)
    {
      NextToReady(cfg, st, vms, k);
    }
  }

  lemma NextToReady(cfg: Config, st: State, vms: seq<VM>, k: nat)
    requires multiset(vms) <= multiset(st.starting) && k < |vms|
    ensures vms[k] in Readied(cfg, st, vms, k).starting
  {
    ReadiedShape(cfg, st, vms, k);
    StillThere(st.starting, vms, k);
  }

  ghost predicate FailedAt(reps: StartReports, trace: seq<State>, vms: seq<VM>, k: nat)
    requires |trace| == |vms| + 1 && k < |vms|
  {
    trace[k + 1] == FailOne(trace[k], vms[k], reps.of(vms[k]).accepted) && vms[k] in trace[k].starting
  }

  lemma FailTrace(st: State, reps: StartReports, vms: seq<VM>) returns (trace: seq<State>)
    requires multiset(vms) <= multiset(st.starting)
    ensures |trace| == |vms| + 1 && trace[0] == st && trace[|vms|] == FailedOnes(st, reps, vms, |vms|)
    ensures forall k: nat | k < |vms| :: FailedAt(reps, trace, vms, k)
  {
    trace := seq(|vms| + 1, k requires 0 <= k <= |vms| => FailedOnes(st, reps, vms, k));
    forall k: nat | k < |vms|
      ensures FailedAt(reps, trace, vms, k)
    {
      NextToFail(st, reps, vms, k);
    }
  }

  lemma NextToFail(st: State, reps: StartReports, vms: seq<VM>, k: nat)
    requires multiset(vms) <= multiset(st.starting) && k < |vms|
    ensures vms[k] in FailedOnes(st, reps, vms, k).starting
  {
    FailedShape(st, reps, vms, k);
    StillThere(st.starting, vms, k);
  }

  /** What vm_check writes does not matter to the fate. */
  lemma SameCleanupFate(cfg: Config, v: VM, i: Info, r: CleanupReport)
    ensures CleanupFateOf(v, Checked(cfg, i, r.code, r.status), r) == CleanupFateOf(v, i, r)
  {
  }

  ghost predicate SweptAt(cfg: Config, st: State, reps: VM -> CleanupReport, trace: seq<State>, k: nat)
    requires |trace| == |st.deleting| + 1 && k < |st.deleting|
  {
    && trace[k + 1] == SweepOne(cfg, trace[k], st.deleting[k], reps(st.deleting[k]))
    && InfoOf(trace[k], st.deleting[k]) == InfoOf(st, st.deleting[k])
  }

  lemma SweepTrace(cfg: Config, st: State, reps: VM -> CleanupReport) returns (trace: seq<State>)
    requires Once(st.deleting)
    ensures var n := |st.deleting|; |trace| == n + 1 && trace[0] == st && trace[n] == Swept(cfg, st, reps, n)
    ensures forall k: nat | k < |st.deleting| :: SweptAt(cfg, st, reps, trace, k)
  {
    trace := seq(|st.deleting| + 1, k requires 0 <= k <= |st.deleting| => Swept(cfg, st, reps, k));
    forall k: nat | k < |st.deleting|
      ensures SweptAt(cfg, st, reps, trace, k)
    {
      NotBefore(st.deleting, k);
      SweptElsewhere(cfg, st, reps, k, st.deleting[k]);
    }
  }

  ghost predicate DeletedAt(cfg: Config, trace: seq<State>, vms: seq<VM>, k: nat)
    requires |trace| == |vms| + 1 && k < |vms|
  {
    trace[k + 1] == DeleteOne(cfg, trace[k], vms[k]) && vms[k] in trace[k].deleting
  }

  lemma DeleteTrace(cfg: Config, st: State, vms: seq<VM>) returns (trace: seq<State>)
    requires multiset(vms) <= multiset(st.deleting)
    ensures |trace| == |vms| + 1 && trace[0] == st && trace[|vms|] == DeletedOnes(cfg, st, vms, |vms|)
    ensures forall k: nat | k < |vms| :: DeletedAt(cfg, trace, vms, k)
  {
    trace := seq(|vms| + 1, k requires 0 <= k <= |vms| => DeletedOnes(cfg, st, vms, k));
    forall k: nat | k < |vms|
      ensures DeletedAt(cfg, trace, vms, k)
    {
      NextToDelete(cfg, st, vms, k);
    }
  }

  lemma NextToDelete(cfg: Config, st: State, vms: seq<VM>, k: nat)
    requires multiset(vms) <= multiset(st.deleting) && k < |vms|
    ensures vms[k] in DeletedOnes(cfg, st, vms, k).deleting
  {
    DeletedShape(cfg, st, vms, k);
    StillThere(st.deleting, vms, k);
  }

  ghost predicate CancelledAt(trace: seq<State>, vms: seq<VM>, k: nat)
    requires |trace| == |vms| + 1 && k < |vms|
  {
    trace[k + 1] == CancelOne(trace[k], vms[k]) && vms[k] in trace[k].deleting
  }

  lemma CancelTrace(st: State, vms: seq<VM>) returns (trace: seq<State>)
    requires multiset(vms) <= multiset(st.deleting)
    ensures |trace| == |vms| + 1 && trace[0] == st && trace[|vms|] == CancelledOnes(st, vms, |vms|)
    ensures forall k: nat | k < |vms| :: CancelledAt(trace, vms, k)
  {
    trace := seq(|vms| + 1, k requires 0 <= k <= |vms| => CancelledOnes(st, vms, k));
    forall k: nat | k < |vms|
      ensures CancelledAt(trace, vms, k)
    {
      NextToCancel(st, vms, k);
    }
  }

  lemma NextToCancel(st: State, vms: seq<VM>, k: nat)
    requires multiset(vms) <= multiset(st.deleting) && k < |vms|
    ensures vms[k] in CancelledOnes(st, vms, k).deleting
  {
    CancelledShape(st, vms, k);
    StillThere(st.deleting, vms, k);
  }

  ghost predicate CheckedAt(cfg: Config, trace: seq<State>, nodes: seq<WorkerNode>, reps: NodeReports, k: nat)
    requires |trace| == |nodes| + 1 && k < |nodes|
  {
    trace[k + 1] == CheckNode(cfg, trace[k], nodes[k], reps)
  }

  lemma NodeTrace(cfg: Config, st: State, reps: NodeReports) returns (trace: seq<State>)
    ensures var n := |st.workerNodes|; |trace| == n + 1 && trace[0] == st && trace[n] == CheckedNodes(cfg, st, reps, n)
    ensures forall k: nat | k < |st.workerNodes| :: CheckedAt(cfg, trace, st.workerNodes, reps, k)
  {
    trace := seq(|st.workerNodes| + 1, k requires 0 <= k <= |st.workerNodes| => CheckedNodes(cfg, st, reps, k));
  }

  ghost predicate ForcedAt(trace: seq<State>, vms: seq<VM>, accepted: VM -> bool, k: nat)
    requires |trace| == |vms| + 1 && k < |vms|
  {
    trace[k + 1] == ForceOne(trace[k], vms[k], accepted(vms[k]))
  }

  lemma ForceTrace(st: State, accepted: VM -> bool) returns (trace: seq<State>)
    ensures var n := |st.existing|; |trace| == n + 1 && trace[0] == st && trace[n] == ForcedOff(st, accepted, n)
    ensures forall k: nat | k < |st.existing| :: ForcedAt(trace, st.existing, accepted, k)
  {
    trace := seq(|st.existing| + 1, k requires 0 <= k <= |st.existing| => ForcedOff(st, accepted, k));
  }

  ghost predicate DestroyedAt(trace: seq<State>, vms: seq<VM>, accepted: VM -> bool, k: nat)
    requires |trace| == |vms| + 1 && k < |vms|
  {
    trace[k + 1] == Destroy(trace[k], vms[k], accepted(vms[k]))
  }

  lemma DestroyTrace(st: State, vms: seq<VM>, accepted: VM -> bool) returns (trace: seq<State>)
    ensures |trace| == |vms| + 1 && trace[0] == st && trace[|vms|] == DestroyedAll(st, vms, accepted, |vms|)
    ensures forall k: nat | k < |vms| :: DestroyedAt(trace, vms, accepted, k)
  {
    trace := seq(|vms| + 1, k requires 0 <= k <= |vms| => DestroyedAll(st, vms, accepted, k));
  }

  lemma {:induction false} ForcedSame(st: State, accepted: VM -> bool, k: nat)
    requires k <= |st.existing|
    ensures var s := ForcedOff(st, accepted, k); s == st.(info := s.info, destroyed := s.destroyed)
  {
    if k > 0 {
      ForcedSame(st, accepted, k - 1);
    }
  }

  lemma ForcedLists(st: State, accepted: VM -> bool)
    ensures var s := ForcedOff(st, accepted, |st.existing|); s == st.(info := s.info, destroyed := s.destroyed)
  {
    ForcedSame(st, accepted, |st.existing|);
  }

  lemma {:induction false} DestroyedSame(st: State, vms: seq<VM>, accepted: VM -> bool, k: nat)
    requires k <= |vms|
    ensures var s := DestroyedAll(st, vms, accepted, k); s == st.(info := s.info, destroyed := s.destroyed)
  {
    if k > 0 {
      DestroyedSame(st, vms, accepted, k - 1);
    }
  }

  lemma DestroyedLists(st: State, vms: seq<VM>, accepted: VM -> bool)
    ensures var s := DestroyedAll(st, vms, accepted, |vms|); s == st.(info := s.info, destroyed := s.destroyed)
  {
    DestroyedSame(st, vms, accepted, |vms|);
  }

  lemma FatedAreStarting(cfg: Config, st: State, reps: StartReports, fate: StartFate)
    ensures forall v | v in Fated(cfg, st, reps, fate, |st.starting|) :: v in st.starting
  {
    WholePrefix(st.starting);
    FatedIsKeep(cfg, st, reps, fate, |st.starting|);
    forall v | v in Fated(cfg, st, reps, fate, |st.starting|)
      ensures v in st.starting
    {
      KeepMembers(st.starting, FateSet(cfg, st, reps, fate), v);
    }
  }

  /** The VMs that a pass has sorted out are different ones of the list. */
  ghost predicate SortedOut(vms: seq<VM>, ready: seq<VM>, failed: seq<VM>) {
    && multiset(ready) + multiset(failed) <= multiset(vms)
    && (forall v | v in ready :: v in vms) && (forall v | v in failed :: v in vms)
  }

  lemma FatesSortedOut(cfg: Config, st: State, reps: StartReports)
    ensures var n := |st.starting|;
            SortedOut(st.starting, Fated(cfg, st, reps, ReadyToUse, n), Fated(cfg, st, reps, ToDelete, n))
    ensures Inspected(cfg, st, reps, |st.starting|).starting == st.starting
  {
    FatesFit(cfg, st, reps);
    InspectedShape(cfg, st, reps, |st.starting|);
    FatedAreStarting(cfg, st, reps, ReadyToUse);
    FatedAreStarting(cfg, st, reps, ToDelete);
  }

  lemma RestAfterReady(cfg: Config, st: State, ready: seq<VM>, failed: seq<VM>)
    requires SortedOut(st.starting, ready, failed)
    ensures multiset(ready) <= multiset(st.starting)
    ensures var s := Readied(cfg, st, ready, |ready|);
            && multiset(failed) <= multiset(s.starting)
            && s.existing == st.existing + ready && s.deleting == st.deleting
  {
    ReadiedShape(cfg, st, ready, |ready|);
    WholePrefix(ready);
    RemoveEachBag(st.starting, ready);
  }

  lemma RestAfterFailed(st: State, reps: StartReports, failed: seq<VM>)
    ensures var s := FailedOnes(st, reps, failed, |failed|);
            s.existing == st.existing && s.deleting == st.deleting + failed
  {
    FailedShape(st, reps, failed, |failed|);
    WholePrefix(failed);
  }

  lemma DeletingOnce(st: State)
    requires Partition(Books(st))
    ensures Once(st.deleting)
  {
    forall w | w in st.deleting
      ensures multiset(st.deleting)[w] == 1
    {
      OnBooks(st, w);
      OnceOnBooks(st, w);
    }
  }

  lemma EndedAreDeleting(st: State, reps: VM -> CleanupReport, fate: CleanupFate)
    ensures forall v | v in Ended(st, reps, fate, |st.deleting|) :: v in st.deleting
  {
    WholePrefix(st.deleting);
    EndedIsKeep(st, reps, fate, |st.deleting|);
    forall v | v in Ended(st, reps, fate, |st.deleting|)
      ensures v in st.deleting
    {
      KeepMembers(st.deleting, EndSet(st, reps, fate), v);
    }
  }

  lemma EndsSortedOut(cfg: Config, st: State, reps: VM -> CleanupReport)
    ensures var n := |st.deleting|; SortedOut(st.deleting, Ended(st, reps, Deleted, n), Ended(st, reps, Cancelled, n))
    ensures Swept(cfg, st, reps, |st.deleting|).deleting == st.deleting
  {
    EndsFit(st, reps);
    SweptShape(cfg, st, reps, |st.deleting|);
    EndedAreDeleting(st, reps, Deleted);
    EndedAreDeleting(st, reps, Cancelled);
  }

  lemma RestAfterDeleted(cfg: Config, st: State, gone: seq<VM>, back: seq<VM>)
    requires SortedOut(st.deleting, gone, back)
    ensures multiset(gone) <= multiset(st.deleting)
    ensures var s := DeletedOnes(cfg, st, gone, |gone|);
            && multiset(back) <= multiset(s.deleting)
            && s.existing == st.existing && (forall v | v in s.deleting :: v in st.deleting)
  {
    DeletedShape(cfg, st, gone, |gone|);
    WholePrefix(gone);
    RemoveEachBag(st.deleting, gone);
    RemoveEachMembers(st.deleting, gone);
  }

  lemma RestAfterCancelled(st: State, back: seq<VM>)
    ensures var s := CancelledOnes(st, back, |back|);
            s.existing == st.existing + back && (forall v | v in s.deleting :: v in st.deleting)
  {
    CancelledShape(st, back, |back|);
    WholePrefix(back);
    RemoveEachMembers(st.deleting, back);
  }

  // ----- what launch_instances collects -----

  ghost function DynamicSet(w: seq<ProvisionVM>): set<ProvisionVM> {
    set p | p in w && !p.isStatic
  }

  /** The requests to remove when n VMs were started and k requests looked at. */
  ghost function Collected(w: seq<ProvisionVM>, n: nat, k: nat): seq<ProvisionVM>
    requires n <= k <= |w|
  {
    w[..n] + Keep(w[n..k], DynamicSet(w))
  }

  lemma CollectedNext(w: seq<ProvisionVM>, n: nat, k: nat)
    requires n <= k < |w|
    ensures Collected(w, n, k + 1) == Collected(w, n, k) + if w[k].isStatic then [] else [w[k]]
    ensures n == k ==> Collected(w, n + 1, k + 1) == Collected(w, n, k) + [w[k]]
  {
    assert w[n..k + 1][..k - n] == w[n..k];
    assert w[n..n] == [] && w[n + 1..n + 1] == [];
    assert w[k] in w;
  }

  /** Where the loop is: k requests have been looked at, and as many VMs started as there were slots, or one for
      each request. */
  ghost predicate LaunchedUpTo(w: seq<ProvisionVM>, slots: int, started: seq<VM>, done: seq<ProvisionVM>, k: nat) {
    && |started| <= k <= |w| && |started| <= slots && (|started| < slots ==> k == |started|)
    && (forall i :: 0 <= i < |started| ==> started[i].resource == w[i].resource)
    && done == Collected(w, |started|, k)
  }

  /** The new VMs are all different, and recorded as new. */
  ghost predicate Added(before: map<VM, Info>, records: map<VM, Info>, started: seq<VM>) {
    && NoDup(started) && (forall v | v in started :: v !in before)
    && records == before + (map v | v in started :: FRESH)
  }

  lemma AddedNext(before: map<VM, Info>, records: map<VM, Info>, started: seq<VM>, v: VM)
    requires Added(before, records, started) && v !in records
    ensures Added(before, records[v := FRESH], started + [v])
  {
  }

  lemma NothingStarted(w: seq<ProvisionVM>, slots: int, started: seq<VM>, done: seq<ProvisionVM>, k: nat)
    requires LaunchedUpTo(w, slots, started, done, k) && k < |w| && |started| == slots
    ensures LaunchedUpTo(w, slots, started, if w[k].isStatic then done else done + [w[k]], k + 1)
  {
    CollectedNext(w, |started|, k);
  }

  lemma OneStarted(w: seq<ProvisionVM>, slots: int, started: seq<VM>, done: seq<ProvisionVM>, k: nat, v: VM)
    requires LaunchedUpTo(w, slots, started, done, k) && k < |w| && |started| < slots && v.resource == w[k].resource
    ensures LaunchedUpTo(w, slots, started + [v], done + [w[k]], k + 1)
  {
    CollectedNext(w, |started|, k);
  }

  lemma CollectedFit(w: seq<ProvisionVM>, n: nat, k: nat)
    requires n <= k <= |w|
    ensures multiset(Collected(w, n, k)) <= multiset(w)
  {
    assert w == w[..n] + w[n..k] + w[k..];
    KeepSplits(w[n..k], DynamicSet(w));
  }

  /** Removing them leaves the requests that were not started, and only static ones when the batch is full. */
  lemma CollectedLeaves(w: seq<ProvisionVM>, n: nat, k: nat, full: bool)
    requires n <= k <= |w| && (if full then k == |w| else n == k)
    ensures RemoveEach(w, Collected(w, n, k)) == LeftWaiting(w, n, full)
  {
    RemoveEachTwice(w, w[..n], Keep(w[n..k], DynamicSet(w)));
    RemovePrefix(w, n);
    if full {
      assert w[n..k] == w[n..];
      RemoveCollected(w[n..], DynamicSet(w));
      forall p | p in w[n..]
        ensures p in DynamicSet(w) <==> p !in StaticSet(w[n..])
      {
        assert p in w;
      }
      DropIsKeep(w[n..], DynamicSet(w), StaticSet(w[n..]));
    } else {
      assert w[n..k] == [];
    }
  }

  ghost predicate RemovedAt<T>(trace: seq<seq<T>>, xs: seq<T>, k: nat)
    requires |trace| == |xs| + 1 && k < |xs|
  {
    xs[k] in trace[k] && trace[k + 1] == RemoveFirst(trace[k], xs[k])
  }

  lemma RemoveTrace<T>(w: seq<T>, xs: seq<T>) returns (trace: seq<seq<T>>)
    requires multiset(xs) <= multiset(w)
    ensures |trace| == |xs| + 1 && trace[0] == w && trace[|xs|] == RemoveEach(w, xs)
    ensures forall k: nat | k < |xs| :: RemovedAt(trace, xs, k)
  {
    trace := seq(|xs| + 1, k requires 0 <= k <= |xs| => RemoveEach(w, xs[..k]));
    assert xs[..|xs|] == xs;
    forall k: nat | k < |xs|
      ensures RemovedAt(trace, xs, k)
    {
      RemoveNext(w, xs, k);
    }
  }

  lemma RemoveNext<T>(w: seq<T>, xs: seq<T>, k: nat)
    requires multiset(xs) <= multiset(w) && k < |xs|
    ensures xs[k] in RemoveEach(w, xs[..k])
    ensures RemoveEach(w, xs[..k + 1]) == RemoveFirst(RemoveEach(w, xs[..k]), xs[k])
  {
    RemoveEachBag(w, xs[..k]);
    assert xs == xs[..k] + [xs[k]] + xs[k + 1..];
    assert multiset(RemoveEach(w, xs[..k]))[xs[k]] > 0;
    assert xs[..k + 1][..k] == xs[..k];
  }

  // ----- loading -----

  ghost predicate GoneOnAt(trace: seq<State>, vms: seq<VM>, k: nat)
    requires |trace| == |vms| + 1 && k < |vms|
  {
    trace[k + 1] == GoOnOne(trace[k], vms[k]) && vms[k] in trace[k].existing
  }

  lemma GoOnTrace(st: State, vms: seq<VM>) returns (trace: seq<State>)
    requires multiset(vms) <= multiset(st.existing)
    ensures |trace| == |vms| + 1 && trace[0] == st && trace[|vms|] == GoneOn(st, vms, |vms|)
    ensures forall k: nat | k < |vms| :: GoneOnAt(trace, vms, k)
  {
    trace := seq(|vms| + 1, k requires 0 <= k <= |vms| => GoneOn(st, vms, k));
    forall k: nat | k < |vms|
      ensures GoneOnAt(trace, vms, k)
    {
      NextToGoOn(st, vms, k);
    }
  }

  lemma NextToGoOn(st: State, vms: seq<VM>, k: nat)
    requires multiset(vms) <= multiset(st.existing) && k < |vms|
    ensures vms[k] in GoneOn(st, vms, k).existing
  {
    LoadLaws.GoneOnShape(st, vms, k);
    StillThere(st.existing, vms, k);
  }

  /** The two states agree on which VMs of the list are idle dynamic ones. */
  ghost predicate SameMarks(a: State, b: State, among: seq<VM>) {
    a.workerNodes == b.workerNodes && forall v | v in among :: InfoOf(a, v).dynamic == InfoOf(b, v).dynamic
  }

  ghost predicate GivenUpAt(trace: seq<State>, vms: seq<VM>, accepted: VM -> bool, k: nat)
    requires |trace| == |vms| + 1 && k < |vms|
  {
    trace[k + 1] == DestroyOne(trace[k], vms[k], accepted(vms[k])) && vms[k] in trace[k].existing
  }

  lemma GiveUpTrace(st: State, vms: seq<VM>, accepted: VM -> bool, among: seq<VM>) returns (trace: seq<State>)
    requires multiset(vms) <= multiset(st.existing)
    ensures |trace| == |vms| + 1 && trace[0] == st && trace[|vms|] == DestroyedOnes(st, vms, accepted, |vms|)
    ensures forall k: nat | k < |vms| :: GivenUpAt(trace, vms, accepted, k)
    ensures forall k: nat | k <= |vms| :: SameMarks(st, trace[k], among)
  {
    trace := seq(|vms| + 1, k requires 0 <= k <= |vms| => DestroyedOnes(st, vms, accepted, k));
    forall k: nat | k < |vms|
      ensures GivenUpAt(trace, vms, accepted, k)
    {
      NextToGiveUp(st, vms, accepted, k);
    }
    forall k: nat | k <= |vms|
      ensures SameMarks(st, trace[k], among)
    {
      GivenUpMarks(st, vms, accepted, k, among);
    }
  }

  lemma NextToGiveUp(st: State, vms: seq<VM>, accepted: VM -> bool, k: nat)
    requires multiset(vms) <= multiset(st.existing) && k < |vms|
    ensures vms[k] in DestroyedOnes(st, vms, accepted, k).existing
  {
    LoadLaws.DestroyedShape(st, vms, accepted, k);
    StillThere(st.existing, vms, k);
  }

  lemma GivenUpMarks(st: State, vms: seq<VM>, accepted: VM -> bool, k: nat, among: seq<VM>)
    requires k <= |vms|
    ensures SameMarks(st, DestroyedOnes(st, vms, accepted, k), among)
  {
    LoadLaws.DestroyedShape(st, vms, accepted, k);
    forall v | v in among
      ensures InfoOf(st, v).dynamic == InfoOf(DestroyedOnes(st, vms, accepted, k), v).dynamic
    {
      LoadLaws.DestroyedDynamic(st, vms, accepted, k, v);
    }
  }

  lemma SameIdle(a: State, b: State, among: seq<VM>, v: VM)
    requires SameMarks(a, b, among) && v in among
    ensures IsIdleDynamic(a, v) == IsIdleDynamic(b, v)
  {
  }

  /** How the trimming of vms goes on when all but the first i + 1 have been looked at; c counts the victims. */
  ghost predicate TrimAt(st: State, vms: seq<VM>, excess: int, victims: seq<VM>, c: seq<nat>, i: nat)
    requires |c| == |vms| + 1 && i < |vms|
  {
    c[i + 1] < excess ==>
      if IsIdleDynamic(st, vms[i]) then c[i + 1] < |victims| && victims[c[i + 1]] == vms[i] && c[i] == c[i + 1] + 1
      else c[i] == c[i + 1]
  }

  ghost predicate TrimEnds(vms: seq<VM>, excess: int, victims: seq<VM>, c: seq<nat>, i: nat)
    requires |c| == |vms| + 1 && i <= |vms|
  {
    c[i] <= |victims| && (i == 0 || c[i] >= excess ==> c[i] == |victims|)
  }

  lemma {:induction false} TrimPlan(st: State, vms: seq<VM>, excess: int) returns (c: seq<nat>)
    ensures |c| == |vms| + 1 && c[|vms|] == 0
    ensures forall i: nat | i < |vms| :: TrimAt(st, vms, excess, Victims(st, vms, excess), c, i)
    ensures forall i: nat | i <= |vms| :: TrimEnds(vms, excess, Victims(st, vms, excess), c, i)
  {
    if excess <= 0 || vms == [] {
      c := seq(|vms| + 1, i => 0);
    } else {
      var n := |vms| - 1;
      var idle := IsIdleDynamic(st, vms[n]);
      var less := if idle then 1 else 0;
      var b := TrimPlan(st, vms[..n], excess - less);
      c := seq(n + 1, i requires 0 <= i <= n => b[i] + less) + [0];
      forall i: nat | i < |vms|
        ensures TrimAt(st, vms, excess, Victims(st, vms, excess), c, i)
      {
        if i < n {
          assert TrimAt(st, vms[..n], excess - less, Victims(st, vms[..n], excess - less), b, i);
        } else {
          assert TrimEnds(vms[..n], excess - less, Victims(st, vms[..n], excess - less), b, n);
        }
      }
      forall i: nat | i <= |vms|
        ensures TrimEnds(vms, excess, Victims(st, vms, excess), c, i)
      {
        if i <= n {
          assert TrimEnds(vms[..n], excess - less, Victims(st, vms[..n], excess - less), b, i);
        }
      }
    }
  }

  /** A trimming loop: the victims in order, how many of them are taken when i VMs are left to look at, and the
      states in between. */
  datatype TrimRun = TrimRun(excess: int, victims: seq<VM>, count: seq<nat>, trace: seq<State>)

  ghost predicate Follows(run: TrimRun, st: State, vms: seq<VM>, accepted: VM -> bool) {
    && |run.count| == |vms| + 1 && run.count[|vms|] == 0
    && |run.trace| == |run.victims| + 1 && run.trace[0] == st
    && (forall v | v in run.victims :: v in vms)
    && (forall i: nat | i < |vms| :: TrimAt(st, vms, run.excess, run.victims, run.count, i))
    && (forall i: nat | i <= |vms| :: TrimEnds(vms, run.excess, run.victims, run.count, i))
    && (forall k: nat | k < |run.victims| :: GivenUpAt(run.trace, run.victims, accepted, k))
    && (forall k: nat | k <= |run.victims| :: SameMarks(st, run.trace[k], vms))
  }

  ghost function AfterTrim(run: TrimRun, r: string): State
    requires |run.trace| == |run.victims| + 1
  {
    var s := run.trace[|run.victims|];
    s.(avail := s.avail[r := |run.victims| - run.excess])
  }

  lemma TrimTrace(cfg: Config, st: State, vms: seq<VM>, r: string, rep: LoadReport) returns (run: TrimRun)
    requires multiset(vms) <= multiset(st.existing)
    ensures Follows(run, st, vms, rep.accepted) && run.excess == Excess(cfg, st, vms, r)
    ensures Trimmed(cfg, st, vms, r, rep) == AfterTrim(run, r)
  {
    var excess := Excess(cfg, st, vms, r);
    var victims := Victims(st, vms, excess);
    LoadLaws.TrimsExactly(st, vms, excess);
    var c := TrimPlan(st, vms, excess);
    var trace := GiveUpTrace(st, victims, rep.accepted, vms);
    run := TrimRun(excess, victims, c, trace);
  }

  ghost predicate MarkedAt(cfg: Config, trace: seq<State>, vms: seq<VM>, rep: LoadReport, k: nat)
    requires |trace| == |vms| + 1 && k < |vms|
  {
    trace[k + 1] == MarkIfBase(cfg, trace[k], vms[k], rep)
  }

  lemma MarkTrace(cfg: Config, st: State, vms: seq<VM>, rep: LoadReport) returns (trace: seq<State>)
    ensures |trace| == |vms| + 1 && trace[0] == st && trace[|vms|] == Marked(cfg, st, vms, rep, |vms|)
    ensures forall k: nat | k < |vms| :: MarkedAt(cfg, trace, vms, rep, k)
  {
    trace := seq(|vms| + 1, k requires 0 <= k <= |vms| => Marked(cfg, st, vms, rep, k));
  }

  ghost predicate LoadedAt(cfg: Config, trace: seq<State>, rep: LoadReport, k: nat)
    requires |trace| == |cfg.order| + 1 && k < |cfg.order|
  {
    trace[k + 1] == LoadResource(cfg, trace[k], cfg.order[k], rep)
  }

  lemma LoadTrace(cfg: Config, st: State, rep: LoadReport) returns (trace: seq<State>)
    ensures var n := |cfg.order|; |trace| == n + 1 && trace[0] == st && trace[n] == LoadedResources(cfg, st, rep, n)
    ensures forall k: nat | k < |cfg.order| :: LoadedAt(cfg, trace, rep, k)
  {
    trace := seq(|cfg.order| + 1, k requires 0 <= k <= |cfg.order| => LoadedResources(cfg, st, rep, k));
  }

  /** Trimming only moves VMs of the list. */
  lemma TrimmedLists(cfg: Config, st: State, vms: seq<VM>, r: string, rep: LoadReport)
    ensures var s := Trimmed(cfg, st, vms, r, rep);
            && (forall v | v in s.existing :: v in st.existing)
            && (forall v | v in s.deleting :: v in st.deleting || v in vms)
  {
    var victims := Victims(st, vms, Excess(cfg, st, vms, r));
    LoadLaws.TrimsExactly(st, vms, Excess(cfg, st, vms, r));
    LoadLaws.DestroyedShape(st, victims, rep.accepted, |victims|);
    WholePrefix(victims);
    RemoveEachMembers(st.existing, victims);
  }

  lemma GoneOnLists(st: State, vms: seq<VM>)
    ensures var s := GoneOn(st, vms, |vms|);
            s.existing == RemoveEach(st.existing, vms) && s.deleting == st.deleting
            && (forall v | v in s.existing :: v in st.existing)
  {
    LoadLaws.GoneOnShape(st, vms, |vms|);
    WholePrefix(vms);
    RemoveEachMembers(st.existing, vms);
  }

  lemma GivenUpLists(st: State, vms: seq<VM>, accepted: VM -> bool)
    ensures var s := DestroyedOnes(st, vms, accepted, |vms|);
            (forall v | v in s.existing :: v in st.existing) && s.deleting == st.deleting + vms
            && s.deficit == st.deficit
  {
    LoadLaws.DestroyedShape(st, vms, accepted, |vms|);
    WholePrefix(vms);
    RemoveEachMembers(st.existing, vms);
  }

  /** The VMs sorted out at loading are different existing ones. */
  lemma JudgedSortedOut(vms: seq<VM>, rep: LoadReport)
    ensures SortedOut(vms, Judged(vms, rep, GoesOn, |vms|), Judged(vms, rep, IsDestroyed, |vms|))
  {
    LoadLaws.JudgedFit(vms, rep);
    WholePrefix(vms);
    LoadLaws.JudgedIsKeep(vms, rep, IsDestroyed, |vms|);
    forall v | v in Judged(vms, rep, IsDestroyed, |vms|)
      ensures v in vms
    {
      KeepMembers(vms, LoadLaws.JudgedSet(vms, rep, IsDestroyed), v);
    }
  }

  lemma RestAfterGoneOn(st: State, on: seq<VM>, off: seq<VM>)
    requires SortedOut(st.existing, on, off)
    ensures multiset(on) <= multiset(st.existing)
    ensures multiset(off) <= multiset(GoneOn(st, on, |on|).existing)
  {
    GoneOnLists(st, on);
    RemoveEachBag(st.existing, on);
  }
}
