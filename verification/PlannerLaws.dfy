/** What a whole plan promises: every admitted job is served in full, nothing overflows, no job is turned away
    that could still be served, and the number of nodes is bounded. */
module PlannerLaws {
  import opened Outcomes
  import opened Sequences
  import opened CloudTools
  import opened Priorities
  import opened JobScheduler
  import opened JobRequests
  import opened PackingLaws

  // ----- requests are uniform -----

  ghost predicate AllEqual(s: seq<int>) {
    forall i, j :: 0 <= i < |s| && 0 <= j < |s| ==> s[i] == s[j]
  }

  /** All pieces of a job are equal, so looking at the first one is enough. */
  lemma RequirementIsUniform(job: Job, workerNodes: nat)
    ensures var a := AskOf(job, workerNodes);
            a.Ok? && a.value.Ask? ==> a.value.vcpus != [] && AllEqual(a.value.vcpus)
  {
    if NEEDNODES in job.attrs && NCPUS in job.attrs {
      RepeatIsConstant<int>(CountOr1(job.attrs[NCPUS]), CountOr1(job.attrs[NEEDNODES]));
    }
  }

  lemma {:induction false} SumOfEqual(pieces: seq<Piece>, vcpus: seq<int>, job: nat)
    requires pieces == Pieces(vcpus, job)
    ensures SumPieces(pieces) == Sum(vcpus)
  {
    if vcpus != [] {
      var n := |vcpus| - 1;
      assert pieces[..n] == Pieces(vcpus[..n], job);
      SumOfEqual(pieces[..n], vcpus[..n], job);
      assert vcpus == vcpus[..n] + [vcpus[n]];
      SumAppend(vcpus[..n], [vcpus[n]]);
      assert [vcpus[n]][1..] == [];
    }
  }

  lemma {:induction false} SumAppend(a: seq<int>, b: seq<int>)
    ensures Sum(a + b) == Sum(a) + Sum(b)
  {
    if a == [] {
      assert a + b == b;
    } else {
      assert (a + b)[1..] == a[1..] + b;
      SumAppend(a[1..], b);
    }
  }

  // ----- the largest flavor -----

  lemma CapIsLargest(site: Site)
    requires site.flavors != []
    ensures Ordered(site) != [] && IsLargest(Ordered(site)[0], site.flavors) && Cap(site) == Ordered(site)[0].vcpus
  {
    SortPermutes(site.flavors, FewerVcpus);
    SortSorts(site.flavors, FewerVcpus);
    FirstIsLargest(site.flavors, Ordered(site));
  }

  lemma {:induction false} FirstCoveringCovers(flavors: seq<Flavor>, cores: int)
    requires Sorted(flavors, Vcpus)
    ensures match FirstCovering(flavors, cores)
            case Some(f) => IsSmallestCovering(f, flavors, cores)
            case None => forall f | f in flavors :: f.vcpus < cores
  {
    if flavors != [] {
      assert flavors == [flavors[0]] + flavors[1..];
      assert forall i :: 0 <= i < |flavors| ==> Vcpus(flavors[0]) <= Vcpus(flavors[i]);
      FirstCoveringCovers(flavors[1..], cores);
    }
  }

  lemma SortedTwice(site: Site, f: Flavor)
    ensures f in Sort(Ordered(site), Vcpus) <==> f in site.flavors
  {
    SortPermutes(site.flavors, FewerVcpus);
    SortPermutes(Ordered(site), Vcpus);
    assert f in Sort(Ordered(site), Vcpus) <==> f in multiset(Sort(Ordered(site), Vcpus));
    assert f in site.flavors <==> f in multiset(site.flavors);
  }

  /** Cores that fit the largest flavor get the smallest flavor that covers them: the fallback is not reached. */
  lemma BestFlavorIsSmallest(site: Site, cores: int)
    requires site.flavors != [] && cores <= Cap(site)
    ensures IsSmallestCovering(BestFlavor(site, cores), site.flavors, cores)
  {
    var ascending := Sort(Ordered(site), Vcpus);
    CapIsLargest(site);
    SortSorts(Ordered(site), Vcpus);
    FirstCoveringCovers(ascending, cores);
    SortedTwice(site, Ordered(site)[0]);
    forall f
      ensures f in ascending <==> f in site.flavors
    {
      SortedTwice(site, f);
    }
  }

  // ----- every node is sound -----

  /** The node fits the largest flavor, holds at most one piece of each job, only of jobs before k, and only of
      jobs placed at its location. */
  ghost predicate NodeOk(a: Alloc, cap: int, places: nat -> Option<string>, k: nat) {
    && Total(a) <= cap
    && (forall i :: 0 <= i < |a.pieces| ==> a.pieces[i].job < k && places(a.pieces[i].job) == a.location)
    && (forall i, j :: 0 <= i < j < |a.pieces| ==> a.pieces[i].job != a.pieces[j].job)
  }

  ghost predicate NodesOk(nodes: seq<Alloc>, cap: int, places: nat -> Option<string>, k: nat) {
    forall i :: 0 <= i < |nodes| ==> NodeOk(nodes[i], cap, places, k)
  }

  /** Pieces of job k. */
  ghost predicate AllOfJob(pieces: seq<Piece>, k: nat) {
    forall i :: 0 <= i < |pieces| ==> pieces[i].job == k
  }

  lemma NodesSorted(nodes: seq<Alloc>, cap: int, places: nat -> Option<string>, k: nat)
    requires NodesOk(nodes, cap, places, k)
    ensures NodesOk(Sort(nodes, FewerCores), cap, places, k)
  {
    var s := Sort(nodes, FewerCores);
    SortPermutes(nodes, FewerCores);
    forall i | 0 <= i < |s|
      ensures NodeOk(s[i], cap, places, k)
    {
      assert s[i] in multiset(s);
      assert s[i] in nodes;
    }
  }

  lemma PushOk(a: Alloc, p: Piece, cap: int, places: nat -> Option<string>, k: nat)
    requires NodeOk(a, cap, places, k) && p.job == k && places(k) == a.location && Total(a) + p.cores <= cap
    ensures NodeOk(Push(a, p), cap, places, k + 1)
  {
    assert (a.pieces + [p])[..|a.pieces|] == a.pieces;
  }

  lemma NewNodeOk(p: Piece, cap: int, places: nat -> Option<string>, k: nat)
    requires p.job == k && p.cores <= cap
    ensures NodeOk(NewNode(p, places(k)), cap, places, k + 1)
  {
    SumOne(p);
  }

  lemma PackOk(nodes: seq<Alloc>, pieces: seq<Piece>, cap: int, places: nat -> Option<string>, k: nat)
    requires NodesOk(nodes, cap, places, k) && AllOfJob(pieces, k)
    requires forall i :: 0 <= i < |pieces| ==> pieces[i].cores <= cap
    ensures NodesOk(Pack(nodes, pieces, places(k), cap), cap, places, k + 1)
  {
    var s := Sort(nodes, FewerCores);
    var out := Pack(nodes, pieces, places(k), cap);
    var idx := Taken(s, pieces, places(k), cap, |s|);
    NodesSorted(nodes, cap, places, k);
    PackAt(nodes, pieces, places(k), cap);
    NewNodesAt(pieces[idx..], places(k));
    forall i | 0 <= i < |out|
      ensures NodeOk(out[i], cap, places, k + 1)
    {
      if i < |s| {
        PlacedOk(s, pieces, cap, places, k, i);
      } else {
        assert out[i] == out[|s|..][i - |s|];
        NewNodeOk(pieces[idx..][i - |s|], cap, places, k);
      }
    }
  }

  lemma PlacedOk(s: seq<Alloc>, pieces: seq<Piece>, cap: int, places: nat -> Option<string>, k: nat, i: nat)
    requires i < |s| && NodeOk(s[i], cap, places, k) && AllOfJob(pieces, k)
    ensures NodeOk(Placed(s, pieces, places(k), cap, i), cap, places, k + 1)
  {
    var idx := Taken(s, pieces, places(k), cap, i);
    if idx < |pieces| && Fits(s[i], pieces[idx].cores, places(k), cap) {
      PushOk(s[i], pieces[idx], cap, places, k);
    }
  }

  // ----- every plan is sound -----

  ghost predicate AccountOk(nodes: seq<Alloc>, site: Site, places: nat -> Option<string>, k: nat) {
    NodesOk(nodes, Cap(site), places, k) && SumTotals(nodes) <= FreeCores(site)
  }

  ghost predicate PlanOk(plan: Plan, sites: map<string, Site>, places: nat -> Option<string>, k: nat) {
    && |plan.routes| == k
    && forall a | a in plan.allocs :: a in sites && AccountOk(plan.allocs[a], sites[a], places, k)
  }

  lemma AccountLater(nodes: seq<Alloc>, site: Site, places: nat -> Option<string>, k: nat)
    requires AccountOk(nodes, site, places, k)
    ensures AccountOk(nodes, site, places, k + 1)
  {
    forall i | 0 <= i < |nodes|
      ensures NodeOk(nodes[i], Cap(site), places, k + 1)
    {
      assert NodeOk(nodes[i], Cap(site), places, k);
    }
  }

  /** A resource that admits a job stays within its cores and flavors when it packs it. */
  lemma AdmittedOk(nodes: seq<Alloc>, site: Site, vcpus: seq<int>, places: nat -> Option<string>, k: nat)
    requires NodesOk(nodes, Cap(site), places, k) && vcpus != [] && AllEqual(vcpus)
    requires SumTotals(nodes) + Sum(vcpus) <= FreeCores(site) && vcpus[0] <= Cap(site)
    ensures AccountOk(Pack(nodes, Pieces(vcpus, k), places(k), Cap(site)), site, places, k + 1)
  {
    var pieces := Pieces(vcpus, k);
    SumOfEqual(pieces, vcpus, k);
    PackAddsCores(nodes, pieces, places(k), Cap(site));
    PackOk(nodes, pieces, Cap(site), places, k);
  }

  lemma ConsideredOk(plan: Plan, sites: map<string, Site>, ask: Ask, places: nat -> Option<string>, guarded: bool,
                     k: nat)
    requires SitesOk(sites) && PlanOk(plan, sites, places, k)
    requires ask.Ask? ==> ask.vcpus != [] && AllEqual(ask.vcpus)
    ensures var r := Considered(plan, sites, ask, places(k), guarded);
            r.Ok? ==> PlanOk(r.value, sites, places, k + 1)
  {
    var r := Considered(plan, sites, ask, places(k), guarded);
    forall a | a in plan.allocs
      ensures AccountOk(plan.allocs[a], sites[a], places, k + 1)
    {
      AccountLater(plan.allocs[a], sites[a], places, k);
    }
    if r.Ok? && r.value.allocs != plan.allocs {
      var route := Route(plan.allocs, sites, ask, places(k));
      AdmittedOk(NodesOf(plan.allocs, route.value), sites[route.value], ask.vcpus, places, k);
    }
  }

  lemma {:induction false} PlannedOk(jobs: seq<Job>, workerNodes: nat, sites: map<string, Site>,
                                     places: nat -> Option<string>, guarded: bool, k: nat)
    requires SitesOk(sites) && k <= |jobs|
    ensures var r := Planned(jobs, workerNodes, sites, places, guarded, k);
            r.Ok? ==> PlanOk(r.value, sites, places, k)
  {
    if k > 0 {
      PlannedOk(jobs, workerNodes, sites, places, guarded, k - 1);
      var before := Planned(jobs, workerNodes, sites, places, guarded, k - 1);
      var ask := AskOf(jobs[k - 1], workerNodes);
      if before.Ok? && ask.Ok? {
        RequirementIsUniform(jobs[k - 1], workerNodes);
        ConsideredOk(before.value, sites, ask.value, places, guarded, k - 1);
      }
    }
  }

  // ----- all or nothing -----

  /** The pieces job j asks for, by its attributes: one for each node, with the cores of a node. */
  ghost function Wanted(jobs: seq<Job>, workerNodes: nat, j: nat): seq<Piece>
    requires j < |jobs|
  {
    if !Readable(jobs[j], workerNodes) || IsPassedOver(jobs[j], workerNodes) then []
    else seq(NodesAsked(jobs[j]), (_: nat) => Piece(CoresAsked(jobs[j]), j))
  }

  /** The planner reads just these pieces. */
  lemma WantedIsRead(jobs: seq<Job>, workerNodes: nat, j: nat)
    requires j < |jobs|
    ensures var a := AskOf(jobs[j], workerNodes);
            Wanted(jobs, workerNodes, j) == if a.Ok? && a.value.Ask? then Pieces(a.value.vcpus, j) else []
  {
    ReadExactly(jobs[j], workerNodes);
    if Readable(jobs[j], workerNodes) {
      AsksExactly(jobs[j], workerNodes);
    }
  }

  /** The pieces of all jobs among the first k that went to the resource. */
  ghost function Demanded(jobs: seq<Job>, workerNodes: nat, routes: seq<Option<string>>, account: string, k: nat)
    : multiset<Piece>
    requires k <= |jobs| && k <= |routes|
  {
    if k == 0 then multiset{}
    else
      Demanded(jobs, workerNodes, routes, account, k - 1)
      + if routes[k - 1] == Some(account) then multiset(Wanted(jobs, workerNodes, k - 1)) else multiset{}
  }

  lemma {:induction false} DemandedPrefix(jobs: seq<Job>, workerNodes: nat, a: seq<Option<string>>,
                                          b: seq<Option<string>>, account: string, k: nat)
    requires k <= |jobs| && k <= |a| && k <= |b| && a[..k] == b[..k]
    ensures Demanded(jobs, workerNodes, a, account, k) == Demanded(jobs, workerNodes, b, account, k)
  {
    if k > 0 {
      assert a[..k][..k - 1] == a[..k - 1] && b[..k][..k - 1] == b[..k - 1];
      assert a[..k][k - 1] == b[..k][k - 1];
      DemandedPrefix(jobs, workerNodes, a, b, account, k - 1);
    }
  }

  lemma ConsideredAdds(plan: Plan, sites: map<string, Site>, ask: Ask, location: Option<string>, guarded: bool,
                       account: string)
    requires SitesOk(sites)
    ensures var r := Considered(plan, sites, ask, location, guarded);
            r.Ok? ==>
              && |r.value.routes| == |plan.routes| + 1 && r.value.routes[..|plan.routes|] == plan.routes
              && var route := r.value.routes[|plan.routes|];
                 && (route.Some? ==> ask.Ask?)
                 && Packed(NodesOf(r.value.allocs, account)) == Packed(NodesOf(plan.allocs, account))
                    + if route == Some(account) then multiset(Pieces(ask.vcpus, |plan.routes|)) else multiset{}
  {
    var r := Considered(plan, sites, ask, location, guarded);
    if r.Ok? && r.value.routes[|plan.routes|] == Some(account) {
      PackAddsPieces(NodesOf(plan.allocs, account), Pieces(ask.vcpus, |plan.routes|), location, Cap(sites[account]));
    }
  }

  /** Jobs are placed all or nothing: the nodes of a resource hold exactly the pieces of the jobs that went to it. */
  lemma {:induction false} PackedIsDemanded(jobs: seq<Job>, workerNodes: nat, sites: map<string, Site>,
                                            places: nat -> Option<string>, guarded: bool, account: string, k: nat)
    requires SitesOk(sites) && k <= |jobs|
    ensures var r := Planned(jobs, workerNodes, sites, places, guarded, k);
            r.Ok? ==> |r.value.routes| == k &&
                      Packed(NodesOf(r.value.allocs, account))
                      == Demanded(jobs, workerNodes, r.value.routes, account, k)
  {
    if k > 0 && Planned(jobs, workerNodes, sites, places, guarded, k).Ok? {
      PackedIsDemanded(jobs, workerNodes, sites, places, guarded, account, k - 1);
      DemandedNext(jobs, workerNodes, sites, places, guarded, account, k - 1,
                   Planned(jobs, workerNodes, sites, places, guarded, k - 1).value);
    }
  }

  lemma DemandedNext(jobs: seq<Job>, workerNodes: nat, sites: map<string, Site>, places: nat -> Option<string>,
                     guarded: bool, account: string, k: nat, plan: Plan)
    requires SitesOk(sites) && k < |jobs| && Planned(jobs, workerNodes, sites, places, guarded, k) == Ok(plan)
    requires Planned(jobs, workerNodes, sites, places, guarded, k + 1).Ok? && |plan.routes| == k
    requires Packed(NodesOf(plan.allocs, account)) == Demanded(jobs, workerNodes, plan.routes, account, k)
    ensures var next := Planned(jobs, workerNodes, sites, places, guarded, k + 1).value;
            |next.routes| == k + 1 &&
            Packed(NodesOf(next.allocs, account)) == Demanded(jobs, workerNodes, next.routes, account, k + 1)
  {
    var next := Planned(jobs, workerNodes, sites, places, guarded, k + 1).value;
    var ask := AskOf(jobs[k], workerNodes).value;
    ConsideredAdds(plan, sites, ask, places(k), guarded, account);
    DemandedStep(jobs, workerNodes, plan, next, ask, account, k);
  }

  lemma DemandedStep(jobs: seq<Job>, workerNodes: nat, plan: Plan, next: Plan, ask: Ask, account: string, k: nat)
    requires k < |jobs| && |plan.routes| == k && |next.routes| == k + 1 && next.routes[..k] == plan.routes
    requires AskOf(jobs[k], workerNodes) == Ok(ask) && (next.routes[k].Some? ==> ask.Ask?)
    requires Packed(NodesOf(plan.allocs, account)) == Demanded(jobs, workerNodes, plan.routes, account, k)
    requires Packed(NodesOf(next.allocs, account)) == Packed(NodesOf(plan.allocs, account))
               + if next.routes[k] == Some(account) then multiset(Pieces(ask.vcpus, k)) else multiset{}
    ensures Packed(NodesOf(next.allocs, account)) == Demanded(jobs, workerNodes, next.routes, account, k + 1)
  {
    assert plan.routes[..k] == plan.routes;
    DemandedPrefix(jobs, workerNodes, next.routes, plan.routes, account, k);
    WantedIsRead(jobs, workerNodes, k);
  }

  // ----- sorting the flavors in place -----

  /** Some resources have had their flavors sorted in place. */
  ghost predicate SomeSorted(sites: map<string, Site>, after: map<string, Site>) {
    && after.Keys == sites.Keys
    && forall a | a in sites :: after[a] == sites[a] || after[a] == Site(sites[a].available, Ordered(sites[a]))
  }

  lemma SortedSiteIsSame(site: Site, cores: int)
    requires site.flavors != []
    ensures var after := Site(site.available, Ordered(site));
            && Ordered(after) == Ordered(site) && Cap(after) == Cap(site) && FreeCores(after) == FreeCores(site)
            && after.flavors != [] && BestFlavor(after, cores) == BestFlavor(site, cores)
  {
    SortSorts(site.flavors, FewerVcpus);
    SortLength(site.flavors, FewerVcpus);
    SortedIsFixed(Ordered(site), FewerVcpus);
    SortLength(Ordered(site), Vcpus);
  }

  /** The resources look alike to the planner: same names, largest sizes and free cores. */
  ghost predicate SameSizes(sites: map<string, Site>, after: map<string, Site>) {
    && after.Keys == sites.Keys
    && forall a | a in sites :: Cap(after[a]) == Cap(sites[a]) && FreeCores(after[a]) == FreeCores(sites[a])
  }

  lemma SortedSizes(sites: map<string, Site>, after: map<string, Site>)
    requires SitesOk(sites) && SomeSorted(sites, after)
    ensures SameSizes(sites, after)
  {
    forall a | a in sites
      ensures Cap(after[a]) == Cap(sites[a]) && FreeCores(after[a]) == FreeCores(sites[a])
    {
      SortedSiteIsSame(sites[a], 0);
    }
  }

  lemma SameRoute(allocs: map<string, seq<Alloc>>, sites: map<string, Site>, after: map<string, Site>, ask: Ask,
                  location: Option<string>)
    requires SameSizes(sites, after) && ask.Ask? && ask.vcpus != [] && "default" in sites
    ensures Route(allocs, after, ask, location) == Route(allocs, sites, ask, location)
    ensures var a := Route(allocs, sites, ask, location); a.Some? ==> a.value in sites
  {
  }

  lemma ConsideredSorted(plan: Plan, sites: map<string, Site>, after: map<string, Site>, ask: Ask,
                         location: Option<string>, guarded: bool)
    requires "default" in sites && SameSizes(sites, after)
    ensures Considered(plan, after, ask, location, guarded) == Considered(plan, sites, ask, location, guarded)
  {
    if ask.Ask? && ask.vcpus != [] {
      SameRoute(plan.allocs, sites, after, ask, location);
    }
  }

  /** Every comparison with the available cores sorts the flavors of the resource in place. That changes neither
      the plan nor the request for any node. */
  lemma {:induction false} SortingIsHarmless(jobs: seq<Job>, workerNodes: nat, sites: map<string, Site>,
                                             after: map<string, Site>, places: nat -> Option<string>, guarded: bool,
                                             k: nat)
    requires SitesOk(sites) && SomeSorted(sites, after) && k <= |jobs|
    ensures Planned(jobs, workerNodes, after, places, guarded, k)
         == Planned(jobs, workerNodes, sites, places, guarded, k)
  {
    if k > 0 {
      SortingIsHarmless(jobs, workerNodes, sites, after, places, guarded, k - 1);
      var plan, ask := Planned(jobs, workerNodes, sites, places, guarded, k - 1), AskOf(jobs[k - 1], workerNodes);
      SortedSizes(sites, after);
      if plan.Ok? && ask.Ok? {
        ConsideredSorted(plan.value, sites, after, ask.value, places(k - 1), guarded);
      }
    }
  }

  lemma RequestAfterSorting(sites: map<string, Site>, after: map<string, Site>,
                            zone: Option<string> -> Option<string>, account: string, node: Alloc)
    requires SitesOk(sites) && SomeSorted(sites, after) && account in sites
    ensures SitesOk(after) && RequestFor(after, zone, account, node) == RequestFor(sites, zone, account, node)
  {
    forall a | a in sites
      ensures after[a].flavors != [] && BestFlavor(after[a], Total(node)) == BestFlavor(sites[a], Total(node))
    {
      SortedSiteIsSame(sites[a], Total(node));
    }
  }

  // ----- the requests -----

  /** The requests list the nodes of the whole plan. */
  ghost predicate ListsPlan(jobs: seq<Job>, workerNodes: nat, sites: map<string, Site>, places: nat -> Option<string>,
                            zone: Option<string> -> Option<string>, requests: seq<ProvisionVM>,
                            owners: seq<(string, nat)>)
    requires SitesOk(sites) && AllReadable(jobs, workerNodes, |jobs|)
  {
    Lists(requests, owners, PlanAfter(jobs, workerNodes, sites, places, |jobs|).allocs, sites, zone)
  }

  /** Every request is for a planned node of its resource, and its flavor is the smallest that covers the node;
      the node's pieces are of different jobs. */
  lemma PlanIsSound(jobs: seq<Job>, workerNodes: nat, sites: map<string, Site>, places: nat -> Option<string>,
                    zone: Option<string> -> Option<string>, requests: seq<ProvisionVM>, owners: seq<(string, nat)>,
                    i: nat)
    requires SitesOk(sites) && AllReadable(jobs, workerNodes, |jobs|)
    requires ListsPlan(jobs, workerNodes, sites, places, zone, requests, owners) && i < |requests|
    ensures var plan := PlanAfter(jobs, workerNodes, sites, places, |jobs|);
            var (a, j) := owners[i];
            && a in sites && j < |NodesOf(plan.allocs, a)|
            && var node := NodesOf(plan.allocs, a)[j];
               && NodeOk(node, Cap(sites[a]), places, |jobs|)
               && requests[i].resource == a && requests[i].zone == zone(node.location) && !requests[i].isStatic
               && (exists f: Flavor ::
                     f.id == requests[i].flavor && IsSmallestCovering(f, sites[a].flavors, Total(node)))
  {
    var plan := PlanAfter(jobs, workerNodes, sites, places, |jobs|);
    PlannedOk(jobs, workerNodes, sites, places, true, |jobs|);
    var (a, j) := owners[i];
    var node := plan.allocs[a][j];
    assert AccountOk(plan.allocs[a], sites[a], places, |jobs|);
    assert NodeOk(node, Cap(sites[a]), places, |jobs|);
    BestFlavorIsSmallest(sites[a], Total(node));
    assert BestFlavor(sites[a], Total(node)).id == requests[i].flavor;
  }

  // ----- every piece is served -----

  lemma NotOfJob(jobs: seq<Job>, workerNodes: nat, k: nat, x: Piece)
    requires k < |jobs|
    ensures x.job != k ==> multiset(Wanted(jobs, workerNodes, k))[x] == 0
  {
    assert x.job != k ==> x !in Wanted(jobs, workerNodes, k);
  }

  lemma DemandedLast(jobs: seq<Job>, workerNodes: nat, routes: seq<Option<string>>, account: string, k: nat, x: Piece)
    requires k < |jobs| && k < |routes|
    ensures Demanded(jobs, workerNodes, routes, account, k + 1)[x]
         == Demanded(jobs, workerNodes, routes, account, k)[x]
            + if x.job == k && routes[k] == Some(account) then multiset(Wanted(jobs, workerNodes, k))[x] else 0
  {
    NotOfJob(jobs, workerNodes, k, x);
  }

  /** Of the copies of the piece, the first k jobs put on the nodes exactly those of its own job. */
  ghost function CountsOwn(jobs: seq<Job>, workerNodes: nat, routes: seq<Option<string>>, account: string, x: Piece)
    : nat -> bool
    requires x.job < |jobs|
  {
    (k: nat) => k <= |jobs| && k <= |routes| &&
      Demanded(jobs, workerNodes, routes, account, k)[x]
      == if x.job < k && routes[x.job] == Some(account) then multiset(Wanted(jobs, workerNodes, x.job))[x] else 0
  }

  lemma CountsOwnNext(jobs: seq<Job>, workerNodes: nat, routes: seq<Option<string>>, account: string, k: nat, x: Piece)
    requires k < |jobs| && k < |routes| && x.job < |jobs|
    requires CountsOwn(jobs, workerNodes, routes, account, x)(k)
    ensures CountsOwn(jobs, workerNodes, routes, account, x)(k + 1)
  {
    DemandedLast(jobs, workerNodes, routes, account, k, x);
  }

  /** The pieces that other jobs put on the nodes are not those of job j. */
  lemma DemandedOf(jobs: seq<Job>, workerNodes: nat, routes: seq<Option<string>>, account: string, k: nat, x: Piece)
    requires k <= |jobs| && k <= |routes| && x.job < |jobs|
    ensures Demanded(jobs, workerNodes, routes, account, k)[x]
         == if x.job < k && routes[x.job] == Some(account) then multiset(Wanted(jobs, workerNodes, x.job))[x] else 0
  {
    var p := CountsOwn(jobs, workerNodes, routes, account, x);
    forall i: nat | i < k && p(i)
      ensures p(i + 1)
    {
      CountsOwnNext(jobs, workerNodes, routes, account, i, x);
    }
    Induct(p, k);
  }

  lemma {:induction false} AllTheSame(pieces: seq<Piece>, x: Piece)
    requires forall i :: 0 <= i < |pieces| ==> pieces[i] == x
    ensures multiset(pieces)[x] == |pieces|
  {
    if pieces != [] {
      assert pieces == pieces[..|pieces| - 1] + [pieces[|pieces| - 1]];
      AllTheSame(pieces[..|pieces| - 1], x);
    }
  }

  /** The nodes that hold the piece are as many as its copies, when no node holds two. */
  lemma {:induction false} NodesHolding(nodes: seq<Alloc>, x: Piece) returns (at: seq<nat>)
    requires forall i :: 0 <= i < |nodes| ==> multiset(nodes[i].pieces)[x] <= 1
    ensures |at| == Packed(nodes)[x] && NoDup(at)
    ensures forall p :: 0 <= p < |at| ==> at[p] < |nodes| && x in nodes[at[p]].pieces
  {
    at := [];
    if nodes != [] {
      var n := |nodes| - 1;
      at := NodesHolding(nodes[..n], x);
      assert nodes == nodes[..n] + [nodes[n]];
      PackedLast(nodes[..n], nodes[n]);
      assert x in nodes[n].pieces <==> x in multiset(nodes[n].pieces);
      if x in nodes[n].pieces {
        at := at + [n];
      }
    }
  }

  lemma AtMostOneOfJob(a: Alloc, x: Piece)
    requires forall i, j :: 0 <= i < j < |a.pieces| ==> a.pieces[i].job != a.pieces[j].job
    ensures multiset(a.pieces)[x] <= 1
  {
    if x in a.pieces {
      var i :| 0 <= i < |a.pieces| && a.pieces[i] == x;
      assert a.pieces == a.pieces[..i] + [x] + a.pieces[i + 1..];
      assert x !in a.pieces[..i] && x !in a.pieces[i + 1..];
    }
  }

  predicate GoesTo(plan: Plan, j: nat, account: string) {
    j < |plan.routes| && plan.routes[j] == Some(account)
  }

  /** All pieces of a job that is placed are on nodes of its resource, as many different nodes as pieces. */
  lemma PiecesArePlaced(jobs: seq<Job>, workerNodes: nat, sites: map<string, Site>, places: nat -> Option<string>,
                        account: string, j: nat)
    returns (at: seq<nat>)
    requires SitesOk(sites) && AllReadable(jobs, workerNodes, |jobs|) && j < |jobs|
    requires GoesTo(PlanAfter(jobs, workerNodes, sites, places, |jobs|), j, account)
    requires Wanted(jobs, workerNodes, j) != []
    ensures var nodes := NodesOf(PlanAfter(jobs, workerNodes, sites, places, |jobs|).allocs, account);
            var wanted := Wanted(jobs, workerNodes, j);
            && |at| == |wanted| && NoDup(at)
            && forall p :: 0 <= p < |at| ==> at[p] < |nodes| && wanted[p] in nodes[at[p]].pieces
  {
    var plan := PlanAfter(jobs, workerNodes, sites, places, |jobs|);
    var nodes := NodesOf(plan.allocs, account);
    var wanted := Wanted(jobs, workerNodes, j);
    var x := wanted[0];
    RequirementIsUniform(jobs[j], workerNodes);
    AllTheSame(wanted, x);
    PackedIsDemanded(jobs, workerNodes, sites, places, true, account, |jobs|);
    DemandedOf(jobs, workerNodes, plan.routes, account, |jobs|, x);
    PlannedOk(jobs, workerNodes, sites, places, true, |jobs|);
    forall i | 0 <= i < |nodes|
      ensures multiset(nodes[i].pieces)[x] <= 1
    {
      assert NodeOk(nodes[i], Cap(sites[account]), places, |jobs|);
      AtMostOneOfJob(nodes[i], x);
    }
    at := NodesHolding(nodes, x);
  }

  /** So each piece of a placed job lies on the node of a request of the job's resource, and different pieces of
      the job on nodes of different requests. */
  lemma EveryPieceIsServed(jobs: seq<Job>, workerNodes: nat, sites: map<string, Site>, places: nat -> Option<string>,
                           zone: Option<string> -> Option<string>, requests: seq<ProvisionVM>,
                           owners: seq<(string, nat)>, account: string, j: nat)
    returns (serves: seq<nat>)
    requires SitesOk(sites) && AllReadable(jobs, workerNodes, |jobs|) && j < |jobs|
    requires ListsPlan(jobs, workerNodes, sites, places, zone, requests, owners)
    requires GoesTo(PlanAfter(jobs, workerNodes, sites, places, |jobs|), j, account)
    ensures var nodes := NodesOf(PlanAfter(jobs, workerNodes, sites, places, |jobs|).allocs, account);
            var wanted := Wanted(jobs, workerNodes, j);
            && |serves| == |wanted| && NoDup(serves)
            && forall p :: 0 <= p < |serves| ==>
                 && serves[p] < |requests| && requests[serves[p]].resource == account && owners[serves[p]].0 == account
                 && owners[serves[p]].1 < |nodes| && wanted[p] in nodes[owners[serves[p]].1].pieces
  {
    serves := [];
    if Wanted(jobs, workerNodes, j) != [] {
      var allocs := PlanAfter(jobs, workerNodes, sites, places, |jobs|).allocs;
      var at := PiecesArePlaced(jobs, workerNodes, sites, places, account, j);
      serves := RequestsFor(requests, owners, allocs, sites, zone, account, at);
    }
  }

  lemma {:induction false} RequestsFor(requests: seq<ProvisionVM>, owners: seq<(string, nat)>,
                                       allocs: map<string, seq<Alloc>>, sites: map<string, Site>,
                                       zone: Option<string> -> Option<string>, account: string, at: seq<nat>)
    returns (serves: seq<nat>)
    requires SitesOk(sites) && Lists(requests, owners, allocs, sites, zone) && NoDup(at)
    requires forall p :: 0 <= p < |at| ==> at[p] < |NodesOf(allocs, account)|
    ensures |serves| == |at| && NoDup(serves)
    ensures forall p :: 0 <= p < |serves| ==>
              && serves[p] < |requests| && requests[serves[p]].resource == account
              && owners[serves[p]] == (account, at[p])
  {
    serves := [];
    if at != [] {
      var n := |at| - 1;
      serves := RequestsFor(requests, owners, allocs, sites, zone, account, at[..n]);
      assert (account, at[n]) in owners;
      var i :| 0 <= i < |owners| && owners[i] == (account, at[n]);
      assert forall p :: 0 <= p < n ==> at[..n][p] == at[p];
      serves := serves + [i];
    }
  }
}
