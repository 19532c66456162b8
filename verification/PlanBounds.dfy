/** No job is turned away that could still be served, how many nodes a plan can have, and when the loop as
    written fails. */
module PlanBounds {
  import opened Outcomes
  import opened Sequences
  import opened Strings
  import opened CloudTools
  import opened Priorities
  import opened JobScheduler
  import opened JobRequests
  import opened PackingLaws
  import opened PlannerLaws

  // ----- greedy maximality -----

  /** None of the jobs from number `from` on asks for a negative number of cores. */
  ghost predicate NonNegative(jobs: seq<Job>, workerNodes: nat, from: nat) {
    forall j, i :: from <= j < |jobs| && 0 <= i < |Wanted(jobs, workerNodes, j)|
                   ==> Wanted(jobs, workerNodes, j)[i].cores >= 0
  }

  /** Only the total number of cores, read by int(), can be negative. */
  lemma NegativeOnlyFromNodes(job: Job, workerNodes: nat)
    ensures var a := AskOf(job, workerNodes);
            a.Ok? && a.value.Ask? && (exists i :: 0 <= i < |a.value.vcpus| && a.value.vcpus[i] < 0)
            ==> NODES in job.attrs && ToInt(job.attrs[NODES]).Ok? && ToInt(job.attrs[NODES]).value < 0
  {
    if NEEDNODES in job.attrs && NCPUS in job.attrs {
      RepeatIsConstant<int>(CountOr1(job.attrs[NCPUS]), CountOr1(job.attrs[NEEDNODES]));
    }
  }

  lemma {:induction false} SumNonNegative(pieces: seq<Piece>)
    requires forall i :: 0 <= i < |pieces| ==> pieces[i].cores >= 0
    ensures SumPieces(pieces) >= 0
  {
    if pieces != [] {
      SumNonNegative(pieces[..|pieces| - 1]);
    }
  }

  /** The cores of the jobs from number `from` up to k that went to the resource. */
  ghost function Net(jobs: seq<Job>, workerNodes: nat, routes: seq<Option<string>>, account: string, from: nat, k: nat)
    : int
    requires k <= |jobs| && k <= |routes|
  {
    if k <= from then 0
    else
      Net(jobs, workerNodes, routes, account, from, k - 1)
      + if routes[k - 1] == Some(account) then SumPieces(Wanted(jobs, workerNodes, k - 1)) else 0
  }

  lemma {:induction false} NetPrefix(jobs: seq<Job>, workerNodes: nat, a: seq<Option<string>>, b: seq<Option<string>>,
                                     account: string, from: nat, k: nat)
    requires k <= |jobs| && k <= |a| && k <= |b| && a[..k] == b[..k]
    ensures Net(jobs, workerNodes, a, account, from, k) == Net(jobs, workerNodes, b, account, from, k)
  {
    if k > from {
      assert a[..k][..k - 1] == a[..k - 1] && b[..k][..k - 1] == b[..k - 1];
      assert a[..k][k - 1] == b[..k][k - 1];
      NetPrefix(jobs, workerNodes, a, b, account, from, k - 1);
    }
  }

  lemma {:induction false} NetNonNegative(jobs: seq<Job>, workerNodes: nat, routes: seq<Option<string>>,
                                          account: string, from: nat, k: nat)
    requires k <= |jobs| && k <= |routes| && NonNegative(jobs, workerNodes, from)
    ensures Net(jobs, workerNodes, routes, account, from, k) >= 0
  {
    if k > from {
      NetNonNegative(jobs, workerNodes, routes, account, from, k - 1);
      SumNonNegative(Wanted(jobs, workerNodes, k - 1));
    }
  }

  /** A plan and the next one: the routes grow by one, and the cores of each resource by what it takes. */
  ghost predicate Extends(jobs: seq<Job>, workerNodes: nat, plan: Plan, next: Plan, account: string, k: nat)
    requires k < |jobs|
  {
    && |plan.routes| == k && |next.routes| == k + 1 && next.routes[..k] == plan.routes
    && SumTotals(NodesOf(next.allocs, account))
       == SumTotals(NodesOf(plan.allocs, account))
          + if next.routes[k] == Some(account) then SumPieces(Wanted(jobs, workerNodes, k)) else 0
  }

  /** A job changes the nodes of the resource it goes to, and those only. */
  lemma ConsideredNodes(plan: Plan, sites: map<string, Site>, ask: Ask, location: Option<string>, account: string)
    requires SitesOk(sites)
    ensures var r := Considered(plan, sites, ask, location, true);
            var n := |plan.routes|;
            && r.Ok? && |r.value.routes| == n + 1 && r.value.routes[..n] == plan.routes
            && if r.value.routes[n] == Some(account) then
                 && ask.Ask? && account in sites
                 && NodesOf(r.value.allocs, account)
                    == Pack(NodesOf(plan.allocs, account), Pieces(ask.vcpus, n), location, Cap(sites[account]))
               else NodesOf(r.value.allocs, account) == NodesOf(plan.allocs, account)
  {
    GuardedGoesOn(plan, sites, ask, location);
  }

  lemma ConsideredExtends(plan: Plan, sites: map<string, Site>, ask: Ask, location: Option<string>, account: string)
    requires SitesOk(sites)
    ensures var r := Considered(plan, sites, ask, location, true);
            var n := |plan.routes|;
            && r.Ok? && |r.value.routes| == n + 1 && r.value.routes[..n] == plan.routes
            && (r.value.routes[n] == Some(account) ==> ask.Ask?)
            && SumTotals(NodesOf(r.value.allocs, account))
               == SumTotals(NodesOf(plan.allocs, account))
                  + if r.value.routes[n] == Some(account) then SumPieces(Pieces(ask.vcpus, n)) else 0
  {
    ConsideredNodes(plan, sites, ask, location, account);
    var nodes, next := NodesOf(plan.allocs, account), Considered(plan, sites, ask, location, true).value;
    if next.routes[|plan.routes|] == Some(account) {
      PackAddsCores(nodes, Pieces(ask.vcpus, |plan.routes|), location, Cap(sites[account]));
    }
  }

  lemma PlanNext(jobs: seq<Job>, workerNodes: nat, sites: map<string, Site>, places: nat -> Option<string>, k: nat)
    requires "default" in sites && k < |jobs| && AllReadable(jobs, workerNodes, k + 1)
    ensures AskOf(jobs[k], workerNodes).Ok?
    ensures Considered(PlanAfter(jobs, workerNodes, sites, places, k), sites, AskOf(jobs[k], workerNodes).value,
                       places(k), true)
         == Ok(PlanAfter(jobs, workerNodes, sites, places, k + 1))
  {
    ReadExactly(jobs[k], workerNodes);
  }

  lemma PlanExtends(jobs: seq<Job>, workerNodes: nat, sites: map<string, Site>, places: nat -> Option<string>,
                    account: string, k: nat)
    requires SitesOk(sites) && k < |jobs| && AllReadable(jobs, workerNodes, k + 1)
    requires |PlanAfter(jobs, workerNodes, sites, places, k).routes| == k
    ensures Extends(jobs, workerNodes, PlanAfter(jobs, workerNodes, sites, places, k),
                    PlanAfter(jobs, workerNodes, sites, places, k + 1), account, k)
  {
    PlanNext(jobs, workerNodes, sites, places, k);
    WantedIsRead(jobs, workerNodes, k);
    ConsideredExtends(PlanAfter(jobs, workerNodes, sites, places, k), sites, AskOf(jobs[k], workerNodes).value,
                      places(k), account);
  }

  /** From one plan to a later one. */
  ghost predicate Grows(jobs: seq<Job>, workerNodes: nat, early: Plan, late: Plan, account: string, from: nat, k: nat)
    requires from <= k <= |jobs|
  {
    && |early.routes| == from && |late.routes| == k && late.routes[..from] == early.routes
    && SumTotals(NodesOf(late.allocs, account))
       == SumTotals(NodesOf(early.allocs, account)) + Net(jobs, workerNodes, late.routes, account, from, k)
  }

  lemma GrowsOn(jobs: seq<Job>, workerNodes: nat, early: Plan, plan: Plan, next: Plan, account: string, from: nat,
                k: nat)
    requires from <= k < |jobs| && Grows(jobs, workerNodes, early, plan, account, from, k)
    requires Extends(jobs, workerNodes, plan, next, account, k)
    ensures Grows(jobs, workerNodes, early, next, account, from, k + 1)
  {
    assert plan.routes[..k] == plan.routes;
    NetPrefix(jobs, workerNodes, plan.routes, next.routes, account, from, k);
    assert next.routes[..from] == next.routes[..k][..from];
  }

  /** The cores planned for a resource change by exactly those of the jobs that went to it in between, and no
      earlier route changes. */
  lemma {:induction false} TotalsAdd(jobs: seq<Job>, workerNodes: nat, sites: map<string, Site>,
                                     places: nat -> Option<string>, account: string, from: nat, k: nat)
    requires SitesOk(sites) && from <= k <= |jobs| && AllReadable(jobs, workerNodes, k)
    ensures Grows(jobs, workerNodes, PlanAfter(jobs, workerNodes, sites, places, from),
                  PlanAfter(jobs, workerNodes, sites, places, k), account, from, k)
  {
    var early := PlanAfter(jobs, workerNodes, sites, places, from);
    if from < k {
      TotalsAdd(jobs, workerNodes, sites, places, account, from, k - 1);
      PlanExtends(jobs, workerNodes, sites, places, account, k - 1);
      GrowsOn(jobs, workerNodes, early, PlanAfter(jobs, workerNodes, sites, places, k - 1),
              PlanAfter(jobs, workerNodes, sites, places, k), account, from, k - 1);
    } else {
      PlannedOk(jobs, workerNodes, sites, places, true, k);
    }
  }

  /** The resource may take a job that asks for `wanted` and is given `location`: its own one, or the default. */
  predicate MayTake(sites: map<string, Site>, wanted: string, location: Option<string>, account: string) {
    var own := if wanted in sites then wanted else "default";
    (account == own && own != "default") || (account == "default" && Some(own) != location)
  }

  /** How many cores the resource lacks to take the job. */
  function Lacks(allocs: map<string, seq<Alloc>>, site: Site, account: string, vcpus: seq<int>): int {
    SumTotals(NodesOf(allocs, account)) + Sum(vcpus) - FreeCores(site)
  }

  lemma RefusedExactly(allocs: map<string, seq<Alloc>>, sites: map<string, Site>, ask: Ask, location: Option<string>)
    requires ask.Ask? && ask.vcpus != [] && "default" in sites
    ensures Route(allocs, sites, ask, location) == None
       <==> forall a | a in sites && MayTake(sites, ask.account, location, a) ::
              ask.vcpus[0] > Cap(sites[a]) || Lacks(allocs, sites[a], a, ask.vcpus) > 0
  {
    var own := if ask.account in sites then ask.account else "default";
    assert own in sites;
  }

  /** The final plan refuses a job exactly if each resource that may take it is too small for it, or lacked more
      cores when the job was considered than the jobs from then on have given back. */
  lemma RefusedAtTheEnd(jobs: seq<Job>, workerNodes: nat, sites: map<string, Site>, places: nat -> Option<string>,
                        j: nat, ask: Ask)
    requires SitesOk(sites) && j < |jobs| && AllReadable(jobs, workerNodes, |jobs|)
    requires AskOf(jobs[j], workerNodes) == Ok(ask) && ask.Ask? && ask.vcpus != []
    ensures var early := PlanAfter(jobs, workerNodes, sites, places, j);
            var final := PlanAfter(jobs, workerNodes, sites, places, |jobs|);
            && |final.routes| == |jobs|
            && (Route(final.allocs, sites, ask, places(j)) == None
                <==> forall a | a in sites && MayTake(sites, ask.account, places(j), a) ::
                       ask.vcpus[0] > Cap(sites[a])
                       || Lacks(early.allocs, sites[a], a, ask.vcpus)
                          + Net(jobs, workerNodes, final.routes, a, j, |jobs|) > 0)
  {
    var final := PlanAfter(jobs, workerNodes, sites, places, |jobs|);
    RefusedExactly(final.allocs, sites, ask, places(j));
    TotalsAdd(jobs, workerNodes, sites, places, "", j, |jobs|);
    forall a | a in sites
      ensures SumTotals(NodesOf(final.allocs, a))
           == SumTotals(NodesOf(PlanAfter(jobs, workerNodes, sites, places, j).allocs, a))
              + Net(jobs, workerNodes, final.routes, a, j, |jobs|)
    {
      TotalsAdd(jobs, workerNodes, sites, places, a, j, |jobs|);
    }
  }

  lemma RouteIsKept(jobs: seq<Job>, workerNodes: nat, sites: map<string, Site>, places: nat -> Option<string>,
                    j: nat, ask: Ask)
    requires SitesOk(sites) && j < |jobs| && AllReadable(jobs, workerNodes, |jobs|)
    requires AskOf(jobs[j], workerNodes) == Ok(ask) && ask.Ask? && ask.vcpus != []
    ensures var early := PlanAfter(jobs, workerNodes, sites, places, j);
            var final := PlanAfter(jobs, workerNodes, sites, places, |jobs|);
            |final.routes| == |jobs| && final.routes[j] == Route(early.allocs, sites, ask, places(j))
  {
    TotalsAdd(jobs, workerNodes, sites, places, "", j + 1, |jobs|);
    PlannedOk(jobs, workerNodes, sites, places, true, j);
    var next := PlanAfter(jobs, workerNodes, sites, places, j + 1);
    var final := PlanAfter(jobs, workerNodes, sites, places, |jobs|);
    assert final.routes[..j + 1][j] == next.routes[j];
  }

  lemma {:induction false} SumOfSame(s: seq<int>, c: int)
    requires forall i :: 0 <= i < |s| ==> s[i] == c
    ensures Sum(s) == |s| * c
  {
    if s != [] {
      SumOfSame(s[1..], c);
      assert |s| * c == (|s| - 1) * c + c;
    }
  }

  /** The resource has that many cores free for so many nodes, and a flavor for a node of them. */
  ghost predicate HasRoom(allocs: map<string, seq<Alloc>>, site: Site, account: string, nodes: nat, cores: int) {
    && SumTotals(NodesOf(allocs, account)) + nodes * cores <= FreeCores(site)
    && exists f :: f in site.flavors && cores <= f.vcpus
  }

  lemma RoomIsEnough(allocs: map<string, seq<Alloc>>, sites: map<string, Site>, account: string, vcpus: seq<int>,
                     cores: int)
    requires SitesOk(sites) && account in sites && vcpus != [] && forall i :: 0 <= i < |vcpus| ==> vcpus[i] == cores
    ensures HaveEnoughCores(allocs, sites, account, vcpus)
       <==> HasRoom(allocs, sites[account], account, |vcpus|, cores)
  {
    SumOfSame(vcpus, cores);
    CapIsLargest(sites[account]);
    var f := Ordered(sites[account])[0];
    assert f in sites[account].flavors;
  }

  /** The resource of the job's account or queue, if there is one, else the default one. */
  function OwnResource(job: Job, sites: map<string, Site>): string
    requires HasAccount(job)
  {
    if AccountAsked(job) in sites then AccountAsked(job) else "default"
  }

  /** A job goes to its own resource if that has room, to the default one only if its own has none and its location
      is not named like it, and else nowhere; a job that is passed over goes nowhere. */
  lemma JobGoesExactly(jobs: seq<Job>, workerNodes: nat, sites: map<string, Site>, places: nat -> Option<string>,
                       j: nat)
    requires SitesOk(sites) && j < |jobs| && AllReadable(jobs, workerNodes, |jobs|)
    ensures |PlanAfter(jobs, workerNodes, sites, places, |jobs|).routes| == |jobs|
    ensures var route := PlanAfter(jobs, workerNodes, sites, places, |jobs|).routes[j];
            if IsPassedOver(jobs[j], workerNodes) then route == None
            else
              && HasAccount(jobs[j])
              && var allocs := PlanAfter(jobs, workerNodes, sites, places, j).allocs;
                 var own, n, c := OwnResource(jobs[j], sites), NodesAsked(jobs[j]), CoresAsked(jobs[j]);
                 var first := own != "default" && HasRoom(allocs, sites[own], own, n, c);
                 var second := HasRoom(allocs, sites["default"], "default", n, c) && places(j) != Some(own);
                 && (own != "default" ==> (route == Some(own) <==> first))
                 && (route == Some("default") <==> !first && second)
                 && (route == None <==> !first && !second)
  {
    AsksExactly(jobs[j], workerNodes);
    TotalsAdd(jobs, workerNodes, sites, places, "", j + 1, |jobs|);
    PlannedOk(jobs, workerNodes, sites, places, true, j);
    PlanNext(jobs, workerNodes, sites, places, j);
    var ask := AskOf(jobs[j], workerNodes).value;
    var next := PlanAfter(jobs, workerNodes, sites, places, j + 1);
    var final := PlanAfter(jobs, workerNodes, sites, places, |jobs|);
    assert final.routes[..j + 1][j] == next.routes[j];
    if ask.Ask? {
      RouteIsKept(jobs, workerNodes, sites, places, j, ask);
      var allocs := PlanAfter(jobs, workerNodes, sites, places, j).allocs;
      RoomIsEnough(allocs, sites, OwnResource(jobs[j], sites), ask.vcpus, CoresAsked(jobs[j]));
      RoomIsEnough(allocs, sites, "default", ask.vcpus, CoresAsked(jobs[j]));
    }
  }

  /** If no later job asks for a negative number of cores, a job that found no room when it was considered finds
      none in the final plan either. */
  lemma GreedyIsMaximal(jobs: seq<Job>, workerNodes: nat, sites: map<string, Site>, places: nat -> Option<string>,
                        j: nat)
    requires SitesOk(sites) && j < |jobs| && AllReadable(jobs, workerNodes, |jobs|)
    requires NonNegative(jobs, workerNodes, j + 1)
    ensures var final := PlanAfter(jobs, workerNodes, sites, places, |jobs|);
            var ask := AskOf(jobs[j], workerNodes);
            && |final.routes| == |jobs| && ask.Ok?
            && (ask.value.Ask? && ask.value.vcpus != [] && final.routes[j].None?
                ==> Route(final.allocs, sites, ask.value, places(j)) == None)
  {
    var final := PlanAfter(jobs, workerNodes, sites, places, |jobs|);
    ReadExactly(jobs[j], workerNodes);
    TotalsAdd(jobs, workerNodes, sites, places, "", j, |jobs|);
    var ask := AskOf(jobs[j], workerNodes).value;
    if ask.Ask? && ask.vcpus != [] && final.routes[j].None? {
      RouteIsKept(jobs, workerNodes, sites, places, j, ask);
      RefusedAtTheEnd(jobs, workerNodes, sites, places, j, ask);
      RefusedExactly(PlanAfter(jobs, workerNodes, sites, places, j).allocs, sites, ask, places(j));
      forall a | a in sites
        ensures Net(jobs, workerNodes, final.routes, a, j, |jobs|) >= 0
      {
        NetFromNext(jobs, workerNodes, final.routes, a, j, |jobs|);
        NetNonNegative(jobs, workerNodes, final.routes, a, j + 1, |jobs|);
      }
    }
  }

  /** A refused job adds nothing. */
  lemma {:induction false} NetFromNext(jobs: seq<Job>, workerNodes: nat, routes: seq<Option<string>>, account: string,
                                       j: nat, k: nat)
    requires j < k <= |jobs| && k <= |routes| && routes[j].None?
    ensures Net(jobs, workerNodes, routes, account, j, k) == Net(jobs, workerNodes, routes, account, j + 1, k)
  {
    if k > j + 1 {
      NetFromNext(jobs, workerNodes, routes, account, j, k - 1);
    }
  }

  /** A job with one core, and one that asks for minus one. */
  function OneCore(): Job {
    Job(7, map["queue" := "long", NODES := "1"], 5)
  }

  function MinusOne(): Job {
    Job(8, map["queue" := "long", NODES := "-1"], 4)
  }

  lemma TheirAsks(workerNodes: nat)
    ensures AskOf(OneCore(), workerNodes) == Ok(Ask([1], "long"))
    ensures AskOf(MinusOne(), workerNodes) == Ok(Ask([-1], "long"))
    ensures Sum([1]) == 1 && Sum([-1]) == -1
  {
    assert Strip("1") == "1" && Strip("-1") == "-1";
    assert "-1"[1..] == "1" && "1"[..0] == "";
    assert DigitsValue("1") == 1;
    assert [1][1..] == [] && [-1][1..] == [];
  }

  /** One resource without a free node. */
  ghost predicate Full(sites: map<string, Site>) {
    sites.Keys == {"default"} && Cap(sites["default"]) == 2 && FreeCores(sites["default"]) == 0 && SitesOk(sites)
  }

  lemma FirstIsRefused(sites: map<string, Site>)
    requires Full(sites)
    ensures Considered(Plan(map[], []), sites, Ask([1], "long"), Some("MEL"), true) == Ok(Plan(map[], [None]))
  {
    assert Sum([1]) == 1 by {
      assert [1][1..] == [];
    }
    var none: map<string, seq<Alloc>> := map[];
    assert Route(none, sites, Ask([1], "long"), Some("MEL")) == None;
    var routes: seq<Option<string>> := [];
    assert routes + [None] == [None];
  }

  lemma SecondGivesBack(sites: map<string, Site>, one: Plan)
    requires Full(sites) && one == Plan(map[], [None])
    ensures var r := Considered(one, sites, Ask([-1], "long"), Some("MEL"), true);
            && r.Ok? && r.value.routes == [None, Some("default")]
            && SumTotals(NodesOf(r.value.allocs, "default")) == -1
  {
    ConsideredExtends(one, sites, Ask([-1], "long"), Some("MEL"), "default");
    assert Pieces([-1], 1) == [Piece(-1, 1)];
    SumOne(Piece(-1, 1));
    assert Sum([-1]) == -1 by {
      assert [-1][1..] == [];
    }
  }

  lemma FirstWouldFit(sites: map<string, Site>, allocs: map<string, seq<Alloc>>)
    requires Full(sites) && SumTotals(NodesOf(allocs, "default")) == -1
    ensures Route(allocs, sites, Ask([1], "long"), Some("MEL")) == Some("default")
  {
    assert Sum([1]) == 1 by {
      assert [1][1..] == [];
    }
  }

  /** Without a free node the first job is turned away, the second is admitted and gives a core back, and then the
      first one would fit. */
  lemma NegativeGivesBack(workerNodes: nat, sites: map<string, Site>)
    requires Full(sites)
    ensures var jobs := [OneCore(), MinusOne()];
            && AllReadable(jobs, workerNodes, 2)
            && var plan := PlanAfter(jobs, workerNodes, sites, (_: nat) => Some("MEL"), 2);
               && plan.routes == [None, Some("default")]
               && Route(plan.allocs, sites, Ask([1], "long"), Some("MEL")) == Some("default")
  {
    TheirAsks(workerNodes);
    GivesBack([OneCore(), MinusOne()], workerNodes, sites);
  }

  lemma GivesBack(jobs: seq<Job>, workerNodes: nat, sites: map<string, Site>)
    requires Full(sites) && |jobs| == 2
    requires AskOf(jobs[0], workerNodes) == Ok(Ask([1], "long"))
    requires AskOf(jobs[1], workerNodes) == Ok(Ask([-1], "long"))
    ensures AllReadable(jobs, workerNodes, 2)
    ensures var plan := PlanAfter(jobs, workerNodes, sites, (_: nat) => Some("MEL"), 2);
            && plan.routes == [None, Some("default")]
            && Route(plan.allocs, sites, Ask([1], "long"), Some("MEL")) == Some("default")
  {
    var places := (_: nat) => Some("MEL");
    ReadExactly(jobs[0], workerNodes);
    ReadExactly(jobs[1], workerNodes);
    assert PlanAfter(jobs, workerNodes, sites, places, 0) == Plan(map[], []);
    PlanNext(jobs, workerNodes, sites, places, 0);
    FirstIsRefused(sites);
    var one := PlanAfter(jobs, workerNodes, sites, places, 1);
    PlanNext(jobs, workerNodes, sites, places, 1);
    SecondGivesBack(sites, one);
    FirstWouldFit(sites, PlanAfter(jobs, workerNodes, sites, places, 2).allocs);
  }

  lemma FullExists()
    ensures Full(map["default" := Site(0, [Flavor("small", 2)])])
  {
    var site := Site(0, [Flavor("small", 2)]);
    assert Ordered(site) == [Flavor("small", 2)];
  }

  // ----- the approximation bound -----

  lemma JobNonNegative(jobs: seq<Job>, workerNodes: nat, k: nat, ask: Ask)
    requires NonNegative(jobs, workerNodes, 0) && k < |jobs| && AskOf(jobs[k], workerNodes) == Ok(ask) && ask.Ask?
    ensures forall i :: 0 <= i < |ask.vcpus| ==> ask.vcpus[i] >= 0
  {
    WantedIsRead(jobs, workerNodes, k);
    forall i | 0 <= i < |ask.vcpus|
      ensures ask.vcpus[i] >= 0
    {
      assert Wanted(jobs, workerNodes, k)[i].cores == ask.vcpus[i];
    }
  }

  /** All nodes are at the location, and any two together exceed the largest flavor. */
  ghost predicate Crowded(nodes: seq<Alloc>, location: Option<string>, cap: int) {
    && (forall i :: 0 <= i < |nodes| ==> nodes[i].location == location && Total(nodes[i]) >= 0)
    && (forall i, j :: 0 <= i < j < |nodes| ==> Total(nodes[i]) + Total(nodes[j]) > cap)
  }

  lemma {:induction false} CrowdedSort(nodes: seq<Alloc>, location: Option<string>, cap: int)
    requires Crowded(nodes, location, cap)
    ensures Crowded(Sort(nodes, FewerCores), location, cap)
  {
    if nodes != [] {
      var rest := nodes[1..];
      CrowdedSort(rest, location, cap);
      var t := Sort(rest, FewerCores);
      SortPermutes(rest, FewerCores);
      forall i | 0 <= i < |t|
        ensures Total(nodes[0]) + Total(t[i]) > cap
      {
        assert t[i] in multiset(t);
        var j :| 0 <= j < |rest| && rest[j] == t[i];
        assert nodes[j + 1] == t[i];
      }
      var i := InsertSplits(nodes[0], t, FewerCores);
      CrowdedInsert(nodes[0], t, i, location, cap);
    }
  }

  lemma CrowdedInsert(x: Alloc, t: seq<Alloc>, i: nat, location: Option<string>, cap: int)
    requires Crowded(t, location, cap) && i <= |t| && x.location == location && Total(x) >= 0
    requires forall k :: 0 <= k < |t| ==> Total(x) + Total(t[k]) > cap
    ensures Crowded(t[..i] + [x] + t[i..], location, cap)
  {
    var s := t[..i] + [x] + t[i..];
    forall a, b | 0 <= a < b < |s|
      ensures Total(s[a]) + Total(s[b]) > cap
    {
      var a' := if a < i then a else a - 1;
      var b' := if b < i then b else b - 1;
      assert a != i ==> s[a] == t[a'];
      assert b != i ==> s[b] == t[b'];
    }
  }

  lemma CrowdedPush(s: seq<Alloc>, p: Piece, i: nat, location: Option<string>, cap: int)
    requires Crowded(s, location, cap) && i < |s| && p.cores >= 0
    ensures Crowded(s[i := Push(s[i], p)], location, cap)
  {
    assert Push(s[i], p).pieces[..|s[i].pieces|] == s[i].pieces;
    assert Total(Push(s[i], p)) == Total(s[i]) + p.cores;
  }

  /** The first node that has room, or |s|. */
  lemma {:induction false} FirstFit(s: seq<Alloc>, v: int, location: Option<string>, cap: int, n: nat) returns (i: nat)
    requires n <= |s|
    ensures i <= n
    ensures forall j :: 0 <= j < i ==> !Fits(s[j], v, location, cap)
    ensures i < n ==> Fits(s[i], v, location, cap)
  {
    if n == 0 {
      i := 0;
    } else {
      i := FirstFit(s, v, location, cap, n - 1);
      if i == n - 1 && !Fits(s[i], v, location, cap) {
        i := n;
      }
    }
  }

  lemma SingleNewNode(p: Piece, location: Option<string>)
    ensures NewNodes([p], location) == [NewNode(p, location)]
  {
    assert [p][..0] == [];
  }

  lemma {:induction false} NoneFits(s: seq<Alloc>, pieces: seq<Piece>, at: Option<string>, cap: int, i: nat)
    requires i <= |s| && pieces != [] && forall j :: 0 <= j < i ==> !Fits(s[j], pieces[0].cores, at, cap)
    ensures Taken(s, pieces, at, cap, i) == 0 && PlacedUpTo(s, pieces, at, cap, i) == s[..i]
  {
    if i > 0 {
      NoneFits(s, pieces, at, cap, i - 1);
      assert s[..i] == s[..i - 1] + [s[i - 1]];
    }
  }

  lemma {:induction false} OneFits(s: seq<Alloc>, p: Piece, at: Option<string>, cap: int, i: nat, k: nat)
    requires i < k <= |s| && Fits(s[i], p.cores, at, cap) && forall j :: 0 <= j < i ==> !Fits(s[j], p.cores, at, cap)
    ensures Taken(s, [p], at, cap, k) == 1 && PlacedUpTo(s, [p], at, cap, k) == s[..k][i := Push(s[i], p)]
  {
    assert s[..k] == s[..k - 1] + [s[k - 1]];
    if k == i + 1 {
      NoneFits(s, [p], at, cap, i);
    } else {
      OneFits(s, p, at, cap, i, k - 1);
      assert Placed(s, [p], at, cap, k - 1) == s[k - 1];
    }
  }

  lemma SingleFits(nodes: seq<Alloc>, p: Piece, at: Option<string>, cap: int, i: nat)
    requires i < |Sort(nodes, FewerCores)| && Fits(Sort(nodes, FewerCores)[i], p.cores, at, cap)
    requires forall j :: 0 <= j < i ==> !Fits(Sort(nodes, FewerCores)[j], p.cores, at, cap)
    ensures var s := Sort(nodes, FewerCores); Pack(nodes, [p], at, cap) == s[i := Push(s[i], p)]
  {
    var s := Sort(nodes, FewerCores);
    OneFits(s, p, at, cap, i, |s|);
    assert s[..|s|] == s && [p][1..] == [];
    assert NewNodes([], at) == [];
  }

  lemma SingleIsNew(nodes: seq<Alloc>, p: Piece, location: Option<string>, cap: int)
    requires forall a | a in Sort(nodes, FewerCores) :: !Fits(a, p.cores, location, cap)
    ensures Pack(nodes, [p], location, cap) == Sort(nodes, FewerCores) + [NewNode(p, location)]
  {
    var s := Sort(nodes, FewerCores);
    NoneFits(s, [p], location, cap, |s|);
    SingleNewNode(p, location);
    assert s[..|s|] == s && [p][0..] == [p];
  }

  /** A single piece goes to the first node with room, or to a new one when none has any. */
  lemma SinglePacked(nodes: seq<Alloc>, p: Piece, location: Option<string>, cap: int) returns (i: nat)
    ensures var s := Sort(nodes, FewerCores);
            && i <= |s| && (forall j :: 0 <= j < i ==> !Fits(s[j], p.cores, location, cap))
            && Pack(nodes, [p], location, cap)
               == if i < |s| then s[i := Push(s[i], p)] else s + [NewNode(p, location)]
  {
    var s := Sort(nodes, FewerCores);
    i := FirstFit(s, p.cores, location, cap, |s|);
    if i < |s| {
      SingleFits(nodes, p, location, cap, i);
    } else {
      SingleIsNew(nodes, p, location, cap);
    }
  }

  lemma PackSingle(nodes: seq<Alloc>, p: Piece, location: Option<string>, cap: int)
    requires Crowded(nodes, location, cap) && p.cores >= 0
    ensures Crowded(Pack(nodes, [p], location, cap), location, cap)
  {
    var s := Sort(nodes, FewerCores);
    CrowdedSort(nodes, location, cap);
    var i := SinglePacked(nodes, p, location, cap);
    if i < |s| {
      CrowdedPush(s, p, i, location, cap);
    } else {
      SumOne(p);
      CrowdedInsert(NewNode(p, location), s, |s|, location, cap);
      assert s[..|s|] + [NewNode(p, location)] + s[|s|..] == s + [NewNode(p, location)];
    }
  }

  /** Every job is for one node. */
  ghost predicate SingleNode(jobs: seq<Job>, workerNodes: nat) {
    forall j :: 0 <= j < |jobs| ==> |Wanted(jobs, workerNodes, j)| <= 1
  }

  ghost predicate AllCrowded(plan: Plan, sites: map<string, Site>, location: Option<string>) {
    forall a | a in plan.allocs && a in sites :: Crowded(plan.allocs[a], location, Cap(sites[a]))
  }

  lemma ConsideredCrowded(plan: Plan, sites: map<string, Site>, ask: Ask, location: Option<string>, guarded: bool)
    requires SitesOk(sites) && AllCrowded(plan, sites, location)
    requires ask.Ask? ==> |ask.vcpus| <= 1 && forall i :: 0 <= i < |ask.vcpus| ==> ask.vcpus[i] >= 0
    ensures var r := Considered(plan, sites, ask, location, guarded);
            r.Ok? ==> AllCrowded(r.value, sites, location)
  {
    if ask.Ask? && ask.vcpus != [] {
      var route := Route(plan.allocs, sites, ask, location);
      if route.Some? {
        var pieces := Pieces(ask.vcpus, |plan.routes|);
        assert pieces == [pieces[0]];
        PackSingle(NodesOf(plan.allocs, route.value), pieces[0], location, Cap(sites[route.value]));
      }
    }
  }

  lemma {:induction false} PlannedCrowded(jobs: seq<Job>, workerNodes: nat, sites: map<string, Site>,
                                          location: Option<string>, places: nat -> Option<string>, guarded: bool,
                                          k: nat)
    requires SitesOk(sites) && k <= |jobs|
    requires SingleNode(jobs, workerNodes) && NonNegative(jobs, workerNodes, 0)
    requires forall j: nat :: places(j) == location
    ensures var r := Planned(jobs, workerNodes, sites, places, guarded, k);
            r.Ok? ==> AllCrowded(r.value, sites, location)
  {
    if k > 0 {
      PlannedCrowded(jobs, workerNodes, sites, location, places, guarded, k - 1);
      var before := Planned(jobs, workerNodes, sites, places, guarded, k - 1);
      var ask := AskOf(jobs[k - 1], workerNodes);
      if before.Ok? && ask.Ok? {
        if ask.value.Ask? {
          JobNonNegative(jobs, workerNodes, k - 1, ask.value);
          WantedIsRead(jobs, workerNodes, k - 1);
          assert |Wanted(jobs, workerNodes, k - 1)| <= 1;
        }
        ConsideredCrowded(before.value, sites, ask.value, location, guarded);
      }
    }
  }

  lemma TotalOfTwo(nodes: seq<Alloc>)
    requires |nodes| >= 2
    ensures SumTotals(nodes) == Total(nodes[0]) + Total(nodes[1]) + SumTotals(nodes[2..])
  {
    assert nodes[1..][1..] == nodes[2..];
  }

  lemma CrowdedRest(nodes: seq<Alloc>, location: Option<string>, cap: int)
    requires Crowded(nodes, location, cap) && |nodes| >= 2
    ensures Crowded(nodes[2..], location, cap) && Total(nodes[0]) + Total(nodes[1]) > cap
    ensures |nodes| == 3 ==>
              SumTotals(nodes[2..]) == Total(nodes[2])
              && Total(nodes[0]) + Total(nodes[2]) > cap && Total(nodes[1]) + Total(nodes[2]) > cap
  {
    if |nodes| == 3 {
      assert nodes[2..] == [nodes[2]];
      PackedOne(nodes[2]);
    }
  }

  /** Two or more crowded nodes are on average more than half full. */
  lemma {:induction false} CrowdedTotal(nodes: seq<Alloc>, location: Option<string>, cap: int)
    requires Crowded(nodes, location, cap) && |nodes| >= 2
    ensures 2 * SumTotals(nodes) > |nodes| * cap
  {
    var n := |nodes|;
    TotalOfTwo(nodes);
    CrowdedRest(nodes, location, cap);
    if n > 3 {
      CrowdedTotal(nodes[2..], location, cap);
      assert n * cap == (n - 2) * cap + 2 * cap;
    } else if n == 2 {
      assert nodes[2..] == [];
    }
  }

  lemma Scaled(n: int, m: int, cap: int)
    requires cap > 0
    ensures n >= 2 * m ==> n * cap >= 2 * (m * cap)
    ensures m < 0 ==> m * cap < 0
  {
    if n >= 2 * m {
      assert (n - 2 * m) * cap >= 0;
    }
    if m < 0 {
      assert (-m) * cap > 0;
    }
  }

  lemma CrowdIsSmall(nodes: seq<Alloc>, location: Option<string>, cap: int, free: int)
    requires Crowded(nodes, location, cap) && cap > 0 && SumTotals(nodes) <= free * cap
    ensures nodes != [] ==> (|nodes| < 2 * free <==> free > 0)
    ensures nodes != [] && free <= 0 ==> |nodes| == 1 && Total(nodes[0]) == 0
  {
    if |nodes| >= 2 {
      CrowdedTotal(nodes, location, cap);
      Scaled(|nodes|, free, cap);
    } else if |nodes| == 1 {
      PackedOne(nodes[0]);
      assert nodes == [nodes[0]];
      Scaled(1, free, cap);
    }
  }

  /** With one location and single-node jobs, any two nodes planned for a resource together exceed its largest
      flavor. So the plan has fewer nodes than twice the free ones, if and only if any node is free; and if none
      is free, all it plans is one node for jobs without cores. */
  lemma FewerThanTwice(jobs: seq<Job>, workerNodes: nat, sites: map<string, Site>, location: Option<string>,
                       places: nat -> Option<string>, account: string)
    requires SitesOk(sites) && SingleNode(jobs, workerNodes) && NonNegative(jobs, workerNodes, 0)
    requires AllReadable(jobs, workerNodes, |jobs|) && account in sites && Cap(sites[account]) > 0
    requires forall j: nat :: places(j) == location
    ensures var nodes := NodesOf(PlanAfter(jobs, workerNodes, sites, places, |jobs|).allocs, account);
            var free := sites[account].available;
            && Crowded(nodes, location, Cap(sites[account]))
            && (nodes != [] ==> (|nodes| < 2 * free <==> free > 0))
            && (nodes != [] && free <= 0 ==> |nodes| == 1 && Total(nodes[0]) == 0)
  {
    PlannedCrowded(jobs, workerNodes, sites, location, places, true, |jobs|);
    PlannedOk(jobs, workerNodes, sites, places, true, |jobs|);
    var plan := PlanAfter(jobs, workerNodes, sites, places, |jobs|);
    if account in plan.allocs {
      assert AccountOk(plan.allocs[account], sites[account], places, |jobs|);
      CrowdIsSmall(plan.allocs[account], location, Cap(sites[account]), sites[account].available);
    }
  }

  /** A job without cores is planned a node even when no node is free. */
  lemma ZeroCoresTakeANode()
    ensures var sites := map["default" := Site(0, [Flavor("small", 2)])];
            var job := Job(7, map["queue" := "long", NCPUS := "0", NEEDNODES := "1"], 5);
            var plan := Planned([job], 0, sites, (_: nat) => Some("MEL"), true, 1);
            plan.Ok? && |NodesOf(plan.value.allocs, "default")| == 1
  {
    var sites := map["default" := Site(0, [Flavor("small", 2)])];
    var job := Job(7, map["queue" := "long", NCPUS := "0", NEEDNODES := "1"], 5);
    assert CountOr1("0") == 0 && CountOr1("1") == 1 by {
      assert "0"[..0] == [] && "1"[..0] == [];
    }
    assert Repeat<int>(0, 1) == [0] by {
      assert Repeat<int>(0, 0) == [];
    }
    assert VcpuRequirement(job.attrs) == Ok(Requirement(Some([0]), "long"));
    var ask := Ask([0], "long");
    assert AskOf(job, 0) == Ok(ask);
    assert Sum([0]) == 0 by {
      assert [0][1..] == [];
    }
    assert Ordered(sites["default"]) == [Flavor("small", 2)];
    var pieces := Pieces([0], 0);
    assert pieces == [Piece(0, 0)];
    PackAt([], pieces, Some("MEL"), 2);
    assert Route(map[], sites, ask, Some("MEL")) == Some("default");
    assert Planned([job], 0, sites, (_: nat) => Some("MEL"), true, 0) == Ok(Plan(map[], []));
  }

  // ----- the loop as written -----

  /** The jobs up to j can be read, job j is admitted to a resource, and there a node of its location comes, fullest
      first, after as many nodes with room as the job has pieces. */
  ghost predicate FailsAt(jobs: seq<Job>, workerNodes: nat, sites: map<string, Site>, places: nat -> Option<string>,
                          j: nat)
    requires j < |jobs| && "default" in sites
  {
    && AllReadable(jobs, workerNodes, j) && AskOf(jobs[j], workerNodes).Ok?
    && var allocs := PlanAfter(jobs, workerNodes, sites, places, j).allocs;
       var ask := AskOf(jobs[j], workerNodes).value;
       && ask.Ask? && ask.vcpus != []
       && var route := Route(allocs, sites, ask, places(j));
          && route.Some? && route.value in sites
          && AnyAfterLast(NodesOf(allocs, route.value), ask.vcpus[0], |ask.vcpus|, places(j), Cap(sites[route.value]))
  }

  /** Such a job makes the loop as written look up a piece that is not there, and no other job does. */
  lemma FailsExactly(jobs: seq<Job>, workerNodes: nat, sites: map<string, Site>, places: nat -> Option<string>,
                     j: nat)
    requires j < |jobs| && "default" in sites && AllReadable(jobs, workerNodes, j + 1)
    ensures var plan := PlanAfter(jobs, workerNodes, sites, places, j);
            var ask := AskOf(jobs[j], workerNodes);
            && ask.Ok?
            && Considered(plan, sites, ask.value, places(j), false)
               == if FailsAt(jobs, workerNodes, sites, places, j) then Raised(IndexError)
                  else Considered(plan, sites, ask.value, places(j), true)
  {
    ReadExactly(jobs[j], workerNodes);
    RequirementIsUniform(jobs[j], workerNodes);
    var plan := PlanAfter(jobs, workerNodes, sites, places, j);
    var ask := AskOf(jobs[j], workerNodes).value;
    if ask.Ask? && ask.vcpus != [] {
      var route := Route(plan.allocs, sites, ask, places(j));
      if route.Some? {
        var pieces := Pieces(ask.vcpus, |plan.routes|);
        RunsPastEndExactly(NodesOf(plan.allocs, route.value), pieces, ask.vcpus[0], places(j), Cap(sites[route.value]));
      }
    }
  }

  /** Some job among the first k makes the loop as written fail. */
  ghost predicate FailsBefore(jobs: seq<Job>, workerNodes: nat, sites: map<string, Site>,
                              places: nat -> Option<string>, k: nat)
    requires k <= |jobs| && "default" in sites
  {
    exists j :: 0 <= j < k && FailsAt(jobs, workerNodes, sites, places, j)
  }

  lemma FailsNext(jobs: seq<Job>, workerNodes: nat, sites: map<string, Site>, places: nat -> Option<string>, k: nat)
    requires "default" in sites && k < |jobs|
    ensures FailsBefore(jobs, workerNodes, sites, places, k + 1)
       <==> FailsBefore(jobs, workerNodes, sites, places, k) || FailsAt(jobs, workerNodes, sites, places, k)
  {
  }

  lemma PlanGoesOn(jobs: seq<Job>, workerNodes: nat, sites: map<string, Site>, places: nat -> Option<string>,
                   guarded: bool, k: nat, plan: Plan, ask: Ask)
    requires "default" in sites && k < |jobs|
    requires Planned(jobs, workerNodes, sites, places, guarded, k) == Ok(plan)
    requires AskOf(jobs[k], workerNodes) == Ok(ask)
    ensures Planned(jobs, workerNodes, sites, places, guarded, k + 1)
         == Considered(plan, sites, ask, places(k), guarded)
  {
  }

  lemma WrittenStep(jobs: seq<Job>, workerNodes: nat, sites: map<string, Site>, places: nat -> Option<string>, k: nat)
    requires "default" in sites && k < |jobs| && AllReadable(jobs, workerNodes, k + 1)
    requires Planned(jobs, workerNodes, sites, places, false, k) == Planned(jobs, workerNodes, sites, places, true, k)
    ensures Planned(jobs, workerNodes, sites, places, false, k + 1)
         == if FailsAt(jobs, workerNodes, sites, places, k) then Raised(IndexError)
            else Planned(jobs, workerNodes, sites, places, true, k + 1)
  {
    var plan := PlanAfter(jobs, workerNodes, sites, places, k);
    FailsExactly(jobs, workerNodes, sites, places, k);
    var ask := AskOf(jobs[k], workerNodes).value;
    PlanGoesOn(jobs, workerNodes, sites, places, true, k, plan, ask);
    PlanGoesOn(jobs, workerNodes, sites, places, false, k, plan, ask);
  }

  lemma UnreadableStep(jobs: seq<Job>, workerNodes: nat, sites: map<string, Site>, places: nat -> Option<string>,
                       k: nat)
    requires "default" in sites && k < |jobs| && !AllReadable(jobs, workerNodes, k + 1)
    requires Planned(jobs, workerNodes, sites, places, false, k) == Planned(jobs, workerNodes, sites, places, true, k)
    ensures !FailsAt(jobs, workerNodes, sites, places, k)
    ensures Planned(jobs, workerNodes, sites, places, false, k + 1)
         == Planned(jobs, workerNodes, sites, places, true, k + 1)
  {
    PlanningSucceeds(jobs, workerNodes, sites, places, k);
    ReadExactly(jobs[k], workerNodes);
  }

  ghost predicate GoesAsWritten(jobs: seq<Job>, workerNodes: nat, sites: map<string, Site>,
                                places: nat -> Option<string>, k: nat)
    requires k <= |jobs| && "default" in sites
  {
    Planned(jobs, workerNodes, sites, places, false, k)
    == if FailsBefore(jobs, workerNodes, sites, places, k) then Raised(IndexError)
       else Planned(jobs, workerNodes, sites, places, true, k)
  }

  lemma WrittenNext(jobs: seq<Job>, workerNodes: nat, sites: map<string, Site>, places: nat -> Option<string>, k: nat)
    requires "default" in sites && k < |jobs| && GoesAsWritten(jobs, workerNodes, sites, places, k)
    ensures GoesAsWritten(jobs, workerNodes, sites, places, k + 1)
  {
    FailsNext(jobs, workerNodes, sites, places, k);
    if FailsBefore(jobs, workerNodes, sites, places, k) {
      RaisedStays(jobs, workerNodes, sites, places, false, k, k + 1);
    } else if AllReadable(jobs, workerNodes, k + 1) {
      WrittenStep(jobs, workerNodes, sites, places, k);
    } else {
      UnreadableStep(jobs, workerNodes, sites, places, k);
    }
  }

  /** On all jobs, readable or not, the planner as written does what the guarded one does, unless one of the jobs
      fails as said; then it raises IndexError. */
  lemma AsWritten(jobs: seq<Job>, workerNodes: nat, sites: map<string, Site>, places: nat -> Option<string>, k: nat)
    requires "default" in sites && k <= |jobs|
    ensures Planned(jobs, workerNodes, sites, places, false, k)
         == if FailsBefore(jobs, workerNodes, sites, places, k) then Raised(IndexError)
            else Planned(jobs, workerNodes, sites, places, true, k)
  {
    var p := (n: nat) => n <= |jobs| && GoesAsWritten(jobs, workerNodes, sites, places, n);
    forall n: nat | n < k && p(n)
      ensures p(n + 1)
    {
      WrittenNext(jobs, workerNodes, sites, places, n);
    }
    Induct(p, k);
  }

  /** So it succeeds exactly if it can read every job and none fails, and then its plan is the guarded one. */
  lemma WrittenSucceeds(jobs: seq<Job>, workerNodes: nat, sites: map<string, Site>, places: nat -> Option<string>,
                        k: nat)
    requires "default" in sites && k <= |jobs|
    ensures Planned(jobs, workerNodes, sites, places, false, k).Ok?
       <==> AllReadable(jobs, workerNodes, k) && !FailsBefore(jobs, workerNodes, sites, places, k)
    ensures Planned(jobs, workerNodes, sites, places, false, k).Ok? ==>
              Planned(jobs, workerNodes, sites, places, false, k) == Planned(jobs, workerNodes, sites, places, true, k)
  {
    AsWritten(jobs, workerNodes, sites, places, k);
    PlanningSucceeds(jobs, workerNodes, sites, places, k);
  }
}
