/** How many nodes a plan can have when jobs ask for several nodes at several locations, and that the bound for
    single nodes is attained. */
module SpreadBounds {
  import opened Outcomes
  import opened Sequences
  import opened Strings
  import opened CloudTools
  import opened Priorities
  import opened JobScheduler
  import opened JobRequests
  import opened PackingLaws
  import opened PlannerLaws
  import opened PlanBounds

  // ----- light nodes -----

  /** At most half full. */
  predicate IsLight(a: Alloc, cap: int) {
    2 * Total(a) <= cap
  }

  predicate IsLightAt(a: Alloc, location: Option<string>, cap: int) {
    a.location == location && IsLight(a, cap)
  }

  /** How many nodes of the location are at most half full. */
  function LightAt(nodes: seq<Alloc>, location: Option<string>, cap: int): nat {
    if nodes == [] then 0
    else LightAt(nodes[..|nodes| - 1], location, cap) + if IsLightAt(nodes[|nodes| - 1], location, cap) then 1 else 0
  }

  lemma LightLast(nodes: seq<Alloc>, a: Alloc, location: Option<string>, cap: int)
    ensures LightAt(nodes + [a], location, cap)
         == LightAt(nodes, location, cap) + if IsLightAt(a, location, cap) then 1 else 0
  {
    assert (nodes + [a])[..|nodes|] == nodes;
  }

  lemma {:induction false} LightAppend(a: seq<Alloc>, b: seq<Alloc>, location: Option<string>, cap: int)
    ensures LightAt(a + b, location, cap) == LightAt(a, location, cap) + LightAt(b, location, cap)
  {
    if b == [] {
      assert a + b == a;
    } else {
      assert (a + b)[..|a + b| - 1] == a + b[..|b| - 1];
      LightAppend(a, b[..|b| - 1], location, cap);
    }
  }

  lemma LightMiddle(a: seq<Alloc>, x: Alloc, b: seq<Alloc>, location: Option<string>, cap: int)
    ensures LightAt(a + [x] + b, location, cap) == LightAt([x], location, cap) + LightAt(a + b, location, cap)
  {
    LightAppend(a + [x], b, location, cap);
    LightAppend(a, [x], location, cap);
    LightAppend(a, b, location, cap);
  }

  lemma {:induction false} LightSort(nodes: seq<Alloc>, location: Option<string>, cap: int)
    ensures LightAt(Sort(nodes, FewerCores), location, cap) == LightAt(nodes, location, cap)
  {
    if nodes != [] {
      var t := Sort(nodes[1..], FewerCores);
      LightSort(nodes[1..], location, cap);
      var i := InsertSplits(nodes[0], t, FewerCores);
      LightMiddle(t[..i], nodes[0], t[i..], location, cap);
      assert t[..i] + t[i..] == t;
      LightAppend([nodes[0]], nodes[1..], location, cap);
      assert nodes == [nodes[0]] + nodes[1..];
    }
  }

  lemma PushFills(a: Alloc, p: Piece)
    ensures Total(Push(a, p)) == Total(a) + p.cores
  {
    assert Push(a, p).pieces[..|a.pieces|] == a.pieces;
  }

  lemma PlacedNoLighter(s: seq<Alloc>, pieces: seq<Piece>, at: Option<string>, cap: int, i: nat,
                        location: Option<string>)
    requires i < |s| && forall j :: 0 <= j < |pieces| ==> pieces[j].cores >= 0
    ensures IsLightAt(Placed(s, pieces, at, cap, i), location, cap) ==> IsLightAt(s[i], location, cap)
  {
    var idx := Taken(s, pieces, at, cap, i);
    if idx < |pieces| {
      PushFills(s[i], pieces[idx]);
    }
  }

  lemma NoLighterStep(after: seq<Alloc>, before: seq<Alloc>, a: Alloc, b: Alloc, location: Option<string>, cap: int)
    requires LightAt(after, location, cap) <= LightAt(before, location, cap)
    requires IsLightAt(a, location, cap) ==> IsLightAt(b, location, cap)
    ensures LightAt(after + [a], location, cap) <= LightAt(before + [b], location, cap)
  {
    LightLast(after, a, location, cap);
    LightLast(before, b, location, cap);
  }

  lemma PlacedLightNext(s: seq<Alloc>, pieces: seq<Piece>, at: Option<string>, cap: int, i: nat,
                        location: Option<string>)
    requires i < |s| && forall j :: 0 <= j < |pieces| ==> pieces[j].cores >= 0
    requires LightAt(PlacedUpTo(s, pieces, at, cap, i), location, cap) <= LightAt(s[..i], location, cap)
    ensures LightAt(PlacedUpTo(s, pieces, at, cap, i + 1), location, cap) <= LightAt(s[..i + 1], location, cap)
  {
    PlacedNoLighter(s, pieces, at, cap, i, location);
    assert s[..i + 1] == s[..i] + [s[i]];
    NoLighterStep(PlacedUpTo(s, pieces, at, cap, i), s[..i], Placed(s, pieces, at, cap, i), s[i], location, cap);
  }

  /** A node that takes a piece gets no lighter and stays where it is. */
  lemma {:induction false} PlacedLight(s: seq<Alloc>, pieces: seq<Piece>, at: Option<string>, cap: int, i: nat,
                                       location: Option<string>)
    requires i <= |s| && forall j :: 0 <= j < |pieces| ==> pieces[j].cores >= 0
    ensures LightAt(PlacedUpTo(s, pieces, at, cap, i), location, cap) <= LightAt(s[..i], location, cap)
  {
    if i > 0 {
      PlacedLight(s, pieces, at, cap, i - 1, location);
      PlacedLightNext(s, pieces, at, cap, i - 1, location);
    }
  }

  lemma {:induction false} NewAreLight(pieces: seq<Piece>, at: Option<string>, cap: int, v: int,
                                       location: Option<string>)
    requires AllOfSize(pieces, v)
    ensures LightAt(NewNodes(pieces, at), location, cap) == if at == location && 2 * v <= cap then |pieces| else 0
  {
    if pieces != [] {
      var n := |pieces| - 1;
      NewAreLight(pieces[..n], at, cap, v, location);
      SumOne(pieces[n]);
      LightLast(NewNodes(pieces[..n], at), NewNode(pieces[n], at), location, cap);
    }
  }

  /** Every light node has room for a piece of at most half a node. */
  lemma {:induction false} LightHaveRoom(s: seq<Alloc>, v: int, location: Option<string>, cap: int, i: nat)
    requires i <= |s| && 2 * v <= cap
    ensures LightAt(s[..i], location, cap) <= CountFits(s, v, location, cap, i)
  {
    if i > 0 {
      LightHaveRoom(s, v, location, cap, i - 1);
      assert s[..i][..i - 1] == s[..i - 1];
    }
  }

  /** Packing a job leaves at most as many light nodes at a location as there were, or as the job has pieces. */
  lemma PackLight(nodes: seq<Alloc>, pieces: seq<Piece>, v: int, at: Option<string>, cap: int, location: Option<string>)
    requires AllOfSize(pieces, v) && v >= 0
    ensures LightAt(Pack(nodes, pieces, at, cap), location, cap) <= Max(LightAt(nodes, location, cap), |pieces|)
  {
    var s := Sort(nodes, FewerCores);
    var idx := Taken(s, pieces, at, cap, |s|);
    LightSort(nodes, location, cap);
    assert s[..|s|] == s;
    PlacedLight(s, pieces, at, cap, |s|, location);
    NewAreLight(pieces[idx..], at, cap, v, location);
    LightAppend(PlacedUpTo(s, pieces, at, cap, |s|), NewNodes(pieces[idx..], at), location, cap);
    if at == location && 2 * v <= cap {
      TakenIsMin(s, pieces, v, at, cap, |s|);
      LightHaveRoom(s, v, at, cap, |s|);
    }
  }

  // ----- whole plans -----

  /** No job has more than m pieces. */
  ghost predicate AtMostPieces(jobs: seq<Job>, workerNodes: nat, m: nat) {
    forall j :: 0 <= j < |jobs| ==> |Wanted(jobs, workerNodes, j)| <= m
  }

  /** All nodes are at the given locations and hold no negative number of cores. */
  ghost predicate Within(nodes: seq<Alloc>, locations: set<Option<string>>) {
    forall i :: 0 <= i < |nodes| ==> nodes[i].location in locations && Total(nodes[i]) >= 0
  }

  /** At each location at most m nodes are light. */
  ghost predicate FewLight(nodes: seq<Alloc>, locations: set<Option<string>>, cap: int, m: nat) {
    (forall location | location in locations :: LightAt(nodes, location, cap) <= m) && Within(nodes, locations)
  }

  lemma PackFewLight(nodes: seq<Alloc>, pieces: seq<Piece>, v: int, at: Option<string>, locations: set<Option<string>>,
                     cap: int, m: nat)
    requires FewLight(nodes, locations, cap, m) && AllOfSize(pieces, v) && v >= 0 && at in locations && |pieces| <= m
    ensures FewLight(Pack(nodes, pieces, at, cap), locations, cap, m)
  {
    forall location | location in locations
      ensures LightAt(Pack(nodes, pieces, at, cap), location, cap) <= m
    {
      PackLight(nodes, pieces, v, at, cap, location);
    }
    PackStays(nodes, pieces, at, locations, cap);
  }

  lemma PlacedStays(s: seq<Alloc>, pieces: seq<Piece>, at: Option<string>, cap: int, i: nat)
    requires i < |s| && Total(s[i]) >= 0 && forall j :: 0 <= j < |pieces| ==> pieces[j].cores >= 0
    ensures var a := Placed(s, pieces, at, cap, i);
            a.location == s[i].location && Total(a) >= 0
  {
    var idx := Taken(s, pieces, at, cap, i);
    if idx < |pieces| {
      PushFills(s[i], pieces[idx]);
    }
  }

  lemma SortStays(nodes: seq<Alloc>, locations: set<Option<string>>)
    requires Within(nodes, locations)
    ensures Within(Sort(nodes, FewerCores), locations)
  {
    var s := Sort(nodes, FewerCores);
    SortPermutes(nodes, FewerCores);
    forall i | 0 <= i < |s|
      ensures s[i].location in locations && Total(s[i]) >= 0
    {
      assert s[i] in multiset(s);
    }
  }

  lemma NewStay(pieces: seq<Piece>, at: Option<string>, locations: set<Option<string>>)
    requires at in locations && forall j :: 0 <= j < |pieces| ==> pieces[j].cores >= 0
    ensures Within(NewNodes(pieces, at), locations)
  {
    NewNodesAt(pieces, at);
    forall i | 0 <= i < |pieces|
      ensures Total(NewNode(pieces[i], at)) >= 0
    {
      SumOne(pieces[i]);
    }
  }

  lemma PackStays(nodes: seq<Alloc>, pieces: seq<Piece>, at: Option<string>, locations: set<Option<string>>, cap: int)
    requires Within(nodes, locations) && at in locations && forall j :: 0 <= j < |pieces| ==> pieces[j].cores >= 0
    ensures Within(Pack(nodes, pieces, at, cap), locations)
  {
    var s := Sort(nodes, FewerCores);
    var placed := PlacedUpTo(s, pieces, at, cap, |s|);
    var added := NewNodes(pieces[Taken(s, pieces, at, cap, |s|)..], at);
    SortStays(nodes, locations);
    PlacedUpToAt(s, pieces, at, cap, |s|);
    NewStay(pieces[Taken(s, pieces, at, cap, |s|)..], at, locations);
    forall i | 0 <= i < |s|
      ensures placed[i].location in locations && Total(placed[i]) >= 0
    {
      PlacedStays(s, pieces, at, cap, i);
    }
    assert Within(placed, locations);
    assert Pack(nodes, pieces, at, cap) == placed + added;
  }

  lemma ConsideredFewLight(plan: Plan, sites: map<string, Site>, ask: Ask, at: Option<string>,
                           locations: set<Option<string>>, account: string, m: nat)
    requires SitesOk(sites) && account in sites && at in locations
    requires FewLight(NodesOf(plan.allocs, account), locations, Cap(sites[account]), m)
    requires ask.Ask? ==> AllEqual(ask.vcpus) && |ask.vcpus| <= m
    requires ask.Ask? ==> forall i :: 0 <= i < |ask.vcpus| ==> ask.vcpus[i] >= 0
    ensures var r := Considered(plan, sites, ask, at, true);
            r.Ok? ==> FewLight(NodesOf(r.value.allocs, account), locations, Cap(sites[account]), m)
  {
    if ask.Ask? && ask.vcpus != [] && Route(plan.allocs, sites, ask, at) == Some(account) {
      PackFewLight(NodesOf(plan.allocs, account), Pieces(ask.vcpus, |plan.routes|), ask.vcpus[0], at, locations,
                   Cap(sites[account]), m);
    }
  }

  lemma NextFewLight(jobs: seq<Job>, workerNodes: nat, sites: map<string, Site>, places: nat -> Option<string>,
                     locations: set<Option<string>>, account: string, m: nat, k: nat)
    requires SitesOk(sites) && account in sites && k < |jobs| && AllReadable(jobs, workerNodes, k + 1)
    requires NonNegative(jobs, workerNodes, 0) && AtMostPieces(jobs, workerNodes, m) && places(k) in locations
    requires FewLight(NodesOf(PlanAfter(jobs, workerNodes, sites, places, k).allocs, account), locations,
                      Cap(sites[account]), m)
    ensures FewLight(NodesOf(PlanAfter(jobs, workerNodes, sites, places, k + 1).allocs, account), locations,
                     Cap(sites[account]), m)
  {
    PlanNext(jobs, workerNodes, sites, places, k);
    var ask := AskOf(jobs[k], workerNodes).value;
    RequirementIsUniform(jobs[k], workerNodes);
    if ask.Ask? {
      JobNonNegative(jobs, workerNodes, k, ask);
      WantedIsRead(jobs, workerNodes, k);
      assert |Wanted(jobs, workerNodes, k)| <= m;
    }
    ConsideredFewLight(PlanAfter(jobs, workerNodes, sites, places, k), sites, ask, places(k), locations, account, m);
  }

  lemma {:induction false} PlannedFewLight(jobs: seq<Job>, workerNodes: nat, sites: map<string, Site>,
                                           places: nat -> Option<string>, locations: set<Option<string>>,
                                           account: string, m: nat, k: nat)
    requires SitesOk(sites) && account in sites && k <= |jobs| && AllReadable(jobs, workerNodes, k)
    requires NonNegative(jobs, workerNodes, 0) && AtMostPieces(jobs, workerNodes, m)
    requires forall j: nat :: places(j) in locations
    ensures FewLight(NodesOf(PlanAfter(jobs, workerNodes, sites, places, k).allocs, account), locations,
                     Cap(sites[account]), m)
  {
    if k > 0 {
      PlannedFewLight(jobs, workerNodes, sites, places, locations, account, m, k - 1);
      NextFewLight(jobs, workerNodes, sites, places, locations, account, m, k - 1);
    } else {
      assert NodesOf(PlanAfter(jobs, workerNodes, sites, places, 0).allocs, account) == [];
    }
  }

  // ----- counting -----

  /** How many nodes are light, and how many are not. */
  function Light(nodes: seq<Alloc>, locations: set<Option<string>>, cap: int): nat {
    if nodes == [] then 0
    else
      var a := nodes[|nodes| - 1];
      Light(nodes[..|nodes| - 1], locations, cap) + if a.location in locations && IsLight(a, cap) then 1 else 0
  }

  lemma {:induction false} LightSplits(nodes: seq<Alloc>, locations: set<Option<string>>, cap: int, x: Option<string>)
    requires x in locations
    ensures Light(nodes, locations, cap) == Light(nodes, locations - {x}, cap) + LightAt(nodes, x, cap)
  {
    if nodes != [] {
      LightSplits(nodes[..|nodes| - 1], locations, cap, x);
    }
  }

  lemma {:induction false} NowhereLight(nodes: seq<Alloc>, cap: int)
    ensures Light(nodes, {}, cap) == 0
  {
    if nodes != [] {
      NowhereLight(nodes[..|nodes| - 1], cap);
    }
  }

  lemma {:induction false} LightBound(nodes: seq<Alloc>, locations: set<Option<string>>, cap: int, m: nat)
    requires forall location | location in locations :: LightAt(nodes, location, cap) <= m
    ensures Light(nodes, locations, cap) <= m * |locations|
    decreases |locations|
  {
    if locations == {} {
      NowhereLight(nodes, cap);
    } else {
      var x :| x in locations;
      LightSplits(nodes, locations, cap, x);
      LightBound(nodes, locations - {x}, cap, m);
      assert m * |locations| == m * |locations - {x}| + m;
    }
  }

  /** The nodes that are not light hold more than half a node each. */
  lemma {:induction false} HeavyTotal(nodes: seq<Alloc>, locations: set<Option<string>>, cap: int)
    requires Within(nodes, locations)
    ensures Light(nodes, locations, cap) <= |nodes|
    ensures 2 * SumTotals(nodes) >= (|nodes| - Light(nodes, locations, cap)) * (cap + 1)
  {
    if nodes != [] {
      var n := |nodes| - 1;
      HeavyTotal(nodes[..n], locations, cap);
      PackedAppend(nodes[..n], [nodes[n]]);
      PackedOne(nodes[n]);
      assert nodes == nodes[..n] + [nodes[n]];
      var h := n - Light(nodes[..n], locations, cap);
      assert (h + 1) * (cap + 1) == h * (cap + 1) + (cap + 1);
    }
  }

  lemma TimesGrows(a: int, b: int, c: int)
    requires c >= 0
    ensures a <= b ==> a * c <= b * c
  {
  }

  lemma FewHeavy(h: int, cap: int, free: int, total: int)
    requires cap > 0 && 2 * total >= h * (cap + 1) && total <= free * cap
    ensures free > 0 ==> h < 2 * free
    ensures free <= 0 ==> h <= 0
  {
    TimesGrows(2 * free, h, cap + 1);
    TimesGrows(1, h, cap + 1);
    TimesGrows(free, 0, cap);
    assert 2 * free * (cap + 1) == 2 * (free * cap) + 2 * free;
  }

  /** With jobs of at most m pieces at given locations, the nodes planned for a resource are fewer than twice its free
      ones and m for each location; if none is free, at most m for each location. */
  lemma FewerThanTwiceAndLight(jobs: seq<Job>, workerNodes: nat, sites: map<string, Site>,
                               places: nat -> Option<string>, locations: set<Option<string>>, account: string, m: nat)
    requires SitesOk(sites) && account in sites && Cap(sites[account]) > 0 && AllReadable(jobs, workerNodes, |jobs|)
    requires NonNegative(jobs, workerNodes, 0) && AtMostPieces(jobs, workerNodes, m)
    requires forall j: nat :: places(j) in locations
    ensures var n := |NodesOf(PlanAfter(jobs, workerNodes, sites, places, |jobs|).allocs, account)|;
            var free := sites[account].available;
            && (free > 0 ==> n < 2 * free + m * |locations|)
            && (free <= 0 ==> n <= m * |locations|)
  {
    var cap := Cap(sites[account]);
    var plan := PlanAfter(jobs, workerNodes, sites, places, |jobs|);
    var nodes := NodesOf(plan.allocs, account);
    PlannedFewLight(jobs, workerNodes, sites, places, locations, account, m, |jobs|);
    LightBound(nodes, locations, cap, m);
    HeavyTotal(nodes, locations, cap);
    if account in plan.allocs {
      PlannedOk(jobs, workerNodes, sites, places, true, |jobs|);
      assert AccountOk(plan.allocs[account], sites[account], places, |jobs|);
      FewHeavy(|nodes| - Light(nodes, locations, cap), cap, sites[account].available, SumTotals(nodes));
    } else {
      assert 0 <= m * |locations|;
    }
  }

  // ----- the bound for single nodes is attained -----

  /** A job for one node with the given number of cores. */
  function CoresJob(cores: nat): Job {
    Job(7, map["queue" := "long", NODES := Digits(cores)], 5)
  }

  lemma CoresAreAsked(cores: nat, workerNodes: nat)
    ensures AskOf(CoresJob(cores), workerNodes) == Ok(Ask([cores], "long")) && Readable(CoresJob(cores), workerNodes)
  {
    DigitsAreRead(cores);
    DigitsAreBare(Digits(cores));
    TotalIsAsked(Digits(cores), cores, workerNodes);
  }

  lemma TotalIsAsked(s: string, cores: int, workerNodes: nat)
    requires ToInt(s) == Ok(cores)
    ensures var job := Job(7, map["queue" := "long", NODES := s], 5);
            AskOf(job, workerNodes) == Ok(Ask([cores], "long")) && Readable(job, workerNodes)
  {
    ReadExactly(Job(7, map["queue" := "long", NODES := s], 5), workerNodes);
  }

  /** The plan has one node for each job, with the cores of one job each. */
  ghost predicate OneEach(nodes: seq<Alloc>, cores: int, n: nat) {
    |nodes| == n && SumTotals(nodes) == n * cores && forall i :: 0 <= i < |nodes| ==> Total(nodes[i]) == cores
  }

  lemma SortedOneEach(nodes: seq<Alloc>, cores: int, n: nat)
    requires OneEach(nodes, cores, n)
    ensures OneEach(Sort(nodes, FewerCores), cores, n)
  {
    var s := Sort(nodes, FewerCores);
    SortPermutes(nodes, FewerCores);
    PackedSort(nodes);
    forall i | 0 <= i < |s|
      ensures Total(s[i]) == cores
    {
      assert s[i] in multiset(s);
    }
  }

  lemma AddedOneEach(s: seq<Alloc>, a: Alloc, cores: int, n: nat)
    requires OneEach(s, cores, n) && Total(a) == cores
    ensures OneEach(s + [a], cores, n + 1)
  {
    PackedAppend(s, [a]);
    PackedOne(a);
    assert (n + 1) * cores == n * cores + cores;
  }

  /** A job of one piece that fits no planned node gets a new one. */
  lemma OneMore(nodes: seq<Alloc>, p: Piece, at: Option<string>, cap: int, n: nat)
    requires OneEach(nodes, p.cores, n) && 2 * p.cores > cap
    ensures OneEach(Pack(nodes, [p], at, cap), p.cores, n + 1)
  {
    var s := Sort(nodes, FewerCores);
    SortedOneEach(nodes, p.cores, n);
    SingleIsNew(nodes, p, at, cap);
    SumOne(p);
    AddedOneEach(s, NewNode(p, at), p.cores, n);
  }

  /** One resource with f free nodes of 2 f - 1 cores. */
  ghost predicate Odd(sites: map<string, Site>, f: nat) {
    && sites.Keys == {"default"} && SitesOk(sites) && Cap(sites["default"]) == 2 * f - 1
    && sites["default"].available == f
  }

  lemma {:induction false} OnePerJob(jobs: seq<Job>, workerNodes: nat, sites: map<string, Site>,
                                     places: nat -> Option<string>, f: nat, k: nat)
    requires f >= 1 && Odd(sites, f) && k <= |jobs| && |jobs| == 2 * f - 1
    requires forall j :: 0 <= j < |jobs| ==> jobs[j] == CoresJob(f)
    requires forall j: nat :: places(j) == Some("MEL")
    ensures AllReadable(jobs, workerNodes, k)
    ensures OneEach(NodesOf(PlanAfter(jobs, workerNodes, sites, places, k).allocs, "default"), f, k)
  {
    CoresAreAsked(f, workerNodes);
    if k > 0 {
      OnePerJob(jobs, workerNodes, sites, places, f, k - 1);
      PlanNext(jobs, workerNodes, sites, places, k - 1);
      AdmitOneMore(PlanAfter(jobs, workerNodes, sites, places, k - 1), sites, f, k - 1);
    } else {
      assert NodesOf(PlanAfter(jobs, workerNodes, sites, places, 0).allocs, "default") == [];
    }
  }

  lemma StillRoom(k: nat, f: nat)
    requires f >= 1 && k < 2 * f - 1
    ensures k * f + f <= f * (2 * f - 1)
  {
    TimesGrows(k + 1, 2 * f - 1, f);
  }

  lemma AdmitOneMore(plan: Plan, sites: map<string, Site>, f: nat, k: nat)
    requires f >= 1 && Odd(sites, f) && k < 2 * f - 1 && OneEach(NodesOf(plan.allocs, "default"), f, k)
    ensures var r := Considered(plan, sites, Ask([f], "long"), Some("MEL"), true);
            r.Ok? && OneEach(NodesOf(r.value.allocs, "default"), f, k + 1)
  {
    GoesToDefault(plan.allocs, sites, f, k);
    ConsideredNodes(plan, sites, Ask([f], "long"), Some("MEL"), "default");
    var p := Piece(f, |plan.routes|);
    assert Pieces([f], |plan.routes|) == [p];
    OneMore(NodesOf(plan.allocs, "default"), p, Some("MEL"), 2 * f - 1, k);
  }

  lemma GoesToDefault(allocs: map<string, seq<Alloc>>, sites: map<string, Site>, f: nat, k: nat)
    requires f >= 1 && Odd(sites, f) && k < 2 * f - 1 && SumTotals(NodesOf(allocs, "default")) == k * f
    ensures Route(allocs, sites, Ask([f], "long"), Some("MEL")) == Some("default")
  {
    StillRoom(k, f);
    assert Sum([f]) == f by {
      assert [f][1..] == [];
    }
    assert FreeCores(sites["default"]) == f * (2 * f - 1);
  }

  lemma SingleStays<T>(x: T, key: T -> int)
    ensures Sort([x], key) == [x]
  {
    assert [x][1..] == [];
    assert Sort([x][1..], key) == [];
  }

  lemma OneFlavor(available: int, flavor: Flavor)
    ensures Ordered(Site(available, [flavor])) == [flavor]
  {
    SingleStays(flavor, FewerVcpus);
  }

  /** For every number f of free nodes there are jobs for which 2 f - 1 nodes are planned: the bound cannot be
      lowered, and for f > 1 the plan is larger than the quota allows. */
  lemma TwiceIsAttained(f: nat, workerNodes: nat, places: nat -> Option<string>)
    requires f >= 1 && forall j: nat :: places(j) == Some("MEL")
    ensures var sites := map["default" := Site(f, [Flavor("odd", 2 * f - 1)])];
            var jobs := seq(2 * f - 1, _ => CoresJob(f));
            && SitesOk(sites) && AllReadable(jobs, workerNodes, |jobs|)
            && |NodesOf(PlanAfter(jobs, workerNodes, sites, places, |jobs|).allocs, "default")| == 2 * f - 1
  {
    var sites := map["default" := Site(f, [Flavor("odd", 2 * f - 1)])];
    var jobs := seq(2 * f - 1, _ => CoresJob(f));
    OneFlavor(f, Flavor("odd", 2 * f - 1));
    OnePerJob(jobs, workerNodes, sites, places, f, |jobs|);
  }
}
