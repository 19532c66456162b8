/** The capacity planner of job_scheduler.py: which idle jobs get new VMs, how their pieces are packed into
    nodes, and which flavor each node is started with. */
module JobScheduler {
  import opened Outcomes
  import opened Sequences
  import opened Strings
  import opened CloudTools
  import opened Priorities

  /** One entry of a node's vcpu_list. The job it comes from is history: nothing depends on it. */
  datatype Piece = Piece(cores: int, job: nat)

  /** ResAllocation: a planned node. */
  datatype Alloc = Alloc(pieces: seq<Piece>, location: Option<string>)

  function SumPieces(pieces: seq<Piece>): int {
    if pieces == [] then 0 else SumPieces(pieces[..|pieces| - 1]) + pieces[|pieces| - 1].cores
  }

  /** get_total_num_cores */
  function Total(a: Alloc): int { SumPieces(a.pieces) }

  function FewerCores(a: Alloc): int { -Total(a) }

  function SumTotals(nodes: seq<Alloc>): int {
    if nodes == [] then 0 else Total(nodes[0]) + SumTotals(nodes[1..])
  }

  function Sum(s: seq<int>): int {
    if s == [] then 0 else s[0] + Sum(s[1..])
  }

  function Push(a: Alloc, p: Piece): Alloc {
    a.(pieces := a.pieces + [p])
  }

  function NewNode(p: Piece, location: Option<string>): Alloc {
    Alloc([p], location)
  }

  // ----- what a job asks for -----

  /** int(s): surrounding white space and a sign are allowed. */
  function ToInt(s: string): Result<int> {
    var t := Strip(s);
    var signed := t != [] && (t[0] == '-' || t[0] == '+');
    var digits := if signed then t[1..] else t;
    if !IsDigit(digits) then Raised(ValueError)
    else
      var value: int := DigitsValue(digits);
      Ok(if signed && t[0] == '-' then -value else value)
  }

  const NCPUS := "Resource_List.ncpus"
  const NEEDNODES := "Resource_List.neednodes"
  const NODES := "Resource_List.nodes"

  /** The cores of each piece, if the request is understood, and the account or queue. */
  datatype Requirement = Requirement(vcpus: Option<seq<int>>, account: string)

  function CountOr1(s: string): nat {
    if IsDigit(s) then DigitsValue(s) else 1
  }

  /** _get_vcpu_requirement, without the location */
  function VcpuRequirement(attrs: map<string, string>): Result<Requirement> {
    if "Account_Name" !in attrs && "queue" !in attrs then Raised(KeyError)
    else
      var account := if "Account_Name" in attrs then attrs["Account_Name"] else attrs["queue"];
      if NEEDNODES in attrs && NCPUS in attrs then
        Ok(Requirement(Some(Repeat<int>(CountOr1(attrs[NCPUS]), CountOr1(attrs[NEEDNODES]))), account))
      else if NODES in attrs then
        match ToInt(attrs[NODES]) {
          case Ok(n) => Ok(Requirement(Some([n]), account))
          case Raised(e) => Raised(e)
        }
      else if NCPUS !in attrs && NEEDNODES !in attrs then Ok(Requirement(Some([1]), account))
      else Ok(Requirement(None, account))
  }

  /** A job to place, or one to pass over: without priority while there are worker nodes, or asking for nothing. */
  datatype Ask = PassOver | Ask(vcpus: seq<int>, account: string)

  function AskOf(job: Job, workerNodes: nat): Result<Ask> {
    if job.priority == -1 && workerNodes > 0 then Ok(PassOver)
    else
      match VcpuRequirement(job.attrs) {
        case Raised(e) => Raised(e)
        case Ok(r) => if r.vcpus == None || r.vcpus == Some([]) then Ok(PassOver) else Ok(Ask(r.vcpus.value, r.account))
      }
  }

  function Pieces(vcpus: seq<int>, job: nat): seq<Piece> {
    seq(|vcpus|, i requires 0 <= i < |vcpus| => Piece(vcpus[i], job))
  }

  // ----- admission -----

  /** A resource has flavors, and there is a default resource. */
  ghost predicate SitesOk(sites: map<string, Site>) {
    "default" in sites && forall a | a in sites :: sites[a].flavors != []
  }

  function NodesOf(allocs: map<string, seq<Alloc>>, account: string): seq<Alloc> {
    if account in allocs then allocs[account] else []
  }

  predicate HaveEnoughCores(allocs: map<string, seq<Alloc>>, sites: map<string, Site>, account: string, vcpus: seq<int>)
    requires account in sites && vcpus != []
  {
    && SumTotals(NodesOf(allocs, account)) + Sum(vcpus) <= FreeCores(sites[account])
    && vcpus[0] <= Cap(sites[account])
  }

  /** The resource that takes the job: its own, else the default one, else none. */
  function Route(allocs: map<string, seq<Alloc>>, sites: map<string, Site>, ask: Ask, location: Option<string>)
    : Option<string>
    requires ask.Ask? && ask.vcpus != [] && "default" in sites
  {
    var account := if ask.account in sites then ask.account else "default";
    if account != "default" && HaveEnoughCores(allocs, sites, account, ask.vcpus) then Some(account)
    else if HaveEnoughCores(allocs, sites, "default", ask.vcpus) && Some(account) != location then Some("default")
    else None
  }

  // ----- packing -----

  predicate Fits(a: Alloc, cores: int, location: Option<string>, cap: int) {
    a.location == location && Total(a) + cores <= cap
  }

  /** How many pieces the first i nodes take. */
  function Taken(nodes: seq<Alloc>, pieces: seq<Piece>, location: Option<string>, cap: int, i: nat): (idx: nat)
    requires i <= |nodes|
    ensures idx <= |pieces| && idx <= i
  {
    if i == 0 then 0
    else
      var idx := Taken(nodes, pieces, location, cap, i - 1);
      if idx < |pieces| && Fits(nodes[i - 1], pieces[idx].cores, location, cap) then idx + 1 else idx
  }

  /** Node i after the pass. */
  function Placed(nodes: seq<Alloc>, pieces: seq<Piece>, location: Option<string>, cap: int, i: nat): Alloc
    requires i < |nodes|
  {
    var idx := Taken(nodes, pieces, location, cap, i);
    if idx < |pieces| && Fits(nodes[i], pieces[idx].cores, location, cap) then Push(nodes[i], pieces[idx]) else nodes[i]
  }

  function PlacedUpTo(nodes: seq<Alloc>, pieces: seq<Piece>, location: Option<string>, cap: int, i: nat): seq<Alloc>
    requires i <= |nodes|
  {
    if i == 0 then []
    else PlacedUpTo(nodes, pieces, location, cap, i - 1) + [Placed(nodes, pieces, location, cap, i - 1)]
  }

  function NewNodes(pieces: seq<Piece>, location: Option<string>): seq<Alloc> {
    if pieces == [] then []
    else NewNodes(pieces[..|pieces| - 1], location) + [NewNode(pieces[|pieces| - 1], location)]
  }

  /** The nodes of a resource after a job's pieces are placed: the fullest nodes come first. */
  function Pack(nodes: seq<Alloc>, pieces: seq<Piece>, location: Option<string>, cap: int): seq<Alloc> {
    var s := Sort(nodes, FewerCores);
    PlacedUpTo(s, pieces, location, cap, |s|) + NewNodes(pieces[Taken(s, pieces, location, cap, |s|)..], location)
  }

  /** The loop as written looks up the next piece at every node of the location, also when none is left. */
  predicate LooksPastEnd(nodes: seq<Alloc>, pieces: seq<Piece>, location: Option<string>, cap: int, i: nat)
    requires i < |nodes|
  {
    nodes[i].location == location && Taken(nodes, pieces, location, cap, i) >= |pieces|
  }

  predicate RunsPastEnd(nodes: seq<Alloc>, pieces: seq<Piece>, location: Option<string>, cap: int) {
    var s := Sort(nodes, FewerCores);
    exists i :: 0 <= i < |s| && LooksPastEnd(s, pieces, location, cap, i)
  }

  lemma {:induction false} PlacedLength(s: seq<Alloc>, pieces: seq<Piece>, location: Option<string>, cap: int, i: nat)
    requires i <= |s|
    ensures |PlacedUpTo(s, pieces, location, cap, i)| == i
  {
    if i > 0 {
      PlacedLength(s, pieces, location, cap, i - 1);
    }
  }

  lemma PlacedNext(s: seq<Alloc>, pieces: seq<Piece>, location: Option<string>, cap: int, i: nat)
    requires i < |s|
    ensures var out := PlacedUpTo(s, pieces, location, cap, i) + s[i..];
            && |out| == |s| && out[i] == s[i]
            && out[i := Placed(s, pieces, location, cap, i)] == PlacedUpTo(s, pieces, location, cap, i + 1) + s[i + 1..]
  {
    PlacedLength(s, pieces, location, cap, i);
    assert s[i..] == [s[i]] + s[i + 1..];
  }

  /** The step of the loop at node i: outs are the node lists before each step, idxs the pieces taken. */
  ghost predicate PlacedAt(s: seq<Alloc>, pieces: seq<Piece>, location: Option<string>, cap: int,
                           outs: seq<seq<Alloc>>, idxs: seq<nat>, i: nat)
    requires |outs| == |s| + 1 == |idxs| && i < |s|
  {
    && |outs[i]| == |s| && outs[i][i] == s[i] && idxs[i] <= |pieces|
    && (LooksPastEnd(s, pieces, location, cap, i) <==> s[i].location == location && idxs[i] >= |pieces|)
    && if idxs[i] < |pieces| && Fits(s[i], pieces[idxs[i]].cores, location, cap) then
         outs[i + 1] == outs[i][i := Push(s[i], pieces[idxs[i]])] && idxs[i + 1] == idxs[i] + 1
       else outs[i + 1] == outs[i] && idxs[i + 1] == idxs[i]
  }

  lemma PlaceStep(s: seq<Alloc>, pieces: seq<Piece>, location: Option<string>, cap: int, outs: seq<seq<Alloc>>,
                  idxs: seq<nat>, i: nat)
    requires |outs| == |s| + 1 == |idxs| && i < |s|
    requires outs[i] == PlacedUpTo(s, pieces, location, cap, i) + s[i..]
    requires outs[i + 1] == PlacedUpTo(s, pieces, location, cap, i + 1) + s[i + 1..]
    requires idxs[i] == Taken(s, pieces, location, cap, i) && idxs[i + 1] == Taken(s, pieces, location, cap, i + 1)
    ensures PlacedAt(s, pieces, location, cap, outs, idxs, i)
  {
    PlacedNext(s, pieces, location, cap, i);
  }

  lemma PlaceTrace(s: seq<Alloc>, pieces: seq<Piece>, location: Option<string>, cap: int)
    returns (outs: seq<seq<Alloc>>, idxs: seq<nat>)
    ensures |outs| == |s| + 1 == |idxs| && outs[0] == s && idxs[0] == 0
    ensures outs[|s|] == PlacedUpTo(s, pieces, location, cap, |s|) && idxs[|s|] == Taken(s, pieces, location, cap, |s|)
    ensures forall i: nat | i < |s| :: PlacedAt(s, pieces, location, cap, outs, idxs, i)
  {
    var n := |s|;
    outs := seq(n + 1, i requires 0 <= i <= n => PlacedUpTo(s, pieces, location, cap, i) + s[i..]);
    idxs := seq(n + 1, i requires 0 <= i <= n => Taken(s, pieces, location, cap, i));
    assert s[0..] == s && s[n..] == [];
    forall i: nat | i < |s|
      ensures PlacedAt(s, pieces, location, cap, outs, idxs, i)
    {
      PlaceStep(s, pieces, location, cap, outs, idxs, i);
    }
  }

  /** The loop over the nodes, fullest first: each takes the next piece if it is of the location and has room. */
  method PlacePieces(s: seq<Alloc>, pieces: seq<Piece>, location: Option<string>, cap: int, guarded: bool)
    returns (r: Result<seq<Alloc>>, idx: nat)
    ensures !guarded && (exists j :: 0 <= j < |s| && LooksPastEnd(s, pieces, location, cap, j))
            ==> r == Raised(IndexError)
    ensures guarded || (forall j :: 0 <= j < |s| ==> !LooksPastEnd(s, pieces, location, cap, j))
            ==> r == Ok(PlacedUpTo(s, pieces, location, cap, |s|)) && idx == Taken(s, pieces, location, cap, |s|)
  {
    ghost var outs, idxs := PlaceTrace(s, pieces, location, cap);
    var out := s;
    idx := 0;
    for i := 0 to |s|
      invariant out == outs[i] && idx == idxs[i]
      invariant guarded || forall j :: 0 <= j < i ==> !LooksPastEnd(s, pieces, location, cap, j)
    {
      assert PlacedAt(s, pieces, location, cap, outs, idxs, i);
      if out[i].location == location {
        if idx >= |pieces| {
          if !guarded {
            assert LooksPastEnd(s, pieces, location, cap, i);
            return Raised(IndexError), idx;
          }
        } else if Total(out[i]) + pieces[idx].cores <= cap {
          out := out[i := Push(out[i], pieces[idx])];
          idx := idx + 1;
        }
      }
    }
    r := Ok(out);
  }

  /** add_new_requirement_to_list for a resource that already has nodes, or none. With the guard, no piece is
      looked up when none is left; without it, the lookup raises IndexError. */
  method AddNewRequirement(nodes: seq<Alloc>, pieces: seq<Piece>, location: Option<string>, cap: int, guarded: bool)
    returns (r: Result<seq<Alloc>>)
    ensures r == if !guarded && RunsPastEnd(nodes, pieces, location, cap) then Raised(IndexError)
                 else Ok(Pack(nodes, pieces, location, cap))
  {
    var s := Sort(nodes, FewerCores);
    var idx;
    r, idx := PlacePieces(s, pieces, location, cap, guarded);
    if r.Ok? {
      var out := AppendNewNodes(r.value, pieces[idx..], location);
      r := Ok(out);
    }
  }

  method AppendNewNodes(nodes: seq<Alloc>, pieces: seq<Piece>, location: Option<string>) returns (out: seq<Alloc>)
    ensures out == nodes + NewNodes(pieces, location)
  {
    out := nodes;
    var i := 0;
    while i < |pieces|
      invariant i <= |pieces| && out == nodes + NewNodes(pieces[..i], location)
    {
      assert pieces[..i + 1][..i] == pieces[..i];
      out := out + [NewNode(pieces[i], location)];
      i := i + 1;
    }
    assert pieces[..i] == pieces;
  }

  // ----- the plan -----

  /** The planned nodes of each resource, and which resource each job so far went to. */
  datatype Plan = Plan(allocs: map<string, seq<Alloc>>, routes: seq<Option<string>>)

  /** The plan with one more job; `location` is the location property the job is given. */
  function Considered(plan: Plan, sites: map<string, Site>, ask: Ask, location: Option<string>, guarded: bool)
    : Result<Plan>
    requires "default" in sites
  {
    if ask.PassOver? || ask.vcpus == [] then Ok(plan.(routes := plan.routes + [None]))
    else
      var route := Route(plan.allocs, sites, ask, location);
      if route.None? then Ok(plan.(routes := plan.routes + [None]))
      else
        var nodes := NodesOf(plan.allocs, route.value);
        var pieces := Pieces(ask.vcpus, |plan.routes|);
        var cap := if route.value in sites then Cap(sites[route.value]) else 0;
        if !guarded && RunsPastEnd(nodes, pieces, location, cap) then Raised(IndexError)
        else Ok(Plan(plan.allocs[route.value := Pack(nodes, pieces, location, cap)], plan.routes + [route]))
  }

  /** The plan for the first k jobs. `places` gives the location property of each job. */
  function Planned(jobs: seq<Job>, workerNodes: nat, sites: map<string, Site>, places: nat -> Option<string>,
                   guarded: bool, k: nat): Result<Plan>
    requires k <= |jobs| && "default" in sites
  {
    if k == 0 then Ok(Plan(map[], []))
    else
      match Planned(jobs, workerNodes, sites, places, guarded, k - 1) {
        case Raised(e) => Raised(e)
        case Ok(plan) =>
          match AskOf(jobs[k - 1], workerNodes) {
            case Raised(e) => Raised(e)
            case Ok(ask) => Considered(plan, sites, ask, places(k - 1), guarded)
          }
      }
  }

  method ConsiderJob(plan: Plan, sites: map<string, Site>, ask: Ask, location: Option<string>, guarded: bool)
    returns (r: Result<Plan>)
    requires SitesOk(sites)
    ensures r == Considered(plan, sites, ask, location, guarded)
  {
    if ask.PassOver? || ask.vcpus == [] {
      return Ok(plan.(routes := plan.routes + [None]));
    }
    var route := Route(plan.allocs, sites, ask, location);
    if route.None? {
      return Ok(plan.(routes := plan.routes + [None]));
    }
    var pieces := Pieces(ask.vcpus, |plan.routes|);
    var nodes := NodesOf(plan.allocs, route.value);
    var packed := AddNewRequirement(nodes, pieces, location, Cap(sites[route.value]), guarded);
    match packed
    case Raised(e) => r := Raised(e);
    case Ok(after) => r := Ok(Plan(plan.allocs[route.value := after], plan.routes + [route]));
  }

  // ----- flavors -----

  /** The first flavor of the list that covers the cores. */
  function FirstCovering(flavors: seq<Flavor>, cores: int): Option<Flavor> {
    if flavors == [] then None
    else if flavors[0].vcpus >= cores then Some(flavors[0])
    else FirstCovering(flavors[1..], cores)
  }

  /** best_flavor_from_node: the first covering flavor in ascending order, else the smallest. */
  function BestFlavor(site: Site, cores: int): Flavor
    requires site.flavors != []
  {
    var ascending := Sort(Ordered(site), Vcpus);
    var f := FirstCovering(ascending, cores);
    if f.Some? then f.value else if ascending == [] then site.flavors[0] else ascending[0]
  }

  ghost predicate IsSmallestCovering(f: Flavor, flavors: seq<Flavor>, cores: int) {
    && f in flavors && f.vcpus >= cores
    && forall g | g in flavors && g.vcpus >= cores :: f.vcpus <= g.vcpus
  }

  lemma {:induction false} FirstCoveringIsFirst(flavors: seq<Flavor>, cores: int, i: nat)
    requires i < |flavors| && flavors[i].vcpus >= cores
    requires forall j :: 0 <= j < i ==> flavors[j].vcpus < cores
    ensures FirstCovering(flavors, cores) == Some(flavors[i])
  {
    if i > 0 {
      FirstCoveringIsFirst(flavors[1..], cores, i - 1);
    }
  }

  lemma {:induction false} NoneCovers(flavors: seq<Flavor>, cores: int)
    requires forall j :: 0 <= j < |flavors| ==> flavors[j].vcpus < cores
    ensures FirstCovering(flavors, cores) == None
  {
    if flavors != [] {
      NoneCovers(flavors[1..], cores);
    }
  }

  method BestFlavorFromNode(site: Site, node: Alloc) returns (flavor: Flavor)
    requires site.flavors != []
    ensures flavor == BestFlavor(site, Total(node))
  {
    var cores := Total(node);
    var ascending := Sort(Ordered(site), Vcpus);
    SortLength(site.flavors, FewerVcpus);
    SortLength(Ordered(site), Vcpus);
    var i := 0;
    while i < |ascending|
      invariant i <= |ascending|
      invariant forall j :: 0 <= j < i ==> ascending[j].vcpus < cores
    {
      if ascending[i].vcpus >= cores {
        FirstCoveringIsFirst(ascending, cores, i);
        return ascending[i];
      }
      i := i + 1;
    }
    NoneCovers(ascending, cores);
    return ascending[0];
  }

  // ----- from nodes to requests -----

  /** The request for a planned node; `zone` turns a location property into a zone. */
  function RequestFor(sites: map<string, Site>, zone: Option<string> -> Option<string>, account: string, node: Alloc)
    : ProvisionVM
    requires account in sites && sites[account].flavors != []
  {
    ProvisionVM(BestFlavor(sites[account], Total(node)).id, zone(node.location), account, false)
  }

  /** The requests list the planned nodes one for one: request i is for node owners[i].1 of resource owners[i].0,
      and every node has exactly one request. */
  ghost predicate Lists(requests: seq<ProvisionVM>, owners: seq<(string, nat)>, allocs: map<string, seq<Alloc>>,
                        sites: map<string, Site>, zone: Option<string> -> Option<string>)
    requires SitesOk(sites)
  {
    && |owners| == |requests| && NoDup(owners)
    && (forall i :: 0 <= i < |owners| ==>
          var (a, j) := owners[i];
          a in allocs && a in sites && j < |allocs[a]| && requests[i] == RequestFor(sites, zone, a, allocs[a][j]))
    && (forall a, j: nat :: a in allocs && j < |allocs[a]| ==> (a, j) in owners)
  }

  lemma ListedAreDynamic(requests: seq<ProvisionVM>, owners: seq<(string, nat)>, allocs: map<string, seq<Alloc>>,
                         sites: map<string, Site>, zone: Option<string> -> Option<string>)
    requires SitesOk(sites) && Lists(requests, owners, allocs, sites, zone)
    ensures forall p | p in requests :: p.resource in allocs && !p.isStatic
  {
    forall i | 0 <= i < |requests|
      ensures requests[i].resource in allocs && !requests[i].isStatic
    {
      var (a, j) := owners[i];
      assert requests[i] == RequestFor(sites, zone, a, allocs[a][j]);
    }
  }

  method ConvertNodes(sites: map<string, Site>, zone: Option<string> -> Option<string>, account: string,
                      nodes: seq<Alloc>)
    returns (requests: seq<ProvisionVM>)
    requires SitesOk(sites) && account in sites
    ensures |requests| == |nodes|
    ensures forall j :: 0 <= j < |nodes| ==> requests[j] == RequestFor(sites, zone, account, nodes[j])
  {
    requests := [];
    for i := 0 to |nodes|
      invariant |requests| == i
      invariant forall j :: 0 <= j < i ==> requests[j] == RequestFor(sites, zone, account, nodes[j])
    {
      var f := BestFlavorFromNode(sites[account], nodes[i]);
      requests := requests + [ProvisionVM(f.id, zone(nodes[i].location), account, false)];
    }
  }

  /** The nodes of one resource, by position. */
  ghost function OwnersOf(account: string, n: nat): seq<(string, nat)> {
    seq(n, j requires 0 <= j < n => (account, j))
  }

  /** convert_req_list_to_flavor: the resources come in the dictionary's arbitrary order. */
  method ConvertReqListToFlavor(allocs: map<string, seq<Alloc>>, sites: map<string, Site>,
                                zone: Option<string> -> Option<string>)
    returns (requests: seq<ProvisionVM>, ghost owners: seq<(string, nat)>)
    requires SitesOk(sites) && forall a | a in allocs :: a in sites
    ensures Lists(requests, owners, allocs, sites, zone)
    ensures forall p | p in requests :: p.resource in allocs && !p.isStatic
  {
    requests, owners := [], [];
    var todo := allocs.Keys;
    while todo != {}
      invariant todo <= allocs.Keys
      invariant |owners| == |requests| && NoDup(owners)
      invariant forall i :: 0 <= i < |owners| ==>
        var (a, j) := owners[i];
        a in allocs && a !in todo && j < |allocs[a]| && requests[i] == RequestFor(sites, zone, a, allocs[a][j])
      invariant forall a, j: nat :: a in allocs && a !in todo && j < |allocs[a]| ==> (a, j) in owners
    {
      var account :| account in todo;
      var more := ConvertNodes(sites, zone, account, allocs[account]);
      ghost var next := owners + OwnersOf(account, |more|);
      forall a, j: nat | a in allocs && a !in todo - {account} && j < |allocs[a]|
        ensures (a, j) in next
      {
        if a == account {
          assert OwnersOf(account, |more|)[j] == (a, j);
        }
      }
      requests, owners := requests + more, next;
      todo := todo - {account};
    }
    ListedAreDynamic(requests, owners, allocs, sites, zone);
  }

  // ----- calculate_new_instances -----

  /** How the plan goes on after k jobs. */
  ghost predicate PlannedAt(jobs: seq<Job>, workerNodes: nat, sites: map<string, Site>, places: nat -> Option<string>,
                            guarded: bool, plans: seq<Result<Plan>>, k: nat)
    requires |plans| == |jobs| + 1 && k < |jobs| && "default" in sites
  {
    match plans[k]
    case Raised(e) => plans[|jobs|] == Raised(e)
    case Ok(plan) =>
      match AskOf(jobs[k], workerNodes) {
        case Raised(e) => plans[|jobs|] == Raised(e)
        case Ok(ask) =>
          && plans[k + 1] == Considered(plan, sites, ask, places(k), guarded)
          && (plans[k + 1].Raised? ==> plans[|jobs|] == plans[k + 1])
      }
  }

  lemma PlanTrace(jobs: seq<Job>, workerNodes: nat, sites: map<string, Site>, places: nat -> Option<string>,
                  guarded: bool)
    returns (plans: seq<Result<Plan>>)
    requires "default" in sites
    ensures |plans| == |jobs| + 1 && plans[0] == Ok(Plan(map[], []))
    ensures plans[|jobs|] == Planned(jobs, workerNodes, sites, places, guarded, |jobs|)
    ensures forall k: nat | k < |jobs| :: PlannedAt(jobs, workerNodes, sites, places, guarded, plans, k)
  {
    plans := seq(|jobs| + 1, k requires 0 <= k <= |jobs| => Planned(jobs, workerNodes, sites, places, guarded, k));
    forall k: nat | k < |jobs|
      ensures PlannedAt(jobs, workerNodes, sites, places, guarded, plans, k)
    {
      if plans[k + 1].Raised? {
        RaisedStays(jobs, workerNodes, sites, places, guarded, k + 1, |jobs|);
      }
    }
  }

  /** The loop over the idle jobs. */
  method PlanJobs(jobs: seq<Job>, workerNodes: nat, sites: map<string, Site>, places: nat -> Option<string>,
                  guarded: bool)
    returns (r: Result<Plan>)
    requires SitesOk(sites)
    ensures r == Planned(jobs, workerNodes, sites, places, guarded, |jobs|)
    ensures r.Ok? ==> forall a | a in r.value.allocs :: a in sites
  {
    ghost var plans := PlanTrace(jobs, workerNodes, sites, places, guarded);
    var plan := Plan(map[], []);
    for k := 0 to |jobs|
      invariant plans[k] == Ok(plan)
      invariant forall a | a in plan.allocs :: a in sites
    {
      assert PlannedAt(jobs, workerNodes, sites, places, guarded, plans, k);
      var ask := AskOf(jobs[k], workerNodes);
      if ask.Raised? {
        return Raised(ask.error);
      }
      var next := ConsiderJob(plan, sites, ask.value, places(k), guarded);
      if next.Raised? {
        return next;
      }
      plan := next.value;
    }
    r := Ok(plan);
  }

  method CalculateNewInstances(jobs: seq<Job>, workerNodes: nat, sites: map<string, Site>,
                               places: nat -> Option<string>, zone: Option<string> -> Option<string>, guarded: bool)
    returns (r: Result<seq<ProvisionVM>>, ghost owners: seq<(string, nat)>)
    requires SitesOk(sites)
    ensures match Planned(jobs, workerNodes, sites, places, guarded, |jobs|)
            case Raised(e) => r == Raised(e)
            case Ok(plan) => r.Ok? && Lists(r.value, owners, plan.allocs, sites, zone)
    ensures r.Ok? ==> forall p | p in r.value :: p.resource in sites && !p.isStatic
  {
    var plan := PlanJobs(jobs, workerNodes, sites, places, guarded);
    match plan
    case Raised(e) => r, owners := Raised(e), [];
    case Ok(p) =>
      var requests;
      requests, owners := ConvertReqListToFlavor(p.allocs, sites, zone);
      r := Ok(requests);
  }

  /** An exception ends the planning. */
  lemma {:induction false} RaisedStays(jobs: seq<Job>, workerNodes: nat, sites: map<string, Site>,
                                       places: nat -> Option<string>, guarded: bool, k: nat, n: nat)
    requires k <= n <= |jobs| && "default" in sites
    requires Planned(jobs, workerNodes, sites, places, guarded, k).Raised?
    ensures Planned(jobs, workerNodes, sites, places, guarded, n)
         == Planned(jobs, workerNodes, sites, places, guarded, k)
  {
    if k < n {
      RaisedStays(jobs, workerNodes, sites, places, guarded, k, n - 1);
    }
  }
}
