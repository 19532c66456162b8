/** The planner as the controller runs it: on the free nodes of the moment and the flavors of the resources. */
module Planning {
  import opened Outcomes
  import opened CloudTools
  import opened Lifecycle
  import opened LifecycleInvariant
  import opened RunLaws
  import opened JobScheduler
  import opened JobRequests
  import opened PlanBounds
  import opened SpreadBounds

  function SitesOf(avail: map<string, int>, flavors: map<string, seq<Flavor>>): map<string, Site> {
    map r | r in avail && r in flavors :: Site(avail[r], flavors[r])
  }

  /** There is a default resource, and every resource has flavors. */
  ghost predicate FlavorsOk(cfg: Config, flavors: map<string, seq<Flavor>>) {
    "default" in cfg.quota && forall r | r in cfg.quota :: r in flavors && flavors[r] != []
  }

  lemma SitesAreOk(cfg: Config, avail: map<string, int>, flavors: map<string, seq<Flavor>>)
    requires FlavorsOk(cfg, flavors) && avail.Keys == cfg.quota.Keys
    ensures SitesOk(SitesOf(avail, flavors)) && SitesOf(avail, flavors).Keys == cfg.quota.Keys
  {
  }

  /** The requests are the planner's for the state: one for each node it plans, or none and the exception. */
  ghost predicate PlansFrom(s: State, flavors: map<string, seq<Flavor>>, places: nat -> Option<string>,
                            zone: Option<string> -> Option<string>, plan: seq<ProvisionVM>, owners: seq<(string, nat)>,
                            failure: Option<Error>)
    requires SitesOk(SitesOf(s.avail, flavors))
  {
    var sites := SitesOf(s.avail, flavors);
    match Planned(s.idle, |s.workerNodes|, sites, places, true, |s.idle|)
    case Raised(e) => plan == [] && failure == Some(e)
    case Ok(p) => failure.None? && Lists(plan, owners, p.allocs, sites, zone)
  }

  /** The planner fails if and only if some idle job cannot be read, and then nothing is asked for. */
  lemma PlansUnlessUnreadable(s: State, flavors: map<string, seq<Flavor>>, places: nat -> Option<string>,
                              zone: Option<string> -> Option<string>, plan: seq<ProvisionVM>,
                              owners: seq<(string, nat)>, failure: Option<Error>)
    requires SitesOk(SitesOf(s.avail, flavors)) && PlansFrom(s, flavors, places, zone, plan, owners, failure)
    ensures failure.None? <==> AllReadable(s.idle, |s.workerNodes|, |s.idle|)
    ensures failure.Some? ==> plan == []
  {
    PlanningSucceeds(s.idle, |s.workerNodes|, SitesOf(s.avail, flavors), places, |s.idle|);
  }

  /** If nodes are planned for the resource, they are fewer than twice the free ones if and only if any is free. */
  ghost predicate PlannedWithin(s: State, sites: map<string, Site>, places: nat -> Option<string>, r: string, free: int)
    requires SitesOk(sites) && AllReadable(s.idle, |s.workerNodes|, |s.idle|)
  {
    var nodes := NodesOf(PlanAfter(s.idle, |s.workerNodes|, sites, places, |s.idle|).allocs, r);
    nodes != [] ==> (|nodes| < 2 * free <==> free > 0)
  }

  /** The jobs ask for one node each, for no negative number of cores, and can be read. */
  ghost predicate SingleNodeJobs(s: State) {
    && SingleNode(s.idle, |s.workerNodes|) && NonNegative(s.idle, |s.workerNodes|, 0)
    && AllReadable(s.idle, |s.workerNodes|, |s.idle|)
  }

  /** In every state of every run: with one location and single-node jobs, the nodes planned for a resource are
      fewer than twice its quota less all its dynamic VMs, existing, starting or deleting, if and only if the
      quota is not used up. */
  lemma RunPlansFewerThanTwice(cfg: Config, st: State, events: seq<Event>, k: nat, q: Query, reps: NodeReports,
                               flavors: map<string, seq<Flavor>>, location: Option<string>,
                               places: nat -> Option<string>, r: string)
    requires ConfigOk(cfg) && Inv(cfg, st) && Run(cfg, st, events) && k <= |events| && r in cfg.quota
    requires FlavorsOk(cfg, flavors) && Cap(Site(0, flavors[r])) > 0
    requires forall j: nat :: places(j) == location
    ensures match PlanningState(cfg, After(cfg, st, events, k), q, reps)
            case None => true
            case Some(s) =>
              && SitesOk(SitesOf(s.avail, flavors))
              && (SingleNodeJobs(s) ==>
                    PlannedWithin(s, SitesOf(s.avail, flavors), places, r, cfg.quota[r] - |DynamicVms(s, r)|))
  {
    var planning := PlanningState(cfg, After(cfg, st, events, k), q, reps);
    if planning.Some? {
      var s := planning.value;
      RunPlansExactly(cfg, st, events, k, q, reps, r);
      AvailableIsConfigured(cfg, After(cfg, st, events, k), q, reps);
      SitesAreOk(cfg, s.avail, flavors);
      if SingleNodeJobs(s) {
        FewerThanTwice(s.idle, |s.workerNodes|, SitesOf(s.avail, flavors), location, places, r);
      }
    }
  }

  /** The jobs ask for at most m nodes each, for no negative number of cores, and can be read. */
  ghost predicate FewPieces(s: State, m: nat) {
    && AtMostPieces(s.idle, |s.workerNodes|, m) && NonNegative(s.idle, |s.workerNodes|, 0)
    && AllReadable(s.idle, |s.workerNodes|, |s.idle|)
  }

  /** At most `more` nodes beyond fewer than twice the free ones, and beyond none if none is free. */
  ghost predicate PlannedFew(s: State, sites: map<string, Site>, places: nat -> Option<string>, r: string, free: int,
                             more: int)
    requires SitesOk(sites) && AllReadable(s.idle, |s.workerNodes|, |s.idle|)
  {
    var nodes := NodesOf(PlanAfter(s.idle, |s.workerNodes|, sites, places, |s.idle|).allocs, r);
    (free > 0 ==> |nodes| < 2 * free + more) && (free <= 0 ==> |nodes| <= more)
  }

  /** With several nodes per job and several locations: fewer than twice the free nodes and, for each location, as
      many as the largest job asks for. */
  lemma RunPlansFew(cfg: Config, st: State, events: seq<Event>, k: nat, q: Query, reps: NodeReports,
                    flavors: map<string, seq<Flavor>>, locations: set<Option<string>>, places: nat -> Option<string>,
                    r: string, m: nat)
    requires ConfigOk(cfg) && Inv(cfg, st) && Run(cfg, st, events) && k <= |events| && r in cfg.quota
    requires FlavorsOk(cfg, flavors) && Cap(Site(0, flavors[r])) > 0
    requires forall j: nat :: places(j) in locations
    ensures match PlanningState(cfg, After(cfg, st, events, k), q, reps)
            case None => true
            case Some(s) =>
              && SitesOk(SitesOf(s.avail, flavors))
              && (FewPieces(s, m) ==>
                    PlannedFew(s, SitesOf(s.avail, flavors), places, r, cfg.quota[r] - |DynamicVms(s, r)|,
                               m * |locations|))
  {
    var planning := PlanningState(cfg, After(cfg, st, events, k), q, reps);
    if planning.Some? {
      var s := planning.value;
      RunPlansExactly(cfg, st, events, k, q, reps, r);
      AvailableIsConfigured(cfg, After(cfg, st, events, k), q, reps);
      SitesAreOk(cfg, s.avail, flavors);
      if FewPieces(s, m) {
        FewerThanTwiceAndLight(s.idle, |s.workerNodes|, SitesOf(s.avail, flavors), places, locations, r, m);
      }
    }
  }

  lemma AvailableIsConfigured(cfg: Config, st: State, q: Query, reps: NodeReports)
    requires PlanningState(cfg, st, q, reps).Some?
    ensures PlanningState(cfg, st, q, reps).value.avail.Keys == cfg.quota.Keys
  {
  }
}
