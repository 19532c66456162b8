/** The records of cloud_tools.py: virtual machines, provisioning requests, the outstanding static
    requirements of a resource, and the resource itself. */
module CloudTools {
  import opened Outcomes
  import opened Sequences

  /** One entry of location_properties: a location property and the zone it stands for. */
  datatype Location = Location(name: string, zone: string)

  /** A request for a new VM. The original repeats one object in a list; nothing ever changes it, and
      `Sequences.RemoveCollected` holds for any equality, so a value does the same. */
  datatype ProvisionVM = ProvisionVM(flavor: string, zone: Option<string>, resource: string, isStatic: bool)

  datatype Flavor = Flavor(id: string, vcpus: int)

  function Vcpus(f: Flavor): int { f.vcpus }

  function FewerVcpus(f: Flavor): int { -f.vcpus }

  /** Static VMs still to be provided at a location. */
  datatype StaticReq = StaticReq(location: string, count: nat)

  /** The fields of a VM that change during its life. */
  datatype Info = Info(dynamic: bool, forceOff: bool, cloudReady: bool, zone: Option<string>,
                       state: Option<string>, stateTime: int, deleteIssued: bool)

  const FRESH := Info(true, false, false, None, Some("N/A"), 0, false)

  class VM {
    const hostname: string
    const vcpus: int
    const flavor: string
    const resource: string
    /** The fields that change. */
    var info: Info

    constructor (hostname: string, vcpus: int, flavor: string, resource: string)
      ensures info == FRESH
      ensures this.hostname == hostname && this.vcpus == vcpus
      ensures this.flavor == flavor && this.resource == resource
    {
      this.hostname, this.vcpus, this.flavor, this.resource := hostname, vcpus, flavor, resource;
      info := FRESH;
    }
  }

  // ----- location_properties -----

  function ZoneOf(locations: seq<Location>, name: string): Option<string> {
    if locations == [] then None
    else if locations[0].name == name then Some(locations[0].zone)
    else ZoneOf(locations[1..], name)
  }

  /** The first location that stands for the zone. */
  function LocationOf(locations: seq<Location>, zone: Option<string>): Option<string> {
    if locations == [] then None
    else if Some(locations[0].zone) == zone then Some(locations[0].name)
    else LocationOf(locations[1..], zone)
  }

  lemma {:induction false} LocationOfMapped(locations: seq<Location>, name: string)
    ensures ZoneOf(locations, name).Some? ==> LocationOf(locations, ZoneOf(locations, name)).Some?
  {
    if locations != [] {
      LocationOfMapped(locations[1..], name);
    }
  }

  lemma {:induction false} LocationOfIsMapped(locations: seq<Location>, zone: Option<string>)
    ensures var l := LocationOf(locations, zone); l.Some? ==> ZoneOf(locations, l.value).Some?
  {
    if locations != [] {
      LocationOfIsMapped(locations[1..], zone);
    }
  }

  // ----- static requirements -----

  /** Every location has a zone, so a lookup cannot raise KeyError. */
  ghost predicate Covered(reqs: seq<StaticReq>, locations: seq<Location>) {
    forall i :: 0 <= i < |reqs| ==> ZoneOf(locations, reqs[i].location).Some?
  }

  /** How many static VMs are still to be provided. */
  function Deficit(reqs: seq<StaticReq>): nat {
    if reqs == [] then 0 else reqs[0].count + Deficit(reqs[1..])
  }

  predicate Suits(req: StaticReq, zone: Option<string>, locations: seq<Location>) {
    (locations == [] || (zone.Some? && ZoneOf(locations, req.location) == zone)) && req.count > 0
  }

  predicate NeedsMore(reqs: seq<StaticReq>) {
    exists i :: 0 <= i < |reqs| && reqs[i].count > 0
  }

  predicate Wants(reqs: seq<StaticReq>, zone: Option<string>, locations: seq<Location>) {
    exists i :: 0 <= i < |reqs| && Suits(reqs[i], zone, locations)
  }

  function TakeOne(reqs: seq<StaticReq>, zone: Option<string>, locations: seq<Location>): seq<StaticReq> {
    if reqs == [] then []
    else if Suits(reqs[0], zone, locations) then [reqs[0].(count := reqs[0].count - 1)] + reqs[1..]
    else [reqs[0]] + TakeOne(reqs[1..], zone, locations)
  }

  function AddReq(reqs: seq<StaticReq>, location: string, count: nat): seq<StaticReq> {
    if reqs == [] then [StaticReq(location, count)]
    else if reqs[0].location == location then [reqs[0].(count := reqs[0].count + count)] + reqs[1..]
    else [reqs[0]] + AddReq(reqs[1..], location, count)
  }

  function Repeat<T>(x: T, n: nat): seq<T> {
    if n == 0 then [] else [x] + Repeat(x, n - 1)
  }

  function ProvisionList(reqs: seq<StaticReq>, flavor: string, resource: string, locations: seq<Location>)
    : seq<ProvisionVM>
  {
    if reqs == [] then []
    else
      ProvisionList(reqs[..|reqs| - 1], flavor, resource, locations)
      + Repeat(ProvisionVM(flavor, ZoneOf(locations, reqs[|reqs| - 1].location), resource, true),
               reqs[|reqs| - 1].count)
  }

  /** A VM is taken as static exactly when some requirement for its zone is open, and then exactly one is met. */
  lemma {:induction false} TakeOneMeetsOne(reqs: seq<StaticReq>, zone: Option<string>, locations: seq<Location>)
    ensures Wants(reqs, zone, locations) ==> Deficit(TakeOne(reqs, zone, locations)) == Deficit(reqs) - 1
    ensures !Wants(reqs, zone, locations) ==> TakeOne(reqs, zone, locations) == reqs
    ensures Covered(reqs, locations) ==> Covered(TakeOne(reqs, zone, locations), locations)
  {
    if reqs != [] {
      TakeOneMeetsOne(reqs[1..], zone, locations);
      var t := TakeOne(reqs[1..], zone, locations);
      if !Suits(reqs[0], zone, locations) {
        assert ([reqs[0]] + t)[1..] == t;
        if Wants(reqs, zone, locations) {
          var i :| 0 <= i < |reqs| && Suits(reqs[i], zone, locations);
          assert Suits(reqs[1..][i - 1], zone, locations);
        }
        if Wants(reqs[1..], zone, locations) {
          var i :| 0 <= i < |reqs| - 1 && Suits(reqs[1..][i], zone, locations);
          assert Suits(reqs[i + 1], zone, locations);
        }
      } else {
        assert Suits(reqs[0], zone, locations);
      }
    }
  }

  lemma {:induction false} AddReqAdds(reqs: seq<StaticReq>, location: string, count: nat, locations: seq<Location>)
    ensures Deficit(AddReq(reqs, location, count)) == Deficit(reqs) + count
    ensures Covered(reqs, locations) && ZoneOf(locations, location).Some?
            ==> Covered(AddReq(reqs, location, count), locations)
  {
    if reqs != [] {
      AddReqAdds(reqs[1..], location, count, locations);
      var t := AddReq(reqs[1..], location, count);
      assert ([reqs[0]] + t)[1..] == t;
    }
  }

  /** The requests for the missing static VMs are all static, and as many as are missing. */
  lemma {:induction false} ProvisionListMeetsDeficit(reqs: seq<StaticReq>, flavor: string, resource: string,
                                                     locations: seq<Location>)
    ensures |ProvisionList(reqs, flavor, resource, locations)| == Deficit(reqs)
    ensures forall r | r in ProvisionList(reqs, flavor, resource, locations) :: r.isStatic && r.resource == resource
  {
    if reqs != [] {
      var n := |reqs| - 1;
      ProvisionListMeetsDeficit(reqs[..n], flavor, resource, locations);
      RepeatIsConstant(ProvisionVM(flavor, ZoneOf(locations, reqs[n].location), resource, true), reqs[n].count);
      DeficitSplits(reqs[..n], [reqs[n]]);
      assert reqs == reqs[..n] + [reqs[n]];
    }
  }

  /** How many static VMs are missing in the zone. */
  function MissingIn(reqs: seq<StaticReq>, locations: seq<Location>, zone: string): nat {
    if reqs == [] then 0
    else
      (if ZoneOf(locations, reqs[0].location) == Some(zone) then reqs[0].count else 0)
      + MissingIn(reqs[1..], locations, zone)
  }

  /** When there are locations, a VM is taken exactly if some static VM is missing in its zone, and then one fewer is
      missing there and as many as before elsewhere. */
  lemma {:induction false} TakeOneInZone(reqs: seq<StaticReq>, zone: string, locations: seq<Location>, other: string)
    requires locations != []
    ensures Wants(reqs, Some(zone), locations) <==> MissingIn(reqs, locations, zone) > 0
    ensures MissingIn(TakeOne(reqs, Some(zone), locations), locations, other)
         == MissingIn(reqs, locations, other)
            - if other == zone && MissingIn(reqs, locations, zone) > 0 then 1 else 0
  {
    if reqs != [] {
      TakeOneInZone(reqs[1..], zone, locations, other);
      var t := TakeOne(reqs[1..], Some(zone), locations);
      if Suits(reqs[0], Some(zone), locations) {
        assert ([reqs[0].(count := reqs[0].count - 1)] + reqs[1..])[1..] == reqs[1..];
      } else {
        assert ([reqs[0]] + t)[1..] == t;
        if Wants(reqs, Some(zone), locations) {
          var i :| 0 <= i < |reqs| && Suits(reqs[i], Some(zone), locations);
          assert Suits(reqs[1..][i - 1], Some(zone), locations);
        }
        if Wants(reqs[1..], Some(zone), locations) {
          var i :| 0 <= i < |reqs| - 1 && Suits(reqs[1..][i], Some(zone), locations);
          assert Suits(reqs[i + 1], Some(zone), locations);
        }
      }
    }
  }

  /** A VM without a zone is never taken. */
  lemma NoZoneNotTaken(reqs: seq<StaticReq>, locations: seq<Location>)
    requires locations != []
    ensures !Wants(reqs, None, locations)
  {
    assert forall i :: 0 <= i < |reqs| ==> !Suits(reqs[i], None, locations);
  }

  /** A new requirement adds to the zone of its location only. */
  lemma {:induction false} AddReqInZone(reqs: seq<StaticReq>, location: string, count: nat, locations: seq<Location>,
                                        zone: string)
    ensures MissingIn(AddReq(reqs, location, count), locations, zone)
         == MissingIn(reqs, locations, zone) + if ZoneOf(locations, location) == Some(zone) then count else 0
  {
    if reqs != [] && reqs[0].location != location {
      AddReqInZone(reqs[1..], location, count, locations, zone);
      var t := AddReq(reqs[1..], location, count);
      assert ([reqs[0]] + t)[1..] == t;
    }
  }

  function AsksIn(zone: string): ProvisionVM -> bool {
    (p: ProvisionVM) => p.zone == Some(zone)
  }

  /** The requests for the missing static VMs are as many in each zone as are missing there, of the given flavor. */
  lemma {:induction false} ProvisionListInZone(reqs: seq<StaticReq>, flavor: string, resource: string,
                                               locations: seq<Location>, zone: string)
    ensures CountIf(ProvisionList(reqs, flavor, resource, locations), AsksIn(zone)) == MissingIn(reqs, locations, zone)
    ensures forall p | p in ProvisionList(reqs, flavor, resource, locations) :: p.flavor == flavor
  {
    if reqs != [] {
      var n := |reqs| - 1;
      var p := ProvisionVM(flavor, ZoneOf(locations, reqs[n].location), resource, true);
      ProvisionListInZone(reqs[..n], flavor, resource, locations, zone);
      RepeatIsConstant(p, reqs[n].count);
      CountRepeat(p, reqs[n].count, AsksIn(zone));
      CountIfAppend(ProvisionList(reqs[..n], flavor, resource, locations), Repeat(p, reqs[n].count), AsksIn(zone));
      MissingSplits(reqs[..n], reqs[n], locations, zone);
      assert reqs == reqs[..n] + [reqs[n]];
    }
  }

  lemma {:induction false} CountRepeat(x: ProvisionVM, n: nat, p: ProvisionVM -> bool)
    ensures CountIf(Repeat(x, n), p) == if p(x) then n else 0
  {
    if n > 0 {
      CountRepeat(x, n - 1, p);
      CountIfAppend([x], Repeat(x, n - 1), p);
      CountLast([], x, p);
      assert [] + [x] == [x];
    }
  }

  lemma {:induction false} MissingSplits(a: seq<StaticReq>, x: StaticReq, locations: seq<Location>, zone: string)
    ensures MissingIn(a + [x], locations, zone)
         == MissingIn(a, locations, zone) + if ZoneOf(locations, x.location) == Some(zone) then x.count else 0
  {
    if a == [] {
      assert [] + [x] == [x] && [x][1..] == [];
    } else {
      assert (a + [x])[1..] == a[1..] + [x];
      MissingSplits(a[1..], x, locations, zone);
    }
  }

  /** In a table without repeated names, the location found for a zone stands for it. */
  lemma {:induction false} LocationStandsFor(locations: seq<Location>, zone: Option<string>)
    requires forall i, j :: 0 <= i < j < |locations| ==> locations[i].name != locations[j].name
    ensures var l := LocationOf(locations, zone); l.Some? ==> ZoneOf(locations, l.value) == zone
    ensures var l := LocationOf(locations, zone);
            l.Some? ==> exists i :: 0 <= i < |locations| && locations[i].name == l.value
  {
    if locations != [] {
      LocationStandsFor(locations[1..], zone);
      var l := LocationOf(locations[1..], zone);
      if Some(locations[0].zone) != zone && l.Some? {
        var i :| 0 <= i < |locations[1..]| && locations[1..][i].name == l.value;
        assert locations[i + 1].name == l.value;
      }
    }
  }

  lemma {:induction false} RepeatIsConstant<T>(x: T, n: nat)
    ensures |Repeat(x, n)| == n && forall i :: 0 <= i < n ==> Repeat(x, n)[i] == x
  {
    if n > 0 {
      RepeatIsConstant(x, n - 1);
    }
  }

  lemma {:induction false} DeficitSplits(a: seq<StaticReq>, b: seq<StaticReq>)
    ensures Deficit(a + b) == Deficit(a) + Deficit(b)
  {
    if a == [] {
      assert a + b == b;
    } else {
      assert (a + b)[1..] == a[1..] + b;
      DeficitSplits(a[1..], b);
    }
  }

  lemma {:induction false} TakeOneAt(reqs: seq<StaticReq>, zone: Option<string>, locations: seq<Location>, i: nat)
    requires i < |reqs| && Suits(reqs[i], zone, locations)
    requires forall j :: 0 <= j < i ==> !Suits(reqs[j], zone, locations)
    ensures TakeOne(reqs, zone, locations) == reqs[i := reqs[i].(count := reqs[i].count - 1)]
  {
    if i > 0 {
      TakeOneAt(reqs[1..], zone, locations, i - 1);
    }
  }

  lemma {:induction false} AddReqAt(reqs: seq<StaticReq>, location: string, count: nat, i: nat)
    requires i <= |reqs|
    requires forall j :: 0 <= j < i ==> reqs[j].location != location
    requires i < |reqs| ==> reqs[i].location == location
    ensures AddReq(reqs, location, count)
         == if i < |reqs| then reqs[i := reqs[i].(count := reqs[i].count + count)]
            else reqs + [StaticReq(location, count)]
  {
    if i > 0 {
      AddReqAt(reqs[1..], location, count, i - 1);
    }
  }

  /** What the planner reads of a resource. */
  datatype Site = Site(available: int, flavors: seq<Flavor>)

  /** flavor_objects after available_cores has sorted it. */
  function Ordered(site: Site): seq<Flavor> {
    Sort(site.flavors, FewerVcpus)
  }

  /** The size of the largest flavor. */
  function Cap(site: Site): int {
    if Ordered(site) == [] then 0 else Ordered(site)[0].vcpus
  }

  /** The cores that the free nodes can hold: all are taken to be of the largest size. */
  function FreeCores(site: Site): int {
    site.available * Cap(site)
  }

  ghost predicate IsLargest(f: Flavor, flavors: seq<Flavor>) {
    f in flavors && forall g | g in flavors :: g.vcpus <= f.vcpus
  }

  /** The dictionary of resources. The CloudResource objects and their StaticVMs are reached only through it, so
      what they hold is kept here, by resource: the quota of dynamic VMs, the free nodes, the flavors, and the
      static requirements still open. */
  class CloudResources {
    const quota: map<string, int>
    var available: map<string, int>
    var flavors: map<string, seq<Flavor>>
    var statics: map<string, seq<StaticReq>>

    constructor (quota: map<string, int>, flavors: map<string, seq<Flavor>>, statics: map<string, seq<StaticReq>>)
      ensures this.quota == quota && available == quota && this.flavors == flavors && this.statics == statics
    {
      this.quota, this.available, this.flavors, this.statics := quota, quota, flavors, statics;
    }

    /** add_static_req of the resource's StaticVMs. */
    method AddStaticReq(r: string, location: string, count: nat)
      requires r in statics
      modifies this`statics
      ensures statics == old(statics)[r := AddReq(old(statics)[r], location, count)]
    {
      var reqs := statics[r];
      var i := 0;
      while i < |reqs| && reqs[i].location != location
        invariant i <= |reqs| && forall j :: 0 <= j < i ==> reqs[j].location != location
      {
        i := i + 1;
      }
      AddReqAt(reqs, location, count, i);
      if i < |reqs| {
        statics := statics[r := reqs[i := reqs[i].(count := reqs[i].count + count)]];
      } else {
        statics := statics[r := reqs + [StaticReq(location, count)]];
      }
    }

    /** Whether a VM in the zone is needed as a static one; if so, one requirement is met. */
    method NeedVm(r: string, zone: Option<string>, locations: seq<Location>) returns (taken: bool)
      requires r in statics && (locations != [] ==> Covered(statics[r], locations))
      modifies this`statics
      ensures taken == Wants(old(statics)[r], zone, locations)
      ensures statics == old(statics)[r := TakeOne(old(statics)[r], zone, locations)]
    {
      var reqs := statics[r];
      var i := 0;
      while i < |reqs| && !Suits(reqs[i], zone, locations)
        invariant i <= |reqs| && forall j :: 0 <= j < i ==> !Suits(reqs[j], zone, locations)
      {
        i := i + 1;
      }
      taken := i < |reqs|;
      if taken {
        TakeOneAt(reqs, zone, locations, i);
        statics := statics[r := reqs[i := reqs[i].(count := reqs[i].count - 1)]];
      } else {
        TakeOneMeetsOne(reqs, zone, locations);
        assert statics == statics[r := reqs];
      }
    }

    method GetProvisionList(r: string, flavor: string, locations: seq<Location>) returns (list: seq<ProvisionVM>)
      requires r in statics && (locations != [] ==> Covered(statics[r], locations))
      ensures list == ProvisionList(statics[r], flavor, r, locations)
    {
      var reqs := statics[r];
      list := [];
      for i := 0 to |reqs|
        invariant list == ProvisionList(reqs[..i], flavor, r, locations)
      {
        list := list + Repeat(ProvisionVM(flavor, ZoneOf(locations, reqs[i].location), r, true), reqs[i].count);
        assert reqs[..i + 1][..i] == reqs[..i];
      }
      assert reqs[..|reqs|] == reqs;
    }

    /** Sorts the flavors in place, largest first, and counts the cores the free nodes can hold. */
    method AvailableCores(r: string) returns (cores: int)
      requires r in available && r in flavors && flavors[r] != []
      modifies this`flavors
      ensures flavors == old(flavors)[r := Ordered(Site(available[r], old(flavors)[r]))]
      ensures flavors[r] != [] && IsLargest(flavors[r][0], old(flavors)[r])
      ensures cores == FreeCores(Site(available[r], old(flavors)[r])) == available[r] * flavors[r][0].vcpus
    {
      ghost var before := flavors[r];
      SortPermutes(before, FewerVcpus);
      SortSorts(before, FewerVcpus);
      flavors := flavors[r := Sort(flavors[r], FewerVcpus)];
      FirstIsLargest(before, flavors[r]);
      cores := available[r] * flavors[r][0].vcpus;
    }
  }

  lemma FirstIsLargest(before: seq<Flavor>, sorted: seq<Flavor>)
    requires before != [] && multiset(sorted) == multiset(before) && |sorted| == |before|
    requires Sorted(sorted, FewerVcpus)
    ensures IsLargest(sorted[0], before)
  {
    assert sorted[0] in multiset(before);
    forall g | g in before
      ensures g.vcpus <= sorted[0].vcpus
    {
      assert g in multiset(sorted);
      var i :| 0 <= i < |sorted| && sorted[i] == g;
      assert FewerVcpus(sorted[0]) <= FewerVcpus(sorted[i]);
    }
  }
}
