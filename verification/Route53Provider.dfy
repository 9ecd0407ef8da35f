/** The Route53 provider: controllers/globaldnsrecord/route53provider.go. Every method keeps `Standing`,
    which says that each state the world has gone through was safe; so whatever a method's last call
    was, and however it ended, the claims of `SafeAt` held after it. */
module Route53Provider {
  import opened Prelude
  import opened Api
  import opened Documents
  import opened Endpoints
  import opened DesiredDocument
  import opened Route53Store
  import opened Route53World
  import opened ProbeConfig
  import opened Feasibility
  import CheckDeletion
  import opened Leftovers
  import opened Promises
  import opened Fulfilment
  import ReferenceSet

  class Provider {
    const world: World
    const read: Record             // the copy of the record that this run works on
    const zone: string
    const endpoints: EndpointMap
    const dns: Dns
    ghost const start: seq<Moment>     // the trace when this run began
    ghost const origin: Option<Record> // the record when this run began
    var policyId: Id               // status.providerStatus.route53
    var policyInstanceId: Id
    var healthCheckIds: map<string, Id>

    constructor (world: World, read: Record, zone: string, endpoints: EndpointMap, dns: Dns)
      ensures this.world == world && this.read == read && this.zone == zone
      ensures this.endpoints == endpoints && this.dns == dns && start == world.trace && origin == world.record
    {
      this.world, this.read, this.zone, this.endpoints, this.dns := world, read, zone, endpoints, dns;
      policyId, policyInstanceId, healthCheckIds, start, origin := "", "", map[], world.trace, world.record;
    }

    /** Sound while every state so far was safe, the trace only grows, and the record that this run works
        on is still held by its finalizer. Every method keeps it. */
    ghost function Standing(): (v: Verdict)
      reads world
    {
      Judge(forall k {:trigger SafeKey(k)} :: SafeKey(k) ==> Underway())
    }

    ghost predicate Underway()
      reads world
    {
      && world.Safe() && start <= world.trace && world.Holds(read) && Fits(world.own, read.spec)
      && (world.sky.idle ==> world.record == origin)
    }

    /** What the steps of a run need to know about where it stands. */
    lemma Stands()
      requires Standing() == Sound
      ensures Inv(world.own, world.store) && Fits(world.own, read.spec)
    {
      assert SafeKey(0);
      assert world.own in world.Here().records;
    }

    lemma StandingMeans()
      requires Standing() == Sound
      ensures Underway()
    {
      assert SafeKey(0);
    }

    lemma StandsWhole()
      requires Standing() == Sound
      ensures Integrity(world.store)
    {
      Stands();
    }

    ghost predicate Whole(s: Store) {
      forall k {:trigger Key(k)} :: Key(k) ==> Integrity(s)
    }

    lemma BeginsWhole()
      requires Standing() == Sound
      ensures Whole(world.store)
    {
      Stands();
    }

    lemma StandsIssued()
      requires Standing() == Sound
      ensures AllIssued(world.store)
    {
      Stands();
    }

    lemma ReadFits()
      requires Standing() == Sound
      ensures Fits(world.own, read.spec)
    {
      assert SafeKey(0);
    }

    /** Sound while the run stands, only health checks were added or updated since `base`, and `ids` gives the right
        ones, which are as the probe asks for. */
    ghost function BuildingOn(base: Store, ids: map<string, Id>): (v: Verdict)
      reads world
    {
      if Standing() == Sound then Judge(forall k {:trigger Key(k)} ::
          Key(k) ==> Built(base, world.store, ids)) else Broken
    }

    ghost predicate Built(base: Store, s: Store, ids: map<string, Id>) {
      ChecksGrow(world.own, base, s) && Right(world.own, s, ids) && Configured(s, ids)
    }

    /** The health checks that `ids` gives have what the record's probe asks for. */
    ghost predicate Configured(s: Store, ids: map<string, Id>) {
      forall ip | ip in ids && read.spec.healthCheck.Some? ::
        ids[ip] in s.healthChecks && Carries(read.spec.healthCheck.value, s.healthChecks[ids[ip]])
    }

    lemma BuildingMeans(base: Store, ids: map<string, Id>)
      requires BuildingOn(base, ids) == Sound
      ensures ChecksGrow(world.own, base, world.store) && Right(world.own, world.store, ids)
      ensures Configured(world.store, ids)
    {
      assert Key(0);
    }

    function WishFor(ids: map<string, Id>): (w: Wish) {
      Wish(read.spec.loadBalancingPolicy, read.spec.healthCheck.Some?, endpoints, dns, ids)
    }

    /** Issues a call that the invariant allows. */
    method Act(c: Call) returns (reply: Reply)
      requires Standing() == Sound && Allowed(world.own, world.store, c)
      modifies world
      ensures Standing() == Sound && Possible(world.sky.Tidy(), old(world.store), c, reply, world.store)
      ensures world.sky.reliable ==> reply.Done? || reply.NoSuchHealthCheck?
      ensures world.sky.reliable && !c.DeleteHealthCheck? ==> reply.Done?
      ensures world.sky.reliable && c.DeleteHealthCheck? && c.id in old(world.store).healthChecks ==> reply.Done?
      ensures world.churn == old(world.churn) + (if Churns(c) then 1 else 0)
      ensures world.updates == old(world.updates) + (if c.UpdateHealthCheck? then 1 else 0)
    {
      StandingMeans();
      reply := world.SafePerform(c);
    }

    /** createHealthCheck: a new check is made as the probe asks for and named after host and address. */
    method CreateHealthCheck(probe: Probe, ip: string) returns (r: Outcome<Id>)
      requires Standing() == Sound && read.spec.healthCheck == Some(probe)
      requires forall h :: !CheckFor(world.own, world.store, h, ip)
      modifies world
      ensures Standing() == Sound
      ensures ChecksGrow(world.own, old(world.store), world.store)
      ensures forall h | h in old(world.store.healthChecks) ::
        world.store.healthChecks[h] == old(world.store.healthChecks[h])
      ensures r.Ok? ==> CheckFor(world.own, world.store, r.value, ip) && r.value !in old(world.store.issued)
      ensures r.Ok? ==> MadeFor(probe, ip, world.store.healthChecks[r.value])
      ensures probe.httpGet.None? ==> r == Err(Rejected) && world.store == old(world.store)
      ensures r == Err(Panicked) <==> probe.httpGet.Some? && |ip| + |probe.httpGet.value.host| < 26
      ensures r == Err(Panicked) ==> world.store == old(world.store)
      ensures world.sky.reliable ==> (r.Ok? <==> CanCheck(world.own, old(world.store), probe, ip))
      ensures r.Ok? ==> CanCheck(world.own, old(world.store), probe, ip)
    {
      Stands();
      ghost var base := world.store;
      StayingGrows(world.own, base);
      var desired := DesiredCheck(probe, ip);
      if desired.None? {
        return Err(Rejected);
      }
      if !CallerReferenceFits(desired.value.host.value, ip) {
        return Err(Panicked);
      }
      var id := world.NewId();
      var filledIn: string := *;
      var check := desired.value.(unset := filledIn);
      Making(base, id, probe, ip, filledIn);
      var reply := Act(Call.CreateHealthCheck(id, check));
      if !reply.Done? {
        return Err(CallFailed);
      }
      reply := Act(TagHealthCheck(id, probe.httpGet.value.host + "@" + ip));
      if !reply.Done? {
        return Err(CallFailed);
      }
      return Ok(id);
    }

    /** What creating and naming a health check amounts to. */
    lemma Making(base: Store, id: Id, probe: Probe, ip: string, filledIn: string)
      requires Inv(world.own, base) && Fresh(base, id) && probe.httpGet.Some?
      requires world.own.host == Some(probe.httpGet.value.host) && |ip| + |probe.httpGet.value.host| >= 26
      requires forall h :: !CheckFor(world.own, base, h, ip)
      ensures var c := Call.CreateHealthCheck(id, DesiredCheck(probe, ip).value.(unset := filledIn));
        var tag := TagHealthCheck(id, probe.httpGet.value.host + "@" + ip);
        var made, named := Apply(base, c), Apply(Apply(base, c), tag);
        && Allowed(world.own, base, c) && Allowed(world.own, made, tag)
        && ChecksGrow(world.own, base, made) && ChecksGrow(world.own, base, named)
        && (forall h | h in base.healthChecks ::
              made.healthChecks[h] == base.healthChecks[h] == named.healthChecks[h])
        && CheckFor(world.own, named, id, ip) && MadeFor(probe, ip, named.healthChecks[id])
    {
      var check := DesiredCheck(probe, ip).value.(unset := filledIn);
      var tag := probe.httpGet.value.host + "@" + ip;
      CreatingGrows(world.own, base, id, check);
      var made := Apply(base, Call.CreateHealthCheck(id, check));
      TaggingGrows(world.own, made, id, tag);
      ChecksGrowTransitive(world.own, base, made, Apply(made, TagHealthCheck(id, tag)));
    }

    /** The health check for the record's host and an address, if there is one. */
    method FindHealthCheck(probe: Probe, ip: string) returns (r: Outcome<Option<Id>>)
      requires Standing() == Sound && read.spec.healthCheck == Some(probe)
      ensures r.Ok? && r.value.Some? ==> CheckFor(world.own, world.store, r.value.value, ip)
      ensures r.Ok? && r.value.None? ==> forall h :: !CheckFor(world.own, world.store, h, ip)
      ensures world.sky.reliable ==> r.Ok?
    {
      ReadFits();
      var listed := world.List(world.store.healthChecks.Keys);
      if listed.Err? {
        return Err(listed.fault);
      }
      var current: Option<Id> := None;
      for i := 0 to |listed.value|
        invariant current.Some? ==> CheckFor(world.own, world.store, current.value, ip)
        invariant current.None? ==> forall k :: 0 <= k < i ==> !CheckFor(world.own, world.store, listed.value[k], ip)
      {
        var check := world.store.healthChecks[listed.value[i]];
        if probe.httpGet.Some? && check.host == Some(probe.httpGet.value.host) && check.ip == ip {
          current := Some(listed.value[i]);
        }
      }
      return Ok(current);
    }

    /** Looks the health check up by host and address, and creates or updates it. A new check is made as the probe
        asks for. An existing one keeps its identity and goes through one pass, after which the fields that an
        update carries are as the probe asks for. Checks that were so before stay so. */
    method EnsureHealthCheck(probe: Probe, ip: string) returns (r: Outcome<Id>)
      requires Standing() == Sound && read.spec.healthCheck == Some(probe)
      modifies world
      ensures Standing() == Sound
      ensures ChecksGrow(world.own, old(world.store), world.store)
      ensures r.Ok? ==> CheckFor(world.own, world.store, r.value, ip)
      ensures r.Ok? ==> Carries(probe, world.store.healthChecks[r.value])
      ensures r.Ok? && r.value !in old(world.store.healthChecks) ==>
        MadeFor(probe, ip, world.store.healthChecks[r.value])
      ensures forall h | h in old(world.store.healthChecks) && Carries(probe, old(world.store.healthChecks[h])) ::
        Carries(probe, world.store.healthChecks[h])
      ensures r.Ok? ==> CanCheck(world.own, old(world.store), probe, ip)
      ensures world.sky.reliable && CanCheck(world.own, old(world.store), probe, ip) ==> r.Ok?
      ensures forall h | old(CheckFor(world.own, world.store, h, ip)) ::
        && world.churn == old(world.churn)
        && (r.Ok? ==> DesiredCheck(probe, ip).Some? &&
                      var before, desired := old(world.store.healthChecks[h]), DesiredCheck(probe, ip).value;
                      && world.store.healthChecks[h] == Pass(before, desired)
                      && world.updates == old(world.updates) + (if SameConfig(before, desired) then 0 else 1))
    {
      StayingGrows(world.own, world.store);
      var found := FindHealthCheck(probe, ip);
      if found.Err? {
        return Err(found.fault);
      }
      if found.value.None? {
        r := CreateHealthCheck(probe, ip);
        return;
      }
      var desired := DesiredCheck(probe, ip);
      if desired.None? {
        return Err(Rejected);
      }
      OnlyCheck(found.value.value, ip);
      Passing(found.value.value, probe, ip);
      r := UpdateHealthCheck(found.value.value, desired.value);
    }

    /** The address has no other health check. */
    lemma OnlyCheck(id: Id, ip: string)
      requires Standing() == Sound && CheckFor(world.own, world.store, id, ip)
      ensures forall h | CheckFor(world.own, world.store, h, ip) :: h == id
    {
      Stands();
    }

    /** One pass over an existing health check: an update if it differs from what is desired. */
    method UpdateHealthCheck(id: Id, desired: HealthCheck) returns (r: Outcome<Id>)
      requires Standing() == Sound && id in world.store.healthChecks
      requires Allowed(world.own, world.store,
                       Call.UpdateHealthCheck(id, Updated(world.store.healthChecks[id], desired)))
      modifies world
      ensures Standing() == Sound
      ensures var s := old(world.store);
        var updated := Apply(s, Call.UpdateHealthCheck(id, Updated(s.healthChecks[id], desired)));
        var same := SameConfig(s.healthChecks[id], desired);
        && (world.store == s || (!same && world.store == updated))
        && (r.Ok? ==> r.value == id && world.store == if same then s else updated)
        && (r.Ok? ==> world.updates == old(world.updates) + if same then 0 else 1)
      ensures world.churn == old(world.churn) && (world.sky.reliable ==> r.Ok?)
    {
      var stored := world.store.healthChecks[id];
      if !SameConfig(stored, desired) {
        var reply := Act(Call.UpdateHealthCheck(id, Updated(stored, desired)));
        if !reply.Done? {
          return Err(CallFailed);
        }
      }
      return Ok(id);
    }

    /** What one pass over a health check amounts to. */
    lemma Passing(id: Id, probe: Probe, ip: string)
      requires Standing() == Sound && read.spec.healthCheck == Some(probe) && probe.httpGet.Some?
      requires CheckFor(world.own, world.store, id, ip)
      ensures var s, desired := world.store, DesiredCheck(probe, ip).value;
        var before := s.healthChecks[id];
        var c := Call.UpdateHealthCheck(id, Updated(before, desired));
        && Allowed(world.own, s, c) && ChecksGrow(world.own, s, s) && ChecksGrow(world.own, s, Apply(s, c))
        && CheckFor(world.own, Apply(s, c), id, ip) && Carries(probe, Updated(before, desired))
        && (SameConfig(before, desired) ==> Carries(probe, before))
    {
      ReadFits();
      StayingGrows(world.own, world.store);
      UpdatingGrows(world.own, world.store, id, Updated(world.store.healthChecks[id], DesiredCheck(probe, ip).value));
    }

    ghost predicate Extends(ids: map<string, Id>, more: map<string, Id>) {
      forall k {:trigger Key(k)} :: Key(k) ==> forall ip | ip in ids :: ip in more && more[ip] == ids[ip]
    }

    lemma ExtendsItself(ids: map<string, Id>)
      ensures Extends(ids, ids)
    {
    }

    lemma ExtendsOn(ids: map<string, Id>, more: map<string, Id>, last: map<string, Id>)
      requires Extends(ids, more) && Extends(more, last)
      ensures Extends(ids, last)
    {
      assert Key(0);
    }

    /** If the record has a probe, the health check of the address could be ensured at `base`. */
    ghost predicate Probes(base: Store, ip: string) {
      read.spec.healthCheck.Some? ==> CanCheck(world.own, base, read.spec.healthCheck.value, ip)
    }

    ghost predicate ProbesAll(base: Store, ips: seq<string>) {
      forall ip | ip in ips :: Probes(base, ip)
    }

    ghost predicate Refers(base: Store, st: EndpointStatus) {
      Referable(world.own, base, read.spec, st, dns)
    }

    ghost predicate CanBuild(base: Store) {
      Feasible(world.own, base, read.spec, endpoints, dns)
    }

    /** Ensuring a health check keeps what is known. */
    lemma StillBuilding(base: Store, before: Store, ids: map<string, Id>)
      requires Standing() == Sound && Built(base, before, ids) && ChecksGrow(world.own, before, world.store)
      requires read.spec.healthCheck.Some? ==> forall h | h in before.healthChecks ::
        Carries(read.spec.healthCheck.value, before.healthChecks[h]) ==>
        Carries(read.spec.healthCheck.value, world.store.healthChecks[h])
      ensures BuildingOn(base, ids) == Sound
    {
      ChecksGrowTransitive(world.own, base, before, world.store);
      RightStays(world.own, before, world.store, ids);
    }

    /** ... and adds to it. */
    lemma Learned(base: Store, ids: map<string, Id>, ip: string, id: Id)
      requires BuildingOn(base, ids) == Sound && CheckFor(world.own, world.store, id, ip)
      requires read.spec.healthCheck.Some? && Carries(read.spec.healthCheck.value, world.store.healthChecks[id])
      ensures BuildingOn(base, ids[ip := id]) == Sound && Extends(ids, ids[ip := id])
    {
      BuildingMeans(base, ids);
      assert Right(world.own, world.store, ids[ip := id]) && (ip in ids ==> ids[ip] == id) by {
        Stands();
        RightOneMore(world.own, world.store, ids, ip, id);
      }
      assert Configured(world.store, ids[ip := id]);
    }

    /** There was a health check of the address at `base`. */
    ghost predicate Present(base: Store, ip: string) {
      exists h :: CheckFor(world.own, base, h, ip)
    }

    lemma PresentStays(base: Store, ids: map<string, Id>, ip: string)
      requires BuildingOn(base, ids) == Sound && Present(base, ip)
      ensures exists h :: CheckFor(world.own, world.store, h, ip)
    {
      BuildingMeans(base, ids);
      var h :| CheckFor(world.own, base, h, ip);
      assert CheckFor(world.own, world.store, h, ip);
    }

    lemma ProbesStay(base: Store, ids: map<string, Id>, probe: Probe, ip: string)
      requires BuildingOn(base, ids) == Sound && read.spec.healthCheck == Some(probe)
      ensures Probes(base, ip) <==> CanCheck(world.own, world.store, probe, ip)
    {
      Stands();
      BuildingMeans(base, ids);
      CanCheckStays(world.own, base, world.store, probe, ip);
    }

    /** A reference to `key`, with the health check of `ip` when the record has a probe. `ids` are the health
        checks ensured so far, `more` those ensured afterwards. */
    method CheckedReference(key: string, region: string, ip: string, ghost base: Store, ghost ids: map<string, Id>)
      returns (r: Outcome<Reference>, ghost more: map<string, Id>)
      requires BuildingOn(base, ids) == Sound
      modifies world, `healthCheckIds
      ensures BuildingOn(base, more) == Sound && Extends(ids, more)
      ensures r.Ok? ==> r.value == ReferenceTo(WishFor(more), key, region, ip) && Probes(base, ip)
      ensures world.sky.reliable && Probes(base, ip) ==> r.Ok?
      ensures r.Ok? && read.spec.healthCheck.Some? ==>
        ip in more && healthCheckIds == old(healthCheckIds)[read.spec.name + "@" + ip := more[ip]]
      ensures read.spec.healthCheck.None? || Present(base, ip) ==> world.churn == old(world.churn)
    {
      more := ids;
      ExtendsItself(ids);
      if read.spec.healthCheck.None? {
        return Ok(EndpointReference(key, region, "", false)), more;
      }
      var probe := read.spec.healthCheck.value;
      ghost var before := world.store;
      BuildingMeans(base, ids);
      ProbesStay(base, ids, probe, ip);
      if Present(base, ip) {
        PresentStays(base, ids, ip);
      }
      var id := EnsureHealthCheck(probe, ip);
      StillBuilding(base, before, ids);
      if id.Err? {
        return Err(id.fault), more;
      }
      healthCheckIds := healthCheckIds[read.spec.name + "@" + ip := id.value];
      Learned(base, ids, ip, id.value);
      more := more[ip := id.value];
      return Ok(EndpointReference(key, region, id.value, true)), more;
    }

    /** The references collected are those of the addresses visited so far, whose health checks can be ensured. */
    ghost predicate Listed(references: seq<Reference>, base: Store, ids: map<string, Id>, st: EndpointStatus,
                           ips: seq<string>)
    {
      forall k {:trigger Key(k)} :: Key(k) ==> Lists(references, WishFor(ids), st, ips) && ProbesAll(base, ips)
    }

    lemma ListedNone(base: Store, ids: map<string, Id>, st: EndpointStatus)
      ensures Listed([], base, ids, st, [])
    {
    }

    lemma ListedOneMore(references: seq<Reference>, r: Reference, base: Store, known: map<string, Id>,
                        more: map<string, Id>, st: EndpointStatus, before: seq<string>, ip: string)
      requires Listed(references, base, known, st, before) && Extends(known, more) && Probes(base, ip)
      requires read.spec.loadBalancingPolicy.Multivalue? && ip in Addresses(st, dns)
      requires r == AddressReference(WishFor(more), st, ip) && (read.spec.healthCheck.Some? ==> ip in more)
      ensures Listed(references + [r], base, more, st, before + [ip])
    {
      assert Key(0);
      ListsOneMore(references, r, WishFor(known), WishFor(more), st, before, ip);
    }

    lemma ListedAll(references: seq<Reference>, base: Store, ids: map<string, Id>, st: EndpointStatus,
                    ips: seq<string>)
      requires Listed(references, base, ids, st, ips)
      requires read.spec.loadBalancingPolicy.Multivalue? && ips == Addresses(st, dns)
      ensures ToSet(references) == ReferencesOf(WishFor(ids), st) && Covered(WishFor(ids), st) && ProbesAll(base, ips)
    {
      assert Key(0);
      ListsAll(references, WishFor(ids), st);
    }

    /** The health checks of the endpoint are there. */
    ghost predicate KnownFor(base: Store, st: EndpointStatus) {
      forall k {:trigger Key(k)} :: Key(k) ==> AllPresent(base, st)
    }

    ghost predicate AllPresent(base: Store, st: EndpointStatus) {
      read.spec.healthCheck.Some? ==>
        forall ip | ip in ProbedIPs(read.spec.loadBalancingPolicy, st, dns) :: Present(base, ip)
    }

    /** The health checks of the endpoint can be ensured. */
    ghost predicate CanProbe(base: Store, st: EndpointStatus) {
      forall k {:trigger Key(k)} :: Key(k) ==> ProbesAll(base, Addresses(st, dns))
    }

    lemma VisitMeans(ip: string, base: Store, st: EndpointStatus)
      requires read.spec.loadBalancingPolicy.Multivalue? && ip in Addresses(st, dns)
      ensures KnownFor(base, st) && read.spec.healthCheck.Some? ==> Present(base, ip)
      ensures CanProbe(base, st) ==> Probes(base, ip)
    {
      assert Key(0);
    }

    /** One address of an endpoint under the multivalue policy. `covered` and `able` say what is known: that no
        health check is missing, that all can be ensured. */
    method VisitAddress(st: EndpointStatus, ip: string, ghost references: seq<Reference>, ghost base: Store,
                        ghost ids: map<string, Id>, ghost before: seq<string>, ghost covered: bool, ghost able: bool)
      returns (r: Outcome<Reference>, ghost more: map<string, Id>)
      requires BuildingOn(base, ids) == Sound
      requires read.spec.loadBalancingPolicy.Multivalue? && ip in Addresses(st, dns)
      requires Listed(references, base, ids, st, before)
      requires (covered ==> KnownFor(base, st)) && (able ==> CanProbe(base, st))
      modifies world, `healthCheckIds
      ensures BuildingOn(base, more) == Sound && Extends(ids, more)
      ensures r.Ok? ==> Listed(references + [r.value], base, more, st, before + [ip])
      ensures world.sky.reliable && able ==> r.Ok?
      ensures covered ==> world.churn == old(world.churn)
    {
      VisitMeans(ip, base, st);
      r, more := CheckedReference(st.endpoint.GetKey() + ip, "", ip, base, ids);
      if r.Ok? {
        ListedOneMore(references, r.value, base, ids, more, st, before, ip);
      }
    }

    /** The references of one endpoint under the multivalue policy. */
    method AddressReferences(st: EndpointStatus, ips: seq<string>, ghost base: Store, ghost ids: map<string, Id>)
      returns (r: Outcome<seq<Reference>>, ghost more: map<string, Id>)
      requires BuildingOn(base, ids) == Sound
      requires read.spec.loadBalancingPolicy.Multivalue? && ips == Addresses(st, dns)
      modifies world, `healthCheckIds
      ensures BuildingOn(base, more) == Sound && Extends(ids, more)
      ensures r.Ok? ==> ToSet(r.value) == ReferencesOf(WishFor(more), st) && Covered(WishFor(more), st)
      ensures r.Ok? ==> ProbesAll(base, ips)
      ensures world.sky.reliable && ProbesAll(base, ips) ==> r.Ok?
      ensures KnownFor(base, st) ==> world.churn == old(world.churn)
    {
      r, more := VisitAddresses(st, ips, base, ids, KnownFor(base, st), CanProbe(base, st));
      if r.Ok? {
        ListedAll(r.value, base, more, st, ips);
      }
    }

    method VisitAddresses(st: EndpointStatus, ips: seq<string>, ghost base: Store, ghost ids: map<string, Id>,
                          ghost covered: bool, ghost able: bool)
      returns (r: Outcome<seq<Reference>>, ghost more: map<string, Id>)
      requires BuildingOn(base, ids) == Sound
      requires read.spec.loadBalancingPolicy.Multivalue? && ips == Addresses(st, dns)
      requires (covered ==> KnownFor(base, st)) && (able ==> CanProbe(base, st))
      modifies world, `healthCheckIds
      ensures BuildingOn(base, more) == Sound && Extends(ids, more)
      ensures r.Ok? ==> Listed(r.value, base, more, st, ips)
      ensures world.sky.reliable && able ==> r.Ok?
      ensures covered ==> world.churn == old(world.churn)
    {
      more := ids;
      ExtendsItself(ids);
      var references: seq<Reference> := [];
      ListedNone(base, ids, st);
      assert ips[..0] == [];
      for i := 0 to |ips|
        invariant BuildingOn(base, more) == Sound && Extends(ids, more)
        invariant Listed(references, base, more, st, ips[..i])
        invariant covered ==> world.churn == old(world.churn)
      {
        var reference;
        ghost var known := more;
        reference, more := VisitAddress(st, ips[i], references, base, known, ips[..i], covered, able);
        ExtendsOn(ids, known, more);
        if reference.Err? {
          return Err(reference.fault), more;
        }
        references := references + [reference.value];
        assert ips[..i] + [ips[i]] == ips[..i + 1];
      }
      assert ips[..|ips|] == ips;
      r := Ok(references);
    }

    /** The references of one endpoint. */
    method ReferencesFor(st: EndpointStatus, ghost base: Store, ghost ids: map<string, Id>)
      returns (r: Outcome<seq<Reference>>, ghost more: map<string, Id>)
      requires BuildingOn(base, ids) == Sound && Supported(read.spec.loadBalancingPolicy)
      modifies world, `healthCheckIds
      ensures BuildingOn(base, more) == Sound && Extends(ids, more)
      ensures r.Ok? ==> ToSet(r.value) == ReferencesOf(WishFor(more), st) && Covered(WishFor(more), st)
      ensures r.Ok? ==> Refers(base, st)
      ensures world.sky.reliable && Refers(base, st) ==> r.Ok?
      ensures read.spec.healthCheck.Some? && !read.spec.loadBalancingPolicy.Multivalue? ==>
        (st.platform.None? || !HostsKnown(st, dns) ==> r == Err(Panicked))
      ensures KnownFor(base, st) ==> world.churn == old(world.churn)
    {
      var policy := read.spec.loadBalancingPolicy;
      more := ids;
      ExtendsItself(ids);
      if !policy.Multivalue? && read.spec.healthCheck.None? {
        OneUnprobed(base, st, ids);
        return Ok([EndpointReference(st.endpoint.GetKey(), RegionOf(policy, st), "", false)]), more;
      }
      var ips := GetIPs(st, dns, world.sky.reliable);
      if ips.Err? {
        // Except under multivalue, IPs[0] is read before the error is looked at.
        return Err(if policy.Multivalue? then ips.fault else Panicked), more;
      }
      if policy.Multivalue? {
        r, more := AddressReferences(st, ips.value, base, more);
      } else {
        r, more := BalancerReferences(st, ips.value, base, more);
      }
    }

    /** Without a probe the reference under a load balancer policy needs no address and no check. */
    lemma OneUnprobed(base: Store, st: EndpointStatus, ids: map<string, Id>)
      requires !read.spec.loadBalancingPolicy.Multivalue? && read.spec.healthCheck.None?
      ensures ToSet([EndpointReference(st.endpoint.GetKey(), RegionOf(read.spec.loadBalancingPolicy, st), "", false)])
           == ReferencesOf(WishFor(ids), st)
      ensures Covered(WishFor(ids), st) && Refers(base, st)
    {
    }

    lemma FirstIsProbed(base: Store, st: EndpointStatus)
      requires read.spec.healthCheck.Some? && Addresses(st, dns) != []
      ensures KnownFor(base, st) ==> Present(base, Addresses(st, dns)[0])
      ensures Addresses(st, dns)[0] in ProbedIPs(read.spec.loadBalancingPolicy, st, dns)
    {
      assert Key(0);
    }

    /** The reference of one endpoint under the load balancer policies, with the health check of its first
        address. */
    method BalancerReferences(st: EndpointStatus, ips: seq<string>, ghost base: Store, ghost ids: map<string, Id>)
      returns (r: Outcome<seq<Reference>>, ghost more: map<string, Id>)
      requires BuildingOn(base, ids) == Sound && Supported(read.spec.loadBalancingPolicy)
      requires !read.spec.loadBalancingPolicy.Multivalue? && read.spec.healthCheck.Some? && ips == Addresses(st, dns)
      modifies world, `healthCheckIds
      ensures BuildingOn(base, more) == Sound && Extends(ids, more)
      ensures r.Ok? ==> ToSet(r.value) == ReferencesOf(WishFor(more), st) && Covered(WishFor(more), st)
      ensures r.Ok? ==> ips != [] && Probes(base, ips[0])
      ensures world.sky.reliable && ips != [] && Probes(base, ips[0]) ==> r.Ok?
      ensures KnownFor(base, st) ==> world.churn == old(world.churn)
    {
      more := ids;
      ExtendsItself(ids);
      if ips == [] {
        return Err(Panicked), more;
      }
      FirstIsProbed(base, st);
      var reference;
      reference, more := CheckedReference(st.endpoint.GetKey(), RegionOf(read.spec.loadBalancingPolicy, st), ips[0],
                                          base, more);
      if reference.Err? {
        return Err(reference.fault), more;
      }
      OneReference(st, more, reference.value);
      r := Ok([reference.value]);
    }

    /** Under the load balancer policies the reference with the check of the first address is all there is. */
    lemma OneReference(st: EndpointStatus, ids: map<string, Id>, r: Reference)
      requires !read.spec.loadBalancingPolicy.Multivalue? && read.spec.healthCheck.Some?
      requires Addresses(st, dns) != [] && Addresses(st, dns)[0] in ids
      requires r == ReferenceTo(WishFor(ids), st.endpoint.GetKey(), RegionOf(read.spec.loadBalancingPolicy, st),
                                Addresses(st, dns)[0])
      ensures ToSet([r]) == ReferencesOf(WishFor(ids), st) && Covered(WishFor(ids), st)
    {
    }

    /** The endpoints visited so far can be referred to, and the references collected are theirs. */
    ghost predicate Visited(references: seq<Reference>, base: Store, ids: map<string, Id>, order: seq<string>) {
      forall k {:trigger Key(k)} :: Key(k) ==> Gathers(references, WishFor(ids), order) && RefersSoFar(base, order)
    }

    ghost predicate RefersSoFar(base: Store, order: seq<string>) {
      forall k | k in order :: k in endpoints && Refers(base, endpoints[k])
    }

    lemma VisitedAll(references: seq<Reference>, base: Store, ids: map<string, Id>, order: seq<string>)
      requires Visited(references, base, ids, order) && Enumerates(order, endpoints.Keys)
      ensures ToSet(references) == AllReferences(WishFor(ids)) && AllCovered(WishFor(ids))
      ensures AllReferable(world.own, base, read.spec, endpoints, dns)
    {
      assert Key(0);
      GathersAll(references, WishFor(ids), order);
    }

    /** All endpoints can be referred to. */
    ghost predicate CanRefer(base: Store) {
      forall k {:trigger Key(k)} :: Key(k) ==> AllReferable(world.own, base, read.spec, endpoints, dns)
    }

    /** The health checks of all probed addresses are there. */
    ghost predicate Known(base: Store) {
      forall k {:trigger Key(k)} :: Key(k) ==> forall l | l in endpoints :: AllPresent(base, endpoints[l])
    }

    /** The references of all endpoints, in the order of one traversal of the endpoint map. */
    method BuildReferences(ghost base: Store) returns (r: Outcome<seq<Reference>>, ghost more: map<string, Id>)
      requires BuildingOn(base, map[]) == Sound && Supported(read.spec.loadBalancingPolicy)
      modifies world, `healthCheckIds
      ensures BuildingOn(base, more) == Sound
      ensures r.Ok? ==> ToSet(r.value) == AllReferences(WishFor(more)) && AllCovered(WishFor(more))
      ensures r.Ok? ==> AllReferable(world.own, base, read.spec, endpoints, dns)
      ensures world.sky.reliable && CanRefer(base) ==> r.Ok?
      ensures Known(base) ==> world.churn == old(world.churn)
    {
      var order := AnyOrder(endpoints.Keys);
      assert forall i :: 0 <= i < |order| ==> order[i] in order;
      r, more := VisitEndpoints(order, base, Known(base), CanRefer(base));
      if r.Ok? {
        VisitedAll(r.value, base, more, order);
      }
    }

    method VisitEndpoints(order: seq<string>, ghost base: Store, ghost covered: bool, ghost able: bool)
      returns (r: Outcome<seq<Reference>>, ghost more: map<string, Id>)
      requires BuildingOn(base, map[]) == Sound && Supported(read.spec.loadBalancingPolicy)
      requires (covered ==> Known(base)) && (able ==> CanRefer(base))
      requires forall i :: 0 <= i < |order| ==> order[i] in endpoints
      modifies world, `healthCheckIds
      ensures BuildingOn(base, more) == Sound
      ensures r.Ok? ==> Visited(r.value, base, more, order)
      ensures world.sky.reliable && able ==> r.Ok?
      ensures covered ==> world.churn == old(world.churn)
    {
      more := map[];
      var references: seq<Reference> := [];
      VisitedNone(base, map[]);
      assert order[..0] == [];
      for i := 0 to |order|
        invariant BuildingOn(base, more) == Sound
        invariant Visited(references, base, more, order[..i])
        invariant covered ==> world.churn == old(world.churn)
      {
        var found;
        found, more := VisitEndpoint(order[i], references, base, more, order[..i], covered, able);
        if found.Err? {
          return Err(found.fault), more;
        }
        references := references + found.value;
        assert order[..i] + [order[i]] == order[..i + 1];
      }
      assert order[..|order|] == order;
      r := Ok(references);
    }

    /** One visit of the traversal. */
    method VisitEndpoint(k: string, ghost references: seq<Reference>, ghost base: Store, ghost ids: map<string, Id>,
                         ghost before: seq<string>, ghost covered: bool, ghost able: bool)
      returns (r: Outcome<seq<Reference>>, ghost more: map<string, Id>)
      requires BuildingOn(base, ids) == Sound && Supported(read.spec.loadBalancingPolicy)
      requires k in endpoints && Visited(references, base, ids, before)
      requires (covered ==> Known(base)) && (able ==> CanRefer(base))
      modifies world, `healthCheckIds
      ensures BuildingOn(base, more) == Sound
      ensures r.Ok? ==> Visited(references + r.value, base, more, before + [k])
      ensures world.sky.reliable && able ==> r.Ok?
      ensures covered ==> world.churn == old(world.churn)
    {
      VisitKnows(k, base);
      r, more := ReferencesFor(endpoints[k], base, ids);
      if r.Ok? {
        VisitedOneMore(references, r.value, base, ids, more, before, k);
      }
    }

    lemma VisitKnows(k: string, base: Store)
      requires k in endpoints
      ensures Known(base) ==> KnownFor(base, endpoints[k])
      ensures CanRefer(base) ==> Refers(base, endpoints[k])
    {
      assert Key(0);
    }

    lemma VisitedNone(base: Store, ids: map<string, Id>)
      ensures Visited([], base, ids, [])
    {
    }

    lemma VisitedOneMore(references: seq<Reference>, found: seq<Reference>, base: Store, known: map<string, Id>,
                         more: map<string, Id>, before: seq<string>, k: string)
      requires Visited(references, base, known, before) && Extends(known, more) && k in endpoints
      requires ToSet(found) == ReferencesOf(WishFor(more), endpoints[k]) && Covered(WishFor(more), endpoints[k])
      requires Refers(base, endpoints[k])
      ensures Visited(references + found, base, more, before + [k])
    {
      assert Key(0);
      GathersOneMore(references, found, WishFor(known), WishFor(more), before, k);
    }

    /** `d` is a document that this record wants: `ids` gives the health checks it names, and they exist. */
    ghost predicate Wanted(s: Store, d: Document, ids: map<string, Id>) {
      Describes(d, WishFor(ids)) && AllCovered(WishFor(ids)) && Right(world.own, s, ids)
    }

    /** Endpoints and references make up a document that the record wants. */
    lemma Assembled(order: seq<string>, m: map<string, PolicyEndpoint>, rs: seq<Reference>, base: Store,
                    more: map<string, Id>)
      requires BuildingOn(base, more) == Sound && Supported(read.spec.loadBalancingPolicy)
      requires Enumerates(order, endpoints.Keys) && m == WriteAll(read.spec.loadBalancingPolicy, endpoints, dns, order)
      requires ToSet(rs) == AllReferences(WishFor(more)) && AllCovered(WishFor(more))
      ensures Wanted(world.store, DocumentFor(read.spec.loadBalancingPolicy, m, rs), more)
    {
      BuildingMeans(base, more);
      TraversalDescribes(read.spec.loadBalancingPolicy, endpoints, dns, order);
      DocumentForDescribes(WishFor(more), m, rs);
    }

    lemma BuildingBegins()
      requires Standing() == Sound
      ensures BuildingOn(world.store, map[]) == Sound
    {
      StayingGrows(world.own, world.store);
    }

    /** What a document says in terms of the record's spec, its endpoints and the resolver, and the health checks
        there are. */
    ghost predicate Fulfils(d: Document, s: Store) {
      Promised(d, s.healthChecks, read.spec, endpoints, dns)
    }

    /** A document that was built says what is promised. */
    lemma WantedFulfils(base: Store, d: Document, ids: map<string, Id>)
      requires BuildingOn(base, ids) == Sound && Wanted(world.store, d, ids)
      requires AllWritable(read.spec.loadBalancingPolicy, endpoints, dns)
      ensures Fulfils(d, world.store)
    {
      BuildingMeans(base, ids);
      assert Backed(WishFor(ids), world.store.healthChecks, read.spec.healthCheck) by {
        forall ip | ip in ids && read.spec.healthCheck.Some?
          ensures ids[ip] in world.store.healthChecks && world.store.healthChecks[ids[ip]].ip == ip
        {
          assert CheckFor(world.own, world.store, ids[ip], ip);
        }
      }
      DescribedIsPromised(d, WishFor(ids), world.store.healthChecks, read.spec);
    }

    /** getAWSTrafficPolicyDocument: two traversals of the endpoint map, the second of which ensures the
        health checks. */
    method BuildDocument() returns (r: Outcome<Document>, ghost more: map<string, Id>)
      requires Standing() == Sound
      modifies world, `healthCheckIds
      ensures BuildingOn(old(world.store), map[]) == Sound
      ensures r.Ok? ==> Wanted(world.store, r.value, more) && CanBuild(old(world.store))
      ensures r.Ok? ==> Fulfils(r.value, world.store)
      ensures world.sky.reliable && CanBuild(old(world.store)) ==> r.Ok?
      ensures Known(old(world.store)) ==> world.churn == old(world.churn)
    {
      more := map[];
      ghost var base := world.store;
      BuildingBegins();
      var policy := read.spec.loadBalancingPolicy;
      var written, order := BuildEndpoints(policy, endpoints, dns, world.sky.reliable);
      if written.Err? {
        return Err(written.fault), more;
      }
      var found;
      found, more := BuildReferences(base);
      BuildingFewer(base, more);
      if found.Err? {
        return Err(found.fault), more;
      }
      Assembled(order, written.value, found.value, base, more);
      var document := DocumentFor(policy, written.value, found.value);
      WantedFulfils(base, document, more);
      return Ok(document), more;
    }

    lemma BuildingFewer(base: Store, more: map<string, Id>)
      requires BuildingOn(base, more) == Sound
      ensures BuildingOn(base, map[]) == Sound
    {
      BuildingMeans(base, more);
    }

    /** First part of deleteTrafficPolicy: the instances of the policy. */
    method DeleteInstances(p: Id) returns (ok: bool)
      requires Standing() == Sound && OwnPolicy(world.own, world.store, p)
      modifies world
      ensures Standing() == Sound && world.store == old(world.store).(instances := world.store.instances)
      ensures Dismantled(old(world.store), world.store, p)
      ensures ok ==> NoInstanceOf(world.store, p)
      ensures world.sky.reliable ==> ok
    {
      ghost var base := world.store;
      var listed := world.List(set i | i in world.store.instances && world.store.instances[i].policy == p);
      if listed.Err? {
        return false;
      }
      assert forall i | i in base.instances && base.instances[i].policy == p :: i in listed.value;
      for k := 0 to |listed.value|
        invariant Standing() == Sound && world.store == base.(instances := world.store.instances)
        invariant Dismantled(base, world.store, p)
        invariant Remaining(world.store, p, listed.value, k)
      {
        assert listed.value[k] in listed.value;
        RemainingAfterDelete(world.store, p, listed.value, k);
        DismantleMore(base, world.store, p, DeleteInstance(listed.value[k]));
        var reply := Act(DeleteInstance(listed.value[k]));
        if !reply.Done? {
          return false;
        }
      }
      return true;
    }

    /** The policy's document names the health check. */
    ghost predicate Names(s: Store, p: Id, id: Id) {
      p in s.policies && forall k {:trigger Key(k)} :: Key(k) ==> id in HealthChecks(s.policies[p].document)
    }

    /** Nothing but health checks that the policy's document names was deleted. */
    ghost predicate Reduced(base: Store, s: Store, p: Id) {
      p in base.policies && s == base.(healthChecks := s.healthChecks) && Dismantled(base, s, p)
    }

    /** Where the deletion of the health checks `ids` of a policy stands that began at `base`. */
    ghost function Course(p: Id, base: Store, ids: seq<Id>, run: CheckDeletion.Deletion): (stage: CheckDeletion.Stage)
      reads world
    {
      if Standing() == Sound && forall k {:trigger Key(k)} :: Key(k) ==> Reduced(base, world.store, p)
      then CheckDeletion.StageOf(world.sky.Tidy(), base, world.store, ids, run) else CheckDeletion.Astray
    }

    lemma CourseBegins(p: Id, base: Store)
      requires Standing() == Sound && world.store == base && p in base.policies
      ensures Course(p, base, [], CheckDeletion.Begin(base)) == CheckDeletion.Through
    {
      CheckDeletion.StageBegins(world.sky.Tidy(), base);
    }

    lemma CourseStops(p: Id, base: Store, ids: seq<Id>, more: seq<Id>, run: CheckDeletion.Deletion)
      requires Course(p, base, ids, run) == CheckDeletion.Stopped && ids <= more
      ensures Course(p, base, more, run) == CheckDeletion.Stopped
    {
      CheckDeletion.StoppedStays(world.sky.Tidy(), base, world.store, ids, more, run);
    }

    /** Deletes one health check that the policy's document names, when the policy has no instance. */
    method DeleteNamedCheck(p: Id, id: Id, ghost base: Store, ghost ids: seq<Id>, ghost run: CheckDeletion.Deletion)
      returns (goOn: bool, ghost more: CheckDeletion.Deletion)
      requires Course(p, base, ids, run) == CheckDeletion.Through
      requires OwnPolicy(world.own, base, p) && NoInstanceOf(base, p) && Names(base, p, id)
      modifies world
      ensures Course(p, base, ids + [id], more) == if goOn then CheckDeletion.Through else CheckDeletion.Stopped
      ensures world.sky.reliable ==> goOn
    {
      Stands();
      assert Key(0);
      ghost var before := world.store;
      ChecksOutOfUse(world.own, before, p, id);
      DismantleMore(base, before, p, DeleteHealthCheck(id));
      var reply := Act(DeleteHealthCheck(id));
      CheckDeletion.StageNext(world.sky.Tidy(), base, before, ids, run, id, reply, world.store);
      more := CheckDeletion.Answered(run, reply, world.store);
      goOn := !reply.AwsError?;
    }

    /** Second part: the health checks that the main rule names. A check that is already gone is no
        error, and neither is an error that is not an AWS error: this is one of the runs of CheckDeletion. */
    method DeleteHealthChecks(p: Id, document: Document) returns (ok: bool, ghost run: CheckDeletion.Deletion)
      requires Standing() == Sound && OwnPolicy(world.own, world.store, p) && NoInstanceOf(world.store, p)
      requires document == world.store.policies[p].document
      modifies world
      ensures Standing() == Sound && Reduced(old(world.store), world.store, p)
      ensures CheckDeletion.StageOf(world.sky.Tidy(), old(world.store), world.store,
                                    CheckDeletion.ChecksToDelete(old(world.store).policies[p].document), run) ==
              if ok then CheckDeletion.Through else CheckDeletion.Stopped
      ensures world.sky.reliable ==> ok
    {
      ghost var base := world.store;
      NamedInMainRule(base, p);
      ok, run := DeleteChecksOf(RuleReferences(MainRule(document)), p, base);
      assert Key(0);
    }

    /** One pass of the loop over the references. */
    method DeleteCheckOf(references: seq<Reference>, k: nat, p: Id, ghost base: Store,
                         ghost run: CheckDeletion.Deletion)
      returns (goOn: bool, ghost more: CheckDeletion.Deletion)
      requires k < |references| && Course(p, base, CheckDeletion.CheckIds(references, k), run) == CheckDeletion.Through
      requires OwnPolicy(world.own, base, p) && NoInstanceOf(base, p)
      requires references[k].healthCheck != "" ==> Names(base, p, references[k].healthCheck)
      modifies world
      ensures Course(p, base, CheckDeletion.CheckIds(references, k + 1), more) ==
              if goOn then CheckDeletion.Through else CheckDeletion.Stopped
      ensures world.sky.reliable ==> goOn
    {
      goOn, more := true, run;
      if references[k].healthCheck != "" {
        goOn, more := DeleteNamedCheck(p, references[k].healthCheck, base, CheckDeletion.CheckIds(references, k), run);
      }
    }

    method DeleteChecksOf(references: seq<Reference>, p: Id, ghost base: Store)
      returns (ok: bool, ghost run: CheckDeletion.Deletion)
      requires Standing() == Sound && world.store == base && OwnPolicy(world.own, base, p) && NoInstanceOf(base, p)
      requires forall k ::
        0 <= k < |references| && references[k].healthCheck != "" ==> Names(base, p, references[k].healthCheck)
      modifies world
      ensures Course(p, base, CheckDeletion.CheckIds(references, |references|), run) ==
              if ok then CheckDeletion.Through else CheckDeletion.Stopped
      ensures world.sky.reliable ==> ok
    {
      CourseBegins(p, base);
      run := CheckDeletion.Begin(base);
      for k := 0 to |references|
        invariant Course(p, base, CheckDeletion.CheckIds(references, k), run) == CheckDeletion.Through
      {
        ok, run := DeleteCheckOf(references, k, p, base, run);
        if !ok {
          CheckDeletion.CheckIdsPrefix(references, k + 1, |references|);
          CourseStops(p, base, CheckDeletion.CheckIds(references, k + 1),
                      CheckDeletion.CheckIds(references, |references|), run);
          return;
        }
      }
      ok := true;
    }

    lemma NamedInMainRule(s: Store, p: Id)
      requires Standing() == Sound && world.store == s && OwnPolicy(world.own, s, p)
      ensures forall r | r in RuleReferences(MainRule(s.policies[p].document)) && r.healthCheck != "" ::
                Names(s, p, r.healthCheck)
      ensures ToSet(CheckDeletion.ChecksToDelete(s.policies[p].document)) == HealthChecks(s.policies[p].document)
    {
      Stands();
      MainRuleOnly(s.policies[p].document);
      CheckDeletion.CheckIdsOfDocument(s.policies[p].document);
    }

    /** deleteTrafficPolicy: instances, then health checks, then the policy. Success leaves what `Undone` says and,
        unless an error that is not an AWS error is ignored, exactly the rest of the store. */
    method DeleteTrafficPolicy(p: Id, document: Document) returns (ok: bool)
      requires Standing() == Sound && OwnPolicy(world.own, world.store, p)
      requires document == world.store.policies[p].document
      modifies world
      ensures Standing() == Sound
      ensures Dismantled(old(world.store), world.store, p)
      ensures ok ==> NoPolicyOf(world.own, world.store) && Undone(world.sky.Tidy(), old(world.store), world.store, p)
      ensures world.sky.Tidy() && ok ==> world.store == WithoutPolicy(old(world.store), p)
      ensures world.sky.reliable ==> ok
    {
      ghost var base := world.store;
      MainOnly(p);
      ok := DeleteInstances(p);
      if !ok {
        return;
      }
      ghost var middle := world.store;
      InstancesGone(base, middle, p);
      ghost var run;
      ok, run := DeleteHealthChecks(p, document);
      ghost var last := world.store;
      DismantledTransitive(base, middle, last, p);
      if !ok {
        return;
      }
      UndoneByPhases(world.sky.Tidy(), base, middle, last, p, run);
      ok := DeletePolicyItself(p, base);
      if ok && world.sky.Tidy() {
        UndoneExactly(base, world.store, p);
      }
    }

    lemma MainOnly(p: Id)
      requires Standing() == Sound && OwnPolicy(world.own, world.store, p)
      ensures world.store.policies[p].document.rules.Keys == {"main"}
    {
      Stands();
    }

    /** Last part: the policy itself. */
    method DeletePolicyItself(p: Id, ghost base: Store) returns (ok: bool)
      requires Standing() == Sound && OwnPolicy(world.own, world.store, p) && NoInstanceOf(world.store, p)
      requires p in base.policies && Dismantled(base, world.store, p)
      modifies world
      ensures Standing() == Sound && Dismantled(base, world.store, p)
      ensures ok ==> world.store == Apply(old(world.store), DeletePolicy(p)) && NoPolicyOf(world.own, world.store)
      ensures world.sky.reliable ==> ok
    {
      Stands();
      ghost var before := world.store;
      DismantleMore(base, before, p, DeletePolicy(p));
      var reply := Act(DeletePolicy(p));
      assert forall q | OwnPolicy(world.own, world.store, q) :: OwnPolicy(world.own, before, q);
      ok := reply.Done?;
    }

    /** The policy belongs to the record and its document is equivalent to one that the record wants. */
    ghost predicate Current(s: Store, p: Id) {
      OwnPolicy(world.own, s, p) && forall k {:trigger Key(k)} :: Key(k) ==> Matches(s, s.policies[p].document)
    }

    ghost predicate Matches(s: Store, stored: Document) {
      exists d, ids :: Wanted(s, d, ids) && SameDocument(d, stored)
    }

    lemma WantedNow(s: Store, p: Id) returns (d: Document, ids: map<string, Id>)
      requires Current(s, p)
      ensures Wanted(s, d, ids) && SameDocument(d, s.policies[p].document)
    {
      assert Key(0);
      d, ids :| Wanted(s, d, ids) && SameDocument(d, s.policies[p].document);
    }

    lemma WantedNamesOwnChecks(s: Store, d: Document, ids: map<string, Id>)
      requires Wanted(s, d, ids)
      ensures forall h | h in HealthChecks(d) :: OwnCheck(world.own, s, h)
    {
      forall h | h in HealthChecks(d) ensures OwnCheck(world.own, s, h) {
        HealthChecksOfBuilt(d, WishFor(ids), h);
        var ip :| ip in ids && h == ids[ip];
        assert CheckFor(world.own, s, h, ip);
      }
    }

    /** No endpoint name is written with two values. */
    ghost predicate Unmistaken() {
      forall k {:trigger Key(k)} :: Key(k) ==> NoCollision(read.spec.loadBalancingPolicy, endpoints, dns)
    }

    /** Two documents wanted in one state are equivalent. */
    lemma WantedAlike(s: Store, d: Document, ids: map<string, Id>, e: Document, more: map<string, Id>)
      requires Inv(world.own, s) && Wanted(s, d, ids) && Wanted(s, e, more)
      requires Unmistaken()
      ensures SameDocument(d, e)
    {
      assert Key(0);
      forall ip | ip in ids && ip in more ensures ids[ip] == more[ip] {
        assert CheckFor(world.own, s, ids[ip], ip) && CheckFor(world.own, s, more[ip], ip);
      }
      OrderDoesNotMatter(d, e, WishFor(ids), WishFor(more));
    }

    /** A policy with an equivalent document depends on the same, existing, health checks. */
    lemma EquivalentIsLive(s: Store, p: Id, d: Document, ids: map<string, Id>)
      requires Inv(world.own, s) && OwnPolicy(world.own, s, p) && Wanted(s, d, ids)
      requires SameDocument(d, s.policies[p].document)
      ensures HealthChecks(s.policies[p].document) <= s.healthChecks.Keys
    {
      SameDocumentSameRouting(d, s.policies[p].document);
      WantedNamesOwnChecks(s, d, ids);
    }

    /** What publishing a wanted document amounts to. */
    lemma Publishing(s: Store, id: Id, d: Document, ids: map<string, Id>)
      requires Inv(world.own, s) && Wanted(s, d, ids) && NoPolicyOf(world.own, s) && Fresh(s, id)
      ensures var c := CreatePolicy(id, TrafficPolicy(world.own.key, d));
        && Allowed(world.own, s, c) && EffectOf(world.own, None, s, Apply(s, c)) == Contained
        && Current(Apply(s, c), id)
    {
      var c := CreatePolicy(id, TrafficPolicy(world.own.key, d));
      WantedNamesOwnChecks(s, d, ids);
      CreatingTouchesNothing(world.own, s, c);
      SameDocumentIsEquivalence(d, d, d);
      assert Wanted(Apply(s, c), d, ids);
    }

    method PublishPolicy(d: Document, ghost ids: map<string, Id>) returns (r: Outcome<Id>)
      requires Standing() == Sound && Wanted(world.store, d, ids) && NoPolicyOf(world.own, world.store)
      modifies world
      ensures Standing() == Sound && world.store.instances == old(world.store.instances)
      ensures r.Ok? ==> world.store.policies == old(world.store.policies)[r.value := TrafficPolicy(world.own.key, d)]
      ensures world.store.healthChecks == old(world.store.healthChecks)
      ensures r.Ok? ==> Current(world.store, r.value) && r.value !in old(world.store).issued
      ensures EffectOf(world.own, None, old(world.store), world.store) == Contained
      ensures world.sky.reliable ==> r.Ok?
    {
      Stands();
      ghost var before := world.store;
      StayingGrows(world.own, before);
      GrowingTouchesNothing(world.own, before, before);
      var id := world.NewId();
      Publishing(before, id, d, ids);
      var reply := Act(CreatePolicy(id, TrafficPolicy(world.own.key, d)));
      r := if reply.Done? then Ok(id) else Err(CallFailed);
    }

    /** The stored document of the policy says what is promised. */
    ghost predicate Stored(p: Id)
      reads world
    {
      p in world.store.policies && Fulfils(world.store.policies[p].document, world.store)
    }

    /** createAWSTrafficPolicy: builds the document, which ensures the health checks, and stores it. */
    method CreateTrafficPolicy() returns (r: Outcome<Id>)
      requires Standing() == Sound && NoPolicyOf(world.own, world.store)
      modifies world, `healthCheckIds
      ensures Standing() == Sound && world.store.instances == old(world.store.instances)
      ensures r.Ok? ==> Current(world.store, r.value) && r.value !in old(world.store).issued
      ensures r.Ok? ==> CanBuild(old(world.store)) && Stored(r.value)
      ensures EffectOf(world.own, None, old(world.store), world.store) == Contained
      ensures world.sky.reliable && CanBuild(old(world.store)) ==> r.Ok?
    {
      ghost var base := world.store;
      Stands();
      ghost var ids;
      var document;
      document, ids := BuildDocument();
      ghost var built := world.store;
      BuildingMeans(base, map[]);
      if document.Err? {
        GrowingTouchesNothing(world.own, base, built);
        return Err(document.fault);
      }
      Stands();
      assert forall q | OwnPolicy(world.own, built, q) :: OwnPolicy(world.own, base, q);
      r := PublishPolicy(document.value, ids);
      Stands();
      GrownThen(world.own, base, built, world.store);
    }

    /** The policy that carries the record's name, with its document, if there is one. */
    method FindTrafficPolicy() returns (r: Outcome<Option<(Id, Document)>>)
      ensures r.Ok? && r.value.Some? ==>
        && OwnPolicy(world.own, world.store, r.value.value.0)
        && r.value.value.1 == world.store.policies[r.value.value.0].document
      ensures r.Ok? && r.value.None? ==> NoPolicyOf(world.own, world.store)
      ensures world.sky.reliable ==> r.Ok?
    {
      var listed := world.List(world.store.policies.Keys);
      if listed.Err? {
        return Err(listed.fault);
      }
      var current: Option<(Id, Document)> := None;
      for i := 0 to |listed.value|
        invariant current.Some? ==>
          && OwnPolicy(world.own, world.store, current.value.0)
          && current.value.1 == world.store.policies[current.value.0].document
        invariant current.None? ==> forall k :: 0 <= k < i ==> !OwnPolicy(world.own, world.store, listed.value[k])
      {
        if world.store.policies[listed.value[i]].name == world.own.key {
          var got := world.Get(world.store.policies, listed.value[i]);
          if got.Err? {
            return Err(got.fault);
          }
          current := Some((listed.value[i], got.value.document));
        }
      }
      return Ok(current);
    }

    /** The policy has the instances that it had at `base`. */
    ghost predicate SameInstances(base: Store, p: Id)
      reads world
    {
      InstancesOf(base.instances, p) == InstancesOf(world.store.instances, p)
    }

    method ReplaceTrafficPolicy(p: Id, document: Document) returns (r: Outcome<Id>)
      requires Standing() == Sound && OwnPolicy(world.own, world.store, p)
      requires document == world.store.policies[p].document
      modifies world, `healthCheckIds
      ensures Standing() == Sound
      ensures r.Ok? ==> Current(world.store, r.value) && SameInstances(old(world.store), r.value) && Stored(r.value)
      ensures EffectOf(world.own, None, old(world.store), world.store) == Contained
      ensures world.sky.Tidy() && r.Ok? ==> CanRebuild(old(world.store), p)
      ensures world.sky.reliable && CanRebuild(old(world.store), p) ==> r.Ok?
    {
      ghost var base := world.store;
      Stands();
      var deleted := DeleteTrafficPolicy(p, document);
      ghost var cleared := world.store;
      StandsWhole();
      if !deleted {
        DismantlingTouchesNothing(world.own, base, cleared, p);
        return Err(CallFailed);
      }
      UndoneTouches(world.sky.Tidy(), base, cleared, p);
      r := CreateTrafficPolicy();
      StandsWhole();
      DismantledThen(world.own, base, cleared, world.store, p);
      if r.Ok? {
        FreshHasNoInstance(base, r.value);
        FreshHasNoInstance(cleared, r.value);
      }
    }

    /** The policy could give way: without it and the health checks that go with it, the document can be built. */
    ghost predicate CanRebuild(s: Store, p: Id) {
      p in s.policies && Feasible(world.own, WithoutPolicy(s, p), read.spec, endpoints, dns)
    }

    /** What it takes to ensure the policy: the document can be built, and a policy that is there is current or
        can give way. */
    ghost predicate CanEnsure(s: Store) {
      CanBuild(s) && forall k {:trigger Key(k)} :: Key(k) ==>
        forall p | OwnPolicy(world.own, s, p) :: Current(s, p) || CanRebuild(s, p)
    }

    /** In a reliable world the policy is sure to be ensured. Where an endpoint name is written with two values, a
        current policy may still have to give way. */
    ghost predicate SureToBuild(s: Store) {
      CanBuild(s) && forall k {:trigger Key(k)} :: Key(k) ==>
        forall p | OwnPolicy(world.own, s, p) :: (Current(s, p) && Unmistaken()) || CanRebuild(s, p)
    }

    /** ensureRoute53TrafficPolicy. Any policy `was` that is current already is left alone: no call creates
        or deletes anything, whatever the order in which maps and listings are traversed. */
    method EnsureTrafficPolicy(ghost was: Option<Id>) returns (r: Outcome<Id>)
      requires Standing() == Sound
      requires was.Some? ==> Current(world.store, was.value) && Unmistaken()
      modifies world, `healthCheckIds
      ensures Standing() == Sound
      ensures r.Ok? ==> Current(world.store, r.value) && SameInstances(old(world.store), r.value) && Stored(r.value)
      ensures EffectOf(world.own, None, old(world.store), world.store) == Contained
      ensures world.sky.Tidy() && r.Ok? ==> CanEnsure(old(world.store))
      ensures world.sky.reliable && SureToBuild(old(world.store)) ==> r.Ok?
      ensures was.Some? ==>
        && world.churn == old(world.churn) && (r.Ok? ==> r.value == was.value)
        && world.store.policies == old(world.store.policies) && world.store.instances == old(world.store.instances)
    {
      ghost var base := world.store;
      StayingGrows(world.own, base);
      GrowingTouchesNothing(world.own, base, base);
      var found := FindTrafficPolicy();
      if found.Err? {
        return Err(found.fault);
      }
      if found.value.None? {
        r := CreateTrafficPolicy();
        return;
      }
      OnlyOwn(found.value.value.0);
      r := KeepOrReplace(found.value.value.0, found.value.value.1, was);
    }

    lemma OnlyOwn(p: Id)
      requires Standing() == Sound && OwnPolicy(world.own, world.store, p)
      ensures forall q :: OwnPolicy(world.own, world.store, q) <==> q == p
    {
      Stands();
    }

    method KeepOrReplace(p: Id, stored: Document, ghost was: Option<Id>) returns (r: Outcome<Id>)
      requires Standing() == Sound && OwnPolicy(world.own, world.store, p)
      requires stored == world.store.policies[p].document
      requires was.Some? ==> Current(world.store, was.value) && Unmistaken() && was.value == p
      modifies world, `healthCheckIds
      ensures Standing() == Sound
      ensures r.Ok? ==> Current(world.store, r.value) && SameInstances(old(world.store), r.value) && Stored(r.value)
      ensures EffectOf(world.own, None, old(world.store), world.store) == Contained
      ensures r.Ok? ==> CanBuild(old(world.store))
      ensures world.sky.Tidy() && r.Ok? ==> Current(old(world.store), p) || CanRebuild(old(world.store), p)
      ensures world.sky.reliable && CanBuild(old(world.store)) ==>
        (Current(old(world.store), p) && Unmistaken()) || CanRebuild(old(world.store), p) ==> r.Ok?
      ensures was.Some? ==>
        && world.churn == old(world.churn) && (r.Ok? ==> r.value == was.value)
        && world.store.policies == old(world.store.policies) && world.store.instances == old(world.store.instances)
    {
      ghost var base := world.store;
      StandsWhole();
      StandsIssued();
      CurrentIsKnown(base, p);
      ghost var more;
      var document;
      document, more := BuildDocument();
      ghost var built := world.store;
      BuildingMeans(base, map[]);
      GrowingTouchesNothing(world.own, base, built);
      if document.Err? {
        return Err(document.fault);
      }
      CurrentCompares(base, p, document.value, more);
      var same := ReferenceSet.CompareDocuments(document.value, stored);
      if same {
        KeptWasCurrent(base, p, document.value, more);
        KeptFulfils(p, document.value);
        return Ok(p);
      }
      r := Rebuild(p, stored, base);
    }

    /** Where the policy is current, its health checks are there. */
    lemma CurrentIsKnown(s: Store, p: Id)
      ensures Current(s, p) ==> Known(s)
    {
      if Current(s, p) {
        var d, ids := WantedNow(s, p);
        WantedIsKnown(s, d, ids);
      }
    }

    /** ... and a document that is built then compares equal. */
    lemma CurrentCompares(s: Store, p: Id, d: Document, more: map<string, Id>)
      requires Standing() == Sound && ChecksGrow(world.own, s, world.store) && OwnPolicy(world.own, s, p)
      requires Wanted(world.store, d, more)
      ensures Current(s, p) && Unmistaken() ==> SameDocument(d, world.store.policies[p].document)
    {
      if Current(s, p) && Unmistaken() {
        var known, ids := WantedNow(s, p);
        StaysCurrent(s, p, known, ids, d, more);
      }
    }

    lemma KeptFulfils(p: Id, d: Document)
      requires Standing() == Sound && OwnPolicy(world.own, world.store, p) && Fulfils(d, world.store)
      requires SameDocument(d, world.store.policies[p].document)
      ensures Stored(p)
    {
      MainOnly(p);
      PromisedAlike(d, world.store.policies[p].document, world.store.healthChecks, read.spec, endpoints, dns);
    }

    /** Where a document is wanted, its health checks are there. */
    lemma WantedIsKnown(s: Store, d: Document, ids: map<string, Id>)
      requires Wanted(s, d, ids)
      ensures Known(s)
    {
      forall k | k in endpoints ensures AllPresent(s, endpoints[k]) {
        assert Covered(WishFor(ids), endpoints[k]);
        if read.spec.healthCheck.Some? {
          forall ip | ip in ProbedIPs(read.spec.loadBalancingPolicy, endpoints[k], dns) ensures Present(s, ip) {
            assert CheckFor(world.own, s, ids[ip], ip);
          }
        }
      }
    }

    /** The policy gives way to a new one. */
    method Rebuild(p: Id, document: Document, ghost base: Store) returns (r: Outcome<Id>)
      requires Standing() == Sound && OwnPolicy(world.own, world.store, p)
      requires document == world.store.policies[p].document
      requires Integrity(base) && ChecksGrow(world.own, base, world.store)
      modifies world, `healthCheckIds
      ensures Standing() == Sound
      ensures r.Ok? ==> Current(world.store, r.value) && SameInstances(base, r.value) && Stored(r.value)
      ensures EffectOf(world.own, None, base, world.store) == Contained
      ensures world.sky.Tidy() && r.Ok? ==> CanRebuild(base, p)
      ensures world.sky.reliable && CanRebuild(base, p) ==> r.Ok?
    {
      ghost var built := world.store;
      StandsWhole();
      ReadFits();
      FeasibleWithout(world.own, base, built, p, read.spec, endpoints, dns);
      r := ReplaceTrafficPolicy(p, document);
      StandsWhole();
      GrownThen(world.own, base, built, world.store);
    }

    /** The identifiers in `more` that were there already. */
    function Earlier(s: Store, more: map<string, Id>): (ids: map<string, Id>) {
      map ip | ip in more && more[ip] in s.healthChecks :: more[ip]
    }

    /** A document that compares equal to a stored one names only health checks that were there when the policy
        was stored; so the policy was current before they were ensured again. */
    lemma KeptWasCurrent(s: Store, p: Id, d: Document, more: map<string, Id>)
      requires Standing() == Sound && ChecksGrow(world.own, s, world.store) && OwnPolicy(world.own, s, p)
      requires Wanted(world.store, d, more) && SameDocument(d, s.policies[p].document)
      requires AllIssued(s)
      ensures Current(s, p) && Current(world.store, p)
    {
      var ids := Earlier(s, more);
      if read.spec.healthCheck.Some? {
        forall k, ip | k in endpoints && ip in ProbedIPs(read.spec.loadBalancingPolicy, endpoints[k], dns)
          ensures ip in ids
        {
          ProbedWasThere(s, p, d, more, k, ip);
        }
      }
      assert AllCovered(WishFor(ids)) by {
        forall k | k in endpoints ensures Covered(WishFor(ids), endpoints[k]) {
          assert Covered(WishFor(more), endpoints[k]);
        }
      }
      ReferencesAgree(WishFor(ids), WishFor(more));
      assert Describes(d, WishFor(ids));
      assert Right(world.own, s, ids);
      assert Wanted(s, d, ids);
    }

    /** A built document has a reference with the health check of each probed address. */
    lemma ProbedIsNamed(d: Document, ids: map<string, Id>, k: string, ip: string)
      requires Describes(d, WishFor(ids)) && AllCovered(WishFor(ids)) && read.spec.healthCheck.Some?
      requires k in endpoints && ip in ProbedIPs(read.spec.loadBalancingPolicy, endpoints[k], dns)
      ensures ip in ids && (ids[ip] != "" ==> ids[ip] in RuleHealthChecks(MainRule(d)))
    {
      var w, st := WishFor(ids), endpoints[k];
      assert Covered(w, st);
      var r := if w.policy.Multivalue? then AddressReference(w, st, ip) else BalancerReference(w, st);
      assert r in ReferencesOf(w, st) && r in AllReferences(w);
      MainReferences(d, w);
    }

    /** A health check that a stored document names and that is there now was there when it was stored. */
    lemma NamedWasThere(s: Store, p: Id, d: Document, h: Id)
      requires Standing() == Sound && ChecksGrow(world.own, s, world.store) && OwnPolicy(world.own, s, p)
      requires SameDocument(d, s.policies[p].document) && AllIssued(s)
      requires h in RuleHealthChecks(MainRule(d)) && h in world.store.healthChecks
      ensures h in s.healthChecks
    {
      Stands();
      SameDocumentSameRouting(d, s.policies[p].document);
      MainRuleOnly(world.store.policies[p].document);
      assert h in HealthChecks(s.policies[p].document);
    }

    lemma ProbedWasThere(s: Store, p: Id, d: Document, more: map<string, Id>, k: string, ip: string)
      requires Standing() == Sound && ChecksGrow(world.own, s, world.store) && OwnPolicy(world.own, s, p)
      requires Wanted(world.store, d, more) && SameDocument(d, s.policies[p].document) && AllIssued(s)
      requires k in endpoints && ip in ProbedIPs(read.spec.loadBalancingPolicy, endpoints[k], dns)
      requires read.spec.healthCheck.Some?
      ensures ip in more && more[ip] in s.healthChecks
    {
      ProbedIsNamed(d, more, k, ip);
      assert CheckFor(world.own, world.store, more[ip], ip);
      assert more[ip] != "" by {
        Stands();
      }
      NamedWasThere(s, p, d, more[ip]);
    }

    /** A document built while the policy is current compares equal to the stored one. */
    lemma StaysCurrent(s: Store, p: Id, known: Document, ids: map<string, Id>, d: Document, more: map<string, Id>)
      requires Standing() == Sound && ChecksGrow(world.own, s, world.store) && OwnPolicy(world.own, s, p)
      requires Wanted(world.store, d, more) && Wanted(s, known, ids) && SameDocument(known, s.policies[p].document)
      requires Unmistaken()
      ensures SameDocument(d, world.store.policies[p].document)
    {
      Stands();
      RightStays(world.own, s, world.store, ids);
      WantedAlike(world.store, d, more, known, ids);
      SameDocumentIsEquivalence(d, known, s.policies[p].document);
    }

    function Site(): (site: (string, string)) {
      (zone, read.spec.name + ".")
    }

    ghost predicate AtSite(s: Store, i: Id) {
      i in s.instances && (s.instances[i].zone, s.instances[i].name) == Site()
    }

    /** The instance that the record wants for a policy. Route53 stores names with a final dot. */
    function WantedInstance(p: Id): (instance: PolicyInstance) {
      PolicyInstance(zone, read.spec.name + ".", read.spec.ttl, p)
    }

    /** The instance routes the record's DNS name, in its zone and with its TTL, by the policy. */
    ghost predicate Routes(p: Id, i: Id)
      reads world
    {
      && i in world.store.instances
      && world.store.instances[i] == PolicyInstance(zone, read.spec.name + ".", read.spec.ttl, p)
    }

    /** The instance that answers for the record's DNS name in its zone, if there is one. */
    method FindInstance() returns (r: Outcome<Option<(Id, PolicyInstance)>>)
      ensures r.Ok? && r.value.Some? ==>
        AtSite(world.store, r.value.value.0) && r.value.value.1 == world.store.instances[r.value.value.0]
      ensures r.Ok? && r.value.None? ==> forall i :: !AtSite(world.store, i)
      ensures world.sky.reliable ==> r.Ok?
    {
      var listed := world.List(set i | i in world.store.instances && world.store.instances[i].zone == zone);
      if listed.Err? {
        return Err(listed.fault);
      }
      assert forall i | AtSite(world.store, i) :: i in listed.value;
      var current: Option<(Id, PolicyInstance)> := None;
      for k := 0 to |listed.value|
        invariant current.Some? ==>
          AtSite(world.store, current.value.0) && current.value.1 == world.store.instances[current.value.0]
        invariant current.None? ==> forall j :: 0 <= j < k ==> !AtSite(world.store, listed.value[j])
      {
        assert listed.value[k] in listed.value;
        if world.store.instances[listed.value[k]].name == read.spec.name + "." {
          var got := world.Get(world.store.instances, listed.value[k]);
          if got.Err? {
            return Err(got.fault);
          }
          current := Some((listed.value[k], got.value));
        }
      }
      return Ok(current);
    }

    /** createAWSTrafficPolicyInstance. */
    method CreateInstance(p: Id) returns (r: Outcome<Id>)
      requires Standing() == Sound && OwnPolicy(world.own, world.store, p)
      requires HealthChecks(world.store.policies[p].document) <= world.store.healthChecks.Keys
      requires forall i :: !AtSite(world.store, i)
      modifies world
      ensures Standing() == Sound
      ensures OnlySite(old(world.store), world.store, p)
      ensures r.Ok? ==> r.value in world.store.instances && world.store.instances[r.value] == WantedInstance(p)
      ensures world.sky.reliable ==> r.Ok?
    {
      Stands();
      var id := world.NewId();
      var c := Call.CreateInstance(id, WantedInstance(p));
      CreateChangesSite(world.store, id, p);
      var reply := Act(c);
      r := if reply.Done? then Ok(id) else Err(CallFailed);
    }

    /** Nothing changed but the instance that answers for the record's DNS name, now one for `p`. */
    ghost predicate OnlySite(s: Store, t: Store, p: Id) {
      && t.policies == s.policies && t.healthChecks == s.healthChecks
      && (forall i | i in s.instances && !AtSite(s, i) :: i in t.instances && t.instances[i] == s.instances[i])
      && (forall i | i in t.instances ::
            (i in s.instances && s.instances[i] == t.instances[i]) || t.instances[i] == WantedInstance(p))
    }

    lemma CreateChangesSite(s: Store, id: Id, p: Id)
      requires Fresh(s, id) && s.instances.Keys <= s.issued && p in s.policies
      requires HealthChecks(s.policies[p].document) <= s.healthChecks.Keys && forall i :: !AtSite(s, i)
      ensures Allowed(world.own, s, Call.CreateInstance(id, WantedInstance(p)))
      ensures OnlySite(s, Apply(s, Call.CreateInstance(id, WantedInstance(p))), p)
    {
      assert forall i | i in s.instances && s.instances[i].zone == zone :: !AtSite(s, i);
    }

    lemma OnlySiteTouched(s: Store, t: Store, p: Id)
      requires OwnPolicy(world.own, s, p) && OnlySite(s, t, p)
      ensures Untouched(world.own, Some(Site()), s, t)
    {
    }

    /** The record's DNS name has at most one instance. */
    lemma OneAtSite(id: Id)
      requires Standing() == Sound && AtSite(world.store, id)
      ensures forall i :: AtSite(world.store, i) <==> i == id
    {
      Stands();
    }

    /** ensureRoute53DNSRecord: replaces an instance that is not as wanted, and leaves alone any instance
        `was` that is. */
    method EnsureInstance(p: Id, ghost was: Option<Id>) returns (r: Outcome<Id>)
      requires Standing() == Sound && OwnPolicy(world.own, world.store, p) && policyId == p
      requires was.Some? ==> was.value in world.store.instances && world.store.instances[was.value] == WantedInstance(p)
      requires HealthChecks(world.store.policies[p].document) <= world.store.healthChecks.Keys
      modifies world
      ensures Standing() == Sound
      ensures OnlySite(old(world.store), world.store, p)
      ensures r.Ok? ==> r.value in world.store.instances && world.store.instances[r.value] == WantedInstance(p)
      ensures world.sky.reliable ==> r.Ok?
      ensures was.Some? ==>
        world.churn == old(world.churn) && world.store == old(world.store) && (r.Ok? ==> r.value == was.value)
    {
      var found := FindInstance();
      if found.Err? {
        return Err(found.fault);
      }
      assert was.Some? ==> AtSite(world.store, was.value);
      if found.value.None? {
        r := CreateInstance(p);
        return;
      }
      var (id, instance) := found.value.value;
      OneAtSite(id);
      if instance.ttl == read.spec.ttl && instance.policy == policyId {
        return Ok(id);
      }
      r := ReplaceInstance(id, p);
    }

    lemma DeletingAtSite(s: Store, id: Id, p: Id)
      requires forall i :: AtSite(s, i) <==> i == id
      ensures var t := Apply(s, DeleteInstance(id));
        && OnlySite(s, t, p) && (forall i :: !AtSite(t, i))
        && forall u :: OnlySite(t, u, p) ==> OnlySite(s, u, p)
    {
      var t := Apply(s, DeleteInstance(id));
      assert forall i | i in t.instances :: i in s.instances && t.instances[i] == s.instances[i];
      forall i | i in t.instances ensures !AtSite(s, i) && !AtSite(t, i) {
        assert i != id && t.instances[i] == s.instances[i];
      }
    }

    method ReplaceInstance(id: Id, p: Id) returns (r: Outcome<Id>)
      requires Standing() == Sound && OwnPolicy(world.own, world.store, p)
      requires HealthChecks(world.store.policies[p].document) <= world.store.healthChecks.Keys
      requires forall i :: AtSite(world.store, i) <==> i == id
      modifies world
      ensures Standing() == Sound
      ensures OnlySite(old(world.store), world.store, p)
      ensures r.Ok? ==> r.value in world.store.instances && world.store.instances[r.value] == WantedInstance(p)
      ensures world.sky.reliable ==> r.Ok?
    {
      ghost var base := world.store;
      DeletingAtSite(base, id, p);
      var reply := Act(DeleteInstance(id));
      if !reply.Done? {
        return Err(CallFailed);
      }
      r := CreateInstance(p);
    }

    lemma CurrentIsLive(p: Id)
      requires Standing() == Sound && Current(world.store, p)
      ensures HealthChecks(world.store.policies[p].document) <= world.store.healthChecks.Keys
    {
      Stands();
      var s := world.store;
      var d, ids := WantedNow(s, p);
      EquivalentIsLive(s, p, d, ids);
    }

    /** The goal of a reconcile: the policy is current, and the instance is as wanted. */
    ghost predicate Settled(s: Store, p: Id, i: Id) {
      Current(s, p) && i in s.instances && s.instances[i] == WantedInstance(p)
    }

    /** When the goal is reached there is exactly one policy of the record's name and exactly one
        instance of its DNS name, and every health check that the policy depends on exists. */
    lemma SettledIsExact(s: Store, p: Id, i: Id)
      requires Inv(world.own, s) && Settled(s, p, i)
      ensures forall q :: OwnPolicy(world.own, s, q) <==> q == p
      ensures forall j :: AtSite(s, j) <==> j == i
      ensures Live(s, s.instances[i])
      ensures s.policies[p].name == world.own.key
      ensures s.instances[i] == PolicyInstance(zone, read.spec.name + ".", read.spec.ttl, p)
    {
    }

    /** The policy has no other instance. */
    ghost predicate Solely(s: Store, p: Id, i: Id) {
      InstancesOf(s.instances, p).Keys == {i}
    }

    /** All instances of the policy are for the record's present DNS name. */
    ghost predicate AllAtSite(instances: map<Id, PolicyInstance>) {
      forall i | i in instances :: (instances[i].zone, instances[i].name) == Site()
    }

    /** The policy has no other instance exactly when all that it had at `s` were for the present DNS name. */
    ghost predicate SoleExactly(s: Store, p: Id, i: Id)
      reads world
    {
      forall k {:trigger PromiseKey(k)} :: PromiseKey(k) ==>
        (Solely(world.store, p, i) <==> AllAtSite(InstancesOf(s.instances, p)))
    }

    lemma SoleSince(s: Store, t: Store, p: Id, i: Id)
      requires InstancesOf(s.instances, p) == InstancesOf(t.instances, p)
      ensures SoleExactly(s, p, i) <==> SoleExactly(t, p, i)
    {
    }

    /** The name is not part of the document: a policy that is kept while the name was edited keeps its instance
        under the old name. So the wanted instance is the only one exactly when there was none elsewhere. */
    lemma SolelyIff(s: Store, t: Store, p: Id, i: Id)
      requires OnlySite(s, t, p) && i in t.instances && t.instances[i] == WantedInstance(p) && OneInstancePerName(t)
      ensures Solely(t, p, i) <==> AllAtSite(InstancesOf(s.instances, p))
    {
      var before, after := InstancesOf(s.instances, p), InstancesOf(t.instances, p);
      assert AtSite(t, i) && i in after;
      if AllAtSite(before) {
        forall j | j in after ensures j == i {
          assert j in before || t.instances[j] == WantedInstance(p);
          assert AtSite(t, j);
        }
      } else {
        var j :| j in before && (before[j].zone, before[j].name) != Site();
        assert !AtSite(s, j);
        assert j in after && j != i;
      }
    }

    lemma UntouchedThenSite(s: Store, t: Store, u: Store, p: Id)
      requires Whole(s) && Whole(t) && OwnPolicy(world.own, t, p)
      requires EffectOf(world.own, None, s, t) == Contained && OnlySite(t, u, p)
      ensures EffectOf(world.own, Some(Site()), s, u) == Contained
    {
      assert Key(0) && EffectKey(0);
      OnlySiteTouched(t, u, p);
      forall i | ForeignInstance(world.own, s, i)
        ensures ForeignInstance(world.own, t, i) && t.instances[i] == s.instances[i]
      {
        InstanceCarries(world.own, None, s, t, i);
      }
    }

    /** Second half of ensureDNSRecord. */
    method FinishDNSRecord(p: Id, ghost base: Store, ghost was: Option<Id>) returns (ok: bool)
      requires Standing() == Sound && Current(world.store, p) && policyId == p
      requires Whole(base) && EffectOf(world.own, None, base, world.store) == Contained
      requires was.Some? ==> was.value in world.store.instances && world.store.instances[was.value] == WantedInstance(p)
      modifies world, `policyInstanceId
      ensures Standing() == Sound && EffectOf(world.own, Some(Site()), base, world.store) == Contained
      ensures world.store.policies == old(world.store.policies)
      ensures world.store.healthChecks == old(world.store.healthChecks)
      ensures ok ==> Settled(world.store, p, policyInstanceId) && Routes(p, policyInstanceId)
      ensures ok ==> SoleExactly(old(world.store), p, policyInstanceId)
      ensures world.sky.reliable ==> ok
      ensures was.Some? ==>
        world.churn == old(world.churn) && world.store == old(world.store) && (ok ==> policyInstanceId == was.value)
    {
      ghost var middle := world.store;
      BeginsWhole();
      CurrentIsLive(p);
      var instance := EnsureInstance(p, was);
      UntouchedThenSite(base, middle, world.store, p);
      if instance.Err? {
        return false;
      }
      policyInstanceId := instance.value;
      Finished(middle, p, policyInstanceId);
      return true;
    }

    /** The wanted instance for a current policy is what a run aims at. */
    lemma Finished(s: Store, p: Id, i: Id)
      requires Standing() == Sound && Current(s, p) && OnlySite(s, world.store, p)
      requires i in world.store.instances && world.store.instances[i] == WantedInstance(p)
      ensures Settled(world.store, p, i)
      ensures SoleExactly(s, p, i)
    {
      Stands();
      CurrentStays(s, world.store, p);
      SolelyIff(s, world.store, p, i);
    }

    /** ensureDNSRecord. Success means the goal is reached; in a reliable world, where no endpoint name is written
        with two values, it comes about exactly when the policy can be ensured. The wanted instance is the only
        one of the policy exactly when the policy had none under another name before. For any policy and instance
        `was` that had reached the goal before, this run creates and deletes nothing and reports the same
        identifiers. */
    method EnsureDNSRecord(ghost was: Option<(Id, Id)>) returns (ok: bool)
      requires Standing() == Sound
      requires was.Some? ==> Settled(world.store, was.value.0, was.value.1)
      requires was.Some? ==> Unmistaken()
      modifies world, this
      ensures Standing() == Sound
      ensures ok ==> Settled(world.store, policyId, policyInstanceId)
      ensures ok ==> Stored(policyId) && Routes(policyId, policyInstanceId)
      ensures ok ==> SoleExactly(old(world.store), policyId, policyInstanceId)
      ensures EffectOf(world.own, Some(Site()), old(world.store), world.store) == Contained
      ensures world.sky.Tidy() && ok ==> CanEnsure(old(world.store))
      ensures world.sky.reliable && SureToBuild(old(world.store)) ==> ok
      ensures was.Some? ==>
        && world.churn == old(world.churn) && (ok ==> was.value == (policyId, policyInstanceId))
        && world.store.policies == old(world.store.policies) && world.store.instances == old(world.store.instances)
    {
      ghost var base := world.store;
      BeginsWhole();
      var policy := EnsureTrafficPolicy(if was.Some? then Some(was.value.0) else None);
      ContainedWithin(world.own, Some(Site()), base, world.store);
      if policy.Err? {
        return false;
      }
      policyId := policy.value;
      ghost var middle := world.store;
      ok := FinishDNSRecord(policyId, base, if was.Some? then Some(was.value.1) else None);
      SoleSince(base, middle, policyId, policyInstanceId);
    }

    /** Where no endpoint name is written with two values, what it takes is also enough. */
    lemma SureIff(s: Store)
      requires Unmistaken()
      ensures CanEnsure(s) <==> SureToBuild(s)
    {
    }

    lemma CurrentStays(s: Store, t: Store, p: Id)
      requires Current(s, p) && t.policies == s.policies && t.healthChecks == s.healthChecks
      ensures Current(t, p)
    {
      var d, ids := WantedNow(s, p);
      assert Wanted(t, d, ids);
    }

    /** Contained while only things of the record were deleted since `base`, and no policy was added. */
    ghost function CleaningSince(base: Store): (e: Effect)
      reads world
    {
      if EffectOf(world.own, None, base, world.store) == Contained &&
         forall k {:trigger Key(k)} :: Key(k) ==> NoNewPolicy(world.own, base, world.store)
      then Contained else Spilled
    }

    lemma CleaningOn(base: Store, before: Store, p: Id)
      requires Standing() == Sound && Inv(world.own, base) && Integrity(before)
      requires EffectOf(world.own, None, base, before) == Contained && NoNewPolicy(world.own, base, before)
      requires OwnPolicy(world.own, before, p) && Dismantled(before, world.store, p)
      ensures CleaningSince(base) == Contained
    {
      Stands();
      DismantlingTouchesNothing(world.own, before, world.store, p);
      UntouchedThen(world.own, None, base, before, world.store);
    }

    /** The policies of the record's name are gone, and deleting the health checks of its host will leave what a
        clean-up can leave. */
    ghost predicate PoliciesGone(base: Store, s: Store) {
      && NoPolicyOf(world.own, s)
      && CleanUpCanLeave(world.sky.Tidy(), world.own, base, WithoutChecks(world.own, s))
    }

    method CleanUpPolicy(p: Id, document: Document, ghost base: Store) returns (ok: bool)
      requires Standing() == Sound && Inv(world.own, base) && world.store == base && OwnPolicy(world.own, base, p)
      requires document == base.policies[p].document
      modifies world
      ensures Standing() == Sound && CleaningSince(base) == Contained
      ensures ok ==> PoliciesGone(base, world.store)
      ensures world.sky.reliable ==> ok
    {
      StayingGrows(world.own, base);
      GrowingTouchesNothing(world.own, base, base);
      ok := DeleteTrafficPolicy(p, document);
      CleaningOn(base, base, p);
    }

    /** First half of cleanUpRoute53DNSRecord: the policies of the record's name. Only one can be found, and
        when it was deleted without an error the rest of the listing holds no other. */
    method CleanUpPolicies() returns (ok: bool)
      requires Standing() == Sound
      modifies world
      ensures Standing() == Sound && CleaningSince(old(world.store)) == Contained
      ensures ok ==> PoliciesGone(old(world.store), world.store)
      ensures world.sky.reliable ==> ok
    {
      ghost var base := world.store;
      Stands();
      StayingGrows(world.own, base);
      GrowingTouchesNothing(world.own, base, base);
      var summaries := world.store.policies;
      var listed := world.List(summaries.Keys);
      if listed.Err? {
        return false;
      }
      ghost var gone := false;
      for k := 0 to |listed.value|
        invariant Standing() == Sound && CleaningSince(base) == Contained
        invariant gone ==> PoliciesGone(base, world.store)
        invariant !gone ==> world.store == base
        invariant gone <==> exists j :: 0 <= j < k && OwnPolicy(world.own, base, listed.value[j])
      {
        var p := listed.value[k];
        if summaries[p].name == world.own.key {
          assert !gone;
          var got := world.Get(world.store.policies, p);
          if got.Err? {
            return false;
          }
          ok := CleanUpPolicy(p, got.value.document, base);
          if !ok {
            return false;
          }
          gone := true;
        }
      }
      if !gone {
        assert NoPolicyOf(world.own, base);
      }
      return true;
    }

    /** The health checks of the host that are still there are listed from position `k` on. */
    ghost predicate ChecksFrom(s: Store, q: seq<Id>, k: nat) {
      && (forall h | OwnCheck(world.own, s, h) :: exists j :: k <= j < |q| && q[j] == h)
      && (forall j :: k <= j < |q| ==> q[j] in s.healthChecks)
    }

    lemma ChecksFromNext(s: Store, q: seq<Id>, k: nat)
      requires ChecksFrom(s, q, k) && k < |q| && NoDuplicates(q)
      ensures ChecksFrom(Apply(s, DeleteHealthCheck(q[k])), q, k + 1)
      ensures !OwnCheck(world.own, s, q[k]) ==> ChecksFrom(s, q, k + 1)
    {
      var t := Apply(s, DeleteHealthCheck(q[k]));
      assert forall h | OwnCheck(world.own, t, h) :: OwnCheck(world.own, s, h) && h != q[k];
      forall h | OwnCheck(world.own, s, h) && h != q[k] ensures exists j :: k + 1 <= j < |q| && q[j] == h {
        var j :| k <= j < |q| && q[j] == h;
        assert j != k;
      }
    }

    lemma NoChecksLeft(base: Store, s: Store, q: seq<Id>)
      requires ChecksDrop(world.own, base, s) && ChecksFrom(s, q, |q|) && s.issued == base.issued
      ensures s == WithoutChecks(world.own, base)
    {
      var t := WithoutChecks(world.own, base);
      forall h ensures h in s.healthChecks <==> h in t.healthChecks {
        if h in s.healthChecks && OwnCheck(world.own, base, h) {
          assert OwnCheck(world.own, s, h);
        }
      }
      assert s.healthChecks == t.healthChecks;
    }

    /** Deletes one health check of the record's host. */
    method DeleteOwnCheck(h: Id, ghost base: Store) returns (ok: bool)
      requires Standing() == Sound && NoPolicyOf(world.own, world.store)
      requires ChecksDrop(world.own, base, world.store) && OwnCheck(world.own, world.store, h)
      modifies world
      ensures Standing() == Sound && ChecksDrop(world.own, base, world.store)
      ensures world.store.issued == old(world.store.issued)
      ensures ok ==> world.store == Apply(old(world.store), DeleteHealthCheck(h))
      ensures world.sky.reliable ==> ok
    {
      Stands();
      assert forall p | p in world.store.policies :: !OwnPolicy(world.own, world.store, p);
      OwnChecksOutOfUse(world.own, world.store, h);
      DropMore(world.own, base, world.store, h);
      var reply := Act(DeleteHealthCheck(h));
      ok := reply.Done?;
    }

    /** Second half: the health checks of the record's host. */
    method CleanUpHealthChecks() returns (ok: bool)
      requires Standing() == Sound && NoPolicyOf(world.own, world.store)
      modifies world
      ensures Standing() == Sound && ChecksDrop(world.own, old(world.store), world.store)
      ensures ok ==> world.store == WithoutChecks(world.own, old(world.store))
      ensures world.sky.reliable ==> ok
    {
      ghost var base := world.store;
      ReadFits();
      var checks := world.store.healthChecks;
      var listed := world.List(checks.Keys);
      if listed.Err? {
        return false;
      }
      if HealthCheckHost(read.spec).None? {
        assert world.store.healthChecks == WithoutChecks(world.own, base).healthChecks;
        return true;
      }
      for k := 0 to |listed.value|
        invariant Standing() == Sound && ChecksDrop(world.own, base, world.store) && world.store.issued == base.issued
        invariant ChecksFrom(world.store, listed.value, k)
      {
        var h := listed.value[k];
        assert forall q :: OwnPolicy(world.own, world.store, q) <==> OwnPolicy(world.own, base, q);
        ChecksFromNext(world.store, listed.value, k);
        if checks[h].host == HealthCheckHost(read.spec) {
          ok := DeleteOwnCheck(h, base);
          if !ok {
            return false;
          }
        }
      }
      NoChecksLeft(base, world.store, listed.value);
      return true;
    }

    /** cleanUpRoute53DNSRecord. Success leaves nothing of the record behind: it leaves what `CleanUpCanLeave` says
        and, unless an error that is not an AWS error is ignored, exactly the rest of the store; success or not,
        nothing of others is touched. */
    method CleanUp() returns (ok: bool)
      requires Standing() == Sound
      modifies world
      ensures Standing() == Sound
      ensures ok ==> !Owns(world.own, world.store)
      ensures ok ==> forall p | p in world.store.policies :: world.store.policies[p].name != world.own.key
      ensures ok && read.spec.healthCheck.Some? && read.spec.healthCheck.value.httpGet.Some? ==>
        forall h | h in world.store.healthChecks ::
          world.store.healthChecks[h].host != Some(read.spec.healthCheck.value.httpGet.value.host)
      ensures ok ==> CleanUpCanLeave(world.sky.Tidy(), world.own, old(world.store), world.store)
      ensures ok && world.sky.Tidy() ==> world.store == Cleaned(world.own, old(world.store))
      ensures EffectOf(world.own, None, old(world.store), world.store) == Contained
      ensures world.sky.reliable ==> ok
    {
      ghost var base := world.store;
      Stands();
      ok := CleanUpPolicies();
      ghost var middle := world.store;
      if !ok {
        return;
      }
      StandsWhole();
      ok := CleanUpHealthChecks();
      StandsWhole();
      CleaningDone(base, middle, world.store);
      if ok {
        NothingIsLeft();
      }
      if ok && world.sky.Tidy() {
        TypedCleanUpIsExact(world.own, base, world.store);
      }
    }

    lemma NothingIsLeft()
      requires Standing() == Sound && !Owns(world.own, world.store)
      ensures forall p | p in world.store.policies :: world.store.policies[p].name != world.own.key
      ensures read.spec.healthCheck.Some? && read.spec.healthCheck.value.httpGet.Some? ==>
        forall h | h in world.store.healthChecks ::
          world.store.healthChecks[h].host != Some(read.spec.healthCheck.value.httpGet.value.host)
    {
      ReadFits();
      assert forall p | p in world.store.policies :: !OwnPolicy(world.own, world.store, p);
      assert forall h | h in world.store.healthChecks :: !OwnCheck(world.own, world.store, h);
    }

    lemma CleaningDone(base: Store, middle: Store, last: Store)
      requires Integrity(base) && Integrity(middle) && Integrity(last)
      requires EffectOf(world.own, None, base, middle) == Contained && NoPolicyOf(world.own, middle)
      requires ChecksDrop(world.own, middle, last)
      ensures EffectOf(world.own, None, base, last) == Contained
      ensures last == WithoutChecks(world.own, middle) ==> !Owns(world.own, last)
    {
      DroppingTouchesNothing(world.own, middle, last);
      UntouchedThen(world.own, None, base, middle, last);
    }
  }
}
