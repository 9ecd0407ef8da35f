/** The finalizer lifecycle of GlobalDNSRecordReconciler.Reconcile for a Route53 zone
    (controllers/globaldnsrecord/globaldnsrecord_controller.go:78-209, 325-388). */
module Lifecycle {
  import opened Prelude
  import opened Api
  import opened Documents
  import opened Endpoints
  import opened Promises
  import opened DesiredDocument
  import opened Initialization
  import opened Feasibility
  import opened Route53Store
  import opened Route53World
  import opened Route53Provider

  /** A zone. `elsewhere` says that it is served by another provider, or through another account, than the
      Route53 account in which the record's things are. */
  datatype Zone = Zone(domain: string, id: string, elsewhere: bool)

  /** What reading a cluster tells about a service. */
  datatype View = View(platform: string, region: string, ingress: seq<Ingress>)

  /** What a reconcile finds outside Route53: the zones, the clusters that can be read, the resolver, and
      whether reading the record and starting remote managers works. */
  datatype Surroundings = Surroundings(
    zones: map<string, Zone>, clusters: map<Endpoint, View>, dns: Dns, recordReadable: bool, managersReady: bool
  )

  /** The zone of the record is one of the Route53 account that the record's things are in. */
  predicate AtHome(around: Surroundings, own: Owner) {
    own.zone in around.zones ==> !around.zones[own.zone].elsewhere
  }

  /** Each endpoint is on a cluster that can be read and runs on AWS. */
  ghost predicate OnAWS(spec: RecordSpec, around: Surroundings) {
    var endpoints := EndpointMapFor(spec.endpoints, around.clusters);
    forall k | k in endpoints :: endpoints[k].platform == Some("AWS")
  }

  /** Everything a reconcile needs to get to Route53 is there. */
  ghost predicate Reachable(around: Surroundings, own: Owner, spec: RecordSpec) {
    && around.recordReadable && around.managersReady && own.zone in around.zones && AtHome(around, own)
    && OnAWS(spec, around)
  }

  /** In a reliable world a reconcile for this spec is sure to reach its goal from state `s`. */
  ghost predicate SureToSettle(around: Surroundings, own: Owner, s: Store, spec: RecordSpec) {
    var endpoints := EndpointMapFor(spec.endpoints, around.clusters);
    && Reachable(around, own, spec) && InDomain(spec.name, around.zones[own.zone].domain)
    && SureFrom(own, s, spec, endpoints, around.dns)
  }

  /** The document can be built, also after a policy that is there has given way. */
  ghost predicate SureFrom(own: Owner, s: Store, spec: RecordSpec, endpoints: EndpointMap, dns: Dns) {
    && Buildable(own, s, spec, endpoints, dns)
    && forall p | OwnPolicy(own, s, p) :: Buildable(own, WithoutPolicy(s, p), spec, endpoints, dns)
  }

  /** Caller references that are long enough leave only what can be read off the record and its clusters. */
  lemma FittingIsSure(own: Owner, s: Store, spec: RecordSpec, endpoints: EndpointMap, dns: Dns)
    requires Feasible(own, s, spec, endpoints, dns) && AllFit(spec, endpoints, dns)
    ensures SureFrom(own, s, spec, endpoints, dns)
  {
    FeasibleIff(own, s, spec, endpoints, dns);
    forall p | OwnPolicy(own, s, p) ensures Buildable(own, WithoutPolicy(s, p), spec, endpoints, dns) {
      FeasibleAnywhere(own, s, WithoutPolicy(s, p), spec, endpoints, dns);
      FeasibleIff(own, WithoutPolicy(s, p), spec, endpoints, dns);
    }
  }

  datatype Result = Gone | Failed | Initialized | Released | Ensured

  predicate HasSuffix(s: string, suffix: string) {
    |suffix| <= |s| && s[|s| - |suffix|..] == suffix
  }

  /** The name ends with the domain. */
  ghost predicate InDomain(name: string, domain: string) {
    exists head :: name == head + domain
  }

  lemma HasSuffixIff(s: string, suffix: string)
    ensures HasSuffix(s, suffix) <==> InDomain(s, suffix)
  {
    if HasSuffix(s, suffix) {
      assert s == s[..|s| - |suffix|] + suffix;
    }
  }

  function StatusOf(e: Endpoint, clusters: map<Endpoint, View>): (st: EndpointStatus) {
    if e in clusters then EndpointStatus(e, Some(clusters[e].platform), clusters[e].region, clusters[e].ingress)
    else EndpointStatus(e, None, "", [])
  }

  /** The status of each endpoint, filed under the endpoint's key. */
  function EndpointMapFor(q: seq<Endpoint>, clusters: map<Endpoint, View>): (m: EndpointMap) {
    if q == [] then map[]
    else
      var last := q[|q| - 1];
      EndpointMapFor(q[..|q| - 1], clusters)[last.GetKey() := StatusOf(last, clusters)]
  }

  /** The status has what the endpoint's cluster tells, or nothing if that cannot be read. */
  ghost predicate Tells(st: EndpointStatus, e: Endpoint, clusters: map<Endpoint, View>) {
    && st.endpoint == e
    && if e in clusters
       then st.platform == Some(clusters[e].platform) && st.region == clusters[e].region &&
            st.ingress == clusters[e].ingress
       else st.platform.None? && st.region == "" && st.ingress == []
  }

  /** Each endpoint is filed under its name, and the last one of a name stands. */
  ghost predicate Filed(m: EndpointMap, q: seq<Endpoint>, clusters: map<Endpoint, View>) {
    forall k {:trigger PromiseKey(k)} :: PromiseKey(k) ==>
      && (forall i :: 0 <= i < |q| ==> NameOf(q[i]) in m)
      && (forall n | n in m :: exists i :: 0 <= i < |q| && n == NameOf(q[i]) && Tells(m[n], q[i], clusters) &&
                                           forall j :: i < j < |q| ==> NameOf(q[j]) != n)
  }

  lemma {:induction false} LastStands(q: seq<Endpoint>, clusters: map<Endpoint, View>, n: string) returns (i: nat)
    requires n in EndpointMapFor(q, clusters)
    ensures i < |q| && n == NameOf(q[i]) && Tells(EndpointMapFor(q, clusters)[n], q[i], clusters)
    ensures forall j :: i < j < |q| ==> NameOf(q[j]) != n
  {
    var last := |q| - 1;
    if n == q[last].GetKey() {
      i := last;
    } else {
      i := LastStands(q[..last], clusters, n);
      assert forall j :: 0 <= j < last ==> q[..last][j] == q[j];
    }
  }

  lemma AllFiled(q: seq<Endpoint>, clusters: map<Endpoint, View>)
    ensures Filed(EndpointMapFor(q, clusters), q, clusters)
  {
    FiledByKey(q, clusters);
    forall n | n in EndpointMapFor(q, clusters)
      ensures exists i ::
        0 <= i < |q| && n == NameOf(q[i]) && Tells(EndpointMapFor(q, clusters)[n], q[i], clusters) &&
        forall j :: i < j < |q| ==> NameOf(q[j]) != n
    {
      var i := LastStands(q, clusters, n);
    }
  }

  method GatherEndpoints(q: seq<Endpoint>, clusters: map<Endpoint, View>) returns (m: EndpointMap)
    ensures m == EndpointMapFor(q, clusters) && Filed(m, q, clusters)
  {
    AllFiled(q, clusters);
    m := map[];
    for i := 0 to |q|
      invariant m == EndpointMapFor(q[..i], clusters)
    {
      assert q[..i + 1][..i] == q[..i];
      m := m[q[i].GetKey() := StatusOf(q[i], clusters)];
    }
    assert q[..|q|] == q;
  }

  /** An endpoint is a service seen with some credentials; the name of the cluster adds nothing. */
  predicate SameService(e: Endpoint, f: Endpoint) {
    e.loadBalancerServiceRef == f.loadBalancerServiceRef && e.credentialsSecretRef == f.credentialsSecretRef
  }

  lemma {:induction false} FiledByKey(q: seq<Endpoint>, clusters: map<Endpoint, View>)
    ensures KeyedByEndpoint(EndpointMapFor(q, clusters))
    ensures forall i :: 0 <= i < |q| ==> q[i].GetKey() in EndpointMapFor(q, clusters)
  {
    if q != [] {
      FiledByKey(q[..|q| - 1], clusters);
      assert forall i :: 0 <= i < |q| - 1 ==> q[..|q| - 1][i] == q[i];
    }
  }

  /** With Kubernetes names, which contain no separator of a key, an endpoint loses its place in the map
      only to a later one for the same service and the same credentials. */
  lemma {:induction false} EndpointsAreFiled(q: seq<Endpoint>, clusters: map<Endpoint, View>, i: nat)
    requires i < |q| && forall e | e in q :: PlainEndpoint(e)
    ensures KeyedByEndpoint(EndpointMapFor(q, clusters))
    ensures var m := EndpointMapFor(q, clusters); q[i].GetKey() in m
    ensures (forall j :: i < j < |q| ==> !SameService(q[i], q[j])) ==>
      EndpointMapFor(q, clusters)[q[i].GetKey()] == StatusOf(q[i], clusters)
  {
    FiledByKey(q, clusters);
    var last := |q| - 1;
    if i < last {
      EndpointsAreFiled(q[..last], clusters, i);
      if q[i].GetKey() == q[last].GetKey() {
        GetKeyIsInjective(q[i], q[last]);
      }
    }
  }

  /** A record that has vanished has left nothing behind in Route53. */
  lemma VanishedLeavesNothing(own: Owner, state: Snapshot)
    requires SafeAt(own, state) && state.record.None?
    ensures forall p | p in state.store.policies :: state.store.policies[p].name != own.key
    ensures forall i | i in state.store.instances :: !OwnInstance(own, state.store, i)
    ensures own.host.Some? ==> forall h | h in state.store.healthChecks :: state.store.healthChecks[h].host != own.host
  {
    assert forall p | p in state.store.policies :: !OwnPolicy(own, state.store, p);
    assert forall h | h in state.store.healthChecks :: !OwnCheck(own, state.store, h);
  }

  /** Where nothing belongs to the record, safety is the order of the store as a whole; so it holds when a
      record is new, whoever else uses the store. */
  lemma NewRecordIsSafeIff(own: Owner, state: Snapshot)
    requires !Owns(own, state.store)
    ensures SafeAt(own, state) <==> Integrity(state.store) && OneInstancePerName(state.store) && AllIssued(state.store)
  {
  }

  /** A record leaks: its zone was edited, or was moved to another provider, after its policy was made, and then
      the record was deleted. */
  lemma ZoneEditLeaks(own: Owner, spec: RecordSpec) returns (state: Snapshot, around: Surroundings)
    requires Fits(own, spec)
    ensures SafeAt(own, state) && state.record == Some(Record(1, true, true, spec))
    ensures Leaks(around, own, state) && !SafeAt(own, state.(record := None))
  {
    var policy := TrafficPolicy(own.key, Document("", "", "", "", map[], map["main" := NO_RULE]));
    state := Snapshot(Some(Record(1, true, true, spec)), Store(map["p" := policy], map[], map[], {"p"}));
    around := Surroundings(map[own.zone := Zone("", "", true)], map[], map[], true, true);
    assert OwnPolicy(own, state.store, "p");
    assert RuleReferences(NO_RULE) == [];
    assert HealthChecks(policy.document) == {};
  }

  /** Writes defaults back; whatever happens to the write, the state stays safe. */
  method Initialize(world: World, read: Record) returns (result: Result)
    requires world.Safe() && world.record == Some(read)
    modifies world
    ensures world.Safe() && old(world.trace) <= world.trace && world.store == old(world.store)
    ensures result.Failed? || result.Initialized?
    ensures result.Initialized? ==>
      world.record.Some? && world.record.value == FilledIn(read).(version := world.record.value.version)
    ensures world.sky.reliable && world.sky.idle ==> result.Initialized?
  {
    var copy := FilledIn(read);
    var ok;
    ghost var met;
    ok, met := world.SafeUpdate(copy);
    result := if ok then Initialized else Failed;
  }

  /** manageCleanUpLogic: the provider of the zone cleans up. One that is elsewhere does not touch what is in
      this account. */
  method CleanUpIn(world: World, read: Record, zone: Zone, around: Surroundings) returns (ok: bool)
    requires world.Safe() && world.record == Some(read) && read.finalizer
    modifies world
    ensures world.Safe() && world.Holds(read) && old(world.trace) <= world.trace
    ensures zone.elsewhere ==> world.store == old(world.store)
    ensures ok && !zone.elsewhere ==> !Owns(world.own, world.store)
    ensures !zone.elsewhere && !(around.managersReady && OnAWS(read.spec, around)) ==>
      !ok && world.store == old(world.store)
    ensures world.sky.idle ==> world.record == old(world.record)
    ensures world.sky.reliable && !zone.elsewhere && around.managersReady && OnAWS(read.spec, around) ==> ok
  {
    var endpoints := GatherEndpoints(read.spec.endpoints, around.clusters);
    if zone.elsewhere {
      ok := *;
      return;
    }
    if !around.managersReady || !AllOnAWS(endpoints) {
      return false;
    }
    var provider := new Provider(world, read, zone.id, endpoints, around.dns);
    ok := provider.CleanUp();
    provider.StandingMeans();
  }

  /** manageCleanUpLogic, then the removal of the finalizer. The record vanishes, and nothing of it is left
      here unless the clean-up went elsewhere. */
  method Release(world: World, read: Record, zone: Zone, around: Surroundings) returns (result: Result)
    requires world.Safe() && world.record == Some(read) && read.finalizer && read.deleting
    modifies world
    ensures old(world.trace) <= world.trace && (zone.elsewhere ==> world.store == old(world.store))
    ensures world.SafeUntilNow() && (world.record.Some? ==> world.Safe())
    ensures !zone.elsewhere || !Owns(world.own, old(world.store)) ==> world.Safe()
    ensures result.Failed? || result.Released?
    ensures result.Released? ==> world.record.None? && (!zone.elsewhere ==> !Owns(world.own, world.store))
    ensures world.sky.reliable && world.sky.idle && !zone.elsewhere && around.managersReady &&
            OnAWS(read.spec, around) ==>
      result.Released?
  {
    var cleaned := CleanUpIn(world, read, zone, around);
    if !cleaned {
      SafeIsSafeUntilNow(world);
      return Failed;
    }
    var ok := RemoveFinalizer(world, read);
    result := if ok then Released else Failed;
  }

  lemma SafeIsSafeUntilNow(world: World)
    requires world.Safe()
    ensures world.SafeUntilNow()
  {
    forall m | m in world.trace[..|world.trace| - 1] ensures world.AllSafe(m) {
      assert m in world.trace;
    }
  }

  /** The write that lets the record go. It keeps the state safe if nothing of the record is in Route53. */
  method RemoveFinalizer(world: World, read: Record) returns (ok: bool)
    requires world.Safe() && world.Holds(read) && read.deleting && Fits(world.own, read.spec)
    modifies world
    ensures old(world.trace) <= world.trace && world.store == old(world.store)
    ensures world.SafeUntilNow() && (world.record.Some? || !Owns(world.own, world.store) ==> world.Safe())
    ensures ok ==> world.record.None?
    ensures world.sky.reliable && world.sky.idle && old(world.record) == Some(read) ==> ok
  {
    ghost var met;
    ok, met := world.SafeUpdate(read.(finalizer := false));
  }

  /** The provider that a reconcile of `read` in these surroundings works with. */
  ghost predicate WorksFor(p: Provider, world: World, read: Record, around: Surroundings) {
    && p.world == world && p.read == read && p.dns == around.dns
    && world.own.zone in around.zones && p.zone == around.zones[world.own.zone].id
    && p.endpoints == EndpointMapFor(read.spec.endpoints, around.clusters)
    && Filed(p.endpoints, read.spec.endpoints, around.clusters)
  }

  /** The provider has reached its goal, in its own terms and in those of the record and its clusters. */
  ghost predicate Reached(p: Provider)
    reads p, p.world
  {
    && p.Settled(p.world.store, p.policyId, p.policyInstanceId)
    && p.Stored(p.policyId) && p.Routes(p.policyId, p.policyInstanceId)
  }

  /** The ensure part of a reconcile. Success here means that the goal for this spec is reached. */
  method Ensure(world: World, read: Record, zone: Zone, around: Surroundings) returns (result: Result,
                provider: Provider?)
    requires world.Safe() && world.record == Some(read) && read.finalizer
    requires world.own.zone in around.zones && around.zones[world.own.zone] == zone
    modifies world
    ensures world.Safe() && old(world.trace) <= world.trace && (zone.elsewhere ==> world.store == old(world.store))
    ensures result.Failed? || result.Ensured?
    ensures result.Ensured? && !zone.elsewhere ==>
      && provider != null && fresh(provider) && WorksFor(provider, world, read, around)
      && Reached(provider) && OnAWS(read.spec, around)
    ensures !InDomain(read.spec.name, zone.domain) || !around.managersReady ==>
      result.Failed? && world.store == old(world.store)
    ensures !zone.elsewhere && !OnAWS(read.spec, around) ==> result.Failed? && world.store == old(world.store)
    ensures world.sky.reliable && SureToSettle(around, world.own, old(world.store), read.spec) ==> result.Ensured?
  {
    provider := null;
    HasSuffixIff(read.spec.name, zone.domain);
    if !HasSuffix(read.spec.name, zone.domain) || !around.managersReady {
      return Failed, provider;
    }
    var endpoints := GatherEndpoints(read.spec.endpoints, around.clusters);
    if zone.elsewhere {
      var ok: bool := *;
      return if ok then Ensured else Failed, provider;
    }
    if !AllOnAWS(endpoints) {
      return Failed, provider;
    }
    var ok;
    ok, provider := EnsureHere(world, read, zone, endpoints, around.dns);
    result := if ok then Ensured else Failed;
  }

  /** What is sure to settle can be built from there. */
  lemma SureMeans(p: Provider, s: Store)
    requires SureFrom(p.world.own, s, p.read.spec, p.endpoints, p.dns)
    ensures p.SureToBuild(s)
  {
    FeasibleIff(p.world.own, s, p.read.spec, p.endpoints, p.dns);
    forall q | OwnPolicy(p.world.own, s, q) ensures p.CanRebuild(s, q) {
      FeasibleIff(p.world.own, WithoutPolicy(s, q), p.read.spec, p.endpoints, p.dns);
    }
  }

  /** ... by a provider of its own. */
  method EnsureHere(world: World, read: Record, zone: Zone, endpoints: EndpointMap, dns: Dns)
    returns (ok: bool, provider: Provider)
    requires world.Safe() && world.record == Some(read) && read.finalizer
    modifies world
    ensures world.Safe() && old(world.trace) <= world.trace && fresh(provider)
    ensures provider.world == world && provider.read == read && provider.zone == zone.id
    ensures provider.endpoints == endpoints && provider.dns == dns
    ensures ok ==> Reached(provider)
    ensures world.sky.reliable && SureFrom(world.own, old(world.store), read.spec, endpoints, dns) ==> ok
  {
    provider := new Provider(world, read, zone.id, endpoints, dns);
    if SureFrom(world.own, world.store, read.spec, endpoints, dns) {
      SureMeans(provider, world.store);
    }
    ok := provider.EnsureDNSRecord(None);
    provider.StandingMeans();
  }

  /** The record is being deleted while its zone is elsewhere, and something of it is here. */
  ghost predicate Leaks(around: Surroundings, own: Owner, state: Snapshot) {
    state.record.Some? && state.record.value.deleting && !AtHome(around, own) && Owns(own, state.store)
  }

  /** Reconcile: at most one of initialization, clean-up and ensure happens. Every state on the way is safe,
      unless the zone is elsewhere and the record leaks. A record whose defaults are incomplete gets no further
      than initialization. */
  method Reconcile(world: World, around: Surroundings) returns (result: Result, provider: Provider?)
    requires world.Safe()
    modifies world
    ensures old(world.trace) <= world.trace && world.SafeUntilNow() && (world.record.Some? ==> world.Safe())
    ensures !Leaks(around, world.own, old(Snapshot(world.record, world.store))) ==> world.Safe()
    ensures result.Released? ==>
      (SafeAt(world.own, Snapshot(world.record, world.store)) <==>
       !Leaks(around, world.own, old(Snapshot(world.record, world.store))))
    ensures !AtHome(around, world.own) ==> world.store == old(world.store)
    ensures result.Gone? ==> old(world.record).None? && world.store == old(world.store)
    ensures !around.recordReadable ==>
      result.Failed? && world.store == old(world.store) && world.record == old(world.record)
    ensures old(world.record).Some? && world.own.zone !in around.zones ==>
      result.Failed? && world.store == old(world.store) && world.record == old(world.record)
    ensures around.recordReadable && old(world.record).None? ==> result.Gone?
    ensures result.Initialized? ==>
      && old(world.record).Some? && world.record.Some? && world.store == old(world.store)
      && world.record.value == FilledIn(old(world.record).value).(version := world.record.value.version)
      && Defaulted(old(world.record).value, world.record.value.(version := old(world.record).value.version))
    ensures result.Released? ==>
      && old(world.record).Some? && old(world.record).value.deleting && world.record.None?
      && (AtHome(around, world.own) ==> !Owns(world.own, world.store))
    ensures result.Ensured? && AtHome(around, world.own) ==>
      && provider != null && old(world.record).Some? && WorksFor(provider, world, old(world.record).value, around)
      && !old(world.record).value.deleting && Ready(old(world.record).value)
      && Reached(provider) && OnAWS(provider.read.spec, around)
    ensures old(world.record).Some? && world.own.zone in around.zones && Ready(old(world.record).value) &&
            !old(world.record).value.deleting &&
            !InDomain(old(world.record).value.spec.name, around.zones[world.own.zone].domain) ==>
      result.Failed? && world.store == old(world.store)
    ensures old(world.record).Some? && !Ready(old(world.record).value) ==>
      world.store == old(world.store) && !result.Released? && !result.Ensured?
    ensures old(world.record).Some? && world.sky.reliable && world.sky.idle ==>
      Expected(around, world.own, old(world.record).value, old(world.store), result)
  {
    provider := null;
    SafeIsSafeUntilNow(world);
    if !around.recordReadable {
      return Failed, provider;
    }
    if world.record.None? {
      return Gone, provider;
    }
    var read := world.record.value;
    if read.spec.globalZoneRef !in around.zones {
      return Failed, provider;
    }
    var zone := around.zones[read.spec.globalZoneRef];
    var ready, copy := IsInitialized(read);
    FillingIn(read);
    if !ready {
      result := Initialize(world, read);
      SafeIsSafeUntilNow(world);
      return;
    }
    if read.deleting {
      result := Release(world, read, zone, around);
      ReleasedSafeIff(world);
      return;
    }
    result, provider := Ensure(world, read, zone, around);
    SafeIsSafeUntilNow(world);
  }

  /** A record that is gone is safe exactly when nothing of it is left. */
  lemma ReleasedSafeIff(world: World)
    requires world.SafeUntilNow()
    ensures world.record.None? && SafeAt(world.own, Snapshot(world.record, world.store)) ==>
      !Owns(world.own, world.store)
    ensures world.Safe() ==> SafeAt(world.own, Snapshot(world.record, world.store))
  {
    assert SafeKey(0);
    assert world.own in world.Here().records;
  }

  /** What a reconcile of `read` is sure to do when no call fails and users are idle. */
  ghost predicate Expected(around: Surroundings, own: Owner, read: Record, s: Store, result: Result) {
    && (!Ready(read) && Reachable(around, own, read.spec) ==> result.Initialized?)
    && (Ready(read) && read.deleting && Reachable(around, own, read.spec) ==> result.Released?)
    && (Ready(read) && !read.deleting && SureToSettle(around, own, s, read.spec) ==> result.Ensured?)
  }

  /** Progress: when no call fails and users are idle, two reconciles settle any record with a timeout, or make
      it vanish if it is being deleted. */
  method Converge(world: World, around: Surroundings) returns (result: Result, provider: Provider?)
    requires world.Safe() && world.record.Some? && !MissingTimeout(world.record.value)
    requires world.sky.reliable && world.sky.idle && Reachable(around, world.own, world.record.value.spec)
    requires world.record.value.deleting || SureToSettle(around, world.own, world.store,
        FilledIn(world.record.value).spec)
    modifies world
    ensures world.Safe() && old(world.trace) <= world.trace
    ensures old(world.record).value.deleting ==> world.record.None? && !Owns(world.own, world.store)
    ensures !old(world.record).value.deleting ==>
      && result.Ensured? && provider != null && provider.world == world
      && Defaulted(old(world.record).value, old(world.record).value.(finalizer := true, spec := provider.read.spec))
      && Reached(provider)
  {
    ghost var first := world.record.value;
    result, provider := Reconcile(world, around);
    if result.Initialized? {
      InitializationConvergesIff(first, 1);
      assert AfterWrites(first, 1) == FilledIn(AfterWrites(first, 0));
      result, provider := Reconcile(world, around);
    }
  }

  /** Any number of rounds, each something users do or a reconcile, in any surroundings: every state the world
      goes through is safe, up to a round in which the zone is elsewhere and the record vanishes. `gone` is that
      round; the state it leaves is safe exactly when nothing of the record is left in this account. */
  method Operate(world: World, rounds: seq<Option<Surroundings>>) returns (gone: Option<nat>)
    requires world.Safe()
    modifies world
    ensures old(world.trace) <= world.trace && world.SafeUntilNow()
    ensures gone.None? ==> world.Safe()
    ensures gone.Some? ==>
      && gone.value < |rounds| && rounds[gone.value].Some? && !AtHome(rounds[gone.value].value, world.own)
      && world.record.None? && (world.Safe() <==> !Owns(world.own, world.store))
  {
    SafeIsSafeUntilNow(world);
    for i := 0 to |rounds|
      invariant world.Safe() && world.SafeUntilNow() && old(world.trace) <= world.trace
    {
      if rounds[i].Some? {
        var result, provider := Reconcile(world, rounds[i].value);
        if !AtHome(rounds[i].value, world.own) && world.record.None? {
          ReleasedSafeIff(world);
          return Some(i);
        }
      } else {
        world.SafeUsersAct();
        SafeIsSafeUntilNow(world);
      }
    }
    return None;
  }

  /** Providers that want the same things have the same goal. */
  lemma SameGoal(a: Provider, b: Provider, s: Store, p: Id, i: Id)
    requires a.world == b.world && a.read.spec == b.read.spec && a.zone == b.zone
    requires a.endpoints == b.endpoints && a.dns == b.dns
    requires a.Settled(s, p, i)
    ensures b.Settled(s, p, i)
  {
    var d, ids := a.WantedNow(s, p);
    assert b.WishFor(ids) == a.WishFor(ids);
    assert b.Wanted(s, d, ids);
  }

  /** No endpoint name is written with two values: under geoproximity and latency, where each endpoint has its
      own key, that is always so. */
  predicate Unmistakable(policy: LoadBalancingPolicy, endpoints: EndpointMap, dns: Dns) {
    KeyedByEndpoint(endpoints) && (policy.Multivalue? ==> NoCollision(policy, endpoints, dns))
  }

  lemma UnmistakableNames(policy: LoadBalancingPolicy, endpoints: EndpointMap, dns: Dns)
    requires Unmistakable(policy, endpoints, dns)
    ensures NoCollision(policy, endpoints, dns)
  {
    if !policy.Multivalue? {
      OneEntryPerBalancer(policy, endpoints, dns);
    }
  }

  /** Quiescence: when a run has reached its goal, a further one for the same spec and the same addresses
      issues no create and no delete call and ends with the same policy and the same instance, whatever
      users did to the record in between. `read` is the copy that the further run works on. */
  method EnsureAgain(a: Provider, read: Record) returns (b: Provider, ok: bool)
    requires a.Standing() == Sound && a.world.Holds(read) && read.spec == a.read.spec
    requires a.Settled(a.world.store, a.policyId, a.policyInstanceId)
    requires Unmistakable(read.spec.loadBalancingPolicy, a.endpoints, a.dns)
    modifies a.world
    ensures fresh(b) && b.world == a.world && b.read == read && b.Standing() == Sound
    ensures a.world.churn == old(a.world.churn)
    ensures ok ==> a.policyId == b.policyId && a.policyInstanceId == b.policyInstanceId
  {
    b := Successor(a, read);
    UnmistakableNames(read.spec.loadBalancingPolicy, b.endpoints, b.dns);
    ok := b.EnsureDNSRecord(Some((a.policyId, a.policyInstanceId)));
  }

  /** The provider of the further run, after users have acted. */
  method Successor(a: Provider, read: Record) returns (b: Provider)
    requires a.Standing() == Sound && a.world.Holds(read) && read.spec == a.read.spec
    requires a.Settled(a.world.store, a.policyId, a.policyInstanceId)
    modifies a.world`record, a.world`others, a.world`clock, a.world`trace
    ensures fresh(b) && b.world == a.world && b.read == read && b.endpoints == a.endpoints && b.dns == a.dns
    ensures b.Standing() == Sound && b.Settled(b.world.store, a.policyId, a.policyInstanceId)
  {
    a.StandingMeans();
    LetUsersActOn(a.world, read);
    b := new Provider(a.world, read, a.zone, a.endpoints, a.dns);
    SameGoal(a, b, a.world.store, a.policyId, a.policyInstanceId);
  }

  method LetUsersActOn(world: World, read: Record)
    requires world.Safe() && world.Holds(read)
    modifies world`record, world`others, world`clock, world`trace
    ensures world.Safe() && world.Holds(read)
  {
    world.SafeUsersAct();
  }
}
