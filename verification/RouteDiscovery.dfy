/** From the routes of many clusters to global records
    (controllers/globalroutediscovery/globalroutediscovery_controller.go:154-335). */
module RouteDiscovery {
  import opened Prelude
  import opened Api

  /** A route; `key` is its short key, made of namespace and name. */
  datatype Route = Route(key: string, host: string, tls: bool, policy: Option<LoadBalancingPolicy>,
                         ttl: Option<Outcome<int>>)

  datatype ClusterReference = ClusterReference(clusterName: string, credentialsSecretRef: NamespacedName)

  /** A route as a cluster lists it, with what looking up its probe and its ingress service gives. */
  datatype Found = Found(route: Route, probe: Outcome<Option<Probe>>, service: Outcome<NamespacedName>)

  datatype RouteInfo = RouteInfo(
    route: Route, service: NamespacedName, readinessCheck: Option<Probe>, policy: LoadBalancingPolicy,
    cluster: ClusterReference, ttl: int
  )

  /** A cluster and the routes that qualify there, or the failure to list them. */
  datatype Cluster = Cluster(reference: ClusterReference, routes: Outcome<seq<Found>>)

  datatype Discovery = Discovery(policy: LoadBalancingPolicy, ttl: int, zone: string)

  // ----- collecting

  function InfoOf(d: Discovery, c: ClusterReference, f: Found): (r: Outcome<RouteInfo>) {
    if f.probe.Err? then Err(f.probe.fault)
    else if f.service.Err? then Err(f.service.fault)
    else if f.route.ttl.Some? && f.route.ttl.value.Err? then Err(f.route.ttl.value.fault)
    else Ok(RouteInfo(f.route, f.service.value, f.probe.value,
                      if f.route.policy.Some? then f.route.policy.value else d.policy, c,
                      if f.route.ttl.Some? then f.route.ttl.value.value else d.ttl))
  }

  /** The infos of the routes of one cluster, in order; an error if any of them has one. */
  function InfosOf(d: Discovery, c: ClusterReference, q: seq<Found>): (r: Outcome<seq<RouteInfo>>) {
    if q == [] then Ok([])
    else
      var front := InfosOf(d, c, q[..|q| - 1]);
      if front.Err? then front
      else
        var last := InfoOf(d, c, q[|q| - 1]);
        if last.Err? then Err(last.fault) else Ok(front.value + [last.value])
  }

  function Qualifying(d: Discovery, clusters: seq<Cluster>): (r: Outcome<seq<RouteInfo>>) {
    if clusters == [] then Ok([])
    else
      var front := Qualifying(d, clusters[..|clusters| - 1]);
      if front.Err? then front
      else
        var c := clusters[|clusters| - 1];
        if c.routes.Err? then Err(c.routes.fault)
        else
          var infos := InfosOf(d, c.reference, c.routes.value);
          if infos.Err? then infos else Ok(front.value + infos.value)
  }

  lemma {:induction false} FailureStays(d: Discovery, c: ClusterReference, q: seq<Found>, i: nat)
    requires i <= |q| && InfosOf(d, c, q[..i]).Err?
    ensures InfosOf(d, c, q) == InfosOf(d, c, q[..i])
    decreases |q| - i
  {
    if i < |q| {
      assert q[..i + 1][..i] == q[..i];
      FailureStays(d, c, q, i + 1);
    } else {
      assert q[..i] == q;
    }
  }

  lemma {:induction false} ClusterFailureStays(d: Discovery, clusters: seq<Cluster>, i: nat)
    requires i <= |clusters| && Qualifying(d, clusters[..i]).Err?
    ensures Qualifying(d, clusters) == Qualifying(d, clusters[..i])
    decreases |clusters| - i
  {
    if i < |clusters| {
      assert clusters[..i + 1][..i] == clusters[..i];
      ClusterFailureStays(d, clusters, i + 1);
    } else {
      assert clusters[..i] == clusters;
    }
  }

  /** What the first clusters have comes first. */
  lemma {:induction false} EarlierClustersFirst(d: Discovery, clusters: seq<Cluster>, i: nat)
    requires i <= |clusters| && Qualifying(d, clusters).Ok?
    ensures Qualifying(d, clusters[..i]).Ok? && Qualifying(d, clusters[..i]).value <= Qualifying(d, clusters).value
  {
    var last := |clusters| - 1;
    if i < |clusters| {
      EarlierClustersFirst(d, clusters[..last], i);
      assert clusters[..last][..i] == clusters[..i];
    } else {
      assert clusters[..i] == clusters;
    }
  }

  /** The infos of a cluster are those of its routes, position by position, and there are any exactly when
      each route has one. */
  lemma {:induction false} InfosAreThoseOfRoutes(d: Discovery, c: ClusterReference, q: seq<Found>)
    ensures InfosOf(d, c, q).Ok? <==> forall i :: 0 <= i < |q| ==> InfoOf(d, c, q[i]).Ok?
    ensures InfosOf(d, c, q).Ok? ==>
      && |InfosOf(d, c, q).value| == |q|
      && forall i :: 0 <= i < |q| ==> InfoOf(d, c, q[i]) == Ok(InfosOf(d, c, q).value[i])
  {
    if q != [] {
      var last := |q| - 1;
      InfosAreThoseOfRoutes(d, c, q[..last]);
      assert forall i :: 0 <= i < last ==> q[..last][i] == q[i];
    }
  }

  /** A route has an info exactly when its probe, its service and its TTL can be read; the route's own
      policy and TTL come before the defaults, and a default is used only where the route has none. */
  lemma InfoIff(d: Discovery, c: ClusterReference, f: Found)
    ensures InfoOf(d, c, f).Ok? <==> f.probe.Ok? && f.service.Ok? && (f.route.ttl.Some? ==> f.route.ttl.value.Ok?)
    ensures InfoOf(d, c, f).Ok? ==>
      var info := InfoOf(d, c, f).value;
      && info.route == f.route && info.cluster == c
      && f.service == Ok(info.service) && f.probe == Ok(info.readinessCheck)
      && (f.route.policy in {None, Some(info.policy)}) && (f.route.policy.None? ==> info.policy == d.policy)
      && (f.route.ttl in {None, Some(Ok(info.ttl))}) && (f.route.ttl.None? ==> info.ttl == d.ttl)
  {
  }

  method CollectCluster(d: Discovery, c: ClusterReference, q: seq<Found>) returns (r: Outcome<seq<RouteInfo>>)
    ensures r.Ok? <==> forall i :: 0 <= i < |q| ==> InfoOf(d, c, q[i]).Ok?
    ensures r.Ok? ==> |r.value| == |q| && forall i :: 0 <= i < |q| ==> InfoOf(d, c, q[i]) == Ok(r.value[i])
    ensures r == InfosOf(d, c, q)
  {
    InfosAreThoseOfRoutes(d, c, q);
    var infos: seq<RouteInfo> := [];
    for i := 0 to |q|
      invariant InfosOf(d, c, q[..i]) == Ok(infos)
    {
      assert q[..i + 1][..i] == q[..i];
      var info := InfoOf(d, c, q[i]);
      if info.Err? {
        FailureStays(d, c, q, i + 1);
        return Err(info.fault);
      }
      infos := infos + [info.value];
    }
    assert q[..|q|] == q;
    return Ok(infos);
  }

  /** The first loop of Reconcile: every qualifying route of every cluster, or the first failure. */
  method Collect(d: Discovery, clusters: seq<Cluster>) returns (r: Outcome<seq<RouteInfo>>)
    ensures r == Qualifying(d, clusters)
  {
    var infos: seq<RouteInfo> := [];
    for i := 0 to |clusters|
      invariant Qualifying(d, clusters[..i]) == Ok(infos)
    {
      assert clusters[..i + 1][..i] == clusters[..i];
      if clusters[i].routes.Err? {
        ClusterFailureStays(d, clusters, i + 1);
        return Err(clusters[i].routes.fault);
      }
      var more := CollectCluster(d, clusters[i].reference, clusters[i].routes.value);
      if more.Err? {
        ClusterFailureStays(d, clusters, i + 1);
        return more;
      }
      infos := infos + more.value;
    }
    assert clusters[..|clusters|] == clusters;
    return Ok(infos);
  }

  // ----- grouping

  /** The infos with a key, in order. */
  function WithKey(infos: seq<RouteInfo>, key: string): (q: seq<RouteInfo>) {
    if infos == [] then []
    else
      var last := infos[|infos| - 1];
      WithKey(infos[..|infos| - 1], key) + (if last.route.key == key then [last] else [])
  }

  function Keys(infos: seq<RouteInfo>): (keys: set<string>) {
    set i | i in infos :: i.route.key
  }

  type Groups = map<string, seq<RouteInfo>>

  function GroupsOf(infos: seq<RouteInfo>): (groups: Groups) {
    map k | k in Keys(infos) :: WithKey(infos, k)
  }

  ghost predicate Grouped(groups: Groups, infos: seq<RouteInfo>) {
    groups.Keys == Keys(infos) && forall k | k in groups :: groups[k] == WithKey(infos, k)
  }

  /** The second loop: routes that share namespace and name go together. */
  method Group(infos: seq<RouteInfo>) returns (groups: Groups)
    ensures Grouped(groups, infos)
  {
    groups := map[];
    for i := 0 to |infos|
      invariant Grouped(groups, infos[..i])
    {
      var k := infos[i].route.key;
      GroupOne(groups, infos[..i], infos[i]);
      groups := groups[k := (if k in groups then groups[k] else []) + [infos[i]]];
      assert infos[..i + 1] == infos[..i] + [infos[i]];
    }
    assert infos[..|infos|] == infos;
  }

  lemma GroupOne(groups: Groups, infos: seq<RouteInfo>, x: RouteInfo)
    requires Grouped(groups, infos)
    ensures Grouped(groups[x.route.key := (if x.route.key in groups then groups[x.route.key] else []) + [x]],
        infos + [x])
  {
    KeysSnoc(infos, x);
    NoSuchKey(infos, x.route.key);
    assert (infos + [x])[..|infos|] == infos;
  }

  lemma KeysSnoc(infos: seq<RouteInfo>, x: RouteInfo)
    ensures Keys(infos + [x]) == Keys(infos) + {x.route.key}
  {
  }

  lemma {:induction false} NoSuchKey(infos: seq<RouteInfo>, key: string)
    ensures key !in Keys(infos) ==> WithKey(infos, key) == []
  {
    if infos != [] {
      NoSuchKey(infos[..|infos| - 1], key);
      assert infos[|infos| - 1] in infos;
      assert forall i | i in infos[..|infos| - 1] :: i in infos;
    }
  }

  /** Grouping conserves routes: each info is in the group of its key, as often as it was found, and in
      no other group. */
  lemma {:induction false} GroupsPartition(infos: seq<RouteInfo>, key: string, x: RouteInfo)
    ensures multiset(WithKey(infos, key))[x] == if x.route.key == key then multiset(infos)[x] else 0
  {
    if infos != [] {
      var last := |infos| - 1;
      GroupsPartition(infos[..last], key, x);
      assert infos == infos[..last] + [infos[last]];
    }
  }

  // ----- records

  /** The endpoint is that of the route's cluster and service. */
  ghost predicate Serves(e: Endpoint, info: RouteInfo) {
    && e.clusterName == info.cluster.clusterName && e.credentialsSecretRef == info.cluster.credentialsSecretRef
    && e.loadBalancerServiceRef == info.service
  }

  /** The endpoints are those of the routes, position by position. */
  ghost predicate ServesAll(q: seq<Endpoint>, g: seq<RouteInfo>) {
    |q| == |g| && forall i :: 0 <= i < |g| ==> Serves(q[i], g[i])
  }

  /** `p` is the probe moved to the route: its host, its scheme and port, and no header that names a host. */
  ghost predicate MovedTo(p: Probe, route: Route, probe: Probe) {
    && probe.httpGet.Some? && p.httpGet.Some? && p == probe.(httpGet := p.httpGet)
    && var get, was := p.httpGet.value, probe.httpGet.value;
       && get.host == route.host && get.path == was.path
       && get.scheme == (if route.tls then "HTTPS" else "HTTP") && get.port == (if route.tls then 443 else 80)
       && forall h :: multiset(get.headers)[h] == if h.name == "host" then 0 else multiset(was.headers)[h]
  }

  /** The record says of the group what its first route says, and has an endpoint for each of its routes. */
  ghost predicate Says(d: Discovery, g: seq<RouteInfo>, r: RecordSpec) {
    && g != [] && r.name == g[0].route.host && r.ttl == g[0].ttl && r.loadBalancingPolicy == g[0].policy
    && r.globalZoneRef == d.zone && ServesAll(r.endpoints, g)
    && (r.healthCheck.Some? <==> g[0].readinessCheck.Some? && g[0].readinessCheck.value.httpGet.Some?)
    && (r.healthCheck.Some? ==> MovedTo(r.healthCheck.value, g[0].route, g[0].readinessCheck.value))
  }

  /** Each group has a record under its host, and each record is that of a group. */
  ghost predicate AllSaid(d: Discovery, groups: Groups, records: Records) {
    && (forall k | k in groups :: groups[k] != [] && groups[k][0].route.host in records)
    && (forall h | h in records ::
          exists k :: k in groups && groups[k] != [] && groups[k][0].route.host == h && Says(d, groups[k], records[h]))
  }

  function EndpointOf(info: RouteInfo): (e: Endpoint) {
    Endpoint(info.cluster.clusterName, info.cluster.credentialsSecretRef, info.service)
  }

  function Endpoints(g: seq<RouteInfo>): (q: seq<Endpoint>)
    ensures |q| == |g| && forall i :: 0 <= i < |g| ==> q[i] == EndpointOf(g[i])
  {
    if g == [] then [] else Endpoints(g[..|g| - 1]) + [EndpointOf(g[|g| - 1])]
  }

  function KeptHeaders(headers: seq<Header>): (q: seq<Header>) {
    if headers == [] then []
    else
      var last := headers[|headers| - 1];
      KeptHeaders(headers[..|headers| - 1]) + (if last.name == "host" then [] else [last])
  }

  lemma {:induction false} KeptHeadersAreThose(headers: seq<Header>, h: Header)
    ensures h in KeptHeaders(headers) <==> h in headers && h.name != "host"
  {
    if headers != [] {
      KeptHeadersAreThose(headers[..|headers| - 1], h);
      assert headers == headers[..|headers| - 1] + [headers[|headers| - 1]];
    }
  }

  /** getHealthCheck: the probe moved to the route's host, on the scheme and port of the route. */
  function HealthCheckFor(route: Route, probe: Probe): (p: Probe)
    requires probe.httpGet.Some?
  {
    var get := probe.httpGet.value;
    probe.(httpGet := Some(HttpGet(route.host, get.path, if route.tls then "HTTPS" else "HTTP",
                                   if route.tls then 443 else 80, KeptHeaders(get.headers))))
  }

  lemma {:induction false} KeptHeadersCount(headers: seq<Header>, h: Header)
    ensures multiset(KeptHeaders(headers))[h] == if h.name == "host" then 0 else multiset(headers)[h]
  {
    if headers != [] {
      KeptHeadersCount(headers[..|headers| - 1], h);
      assert headers == headers[..|headers| - 1] + [headers[|headers| - 1]];
    }
  }

  lemma HealthCheckIsMoved(route: Route, probe: Probe)
    requires probe.httpGet.Some?
    ensures MovedTo(HealthCheckFor(route, probe), route, probe)
  {
    forall h ensures multiset(KeptHeaders(probe.httpGet.value.headers))[h] ==
        if h.name == "host" then 0 else multiset(probe.httpGet.value.headers)[h] {
      KeptHeadersCount(probe.httpGet.value.headers, h);
    }
  }

  lemma {:induction false} NothingToDrop(q: seq<Header>)
    requires forall i :: 0 <= i < |q| ==> q[i].name != "host"
    ensures KeptHeaders(q) == q
  {
    if q != [] {
      NothingToDrop(q[..|q| - 1]);
    }
  }

  /** A probe that was moved to a route stays as it is when it is discovered again, and the timing of the
      probe it came from is kept. */
  lemma HealthCheckIsStable(route: Route, probe: Probe)
    requires probe.httpGet.Some?
    ensures var p := HealthCheckFor(route, probe);
      && p.httpGet.Some? && HealthCheckFor(route, p) == p && p == probe.(httpGet := p.httpGet)
      && forall h | h in p.httpGet.value.headers :: h.name != "host"
  {
    var kept := KeptHeaders(probe.httpGet.value.headers);
    forall h | h in kept ensures h.name != "host" {
      KeptHeadersAreThose(probe.httpGet.value.headers, h);
    }
    NothingToDrop(kept);
  }

  method GetHealthCheck(route: Route, probe: Probe) returns (p: Probe)
    requires probe.httpGet.Some?
    ensures p == HealthCheckFor(route, probe) && MovedTo(p, route, probe)
  {
    HealthCheckIsMoved(route, probe);
    var get := probe.httpGet.value;
    var headers: seq<Header> := [];
    for i := 0 to |get.headers|
      invariant headers == KeptHeaders(get.headers[..i])
    {
      assert get.headers[..i + 1][..i] == get.headers[..i];
      if get.headers[i].name != "host" {
        headers := headers + [get.headers[i]];
      }
    }
    assert get.headers[..|get.headers|] == get.headers;
    var scheme, port := "HTTP", 80;
    if route.tls {
      scheme, port := "HTTPS", 443;
    }
    p := probe.(httpGet := Some(HttpGet(route.host, get.path, scheme, port, headers)));
  }

  function RecordCheck(info: RouteInfo): (check: Option<Probe>) {
    if info.readinessCheck.Some? && info.readinessCheck.value.httpGet.Some?
    then Some(HealthCheckFor(info.route, info.readinessCheck.value)) else None
  }

  /** The record of a group, in which the first route speaks for all. */
  function RecordOf(d: Discovery, g: seq<RouteInfo>): (r: RecordSpec)
    requires g != []
  {
    RecordSpec(g[0].route.host, Endpoints(g), g[0].ttl, RecordCheck(g[0]), g[0].policy, d.zone)
  }

  lemma RecordSays(d: Discovery, g: seq<RouteInfo>)
    requires g != []
    ensures Says(d, g, RecordOf(d, g))
  {
    if RecordCheck(g[0]).Some? {
      HealthCheckIsMoved(g[0].route, g[0].readinessCheck.value);
    }
  }

  /** What the documentation asks of routes with the same namespace and name. */
  predicate Agree(a: RouteInfo, b: RouteInfo) {
    a.route.host == b.route.host && a.policy == b.policy && a.ttl == b.ttl && a.readinessCheck == b.readinessCheck
  }

  ghost predicate Consistent(g: seq<RouteInfo>) {
    forall a, b | a in g && b in g :: Agree(a, b)
  }

  /** getGlobalDNSRecord: each route is compared with the first only, and yet a group is accepted exactly
      when all of its routes agree with each other. */
  method GetGlobalDNSRecord(d: Discovery, g: seq<RouteInfo>) returns (r: Outcome<RecordSpec>)
    ensures r.Ok? <==> g != [] && Consistent(g)
    ensures r.Ok? ==> r.value == RecordOf(d, g) && Says(d, g, r.value)
    ensures r.Ok? <==> |g| > 0 && forall i :: 0 <= i < |g| ==>
      && g[i].route.host == g[0].route.host && g[i].policy == g[0].policy && g[i].ttl == g[0].ttl
      && g[i].readinessCheck == g[0].readinessCheck
  {
    if |g| == 0 {
      return Err(Rejected);
    }
    for i := 0 to |g|
      invariant forall k :: 0 <= k < i ==> Agree(g[k], g[0])
    {
      if g[i].route.host != g[0].route.host || g[i].policy != g[0].policy || g[i].ttl != g[0].ttl ||
         g[i].readinessCheck != g[0].readinessCheck
      {
        assert g[i] in g && g[0] in g && !Agree(g[i], g[0]);
        return Err(Rejected);
      }
    }
    var endpoints: seq<Endpoint> := [];
    for i := 0 to |g|
      invariant endpoints == Endpoints(g[..i])
    {
      assert g[..i + 1][..i] == g[..i];
      endpoints := endpoints + [EndpointOf(g[i])];
    }
    assert g[..|g|] == g;
    var check: Option<Probe> := None;
    if g[0].readinessCheck.Some? && g[0].readinessCheck.value.httpGet.Some? {
      var p := GetHealthCheck(g[0].route, g[0].readinessCheck.value);
      check := Some(p);
    }
    RecordSays(d, g);
    return Ok(RecordSpec(g[0].route.host, endpoints, g[0].ttl, check, g[0].policy, d.zone));
  }

  /** Every key that is visited has a group with at least one route. */
  ghost predicate Visitable(groups: Groups, order: seq<string>) {
    forall k | k in order :: k in groups && groups[k] != []
  }

  /** The records after the groups were visited in `order`: each is filed under its host, and later ones
      overwrite earlier ones. */
  function RecordsInOrder(d: Discovery, groups: Groups, order: seq<string>): (records: Records)
    requires Visitable(groups, order)
  {
    if order == [] then map[]
    else
      var g := groups[order[|order| - 1]];
      RecordsInOrder(d, groups, order[..|order| - 1])[g[0].route.host := RecordOf(d, g)]
  }

  type Records = map<string, RecordSpec>

  /** A group that gets its record: its routes agree, and writing the record succeeds. */
  ghost predicate Accepted(g: seq<RouteInfo>, failing: set<string>) {
    g != [] && Consistent(g) && g[0].route.host !in failing
  }

  /** The last loop of Reconcile: one record per group, filed under its host. Writing the records of the
      hosts in `failing` fails. `order` is the order in which the groups are visited. */
  method WriteRecords(d: Discovery, groups: Groups, failing: set<string>)
    returns (ok: bool, records: Records, order: seq<string>)
    ensures Enumerates(order, groups.Keys)
    ensures ok <==> forall k | k in groups :: Accepted(groups[k], failing)
    ensures ok ==> Visitable(groups, order) && records == RecordsInOrder(d, groups, order)
    ensures ok ==> AllSaid(d, groups, records)
  {
    records := map[];
    order := AnyOrder(groups.Keys);
    for i := 0 to |order|
      invariant forall j :: 0 <= j < i ==> Accepted(groups[order[j]], failing)
      invariant Visitable(groups, order[..i]) && records == RecordsInOrder(d, groups, order[..i])
    {
      assert order[i] in order;
      var record := GetGlobalDNSRecord(d, groups[order[i]]);
      if record.Err? || record.value.name in failing {
        assert !Accepted(groups[order[i]], failing);
        return false, records, order;
      }
      records := records[record.value.name := record.value];
      assert order[..i + 1][..i] == order[..i];
    }
    assert order[..|order|] == order;
    RecordsSay(d, groups, order);
    return true, records, order;
  }

  /** The records of the groups visited so far are theirs. */
  lemma {:induction false} RecordsSayInOrder(d: Discovery, groups: Groups, order: seq<string>, h: string)
    requires Visitable(groups, order)
    ensures h in RecordsInOrder(d, groups, order) <==> exists k :: k in order && groups[k][0].route.host == h
    ensures h in RecordsInOrder(d, groups, order) ==>
      exists k :: k in order && groups[k][0].route.host == h && Says(d, groups[k], RecordsInOrder(d, groups, order)[h])
  {
    if order != [] {
      var last := |order| - 1;
      RecordsSayInOrder(d, groups, order[..last], h);
      assert order == order[..last] + [order[last]];
      RecordSays(d, groups[order[last]]);
    }
  }

  lemma RecordsSay(d: Discovery, groups: Groups, order: seq<string>)
    requires Visitable(groups, order) && Enumerates(order, groups.Keys)
    ensures AllSaid(d, groups, RecordsInOrder(d, groups, order))
  {
    var records := RecordsInOrder(d, groups, order);
    forall k | k in groups ensures groups[k] != [] && groups[k][0].route.host in records {
      RecordsSayInOrder(d, groups, order, groups[k][0].route.host);
    }
    forall h | h in records
      ensures exists k ::
        k in groups && groups[k] != [] && groups[k][0].route.host == h && Says(d, groups[k], records[h])
    {
      RecordsSayInOrder(d, groups, order, h);
    }
  }

  /** What a run over these routes writes when it visits the groups in `order`. */
  ghost predicate Writes(d: Discovery, infos: seq<RouteInfo>, order: seq<string>, records: Records) {
    Acceptable(GroupsOf(infos)) && Enumerates(order, Keys(infos)) &&
      records == RecordsInOrder(d, GroupsOf(infos), order)
  }

  /** What a run over these routes can write: the order in which the groups are visited is open. */
  ghost predicate CanWrite(d: Discovery, infos: seq<RouteInfo>, records: Records) {
    exists order :: Writes(d, infos, order, records)
  }

  /** Every group has routes, and they agree. */
  ghost predicate Acceptable(groups: Groups) {
    forall k | k in groups :: groups[k] != [] && Consistent(groups[k])
  }

  /** A run over these clusters succeeds when the writes for the hosts in `failing` fail. */
  ghost predicate Succeeds(d: Discovery, clusters: seq<Cluster>, failing: set<string>) {
    && Qualifying(d, clusters).Ok?
    && var infos := Qualifying(d, clusters).value;
       forall k | k in Keys(infos) :: Accepted(WithKey(infos, k), failing)
  }

  /** Reconcile from the first cluster to the last record. */
  method Discover(d: Discovery, clusters: seq<Cluster>, failing: set<string>) returns (ok: bool, records: Records)
    ensures ok <==> Succeeds(d, clusters, failing)
    ensures ok ==> CanWrite(d, Qualifying(d, clusters).value, records)
    ensures ok ==> AllSaid(d, GroupsOf(Qualifying(d, clusters).value), records)
  {
    var infos := Collect(d, clusters);
    if infos.Err? {
      return false, map[];
    }
    var groups := Group(infos.value);
    assert groups == GroupsOf(infos.value);
    var order;
    ok, records, order := WriteRecords(d, groups, failing);
    assert ok ==> Writes(d, infos.value, order, records);
  }
}
