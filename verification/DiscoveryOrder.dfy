/** What the order of clusters, of routes and of groups can change about the records that route discovery
    writes (controllers/globalroutediscovery/globalroutediscovery_controller.go:154-335). */
module DiscoveryOrder {
  import opened Prelude
  import opened Api
  import opened RouteDiscovery

  // ----- the order of clusters

  predicate ClusterOk(d: Discovery, c: Cluster) {
    c.routes.Ok? && InfosOf(d, c.reference, c.routes.value).Ok?
  }

  function ClusterCount(d: Discovery, x: RouteInfo): (f: Cluster -> nat) {
    c => if ClusterOk(d, c) then multiset(InfosOf(d, c.reference, c.routes.value).value)[x] else 0
  }

  lemma SameElements<T>(a: seq<T>, b: seq<T>)
    requires multiset(a) == multiset(b)
    ensures forall x :: x in a <==> x in b
  {
    assert forall x :: (x in a <==> x in multiset(a)) && (x in b <==> x in multiset(b));
  }

  /** The collection succeeds exactly when every cluster does. */
  lemma {:induction false} QualifyingIff(d: Discovery, clusters: seq<Cluster>)
    ensures Qualifying(d, clusters).Ok? <==> forall c | c in clusters :: ClusterOk(d, c)
  {
    if clusters != [] {
      var front, last := clusters[..|clusters| - 1], clusters[|clusters| - 1];
      QualifyingIff(d, front);
      assert forall c :: c in clusters <==> c in front || c == last by {
        assert clusters == front + [last];
      }
      assert last in clusters;
    }
  }

  /** The collection finds each info as often as all clusters together have it. */
  lemma {:induction false} QualifyingCounts(d: Discovery, clusters: seq<Cluster>, x: RouteInfo)
    requires Qualifying(d, clusters).Ok?
    ensures multiset(Qualifying(d, clusters).value)[x] == Sum(clusters, ClusterCount(d, x))
  {
    if clusters != [] {
      QualifyingCounts(d, clusters[..|clusters| - 1], x);
    }
  }

  lemma QualifyingPermutes(d: Discovery, a: seq<Cluster>, b: seq<Cluster>)
    requires multiset(a) == multiset(b)
    ensures Qualifying(d, a).Ok? <==> Qualifying(d, b).Ok?
    ensures Qualifying(d, a).Ok? ==> multiset(Qualifying(d, a).value) == multiset(Qualifying(d, b).value)
  {
    SameElements(a, b);
    QualifyingIff(d, a);
    QualifyingIff(d, b);
    if Qualifying(d, a).Ok? {
      forall x: RouteInfo ensures multiset(Qualifying(d, a).value)[x] == multiset(Qualifying(d, b).value)[x] {
        QualifyingCounts(d, a, x);
        QualifyingCounts(d, b, x);
        SumPermutes(a, b, ClusterCount(d, x));
      }
    }
  }

  // ----- the order of routes

  lemma WithKeyPermutes(a: seq<RouteInfo>, b: seq<RouteInfo>, key: string)
    requires multiset(a) == multiset(b)
    ensures multiset(WithKey(a, key)) == multiset(WithKey(b, key))
  {
    forall x ensures multiset(WithKey(a, key))[x] == multiset(WithKey(b, key))[x] {
      GroupsPartition(a, key, x);
      GroupsPartition(b, key, x);
    }
  }

  lemma KeysPermute(a: seq<RouteInfo>, b: seq<RouteInfo>)
    requires multiset(a) == multiset(b)
    ensures Keys(a) == Keys(b)
  {
    SameElements(a, b);
  }

  lemma InGroup(infos: seq<RouteInfo>, key: string, x: RouteInfo)
    ensures x in WithKey(infos, key) <==> x in infos && x.route.key == key
  {
    GroupsPartition(infos, key, x);
    assert x in WithKey(infos, key) <==> multiset(WithKey(infos, key))[x] > 0;
    assert x in infos <==> multiset(infos)[x] > 0;
  }

  function EndpointCount(e: Endpoint): (f: RouteInfo -> nat) {
    (i: RouteInfo) => if EndpointOf(i) == e then 1 else 0
  }

  lemma {:induction false} EndpointsCount(g: seq<RouteInfo>, e: Endpoint)
    ensures multiset(Endpoints(g))[e] == Sum(g, EndpointCount(e))
  {
    if g != [] {
      EndpointsCount(g[..|g| - 1], e);
    }
  }

  lemma EndpointsPermute(g: seq<RouteInfo>, h: seq<RouteInfo>)
    requires multiset(g) == multiset(h)
    ensures multiset(Endpoints(g)) == multiset(Endpoints(h))
  {
    forall e ensures multiset(Endpoints(g))[e] == multiset(Endpoints(h))[e] {
      EndpointsCount(g, e);
      EndpointsCount(h, e);
      SumPermutes(g, h, EndpointCount(e));
    }
  }

  /** A group is accepted or rejected whatever the order of its routes. */
  lemma ConsistencyPermutes(g: seq<RouteInfo>, h: seq<RouteInfo>)
    requires multiset(g) == multiset(h)
    ensures Consistent(g) <==> Consistent(h)
  {
    SameElements(g, h);
  }

  lemma AcceptedPermutes(g: seq<RouteInfo>, h: seq<RouteInfo>, failing: set<string>)
    requires multiset(g) == multiset(h) && Accepted(g, failing)
    ensures Accepted(h, failing)
  {
    ConsistencyPermutes(g, h);
    assert g[0] in multiset(h);
    assert h[0] in multiset(g);
    assert Agree(g[0], h[0]);
  }

  /** Whether a run succeeds does not depend on the order in which the clusters are listed. */
  lemma SuccessIsOrderIndependent(d: Discovery, a: seq<Cluster>, b: seq<Cluster>, failing: set<string>)
    requires multiset(a) == multiset(b)
    ensures Succeeds(d, a, failing) <==> Succeeds(d, b, failing)
  {
    if Succeeds(d, a, failing) {
      SuccessCarriesOver(d, a, b, failing);
    }
    if Succeeds(d, b, failing) {
      SuccessCarriesOver(d, b, a, failing);
    }
  }

  lemma SuccessCarriesOver(d: Discovery, a: seq<Cluster>, b: seq<Cluster>, failing: set<string>)
    requires multiset(a) == multiset(b) && Succeeds(d, a, failing)
    ensures Succeeds(d, b, failing)
  {
    QualifyingPermutes(d, a, b);
    var p, q := Qualifying(d, a).value, Qualifying(d, b).value;
    KeysPermute(p, q);
    forall k | k in Keys(q) ensures Accepted(WithKey(q, k), failing) {
      WithKeyPermutes(p, q, k);
      AcceptedPermutes(WithKey(p, k), WithKey(q, k), failing);
    }
  }

  /** The same record up to the order of its endpoints. */
  ghost predicate SameRecord(a: RecordSpec, b: RecordSpec) {
    a == b.(endpoints := a.endpoints) && multiset(a.endpoints) == multiset(b.endpoints)
  }

  ghost predicate SameRecords(a: Records, b: Records) {
    a.Keys == b.Keys && forall h | h in a :: SameRecord(a[h], b[h])
  }

  /** Routes that carry a health check agree on TLS with all routes of the group. */
  ghost predicate TlsAgrees(g: seq<RouteInfo>) {
    forall a, b | a in g && b in g :: RecordCheck(a).Some? ==> a.route.tls == b.route.tls
  }

  lemma ChecksAgreeIff(a: RouteInfo, b: RouteInfo)
    requires Agree(a, b)
    ensures RecordCheck(a) == RecordCheck(b) <==> (RecordCheck(a).Some? ==> a.route.tls == b.route.tls)
  {
    if RecordCheck(a).Some? && a.route.tls != b.route.tls {
      assert RecordCheck(a).value.httpGet.value.port != RecordCheck(b).value.httpGet.value.port;
    }
  }

  /** Which routes use TLS decides the scheme of the health check, so it has to agree within a group that
      has an HTTP probe: exactly then the choice of the first route does not matter. */
  lemma FirstRouteIsArbitraryIff(g: seq<RouteInfo>)
    requires Consistent(g)
    ensures (forall a, b | a in g && b in g :: RecordCheck(a) == RecordCheck(b)) <==> TlsAgrees(g)
  {
    forall a, b | a in g && b in g
      ensures RecordCheck(a) == RecordCheck(b) <==> (RecordCheck(a).Some? ==> a.route.tls == b.route.tls)
    {
      assert Agree(a, b);
      ChecksAgreeIff(a, b);
    }
  }

  lemma SameGroupSameRecord(d: Discovery, g: seq<RouteInfo>, h: seq<RouteInfo>)
    requires g != [] && Consistent(g) && TlsAgrees(g) && multiset(g) == multiset(h)
    ensures h != [] && h[0].route.host == g[0].route.host
    ensures SameRecord(RecordOf(d, g), RecordOf(d, h))
  {
    assert g[0] in multiset(h);
    assert h[0] in multiset(g);
    assert Agree(g[0], h[0]);
    ChecksAgreeIff(g[0], h[0]);
    EndpointsPermute(g, h);
  }

  // ----- the order of groups

  /** A record comes from one of the groups visited. */
  lemma {:induction false} RecordHasGroup(d: Discovery, groups: Groups, order: seq<string>, h: string)
    returns (k: string)
    requires Visitable(groups, order) && h in RecordsInOrder(d, groups, order)
    ensures k in order && groups[k][0].route.host == h
    ensures RecordsInOrder(d, groups, order)[h] == RecordOf(d, groups[k])
  {
    var last := |order| - 1;
    if groups[order[last]][0].route.host == h {
      k := order[last];
    } else {
      k := RecordHasGroup(d, groups, order[..last], h);
    }
  }

  /** Each group visited has a record under its host. */
  lemma {:induction false} GroupHasRecord(d: Discovery, groups: Groups, order: seq<string>, k: string)
    requires Visitable(groups, order) && k in order
    ensures groups[k][0].route.host in RecordsInOrder(d, groups, order)
  {
    var last := |order| - 1;
    if k != order[last] {
      GroupHasRecord(d, groups, order[..last], k);
    }
  }

  /** The group visited last decides the record of its host. */
  lemma LastGroupDecides(d: Discovery, groups: Groups, k: string) returns (order: seq<string>)
    requires k in groups && forall l | l in groups :: groups[l] != []
    ensures Enumerates(order, groups.Keys)
    ensures var records := RecordsInOrder(d, groups, order);
      groups[k][0].route.host in records && records[groups[k][0].route.host] == RecordOf(d, groups[k])
  {
    var front := SomeOrder(groups.Keys - {k});
    order := front + [k];
    assert order[..|front|] == front;
  }

  /** Groups that share a host have the same record. */
  ghost predicate HostsAgree(d: Discovery, groups: Groups)
    requires forall k | k in groups :: groups[k] != []
  {
    forall k, l | k in groups && l in groups && groups[k][0].route.host == groups[l][0].route.host ::
      SameRecord(RecordOf(d, groups[k]), RecordOf(d, groups[l]))
  }

  /** Visiting the groups in another order changes nothing exactly when groups that share a host have the
      same record. */
  lemma VisitingOrderIff(d: Discovery, groups: Groups)
    requires forall k | k in groups :: groups[k] != []
    ensures (forall o, p | Enumerates(o, groups.Keys) && Enumerates(p, groups.Keys) ::
               SameRecords(RecordsInOrder(d, groups, o), RecordsInOrder(d, groups, p))) <==> HostsAgree(d, groups)
  {
    if HostsAgree(d, groups) {
      forall o, p | Enumerates(o, groups.Keys) && Enumerates(p, groups.Keys)
        ensures SameRecords(RecordsInOrder(d, groups, o), RecordsInOrder(d, groups, p))
      {
        VisitsAgree(d, groups, o, p);
      }
    } else {
      var o, p := OrdersDiffer(d, groups);
    }
  }

  /** Where groups that share a host have different records, two orders of visiting them write different ones. */
  lemma OrdersDiffer(d: Discovery, groups: Groups) returns (o: seq<string>, p: seq<string>)
    requires (forall k | k in groups :: groups[k] != []) && !HostsAgree(d, groups)
    ensures Enumerates(o, groups.Keys) && Enumerates(p, groups.Keys)
    ensures !SameRecords(RecordsInOrder(d, groups, o), RecordsInOrder(d, groups, p))
  {
    var k, l :| k in groups && l in groups && groups[k][0].route.host == groups[l][0].route.host &&
                !SameRecord(RecordOf(d, groups[k]), RecordOf(d, groups[l]));
    o := LastGroupDecides(d, groups, k);
    p := LastGroupDecides(d, groups, l);
  }

  lemma VisitsAgree(d: Discovery, groups: Groups, o: seq<string>, p: seq<string>)
    requires forall k | k in groups :: groups[k] != []
    requires HostsAgree(d, groups) && Enumerates(o, groups.Keys) && Enumerates(p, groups.Keys)
    ensures SameRecords(RecordsInOrder(d, groups, o), RecordsInOrder(d, groups, p))
  {
    var a, b := RecordsInOrder(d, groups, o), RecordsInOrder(d, groups, p);
    forall h | h in a ensures h in b && SameRecord(a[h], b[h]) {
      var k := RecordHasGroup(d, groups, o, h);
      GroupHasRecord(d, groups, p, k);
      var l := RecordHasGroup(d, groups, p, h);
    }
    forall h | h in b ensures h in a {
      var l := RecordHasGroup(d, groups, p, h);
      GroupHasRecord(d, groups, o, l);
    }
  }

  // ----- all of them

  /** However the same routes are listed and the groups visited, the same records are written. */
  ghost predicate OrderIndependent(d: Discovery, infos: seq<RouteInfo>) {
    forall q, q', a, b | multiset(q) == multiset(infos) && multiset(q') == multiset(infos) &&
                         CanWrite(d, q, a) && CanWrite(d, q', b) :: SameRecords(a, b)
  }

  /** What it takes: TLS agrees within each group where it matters, and groups that share a host have the
      same record. */
  ghost predicate Unambiguous(d: Discovery, infos: seq<RouteInfo>)
    requires Acceptable(GroupsOf(infos))
  {
    (forall k | k in Keys(infos) :: TlsAgrees(WithKey(infos, k))) && HostsAgree(d, GroupsOf(infos))
  }

  lemma {:induction false} FirstOfKey(q: seq<RouteInfo>)
    requires q != []
    ensures WithKey(q, q[0].route.key) != [] && WithKey(q, q[0].route.key)[0] == q[0]
  {
    if |q| > 1 {
      FirstOfKey(q[..|q| - 1]);
    } else {
      assert q[..0] == [];
    }
  }

  /** The same routes with `x` listed first. */
  lemma MoveToFront(infos: seq<RouteInfo>, x: RouteInfo) returns (q: seq<RouteInfo>)
    requires x in infos
    ensures multiset(q) == multiset(infos) && q != [] && q[0] == x
  {
    var i :| 0 <= i < |infos| && infos[i] == x;
    q := [x] + infos[..i] + infos[i + 1..];
    assert infos == infos[..i] + [x] + infos[i + 1..];
  }

  lemma AcceptablePermutes(infos: seq<RouteInfo>, q: seq<RouteInfo>)
    requires multiset(q) == multiset(infos) && Acceptable(GroupsOf(infos))
    ensures Acceptable(GroupsOf(q))
  {
    KeysPermute(q, infos);
    forall k | k in GroupsOf(q) ensures GroupsOf(q)[k] != [] && Consistent(GroupsOf(q)[k]) {
      WithKeyPermutes(q, infos, k);
      AcceptedPermutes(GroupsOf(infos)[k], GroupsOf(q)[k], {});
    }
  }

  /** A run that writes the record of `x`'s group last, with `x` speaking for the group. */
  lemma SpeaksForGroup(d: Discovery, infos: seq<RouteInfo>, x: RouteInfo) returns (q: seq<RouteInfo>, records: Records)
    requires Acceptable(GroupsOf(infos)) && x in infos
    ensures multiset(q) == multiset(infos) && CanWrite(d, q, records)
    ensures x.route.host in records && records[x.route.host].healthCheck == RecordCheck(x)
  {
    q := MoveToFront(infos, x);
    FirstOfKey(q);
    AcceptablePermutes(infos, q);
    var k := x.route.key;
    assert k in Keys(q);
    var order := LastGroupDecides(d, GroupsOf(q), k);
    records := RecordsInOrder(d, GroupsOf(q), order);
    assert Writes(d, q, order, records);
  }

  lemma RunsDisagree(d: Discovery, infos: seq<RouteInfo>, q: seq<RouteInfo>, q': seq<RouteInfo>, a: Records, b: Records)
    requires multiset(q) == multiset(infos) && multiset(q') == multiset(infos)
    requires CanWrite(d, q, a) && CanWrite(d, q', b) && !SameRecords(a, b)
    ensures !OrderIndependent(d, infos)
  {
  }

  lemma AmbiguousTls(d: Discovery, infos: seq<RouteInfo>, a: RouteInfo, b: RouteInfo)
    requires Acceptable(GroupsOf(infos)) && a in infos && b in infos && Agree(a, b)
    requires RecordCheck(a).Some? && a.route.tls != b.route.tls
    ensures !OrderIndependent(d, infos)
  {
    ChecksAgreeIff(a, b);
    var q, r := SpeaksForGroup(d, infos, a);
    var q', r' := SpeaksForGroup(d, infos, b);
    RunsDisagree(d, infos, q, q', r, r');
  }

  lemma OrderCanBe(d: Discovery, infos: seq<RouteInfo>, order: seq<string>)
    requires Acceptable(GroupsOf(infos)) && Enumerates(order, Keys(infos))
    ensures CanWrite(d, infos, RecordsInOrder(d, GroupsOf(infos), order))
  {
    assert Writes(d, infos, order, RecordsInOrder(d, GroupsOf(infos), order));
  }

  lemma AmbiguousHost(d: Discovery, infos: seq<RouteInfo>)
    requires Acceptable(GroupsOf(infos)) && !HostsAgree(d, GroupsOf(infos))
    ensures !OrderIndependent(d, infos)
  {
    var groups := GroupsOf(infos);
    var o, p := OrdersDiffer(d, groups);
    OrderCanBe(d, infos, o);
    OrderCanBe(d, infos, p);
    RunsDisagree(d, infos, infos, infos, RecordsInOrder(d, groups, o), RecordsInOrder(d, groups, p));
  }

  /** The record that a run writes for a host is, up to the order of endpoints, that of a group as it stands
      in `infos`. */
  lemma WrittenLikeGroup(d: Discovery, infos: seq<RouteInfo>, q: seq<RouteInfo>, order: seq<string>, records: Records,
                         h: string) returns (k: string)
    requires Acceptable(GroupsOf(infos)) && Unambiguous(d, infos) && multiset(q) == multiset(infos)
    requires Writes(d, q, order, records) && h in records
    ensures k in GroupsOf(infos) && GroupsOf(infos)[k][0].route.host == h
    ensures SameRecord(RecordOf(d, GroupsOf(infos)[k]), records[h])
  {
    k := RecordHasGroup(d, GroupsOf(q), order, h);
    KeysPermute(q, infos);
    WithKeyPermutes(q, infos, k);
    SameGroupSameRecord(d, WithKey(infos, k), WithKey(q, k));
  }

  lemma HostIsServed(d: Discovery, infos: seq<RouteInfo>, q: seq<RouteInfo>, order: seq<string>, records: Records,
                     k: string)
    requires Acceptable(GroupsOf(infos)) && multiset(q) == multiset(infos) && k in GroupsOf(infos)
    requires Writes(d, q, order, records)
    ensures GroupsOf(infos)[k][0].route.host in records
  {
    KeysPermute(q, infos);
    WithKeyPermutes(q, infos, k);
    var g, h := GroupsOf(infos)[k], GroupsOf(q)[k];
    assert h[0] in multiset(g);
    assert Agree(g[0], h[0]);
    GroupHasRecord(d, GroupsOf(q), order, k);
  }

  lemma HostsCarryOver(d: Discovery, infos: seq<RouteInfo>, q: seq<RouteInfo>, o: seq<string>, a: Records,
                       q': seq<RouteInfo>, p: seq<string>, b: Records, h: string)
    requires Acceptable(GroupsOf(infos)) && Unambiguous(d, infos)
    requires multiset(q) == multiset(infos) && multiset(q') == multiset(infos)
    requires Writes(d, q, o, a) && h in a && Writes(d, q', p, b)
    ensures h in b && SameRecord(a[h], b[h])
  {
    var k := WrittenLikeGroup(d, infos, q, o, a, h);
    HostIsServed(d, infos, q', p, b, k);
    var l := WrittenLikeGroup(d, infos, q', p, b, h);
    assert SameRecord(RecordOf(d, GroupsOf(infos)[k]), RecordOf(d, GroupsOf(infos)[l]));
  }

  lemma AllCarryOver(d: Discovery, infos: seq<RouteInfo>, q: seq<RouteInfo>, a: Records, q': seq<RouteInfo>, b: Records)
    requires Acceptable(GroupsOf(infos)) && Unambiguous(d, infos)
    requires multiset(q) == multiset(infos) && multiset(q') == multiset(infos)
    requires CanWrite(d, q, a) && CanWrite(d, q', b)
    ensures forall h | h in a :: h in b && SameRecord(a[h], b[h])
  {
    var o :| Writes(d, q, o, a);
    var p :| Writes(d, q', p, b);
    forall h | h in a ensures h in b && SameRecord(a[h], b[h]) {
      HostsCarryOver(d, infos, q, o, a, q', p, b, h);
    }
  }

  lemma UnambiguousRunsAgree(d: Discovery, infos: seq<RouteInfo>, q: seq<RouteInfo>, q': seq<RouteInfo>, a: Records,
                             b: Records)
    requires Acceptable(GroupsOf(infos)) && Unambiguous(d, infos)
    requires multiset(q) == multiset(infos) && multiset(q') == multiset(infos)
    requires CanWrite(d, q, a) && CanWrite(d, q', b)
    ensures SameRecords(a, b)
  {
    AllCarryOver(d, infos, q, a, q', b);
    AllCarryOver(d, infos, q', b, q, a);
  }

  /** The records are independent of every order exactly when the routes are unambiguous. */
  lemma OrderIndependentIff(d: Discovery, infos: seq<RouteInfo>)
    requires Acceptable(GroupsOf(infos))
    ensures OrderIndependent(d, infos) <==> Unambiguous(d, infos)
  {
    if !HostsAgree(d, GroupsOf(infos)) {
      AmbiguousHost(d, infos);
    } else if k :| k in Keys(infos) && !TlsAgrees(WithKey(infos, k)) {
      var g := GroupsOf(infos)[k];
      var a, b :| a in g && b in g && RecordCheck(a).Some? && a.route.tls != b.route.tls;
      assert Agree(a, b);
      InGroup(infos, k, a);
      InGroup(infos, k, b);
      AmbiguousTls(d, infos, a, b);
    } else {
      forall q, q', a, b | multiset(q) == multiset(infos) && multiset(q') == multiset(infos) &&
        CanWrite(d, q, a) && CanWrite(d, q', b) ensures SameRecords(a, b)
      {
        UnambiguousRunsAgree(d, infos, q, q', a, b);
      }
    }
  }

  /** Over a whole run: listing the clusters in another order changes neither success nor, for unambiguous
      routes, any record but for the order of its endpoints. */
  lemma DiscoveryIsOrderIndependent(d: Discovery, clusters: seq<Cluster>, clusters': seq<Cluster>, failing: set<string>,
                                    a: Records, b: Records)
    requires multiset(clusters) == multiset(clusters') && Succeeds(d, clusters, failing)
    requires var infos := Qualifying(d, clusters).value; CanWrite(d, infos, a) && Unambiguous(d, infos)
    ensures Succeeds(d, clusters', failing)
    ensures CanWrite(d, Qualifying(d, clusters').value, b) ==> SameRecords(a, b)
  {
    SuccessIsOrderIndependent(d, clusters, clusters', failing);
    QualifyingPermutes(d, clusters, clusters');
    var infos, infos' := Qualifying(d, clusters).value, Qualifying(d, clusters').value;
    if CanWrite(d, infos', b) {
      UnambiguousRunsAgree(d, infos, infos, infos', a, b);
    }
  }

  lemma RecordOfKey(d: Discovery, infos: seq<RouteInfo>, order: seq<string>, records: Records, k: string)
    requires Acceptable(GroupsOf(infos)) && Unambiguous(d, infos) && Writes(d, infos, order, records)
    requires k in GroupsOf(infos)
    ensures var g := GroupsOf(infos)[k];
      g[0].route.host in records && SameRecord(RecordOf(d, g), records[g[0].route.host])
  {
    var h := GroupsOf(infos)[k][0].route.host;
    HostIsServed(d, infos, infos, order, records, k);
    var l := WrittenLikeGroup(d, infos, infos, order, records, h);
    assert SameRecord(RecordOf(d, GroupsOf(infos)[k]), RecordOf(d, GroupsOf(infos)[l]));
  }

  lemma ServesItsRoutes(g: seq<RouteInfo>)
    ensures ServesAll(Endpoints(g), g)
  {
  }

  lemma SomeEndpointServes(q: seq<Endpoint>, r: seq<Endpoint>, g: seq<RouteInfo>, x: RouteInfo)
    requires ServesAll(q, g) && multiset(q) == multiset(r) && x in g
    ensures exists e :: e in r && Serves(e, x)
  {
    var i :| 0 <= i < |g| && g[i] == x;
    assert q[i] in multiset(r);
    assert q[i] in r && Serves(q[i], x);
  }

  /** No route is lost and none is served twice: the endpoints of the record of a route's host are those
      of all the routes with its key, one for one. */
  lemma EveryRouteIsServed(d: Discovery, infos: seq<RouteInfo>, records: Records, x: RouteInfo)
    requires Acceptable(GroupsOf(infos)) && Unambiguous(d, infos) && CanWrite(d, infos, records) && x in infos
    ensures x.route.host in records
    ensures exists e :: e in records[x.route.host].endpoints && Serves(e, x)
    ensures exists q ::
      multiset(q) == multiset(records[x.route.host].endpoints) && ServesAll(q, WithKey(infos, x.route.key))
  {
    var g := WithKey(infos, x.route.key);
    InGroup(infos, x.route.key, x);
    assert x.route.key in GroupsOf(infos) && g[0] in g && Agree(x, g[0]);
    var order :| Writes(d, infos, order, records);
    RecordOfKey(d, infos, order, records, x.route.key);
    ServesItsRoutes(g);
    SomeEndpointServes(Endpoints(g), records[x.route.host].endpoints, g, x);
  }
}
