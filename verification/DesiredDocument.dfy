/** The document that getAWSTrafficPolicyDocument builds
    (controllers/globaldnsrecord/route53provider.go:522-692), described without reference to the
    order in which Go ranges over the endpoint map. */
module DesiredDocument {
  import opened Prelude
  import opened Api
  import opened Documents
  import opened Endpoints
  import opened Promises

  /** Everything that the document of a record depends on. `ids` gives the health check of each probed
      address. */
  datatype Wish = Wish(
    policy: LoadBalancingPolicy, checked: bool, endpoints: EndpointMap, dns: Dns, ids: map<string, string>
  )

  datatype Entry = Entry(key: string, endpoint: PolicyEndpoint)

  predicate Supported(policy: LoadBalancingPolicy) {
    policy.Multivalue? || policy.Geoproximity? || policy.Latency?
  }

  function RuleTypeOf(policy: LoadBalancingPolicy): (t: string) {
    match policy
    case Multivalue => "multivalue"
    case Geoproximity => "geoproximity"
    case Latency => "latency"
    case _ => ""
  }

  function AddressEntry(st: EndpointStatus, ip: string): (e: Entry) {
    Entry(st.endpoint.GetKey() + ip, PolicyEndpoint("value", "", ip))
  }

  function BalancerEntry(st: EndpointStatus): (e: Entry) {
    Entry(st.endpoint.GetKey(),
          PolicyEndpoint("elastic-load-balancer", "", if st.ingress == [] then "" else st.ingress[0].hostname))
  }

  /** The endpoints that one cluster endpoint adds to the document. */
  function EntriesOf(policy: LoadBalancingPolicy, st: EndpointStatus, dns: Dns): (es: set<Entry>) {
    if policy.Multivalue? then set ip | ip in Addresses(st, dns) :: AddressEntry(st, ip) else {BalancerEntry(st)}
  }

  function Entries(policy: LoadBalancingPolicy, endpoints: EndpointMap, dns: Dns): (es: set<Entry>) {
    set k, e | k in endpoints && e in EntriesOf(policy, endpoints[k], dns) :: e
  }

  /** The addresses of an endpoint that get a health check: all of them, or the smallest. */
  function ProbedIPs(policy: LoadBalancingPolicy, st: EndpointStatus, dns: Dns): (ips: seq<string>) {
    var all := Addresses(st, dns);
    if policy.Multivalue? || all == [] then all else [all[0]]
  }

  function IdOf(ids: map<string, string>, ip: string): (id: string) {
    if ip in ids then ids[ip] else ""
  }

  function ReferenceTo(w: Wish, key: string, region: string, ip: string): (r: Reference) {
    EndpointReference(key, region, if w.checked then IdOf(w.ids, ip) else "", w.checked)
  }

  function RegionOf(policy: LoadBalancingPolicy, st: EndpointStatus): (region: string) {
    match policy
    case Geoproximity => "aws:route53:" + st.region
    case Latency => st.region
    case _ => ""
  }

  function BalancerReference(w: Wish, st: EndpointStatus): (r: Reference) {
    var all := Addresses(st, w.dns);
    ReferenceTo(w, st.endpoint.GetKey(), RegionOf(w.policy, st), if all == [] then "" else all[0])
  }

  function AddressReference(w: Wish, st: EndpointStatus, ip: string): (r: Reference) {
    ReferenceTo(w, st.endpoint.GetKey() + ip, "", ip)
  }

  function ReferencesOf(w: Wish, st: EndpointStatus): (rs: set<Reference>) {
    if w.policy.Multivalue?
    then set ip | ip in Addresses(st, w.dns) :: AddressReference(w, st, ip)
    else {BalancerReference(w, st)}
  }

  function AllReferences(w: Wish): (rs: set<Reference>) {
    set k, r | k in w.endpoints && r in ReferencesOf(w, w.endpoints[k]) :: r
  }

  /** The rule lists exactly the references `rs`, in the list that belongs to the policy. */
  predicate DescribesRule(rule: Rule, policy: LoadBalancingPolicy, rs: set<Reference>) {
    && rule.ruleType == RuleTypeOf(policy)
    && rule.primary == None && rule.secondary == None && rule.locations == []
    && ToSet(rule.items) == (if policy.Multivalue? then rs else {})
    && ToSet(rule.geoproximityLocations) == (if policy.Geoproximity? then rs else {})
    && ToSet(rule.regions) == (if policy.Latency? then rs else {})
  }

  /** Each endpoint name is present and carries one of the values written under it. */
  predicate DescribesEndpoints(m: map<string, PolicyEndpoint>, es: set<Entry>) {
    && (forall e | e in es :: e.key in m)
    && (forall n | n in m :: Entry(n, m[n]) in es)
  }

  /** `d` holds what a traversal of the endpoint map writes, whatever its order. */
  predicate Describes(d: Document, w: Wish) {
    && Supported(w.policy)
    && d.formatVersion == "2015-10-01" && d.recordType == "A"
    && d.startEndpoint == "" && d.startRule == "main"
    && d.rules.Keys == {"main"}
    && DescribesRule(MainRule(d), w.policy, AllReferences(w))
    && DescribesEndpoints(d.endpoints, Entries(w.policy, w.endpoints, w.dns))
  }

  /** No endpoint name is written with two different values. */
  predicate NoCollision(policy: LoadBalancingPolicy, endpoints: EndpointMap, dns: Dns) {
    forall e, f | e in Entries(policy, endpoints, dns) && f in Entries(policy, endpoints, dns) && e.key == f.key ::
      e == f
  }

  /** Endpoints are filed under their own key, as the reconciler does. */
  predicate KeyedByEndpoint(endpoints: EndpointMap) {
    forall k | k in endpoints :: k == endpoints[k].endpoint.GetKey()
  }

  /** createRoute53Provider accepts only clusters that run on AWS. */
  predicate AllOnAWS(endpoints: EndpointMap) {
    forall k | k in endpoints :: endpoints[k].platform == Some("AWS")
  }

  lemma OneEntryPerBalancer(policy: LoadBalancingPolicy, endpoints: EndpointMap, dns: Dns)
    requires !policy.Multivalue? && KeyedByEndpoint(endpoints)
    ensures NoCollision(policy, endpoints, dns)
  {
  }

  lemma EndpointsAgree(m: map<string, PolicyEndpoint>, n: map<string, PolicyEndpoint>, es: set<Entry>)
    requires DescribesEndpoints(m, es) && DescribesEndpoints(n, es)
    requires forall e, f | e in es && f in es && e.key == f.key :: e == f
    ensures m == n
  {
  }

  /** Health check identifiers matter only at the probed addresses. */
  lemma ReferencesAgree(w: Wish, v: Wish)
    requires v == w.(ids := v.ids)
    requires AllCovered(w) && AllCovered(v)
    requires forall ip | ip in w.ids && ip in v.ids :: w.ids[ip] == v.ids[ip]
    ensures AllReferences(w) == AllReferences(v)
  {
    forall k | k in w.endpoints ensures ReferencesOf(w, w.endpoints[k]) == ReferencesOf(v, w.endpoints[k]) {
      KnownReferencesStay(w, v, w.endpoints[k]);
    }
  }

  /** The addresses of the endpoint that need a health check have one in the wish. */
  predicate Covered(w: Wish, st: EndpointStatus) {
    w.checked ==>
      && (forall ip | ip in ProbedIPs(w.policy, st, w.dns) :: ip in w.ids)
      && (!w.policy.Multivalue? ==> Addresses(st, w.dns) != [])
  }

  predicate AllCovered(w: Wish) {
    forall k | k in w.endpoints :: Covered(w, w.endpoints[k])
  }

  /** Learning more identifiers leaves a reference alone whose address is known. */
  lemma KnownReferencesStay(w: Wish, v: Wish, st: EndpointStatus)
    requires v == w.(ids := v.ids)
    requires w.checked ==> forall ip | ip in ProbedIPs(w.policy, st, w.dns) ::
      ip in w.ids && ip in v.ids && w.ids[ip] == v.ids[ip]
    requires w.checked && !w.policy.Multivalue? ==> Addresses(st, w.dns) != []
    ensures ReferencesOf(w, st) == ReferencesOf(v, st)
  {
  }

  /** `rs` are the references to the first addresses of an endpoint. */
  ghost predicate Lists(rs: seq<Reference>, w: Wish, st: EndpointStatus, ips: seq<string>) {
    && |rs| == |ips|
    && (forall k :: 0 <= k < |ips| ==> rs[k] == AddressReference(w, st, ips[k]))
    && (w.checked ==> forall k :: 0 <= k < |ips| ==> ips[k] in w.ids)
  }

  lemma ListsOneMore(rs: seq<Reference>, r: Reference, w: Wish, v: Wish, st: EndpointStatus, ips: seq<string>,
                     ip: string)
    requires Lists(rs, w, st, ips) && v == w.(ids := v.ids) && r == AddressReference(v, st, ip)
    requires forall jp | jp in w.ids :: jp in v.ids && v.ids[jp] == w.ids[jp]
    requires w.checked ==> ip in v.ids
    ensures Lists(rs + [r], v, st, ips + [ip])
  {
  }

  lemma ListsAll(rs: seq<Reference>, w: Wish, st: EndpointStatus)
    requires w.policy.Multivalue? && Lists(rs, w, st, Addresses(st, w.dns))
    ensures ToSet(rs) == ReferencesOf(w, st)
  {
  }

  /** `rs` are the references of the endpoints named by `ks`. */
  ghost predicate Gathers(rs: seq<Reference>, w: Wish, ks: seq<string>) {
    && (forall k | k in ks :: k in w.endpoints && Covered(w, w.endpoints[k]))
    && (forall r | r in rs :: exists k :: k in ks && r in ReferencesOf(w, w.endpoints[k]))
    && (forall k, r | k in ks && r in ReferencesOf(w, w.endpoints[k]) :: r in rs)
  }

  lemma GathersStay(rs: seq<Reference>, w: Wish, v: Wish, ks: seq<string>)
    requires Gathers(rs, w, ks) && v == w.(ids := v.ids)
    requires forall jp | jp in w.ids :: jp in v.ids && v.ids[jp] == w.ids[jp]
    ensures Gathers(rs, v, ks)
  {
    forall k | k in ks
      ensures ReferencesOf(w, w.endpoints[k]) == ReferencesOf(v, w.endpoints[k]) && Covered(v, w.endpoints[k])
    {
      KnownReferencesStay(w, v, w.endpoints[k]);
    }
  }

  lemma GathersOneMore(rs: seq<Reference>, more: seq<Reference>, w: Wish, v: Wish, ks: seq<string>, k: string)
    requires Gathers(rs, w, ks) && v == w.(ids := v.ids) && k in w.endpoints
    requires forall jp | jp in w.ids :: jp in v.ids && v.ids[jp] == w.ids[jp]
    requires ToSet(more) == ReferencesOf(v, v.endpoints[k]) && Covered(v, v.endpoints[k])
    ensures Gathers(rs + more, v, ks + [k])
  {
    GathersStay(rs, w, v, ks);
    assert forall r :: r in more <==> r in ToSet(more);
    assert k in ks + [k];
  }

  lemma GathersAll(rs: seq<Reference>, w: Wish, ks: seq<string>)
    requires Gathers(rs, w, ks) && Enumerates(ks, w.endpoints.Keys)
    ensures ToSet(rs) == AllReferences(w) && AllCovered(w)
  {
  }

  /** Two traversals give documents that the comparison calls the same. */
  lemma OrderDoesNotMatter(d: Document, e: Document, w: Wish, v: Wish)
    requires Describes(d, w) && Describes(e, v) && v == w.(ids := v.ids)
    requires NoCollision(w.policy, w.endpoints, w.dns)
    requires AllCovered(w) && AllCovered(v)
    requires forall ip | ip in w.ids && ip in v.ids :: w.ids[ip] == v.ids[ip]
    ensures SameDocument(d, e)
  {
    ReferencesAgree(w, v);
    EndpointsAgree(d.endpoints, e.endpoints, Entries(w.policy, w.endpoints, w.dns));
  }

  ghost function Listing(s: set<Reference>): (q: seq<Reference>)
    ensures ToSet(q) == s
  {
    if s == {} then []
    else
      var x :| x in s;
      var q := Listing(s - {x});
      assert forall y :: y in [x] + q <==> y == x || y in ToSet(q);
      [x] + q
  }

  /** The document with these endpoints and these references. */
  function DocumentFor(policy: LoadBalancingPolicy, m: map<string, PolicyEndpoint>, rs: seq<Reference>): (d: Document) {
    var rule := NO_RULE.(ruleType := RuleTypeOf(policy),
                         items := if policy.Multivalue? then rs else [],
                         geoproximityLocations := if policy.Geoproximity? then rs else [],
                         regions := if policy.Latency? then rs else []);
    Document("2015-10-01", "A", "", "main", m, map["main" := rule])
  }

  lemma DocumentForDescribes(w: Wish, m: map<string, PolicyEndpoint>, rs: seq<Reference>)
    requires Supported(w.policy) && DescribesEndpoints(m, Entries(w.policy, w.endpoints, w.dns))
    requires ToSet(rs) == AllReferences(w)
    ensures Describes(DocumentFor(w.policy, m, rs), w)
  {
  }

  // ----- the order of traversal

  /** Writes entries one after the other; later ones win. */
  function Write(m: map<string, PolicyEndpoint>, es: seq<Entry>): (n: map<string, PolicyEndpoint>) {
    if es == [] then m else Write(m, es[..|es| - 1])[es[|es| - 1].key := es[|es| - 1].endpoint]
  }

  function AddressEntries(st: EndpointStatus, ips: seq<string>): (es: seq<Entry>)
    ensures |es| == |ips| && forall i :: 0 <= i < |ips| ==> es[i] == AddressEntry(st, ips[i])
  {
    seq(|ips|, i requires 0 <= i < |ips| => AddressEntry(st, ips[i]))
  }

  /** What one endpoint writes, in the order in which it is written. */
  function EntryList(policy: LoadBalancingPolicy, st: EndpointStatus, dns: Dns): (es: seq<Entry>)
    ensures ToSet(es) == EntriesOf(policy, st, dns)
  {
    if policy.Multivalue? then
      var ips := Addresses(st, dns);
      var es := AddressEntries(st, ips);
      assert forall ip | ip in ips :: AddressEntry(st, ip) in es by {
        forall ip | ip in ips ensures AddressEntry(st, ip) in es {
          var i :| 0 <= i < |ips| && ips[i] == ip;
          assert es[i] == AddressEntry(st, ip);
        }
      }
      es
    else [BalancerEntry(st)]
  }

  /** The endpoints of a document that was built by visiting `order`. */
  function WriteAll(policy: LoadBalancingPolicy, endpoints: EndpointMap, dns: Dns,
                    order: seq<string>): (m: map<string, PolicyEndpoint>)
    requires forall k | k in order :: k in endpoints
  {
    if order == [] then map[]
    else
      var last := |order| - 1;
      Write(WriteAll(policy, endpoints, dns, order[..last]), EntryList(policy, endpoints[order[last]], dns))
  }

  lemma {:induction false} WriteDescribes(m: map<string, PolicyEndpoint>, before: set<Entry>, es: seq<Entry>)
    requires DescribesEndpoints(m, before)
    ensures DescribesEndpoints(Write(m, es), before + ToSet(es))
  {
    if es != [] {
      WriteDescribes(m, before, es[..|es| - 1]);
      assert es == es[..|es| - 1] + [es[|es| - 1]];
    }
  }

  lemma {:induction false} WriteAllDescribes(policy: LoadBalancingPolicy, endpoints: EndpointMap, dns: Dns,
                                             order: seq<string>)
    requires forall k | k in order :: k in endpoints
    ensures DescribesEndpoints(WriteAll(policy, endpoints, dns, order), WrittenBy(policy, endpoints, dns, order))
  {
    if order != [] {
      var last := |order| - 1;
      WriteAllDescribes(policy, endpoints, dns, order[..last]);
      var es := EntryList(policy, endpoints[order[last]], dns);
      WriteDescribes(WriteAll(policy, endpoints, dns, order[..last]), WrittenBy(policy, endpoints, dns,
          order[..last]), es);
      WrittenByOneMore(policy, endpoints, dns, order);
    }
  }

  lemma WrittenByOneMore(policy: LoadBalancingPolicy, endpoints: EndpointMap, dns: Dns, order: seq<string>)
    requires order != [] && forall k | k in order :: k in endpoints
    ensures var last := |order| - 1;
      WrittenBy(policy, endpoints, dns, order) ==
      WrittenBy(policy, endpoints, dns, order[..last]) + EntriesOf(policy, endpoints[order[last]], dns)
  {
    var last := |order| - 1;
    assert forall k :: k in order <==> k in order[..last] || k == order[last] by {
      assert order == order[..last] + [order[last]];
    }
  }

  function WrittenBy(policy: LoadBalancingPolicy, endpoints: EndpointMap, dns: Dns,
                     order: seq<string>): (es: set<Entry>)
    requires forall k | k in order :: k in endpoints
  {
    set k, e | k in order && e in EntriesOf(policy, endpoints[k], dns) :: e
  }

  lemma TraversalDescribes(policy: LoadBalancingPolicy, endpoints: EndpointMap, dns: Dns, order: seq<string>)
    requires Enumerates(order, endpoints.Keys)
    ensures DescribesEndpoints(WriteAll(policy, endpoints, dns, order), Entries(policy, endpoints, dns))
  {
    WriteAllDescribes(policy, endpoints, dns, order);
    assert WrittenBy(policy, endpoints, dns, order) == Entries(policy, endpoints, dns);
  }

  /** One endpoint never writes a name with two values. */
  lemma EntriesOfAgree(policy: LoadBalancingPolicy, st: EndpointStatus, dns: Dns, e: Entry, f: Entry)
    requires e in EntriesOf(policy, st, dns) && f in EntriesOf(policy, st, dns) && e.key == f.key
    ensures e == f
  {
    if policy.Multivalue? {
      var key := st.endpoint.GetKey();
      var ip :| ip in Addresses(st, dns) && e == AddressEntry(st, ip);
      var jp :| jp in Addresses(st, dns) && f == AddressEntry(st, jp);
      assert ip == (key + ip)[|key|..] && jp == (key + jp)[|key|..];
    }
  }

  lemma {:induction false} LastWriteWins(m: map<string, PolicyEndpoint>, es: seq<Entry>, e: Entry)
    requires e in es && forall f | f in es && f.key == e.key :: f == e
    ensures e.key in Write(m, es) && Write(m, es)[e.key] == e.endpoint
  {
    var last := |es| - 1;
    if es[last].key != e.key {
      assert es == es[..last] + [es[last]];
      LastWriteWins(m, es[..last], e);
    } else {
      assert es[last] in es;
    }
  }

  /** The endpoint visited last decides the names that it writes. */
  lemma LastVisitWins(policy: LoadBalancingPolicy, endpoints: EndpointMap, dns: Dns, order: seq<string>, k: string,
                      e: Entry)
    requires (forall l | l in order :: l in endpoints) && k in endpoints && e in EntriesOf(policy, endpoints[k], dns)
    ensures var m := WriteAll(policy, endpoints, dns, order + [k]); e.key in m && m[e.key] == e.endpoint
  {
    var es := EntryList(policy, endpoints[k], dns);
    assert e in ToSet(es);
    forall f | f in es && f.key == e.key ensures f == e {
      assert f in ToSet(es);
      EntriesOfAgree(policy, endpoints[k], dns, e, f);
    }
    assert (order + [k])[..|order|] == order;
    LastWriteWins(WriteAll(policy, endpoints, dns, order), es, e);
  }

  /** `d` is what getAWSTrafficPolicyDocument returns when its first traversal visits `order`; the second
      one lists the same references in an order of its own. */
  ghost predicate BuiltInOrder(d: Document, w: Wish, order: seq<string>) {
    && Enumerates(order, w.endpoints.Keys)
    && exists rs ::
          ToSet(rs) == AllReferences(w) && d == DocumentFor(w.policy, WriteAll(w.policy, w.endpoints, w.dns, order), rs)
  }

  lemma BuiltDescribes(d: Document, w: Wish, order: seq<string>)
    requires Supported(w.policy) && BuiltInOrder(d, w, order)
    ensures Describes(d, w)
  {
    TraversalDescribes(w.policy, w.endpoints, w.dns, order);
    var rs :| ToSet(rs) == AllReferences(w) &&
      d == DocumentFor(w.policy, WriteAll(w.policy, w.endpoints, w.dns, order), rs);
    DocumentForDescribes(w, d.endpoints, rs);
  }

  /** A traversal that visits `k` last. */
  lemma BuiltWithLast(w: Wish, k: string, e: Entry) returns (d: Document, order: seq<string>)
    requires k in w.endpoints && e in EntriesOf(w.policy, w.endpoints[k], w.dns)
    ensures BuiltInOrder(d, w, order) && e.key in d.endpoints && d.endpoints[e.key] == e.endpoint
  {
    var front := SomeOrder(w.endpoints.Keys - {k});
    order := front + [k];
    LastVisitWins(w.policy, w.endpoints, w.dns, front, k, e);
    d := DocumentFor(w.policy, WriteAll(w.policy, w.endpoints, w.dns, order), Listing(AllReferences(w)));
  }

  /** The builder's result is independent of map order exactly when no two (endpoint, address) pairs
      are written under one name with different values. */
  lemma OrderIndependentIffNoCollision(w: Wish)
    requires Supported(w.policy)
    ensures (forall d, e, o, p :: BuiltInOrder(d, w, o) && BuiltInOrder(e, w, p) ==> SameDocument(d, e)) <==>
            NoCollision(w.policy, w.endpoints, w.dns)
  {
    var es := Entries(w.policy, w.endpoints, w.dns);
    if a, b :| a in es && b in es && a.key == b.key && a != b {
      var k :| k in w.endpoints && a in EntriesOf(w.policy, w.endpoints[k], w.dns);
      var l :| l in w.endpoints && b in EntriesOf(w.policy, w.endpoints[l], w.dns);
      var d, o := BuiltWithLast(w, k, a);
      var e, p := BuiltWithLast(w, l, b);
      assert d.endpoints[a.key] != e.endpoints[a.key];
      assert !SameDocument(d, e);
      assert !NoCollision(w.policy, w.endpoints, w.dns);
    } else {
      forall d, e, o, p | BuiltInOrder(d, w, o) && BuiltInOrder(e, w, p) ensures SameDocument(d, e) {
        BuiltDescribes(d, w, o);
        BuiltDescribes(e, w, p);
        EndpointsAgree(d.endpoints, e.endpoints, es);
      }
    }
  }

  lemma SameNameCollides(endpoints: EndpointMap, dns: Dns, i: string, j: string, ip: string, jp: string)
    requires i in endpoints && ip in Addresses(endpoints[i], dns)
    requires j in endpoints && jp in Addresses(endpoints[j], dns)
    requires endpoints[i].endpoint.GetKey() + ip == endpoints[j].endpoint.GetKey() + jp && ip != jp
    ensures !NoCollision(Multivalue, endpoints, dns)
  {
    var e, f := AddressEntry(endpoints[i], ip), AddressEntry(endpoints[j], jp);
    assert e in EntriesOf(Multivalue, endpoints[i], dns) && f in EntriesOf(Multivalue, endpoints[j], dns);
    assert e in Entries(Multivalue, endpoints, dns) && f in Entries(Multivalue, endpoints, dns);
    assert e.key == f.key && e != f;
  }

  lemma OneAddress(st: EndpointStatus, name: string, ip: string, dns: Dns)
    requires st.platform == Some("AWS") && st.ingress == [Ingress("", name)]
    requires name in dns && dns[name] == [ip]
    ensures Addresses(st, dns) == [ip]
  {
    assert st.ingress[..0] == [];
    assert Lookup(st.ingress[..0], dns) == Some([]);
    assert [] + [ip] == [ip];
    assert [ip][1..] == [];
    assert SortStrings([ip]) == Insert(ip, []) == [ip];
  }

  lemma LongerSecret(e: Endpoint, f: Endpoint, x: string)
    requires f == e.(credentialsSecretRef := e.credentialsSecretRef.(name := e.credentialsSecretRef.name + "1"))
    ensures f.GetKey() != e.GetKey() && f.GetKey() + x == e.GetKey() + ("1" + x)
  {
  }

  /** Names made by appending an address to a key do collide, for endpoints that the provider accepts:
      whatever the endpoint, the secret "s" with address "1" + x and the secret "s1" with address x write
      the same name. */
  lemma CollisionExists(e: Endpoint, x: string) returns (endpoints: EndpointMap, dns: Dns)
    requires PlainEndpoint(e)
    ensures AllOnAWS(endpoints) && KeyedByEndpoint(endpoints)
    ensures forall k | k in endpoints :: PlainEndpoint(endpoints[k].endpoint)
    ensures !NoCollision(Multivalue, endpoints, dns)
  {
    var f := e.(credentialsSecretRef := e.credentialsSecretRef.(name := e.credentialsSecretRef.name + "1"));
    LongerSecret(e, f, x);
    var a := EndpointStatus(e, Some("AWS"), "", [Ingress("", "a")]);
    var b := EndpointStatus(f, Some("AWS"), "", [Ingress("", "b")]);
    dns := map["a" := ["1" + x], "b" := [x]];
    OneAddress(a, "a", "1" + x, dns);
    OneAddress(b, "b", x, dns);
    var k, l := e.GetKey(), f.GetKey();
    endpoints := map[k := a, l := b];
    assert |"1" + x| != |x|;
    SameNameCollides(endpoints, dns, k, l, "1" + x, x);
  }

  lemma MainReferences(d: Document, w: Wish)
    requires Describes(d, w)
    ensures forall r :: r in RuleReferences(MainRule(d)) <==> r in AllReferences(w)
  {
    forall r ensures r in RuleReferences(MainRule(d)) <==> r in AllReferences(w) {
      InRule(MainRule(d), r);
    }
  }

  /** An entry written by some endpoint is in the document with its own value. */
  lemma EntryResolves(d: Document, w: Wish, k: string, e: Entry)
    requires Describes(d, w) && NoCollision(w.policy, w.endpoints, w.dns)
    requires k in w.endpoints && e in EntriesOf(w.policy, w.endpoints[k], w.dns)
    ensures e.key in d.endpoints && d.endpoints[e.key] == e.endpoint
  {
  }

  /** `r` is the reference of an endpoint, and its name leads to the very entry of that endpoint: under the
      multivalue policy the address whose health check it carries, otherwise the load balancer, in its region. */
  ghost predicate Resolves(d: Document, w: Wish, r: Reference) {
    && r.endpointReference in d.endpoints
    && var entry := d.endpoints[r.endpointReference];
       exists k :: k in w.endpoints &&
         if w.policy.Multivalue?
         then exists ip :: AddressStands(w.endpoints[k], w.dns, ip, r.endpointReference, entry) &&
                           (w.checked && ip in w.ids ==> r.healthCheck == w.ids[ip])
         else BalancerResolved(w.policy, w.endpoints[k], r, entry)
  }

  ghost predicate BalancerResolved(policy: LoadBalancingPolicy, st: EndpointStatus, r: Reference, e: PolicyEndpoint) {
    && r.endpointReference == NameOf(st.endpoint)
    && (policy.Geoproximity? ==> r.region == "aws:route53:" + st.region) && (policy.Latency? ==> r.region == st.region)
    && e.kind == "elastic-load-balancer" && e.region == ""
    && (st.ingress != [] ==> e.value == st.ingress[0].hostname)
  }

  lemma AddressResolves(d: Document, w: Wish, k: string, ip: string)
    requires Describes(d, w) && NoCollision(w.policy, w.endpoints, w.dns) && w.policy.Multivalue?
    requires k in w.endpoints && ip in Addresses(w.endpoints[k], w.dns)
    ensures Resolves(d, w, AddressReference(w, w.endpoints[k], ip))
  {
    EntryResolves(d, w, k, AddressEntry(w.endpoints[k], ip));
    AddressesAreThose(w.endpoints[k], w.dns, ip);
    var r := AddressReference(w, w.endpoints[k], ip);
    assert AddressStands(w.endpoints[k], w.dns, ip, r.endpointReference, d.endpoints[r.endpointReference]);
  }

  lemma BalancerResolves(d: Document, w: Wish, k: string)
    requires Describes(d, w) && NoCollision(w.policy, w.endpoints, w.dns) && !w.policy.Multivalue? && k in w.endpoints
    ensures Resolves(d, w, BalancerReference(w, w.endpoints[k]))
  {
    EntryResolves(d, w, k, BalancerEntry(w.endpoints[k]));
    var r := BalancerReference(w, w.endpoints[k]);
    assert BalancerResolved(w.policy, w.endpoints[k], r, d.endpoints[r.endpointReference]);
  }

  /** Every reference of a built document resolves to its own endpoint. */
  lemma ReferencesResolve(d: Document, w: Wish, r: Reference)
    requires Describes(d, w) && NoCollision(w.policy, w.endpoints, w.dns)
    requires r in RuleReferences(MainRule(d))
    ensures Resolves(d, w, r)
  {
    assert r in AllReferences(w) by {
      MainReferences(d, w);
    }
    var k :| k in w.endpoints && r in ReferencesOf(w, w.endpoints[k]);
    if w.policy.Multivalue? {
      var ip :| ip in Addresses(w.endpoints[k], w.dns) && r == AddressReference(w, w.endpoints[k], ip);
      AddressResolves(d, w, k, ip);
    } else {
      BalancerResolves(d, w, k);
    }
  }

  /** A built document names only health checks of probed addresses. */
  lemma HealthChecksOfBuilt(d: Document, w: Wish, h: string)
    requires Describes(d, w) && h in HealthChecks(d) && AllCovered(w)
    ensures w.checked && exists ip :: ip in w.ids && h == w.ids[ip]
  {
    MainRuleOnly(d);
    MainReferences(d, w);
    var r :| r in RuleReferences(MainRule(d)) && r.healthCheck == h && h != "";
    var k :| k in w.endpoints && r in ReferencesOf(w, w.endpoints[k]);
    var st := w.endpoints[k];
    assert Covered(w, st);
    if w.policy.Multivalue? {
      var ip :| ip in Addresses(st, w.dns) && r == AddressReference(w, st, ip);
      assert ip in ProbedIPs(w.policy, st, w.dns);
    } else if w.checked {
      assert ProbedIPs(w.policy, st, w.dns)[0] in ProbedIPs(w.policy, st, w.dns);
    }
  }

  /** The first traversal can handle the endpoint: its addresses can be had, or its load balancer has an
      ingress. */
  predicate Writable(policy: LoadBalancingPolicy, st: EndpointStatus, dns: Dns) {
    if policy.Multivalue? then Resolvable(st, dns) else st.ingress != []
  }

  predicate AllWritable(policy: LoadBalancingPolicy, endpoints: EndpointMap, dns: Dns) {
    forall k | k in endpoints :: Writable(policy, endpoints[k], dns)
  }

  predicate WritableSoFar(policy: LoadBalancingPolicy, endpoints: EndpointMap, dns: Dns, order: seq<string>) {
    forall k | k in order :: k in endpoints && Writable(policy, endpoints[k], dns)
  }

  // ----- what the entries amount to

  lemma EntriesOfAddresses(m: map<string, PolicyEndpoint>, endpoints: EndpointMap, dns: Dns)
    requires DescribesEndpoints(m, Entries(Multivalue, endpoints, dns))
    ensures AddressesEntered(m, endpoints, dns)
  {
    forall k, ip | k in endpoints && HasAddress(endpoints[k], dns, ip) ensures AddressNamed(m, endpoints[k], ip) {
      AddressesAreThose(endpoints[k], dns, ip);
      assert AddressEntry(endpoints[k], ip) in EntriesOf(Multivalue, endpoints[k], dns);
      assert AddressEntry(endpoints[k], ip) in Entries(Multivalue, endpoints, dns);
    }
    forall n | n in m ensures exists k, ip :: k in endpoints && AddressStands(endpoints[k], dns, ip, n, m[n]) {
      var k :| k in endpoints && Entry(n, m[n]) in EntriesOf(Multivalue, endpoints[k], dns);
      var ip :| ip in Addresses(endpoints[k], dns) && Entry(n, m[n]) == AddressEntry(endpoints[k], ip);
      AddressesAreThose(endpoints[k], dns, ip);
      assert AddressStands(endpoints[k], dns, ip, n, m[n]);
    }
  }

  lemma BalancerOfName(policy: LoadBalancingPolicy, e: Entry, endpoints: EndpointMap, dns: Dns)
    requires !policy.Multivalue? && AllWritable(policy, endpoints, dns) && e in Entries(policy, endpoints, dns)
    ensures exists k :: k in endpoints && BalancerStands(endpoints[k], e.key, e.endpoint)
  {
    var k :| k in endpoints && e in EntriesOf(policy, endpoints[k], dns);
    assert Writable(policy, endpoints[k], dns);
    assert BalancerStands(endpoints[k], e.key, e.endpoint);
  }

  lemma BalancerHasEntry(policy: LoadBalancingPolicy, k: string, endpoints: EndpointMap, dns: Dns)
    requires !policy.Multivalue? && k in endpoints
    ensures BalancerEntry(endpoints[k]) in Entries(policy, endpoints, dns)
  {
    assert BalancerEntry(endpoints[k]) in EntriesOf(policy, endpoints[k], dns);
  }

  lemma EntriesOfBalancers(policy: LoadBalancingPolicy, m: map<string, PolicyEndpoint>, endpoints: EndpointMap,
                           es: set<Entry>)
    requires DescribesEndpoints(m, es)
    requires forall e | e in es :: exists k :: k in endpoints && BalancerStands(endpoints[k], e.key, e.endpoint)
    requires forall k | k in endpoints :: BalancerEntry(endpoints[k]) in es
    ensures BalancersEntered(m, endpoints)
  {
    forall n | n in m ensures exists k :: k in endpoints && BalancerStands(endpoints[k], n, m[n]) {
      assert Entry(n, m[n]) in es;
    }
    forall k | k in endpoints ensures BalancerNamed(m, endpoints[k]) {
      assert BalancerEntry(endpoints[k]) in es;
    }
  }

  lemma EntriesAreThose(m: map<string, PolicyEndpoint>, policy: LoadBalancingPolicy, endpoints: EndpointMap, dns: Dns)
    requires DescribesEndpoints(m, Entries(policy, endpoints, dns)) && AllWritable(policy, endpoints, dns)
    ensures EntriesPromised(m, policy, endpoints, dns)
  {
    if policy.Multivalue? {
      EntriesOfAddresses(m, endpoints, dns);
    } else {
      var es := Entries(policy, endpoints, dns);
      forall e | e in es ensures exists k :: k in endpoints && BalancerStands(endpoints[k], e.key, e.endpoint) {
        BalancerOfName(policy, e, endpoints, dns);
      }
      forall k | k in endpoints ensures BalancerEntry(endpoints[k]) in es {
        BalancerHasEntry(policy, k, endpoints, dns);
      }
      EntriesOfBalancers(policy, m, endpoints, es);
    }
  }

  lemma AllVisited(policy: LoadBalancingPolicy, endpoints: EndpointMap, dns: Dns, order: seq<string>)
    requires Enumerates(order, endpoints.Keys) && WritableSoFar(policy, endpoints, dns, order)
    ensures AllWritable(policy, endpoints, dns)
    ensures EntriesPromised(WriteAll(policy, endpoints, dns, order), policy, endpoints, dns)
  {
    TraversalDescribes(policy, endpoints, dns, order);
    EntriesAreThose(WriteAll(policy, endpoints, dns, order), policy, endpoints, dns);
  }

  /** The first traversal: the endpoints of the document, written in the order of the visits. */
  method BuildEndpoints(policy: LoadBalancingPolicy, endpoints: EndpointMap, dns: Dns, reliable: bool)
    returns (r: Outcome<map<string, PolicyEndpoint>>, order: seq<string>)
    ensures Enumerates(order, endpoints.Keys)
    ensures !Supported(policy) ==> r == Err(Rejected)
    ensures r.Ok? ==> r.value == WriteAll(policy, endpoints, dns, order)
    ensures r.Ok? ==> Supported(policy) && AllWritable(policy, endpoints, dns)
    ensures r.Ok? ==> EntriesPromised(r.value, policy, endpoints, dns)
    ensures reliable && Supported(policy) && AllWritable(policy, endpoints, dns) ==> r.Ok?
  {
    order := AnyOrder(endpoints.Keys);
    if !Supported(policy) {
      return Err(Rejected), order;
    }
    var m: map<string, PolicyEndpoint> := map[];
    for i := 0 to |order|
      invariant m == WriteAll(policy, endpoints, dns, order[..i])
      invariant WritableSoFar(policy, endpoints, dns, order[..i])
    {
      assert order[..i + 1][..i] == order[..i];
      assert order[i] in order;
      var written := WriteEndpoints(m, policy, endpoints[order[i]], dns, reliable);
      if written.Err? {
        return Err(written.fault), order;
      }
      m := written.value;
    }
    assert order[..|order|] == order;
    AllVisited(policy, endpoints, dns, order);
    r := Ok(m);
  }

  lemma {:induction false} WriteAdds(m: map<string, PolicyEndpoint>, es: seq<Entry>, x: string)
    ensures x in Write(m, es) ==>
      (x in m && Write(m, es)[x] == m[x]) || exists i :: 0 <= i < |es| && es[i] == Entry(x, Write(m, es)[x])
    ensures x in m || (exists i :: 0 <= i < |es| && es[i].key == x) ==> x in Write(m, es)
  {
    if es != [] {
      var last := |es| - 1;
      WriteAdds(m, es[..last], x);
      assert forall i :: 0 <= i < last ==> es[..last][i] == es[i];
      assert es[last] == Entry(es[last].key, es[last].endpoint);
    }
  }

  lemma WritingAdds(m: map<string, PolicyEndpoint>, st: EndpointStatus, dns: Dns)
    ensures AddressesAdded(m, Write(m, AddressEntries(st, Addresses(st, dns))), st, dns)
  {
    var ips := Addresses(st, dns);
    var es := AddressEntries(st, ips);
    var n := Write(m, es);
    forall ip | HasAddress(st, dns, ip) ensures AddressNamed(n, st, ip) {
      AddressesAreThose(st, dns, ip);
      var i :| 0 <= i < |ips| && ips[i] == ip;
      assert es[i].key == NameOf(st.endpoint) + ip;
      WriteAdds(m, es, NameOf(st.endpoint) + ip);
    }
    forall x | x in n ensures (x in m && n[x] == m[x]) || exists ip :: AddressStands(st, dns, ip, x, n[x]) {
      WriteAdds(m, es, x);
      if i :| 0 <= i < |es| && es[i] == Entry(x, n[x]) {
        AddressesAreThose(st, dns, ips[i]);
        assert AddressStands(st, dns, ips[i], x, n[x]);
      }
    }
  }

  /** Adds what one endpoint contributes; later writes win. */
  method WriteEndpoints(m: map<string, PolicyEndpoint>, policy: LoadBalancingPolicy, st: EndpointStatus, dns: Dns,
                        reliable: bool) returns (r: Outcome<map<string, PolicyEndpoint>>)
    ensures r.Ok? ==> r.value == Write(m, EntryList(policy, st, dns)) && Writable(policy, st, dns)
    ensures reliable && Writable(policy, st, dns) ==> r.Ok?
    ensures !policy.Multivalue? ==> (r.Ok? <==> st.ingress != [])
    ensures r.Ok? && !policy.Multivalue? ==>
      r.value == m[NameOf(st.endpoint) := PolicyEndpoint("elastic-load-balancer", "", st.ingress[0].hostname)]
    ensures r.Ok? && policy.Multivalue? ==> AddressesAdded(m, r.value, st, dns)
  {
    if !policy.Multivalue? {
      if st.ingress == [] {
        return Err(Panicked);      // Ingress[0]
      }
      var e := BalancerEntry(st);
      assert [e][..0] == [];
      return Ok(m[e.key := e.endpoint]);
    }
    var ips := GetIPs(st, dns, reliable);
    if ips.Err? {
      return Err(ips.fault);
    }
    var n := m;
    ghost var es := AddressEntries(st, ips.value);
    for i := 0 to |ips.value|
      invariant n == Write(m, es[..i])
    {
      var e := AddressEntry(st, ips.value[i]);
      n := n[e.key := e.endpoint];
      assert es[..i + 1][..i] == es[..i];
    }
    assert es[..|es|] == es;
    WritingAdds(m, st, dns);
    return Ok(n);
  }
}
