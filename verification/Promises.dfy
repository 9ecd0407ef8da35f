/** What the stored document of a record says, in terms of the record, its clusters and the resolver alone. Nothing
    that runs uses these definitions: they are what the operations are held to
    (controllers/globaldnsrecord/route53provider.go:522-692). */
module Promises {
  import opened Prelude
  import opened Api
  import opened Documents
  import opened Endpoints
  import opened Route53Store
  import opened ProbeConfig

  /** The seal on what is promised. */
  ghost predicate PromiseKey(k: int) {
    true
  }

  /** Service and secret of the endpoint, each with its namespace. */
  ghost function NameOf(e: Endpoint): (name: string) {
    e.loadBalancerServiceRef.namespace + "/" + e.loadBalancerServiceRef.name + "@" +
    e.credentialsSecretRef.namespace + "/" + e.credentialsSecretRef.name
  }

  ghost predicate AddressStands(st: EndpointStatus, dns: Dns, ip: string, n: string, e: PolicyEndpoint) {
    HasAddress(st, dns, ip) && n == NameOf(st.endpoint) + ip && e == PolicyEndpoint("value", "", ip)
  }

  ghost predicate BalancerStands(st: EndpointStatus, n: string, e: PolicyEndpoint) {
    && st.ingress != [] && n == NameOf(st.endpoint)
    && e == PolicyEndpoint("elastic-load-balancer", "", st.ingress[0].hostname)
  }

  ghost predicate AddressNamed(m: map<string, PolicyEndpoint>, st: EndpointStatus, ip: string) {
    NameOf(st.endpoint) + ip in m
  }

  ghost predicate BalancerNamed(m: map<string, PolicyEndpoint>, st: EndpointStatus) {
    NameOf(st.endpoint) in m
  }

  /** Under multivalue: one entry for each address of each endpoint. */
  ghost predicate AddressesEntered(m: map<string, PolicyEndpoint>, endpoints: EndpointMap, dns: Dns) {
    && (forall k, ip {:trigger AddressNamed(m, endpoints[k], ip)} |
          k in endpoints && HasAddress(endpoints[k], dns, ip) :: AddressNamed(m, endpoints[k], ip))
    && (forall n | n in m :: exists k, ip :: k in endpoints && AddressStands(endpoints[k], dns, ip, n, m[n]))
  }

  /** `n` is `m` with one entry for each address of the endpoint. */
  ghost predicate AddressesAdded(m: map<string, PolicyEndpoint>, n: map<string, PolicyEndpoint>, st: EndpointStatus,
                                 dns: Dns)
  {
    forall k {:trigger PromiseKey(k)} :: PromiseKey(k) ==>
      && (forall ip {:trigger AddressNamed(n, st, ip)} | HasAddress(st, dns, ip) :: AddressNamed(n, st, ip))
      && (forall x | x in n :: (x in m && n[x] == m[x]) || exists ip :: AddressStands(st, dns, ip, x, n[x]))
  }

  /** Otherwise: one entry for the load balancer of each endpoint, with the host name of its first ingress. */
  ghost predicate BalancersEntered(m: map<string, PolicyEndpoint>, endpoints: EndpointMap) {
    && (forall k {:trigger BalancerNamed(m, endpoints[k])} | k in endpoints :: BalancerNamed(m, endpoints[k]))
    && (forall n | n in m :: exists k :: k in endpoints && BalancerStands(endpoints[k], n, m[n]))
  }

  /** The reference has nothing but a name, a region and a health check. */
  ghost predicate Plain(r: Reference) {
    && r.ruleReference == "" && !r.isDefault && r.continent == "" && r.country == "" && r.subdivision == ""
    && r.latitude == 0 && r.longitude == 0 && r.bias == 0 && r.weight == 0
  }

  /** With a probe, the reference is guarded by a health check of the address that is as the probe asks for. */
  ghost predicate Guarded(checks: map<Id, HealthCheck>, probe: Option<Probe>, r: Reference, ip: string) {
    && (r.evaluateTargetHealth <==> probe.Some?)
    && if probe.None? then r.healthCheck == ""
       else r.healthCheck in checks && checks[r.healthCheck].ip == ip && Carries(probe.value, checks[r.healthCheck])
  }

  ghost predicate RefersToAddress(checks: map<Id, HealthCheck>, probe: Option<Probe>, st: EndpointStatus, ip: string,
                                  r: Reference)
  {
    r.endpointReference == NameOf(st.endpoint) + ip && r.region == "" && Plain(r) && Guarded(checks, probe, r, ip)
  }

  ghost predicate RefersToBalancer(checks: map<Id, HealthCheck>, probe: Option<Probe>, st: EndpointStatus, dns: Dns,
                                   region: string, r: Reference)
  {
    && r.endpointReference == NameOf(st.endpoint) && r.region == region && Plain(r)
    && if probe.None? then Guarded(checks, probe, r, "")
       else exists ip :: FirstAddress(st, dns, ip) && Guarded(checks, probe, r, ip)
  }

  /** Under multivalue: one reference for each address of each endpoint. */
  ghost predicate AddressesReferred(rs: seq<Reference>, checks: map<Id, HealthCheck>, probe: Option<Probe>,
                                    endpoints: EndpointMap, dns: Dns)
  {
    && (forall r | r in rs :: RefersToSomeAddress(checks, probe, endpoints, dns, r))
    && (forall k, ip {:trigger AddressReferred(rs, checks, probe, endpoints[k], ip)} |
          k in endpoints && HasAddress(endpoints[k], dns, ip) :: AddressReferred(rs, checks, probe, endpoints[k], ip))
  }

  ghost predicate AddressReferred(rs: seq<Reference>, checks: map<Id, HealthCheck>, probe: Option<Probe>,
                                  st: EndpointStatus, ip: string)
  {
    exists r :: r in rs && RefersToAddress(checks, probe, st, ip, r)
  }

  ghost predicate RefersToSomeAddress(checks: map<Id, HealthCheck>, probe: Option<Probe>, endpoints: EndpointMap,
                                      dns: Dns, r: Reference)
  {
    exists k, ip ::
      k in endpoints && HasAddress(endpoints[k], dns, ip) && RefersToAddress(checks, probe, endpoints[k], ip, r)
  }

  /** Otherwise: one for each endpoint. `prefix` comes before the region of its cluster. */
  ghost predicate BalancersReferred(rs: seq<Reference>, checks: map<Id, HealthCheck>, probe: Option<Probe>,
                                     endpoints: EndpointMap, dns: Dns, prefix: string)
  {
    && (forall r | r in rs :: RefersToSomeBalancer(checks, probe, endpoints, dns, prefix, r))
    && (forall k {:trigger BalancerReferred(rs, checks, probe, endpoints[k], dns, prefix)} | k in endpoints ::
          BalancerReferred(rs, checks, probe, endpoints[k], dns, prefix))
  }

  ghost predicate BalancerReferred(rs: seq<Reference>, checks: map<Id, HealthCheck>, probe: Option<Probe>,
                                   st: EndpointStatus, dns: Dns, prefix: string)
  {
    exists r :: r in rs && RefersToBalancer(checks, probe, st, dns, prefix + st.region, r)
  }

  ghost predicate RefersToSomeBalancer(checks: map<Id, HealthCheck>, probe: Option<Probe>, endpoints: EndpointMap,
                                       dns: Dns, prefix: string, r: Reference)
  {
    exists k :: k in endpoints && RefersToBalancer(checks, probe, endpoints[k], dns, prefix + endpoints[k].region, r)
  }

  /** The endpoints of the document. */
  ghost predicate EntriesPromised(m: map<string, PolicyEndpoint>, policy: LoadBalancingPolicy, endpoints: EndpointMap,
                                  dns: Dns)
  {
    forall k {:trigger PromiseKey(k)} :: PromiseKey(k) ==>
      if policy.Multivalue? then AddressesEntered(m, endpoints, dns) else BalancersEntered(m, endpoints)
  }

  /** The references of the rule: one list has them, the others are empty. */
  ghost predicate RulePromised(rule: Rule, checks: map<Id, HealthCheck>, spec: RecordSpec, endpoints: EndpointMap,
                               dns: Dns)
  {
    forall k {:trigger PromiseKey(k)} :: PromiseKey(k) ==>
      && rule.primary.None? && rule.secondary.None? && rule.locations == []
      && match spec.loadBalancingPolicy
         case Multivalue =>
           && rule.ruleType == "multivalue" && rule.geoproximityLocations == [] && rule.regions == []
           && AddressesReferred(rule.items, checks, spec.healthCheck, endpoints, dns)
         case Geoproximity =>
           && rule.ruleType == "geoproximity" && rule.items == [] && rule.regions == []
           && BalancersReferred(rule.geoproximityLocations, checks, spec.healthCheck, endpoints, dns, "aws:route53:")
         case Latency =>
           && rule.ruleType == "latency" && rule.items == [] && rule.geoproximityLocations == []
           && BalancersReferred(rule.regions, checks, spec.healthCheck, endpoints, dns, "")
         case _ => false
  }

  /** The document as a whole. */
  ghost predicate Promised(d: Document, checks: map<Id, HealthCheck>, spec: RecordSpec, endpoints: EndpointMap,
                           dns: Dns)
  {
    && d.formatVersion == "2015-10-01" && d.recordType == "A" && d.startEndpoint == "" && d.startRule == "main"
    && EntriesPromised(d.endpoints, spec.loadBalancingPolicy, endpoints, dns)
    && "main" in d.rules && RulePromised(d.rules["main"], checks, spec, endpoints, dns)
  }

  // ----- for endpoints filed under their own names

  /** Under geoproximity and latency each endpoint has its load balancer under its own key. */
  lemma BalancersStand(d: Document, checks: map<Id, HealthCheck>, spec: RecordSpec, endpoints: EndpointMap, dns: Dns,
                       k: string)
    requires Promised(d, checks, spec, endpoints, dns) && !spec.loadBalancingPolicy.Multivalue?
    requires k in endpoints && forall l | l in endpoints :: l == NameOf(endpoints[l].endpoint)
    ensures k in d.endpoints && endpoints[k].ingress != []
    ensures d.endpoints[k] == PolicyEndpoint("elastic-load-balancer", "", endpoints[k].ingress[0].hostname)
  {
    assert PromiseKey(0);
    assert BalancerNamed(d.endpoints, endpoints[k]);
    var l :| l in endpoints && BalancerStands(endpoints[l], k, d.endpoints[k]);
  }

  /** Under multivalue each address has its entry, where no name is made of two addresses. */
  lemma AddressesStand(d: Document, checks: map<Id, HealthCheck>, spec: RecordSpec, endpoints: EndpointMap, dns: Dns,
                       k: string, ip: string)
    requires Promised(d, checks, spec, endpoints, dns) && spec.loadBalancingPolicy.Multivalue?
    requires k in endpoints && HasAddress(endpoints[k], dns, ip)
    requires forall l, jp | l in endpoints && HasAddress(endpoints[l], dns, jp) && jp != ip ::
      NameOf(endpoints[l].endpoint) + jp != NameOf(endpoints[k].endpoint) + ip
    ensures var n := NameOf(endpoints[k].endpoint) + ip;
      n in d.endpoints && d.endpoints[n] == PolicyEndpoint("value", "", ip)
  {
    assert PromiseKey(0);
    var n := NameOf(endpoints[k].endpoint) + ip;
    assert AddressNamed(d.endpoints, endpoints[k], ip);
    var l, jp :| l in endpoints && AddressStands(endpoints[l], dns, jp, n, d.endpoints[n]);
  }
}
