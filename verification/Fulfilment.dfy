/** Documents that describe what a record wishes for say what is promised
    (controllers/globaldnsrecord/route53provider.go:455-486, 522-692). */
module Fulfilment {
  import opened Prelude
  import opened Api
  import opened Documents
  import opened Endpoints
  import opened Route53Store
  import opened ProbeConfig
  import opened Promises
  import opened DesiredDocument

  /** The health checks that the wish gives are those of their addresses, as the probe asks for. */
  ghost predicate Backed(w: Wish, checks: map<Id, HealthCheck>, probe: Option<Probe>) {
    && (w.checked <==> probe.Some?)
    && forall ip | ip in w.ids && probe.Some? ::
         w.ids[ip] in checks && checks[w.ids[ip]].ip == ip && Carries(probe.value, checks[w.ids[ip]])
  }

  lemma AddressIsReferred(w: Wish, checks: map<Id, HealthCheck>, probe: Option<Probe>, st: EndpointStatus, ip: string)
    requires Backed(w, checks, probe) && w.policy.Multivalue? && Covered(w, st) && ip in Addresses(st, w.dns)
    ensures RefersToAddress(checks, probe, st, ip, AddressReference(w, st, ip))
  {
  }

  lemma BalancerIsReferred(w: Wish, checks: map<Id, HealthCheck>, probe: Option<Probe>, st: EndpointStatus)
    requires Backed(w, checks, probe) && !w.policy.Multivalue? && Covered(w, st)
    ensures RefersToBalancer(checks, probe, st, w.dns, RegionOf(w.policy, st), BalancerReference(w, st))
  {
    if probe.Some? {
      var all := Addresses(st, w.dns);
      FirstOfAddresses(st, w.dns);
      assert all[0] in ProbedIPs(w.policy, st, w.dns);
      assert Guarded(checks, probe, BalancerReference(w, st), all[0]);
    }
  }

  lemma ReferencesToAddresses(w: Wish, checks: map<Id, HealthCheck>, probe: Option<Probe>, rs: seq<Reference>)
    requires Backed(w, checks, probe) && w.policy.Multivalue? && AllCovered(w) && ToSet(rs) == AllReferences(w)
    ensures AddressesReferred(rs, checks, probe, w.endpoints, w.dns)
  {
    forall r | r in rs ensures RefersToSomeAddress(checks, probe, w.endpoints, w.dns, r) {
      assert r in AllReferences(w);
      var k :| k in w.endpoints && r in ReferencesOf(w, w.endpoints[k]);
      var ip :| ip in Addresses(w.endpoints[k], w.dns) && r == AddressReference(w, w.endpoints[k], ip);
      AddressesAreThose(w.endpoints[k], w.dns, ip);
      AddressIsReferred(w, checks, probe, w.endpoints[k], ip);
    }
    forall k, ip | k in w.endpoints && HasAddress(w.endpoints[k], w.dns, ip)
      ensures AddressReferred(rs, checks, probe, w.endpoints[k], ip)
    {
      AddressesAreThose(w.endpoints[k], w.dns, ip);
      AddressIsReferred(w, checks, probe, w.endpoints[k], ip);
      var r := AddressReference(w, w.endpoints[k], ip);
      assert r in ReferencesOf(w, w.endpoints[k]) && r in ToSet(rs);
    }
  }

  lemma ReferencesToBalancers(w: Wish, checks: map<Id, HealthCheck>, probe: Option<Probe>, rs: seq<Reference>,
                              prefix: string)
    requires Backed(w, checks, probe) && !w.policy.Multivalue? && AllCovered(w) && ToSet(rs) == AllReferences(w)
    requires forall k | k in w.endpoints :: RegionOf(w.policy, w.endpoints[k]) == prefix + w.endpoints[k].region
    ensures BalancersReferred(rs, checks, probe, w.endpoints, w.dns, prefix)
  {
    forall r | r in rs ensures RefersToSomeBalancer(checks, probe, w.endpoints, w.dns, prefix, r) {
      assert r in AllReferences(w);
      var k :| k in w.endpoints && r in ReferencesOf(w, w.endpoints[k]);
      BalancerIsReferred(w, checks, probe, w.endpoints[k]);
    }
    forall k | k in w.endpoints
      ensures BalancerReferred(rs, checks, probe, w.endpoints[k], w.dns, prefix)
    {
      BalancerIsReferred(w, checks, probe, w.endpoints[k]);
      var r := BalancerReference(w, w.endpoints[k]);
      assert r in ReferencesOf(w, w.endpoints[k]) && r in ToSet(rs);
    }
  }

  lemma RuleIsThat(rule: Rule, w: Wish, checks: map<Id, HealthCheck>, spec: RecordSpec)
    requires Supported(w.policy) && DescribesRule(rule, w.policy, AllReferences(w)) && AllCovered(w)
    requires w.policy == spec.loadBalancingPolicy && Backed(w, checks, spec.healthCheck)
    ensures RulePromised(rule, checks, spec, w.endpoints, w.dns)
  {
    NothingListed(rule.items);
    NothingListed(rule.geoproximityLocations);
    NothingListed(rule.regions);
    if w.policy.Multivalue? {
      ReferencesToAddresses(w, checks, spec.healthCheck, rule.items);
    } else if w.policy.Geoproximity? {
      ReferencesToBalancers(w, checks, spec.healthCheck, rule.geoproximityLocations, "aws:route53:");
    } else {
      ReferencesToBalancers(w, checks, spec.healthCheck, rule.regions, "");
    }
  }

  /** A document that describes what the record wishes for says what is promised. */
  lemma DescribedIsPromised(d: Document, w: Wish, checks: map<Id, HealthCheck>, spec: RecordSpec)
    requires Describes(d, w) && AllCovered(w) && AllWritable(w.policy, w.endpoints, w.dns)
    requires w.policy == spec.loadBalancingPolicy && Backed(w, checks, spec.healthCheck)
    ensures Promised(d, checks, spec, w.endpoints, w.dns)
  {
    EntriesAreThose(d.endpoints, w.policy, w.endpoints, w.dns);
    RuleIsThat(d.rules["main"], w, checks, spec);
  }

  lemma NothingListed(rs: seq<Reference>)
    ensures ToSet(rs) == {} <==> rs == []
  {
    if rs != [] {
      assert rs[0] in ToSet(rs);
    }
  }

  lemma SameListsAlike(rs: seq<Reference>, q: seq<Reference>)
    requires ToSet(rs) == ToSet(q)
    ensures rs == [] <==> q == []
    ensures forall r :: r in rs <==> r in q
  {
    NothingListed(rs);
    NothingListed(q);
    forall r ensures r in rs <==> r in q {
      assert r in rs <==> r in ToSet(rs);
      assert r in q <==> r in ToSet(q);
    }
  }

  lemma SameAddresses(rs: seq<Reference>, q: seq<Reference>, checks: map<Id, HealthCheck>, probe: Option<Probe>,
                      endpoints: EndpointMap, dns: Dns)
    requires ToSet(rs) == ToSet(q) && AddressesReferred(rs, checks, probe, endpoints, dns)
    ensures AddressesReferred(q, checks, probe, endpoints, dns)
  {
    SameListsAlike(rs, q);
    forall k, ip | k in endpoints && HasAddress(endpoints[k], dns, ip)
      ensures AddressReferred(q, checks, probe, endpoints[k], ip)
    {
      assert AddressReferred(rs, checks, probe, endpoints[k], ip);
      var r :| r in rs && RefersToAddress(checks, probe, endpoints[k], ip, r);
      assert r in q;
    }
  }

  lemma SameBalancers(rs: seq<Reference>, q: seq<Reference>, checks: map<Id, HealthCheck>, probe: Option<Probe>,
                      endpoints: EndpointMap, dns: Dns, prefix: string)
    requires ToSet(rs) == ToSet(q) && BalancersReferred(rs, checks, probe, endpoints, dns, prefix)
    ensures BalancersReferred(q, checks, probe, endpoints, dns, prefix)
  {
    SameListsAlike(rs, q);
    forall k | k in endpoints ensures BalancerReferred(q, checks, probe, endpoints[k], dns, prefix) {
      assert BalancerReferred(rs, checks, probe, endpoints[k], dns, prefix);
      var r :| r in rs && RefersToBalancer(checks, probe, endpoints[k], dns, prefix + endpoints[k].region, r);
      assert r in q;
    }
  }

  lemma SameRuleIsPromised(rule: Rule, other: Rule, checks: map<Id, HealthCheck>, spec: RecordSpec,
                           endpoints: EndpointMap, dns: Dns)
    requires RulePromised(rule, checks, spec, endpoints, dns) && SameRule(rule, other)
    ensures RulePromised(other, checks, spec, endpoints, dns)
  {
    assert PromiseKey(0);
    SameListsAlike(rule.items, other.items);
    SameListsAlike(rule.geoproximityLocations, other.geoproximityLocations);
    SameListsAlike(rule.regions, other.regions);
    SameListsAlike(rule.locations, other.locations);
    match spec.loadBalancingPolicy
    case Multivalue => SameAddresses(rule.items, other.items, checks, spec.healthCheck, endpoints, dns);
    case Geoproximity => SameBalancers(rule.geoproximityLocations, other.geoproximityLocations, checks,
                                       spec.healthCheck, endpoints, dns, "aws:route53:");
    case Latency => SameBalancers(rule.regions, other.regions, checks, spec.healthCheck, endpoints, dns, "");
    case _ =>
  }

  /** So does a stored document that compares equal. */
  lemma PromisedAlike(d: Document, e: Document, checks: map<Id, HealthCheck>, spec: RecordSpec, endpoints: EndpointMap,
                      dns: Dns)
    requires Promised(d, checks, spec, endpoints, dns) && SameDocument(d, e) && "main" in e.rules
    ensures Promised(e, checks, spec, endpoints, dns)
  {
    SameRuleIsPromised(d.rules["main"], e.rules["main"], checks, spec, endpoints, dns);
  }
}
