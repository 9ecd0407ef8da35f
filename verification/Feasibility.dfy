/** When a document can be built at all: what makes getAWSTrafficPolicyDocument and the health checks that it
    ensures fail even if no call fails (controllers/globaldnsrecord/route53provider.go:84-201, 522-692). */
module Feasibility {
  import opened Prelude
  import opened Api
  import opened Endpoints
  import opened DesiredDocument
  import opened Route53Store

  /** The health check of an address can be ensured: the probe is an HTTP probe, and there is a check already
      or the caller reference of a new one is long enough. */
  ghost predicate CanCheck(own: Owner, s: Store, probe: Probe, ip: string) {
    && probe.httpGet.Some?
    && (CallerReferenceFits(probe.httpGet.value.host, ip) || exists h :: CheckFor(own, s, h, ip))
  }

  /** The references of an endpoint can be built. */
  ghost predicate Referable(own: Owner, s: Store, spec: RecordSpec, st: EndpointStatus, dns: Dns) {
    var policy := spec.loadBalancingPolicy;
    && (policy.Multivalue? || spec.healthCheck.Some? ==> Resolvable(st, dns))
    && (spec.healthCheck.Some? && !policy.Multivalue? ==> Addresses(st, dns) != [])
    && (spec.healthCheck.Some? ==>
          forall ip | ip in ProbedIPs(policy, st, dns) :: CanCheck(own, s, spec.healthCheck.value, ip))
  }

  ghost predicate AllReferable(own: Owner, s: Store, spec: RecordSpec, endpoints: EndpointMap, dns: Dns) {
    forall k | k in endpoints :: Referable(own, s, spec, endpoints[k], dns)
  }

  /** The document of the record can be built in state `s`. */
  ghost predicate Feasible(own: Owner, s: Store, spec: RecordSpec, endpoints: EndpointMap, dns: Dns) {
    && Supported(spec.loadBalancingPolicy)
    && AllWritable(spec.loadBalancingPolicy, endpoints, dns)
    && AllReferable(own, s, spec, endpoints, dns)
  }

  /** The same in terms of the record, its clusters and the store alone: the policy is one of three, and each endpoint
      has what it takes. */
  ghost predicate Buildable(own: Owner, s: Store, spec: RecordSpec, endpoints: EndpointMap, dns: Dns) {
    && spec.loadBalancingPolicy in {Multivalue, Geoproximity, Latency}
    && forall k | k in endpoints :: Servable(own, s, spec, endpoints[k], dns)
  }

  /** Under multivalue, and with a probe, the addresses of the endpoint can be had; otherwise it has an ingress. With a
      probe each address that is probed, under multivalue all and otherwise the smallest, which must exist, has a
      health check or can be given one. */
  ghost predicate Servable(own: Owner, s: Store, spec: RecordSpec, st: EndpointStatus, dns: Dns) {
    var policy := spec.loadBalancingPolicy;
    && (policy.Multivalue? || spec.healthCheck.Some? ==> st.platform.Some? && HostsKnown(st, dns))
    && (!policy.Multivalue? ==> st.ingress != [])
    && (!policy.Multivalue? && spec.healthCheck.Some? ==> exists ip :: HasAddress(st, dns, ip))
    && (spec.healthCheck.Some? ==>
          forall ip | FirstAddress(st, dns, ip) || (policy.Multivalue? && HasAddress(st, dns, ip)) ::
            Probeable(own, s, spec.healthCheck.value, ip))
  }

  /** An HTTP probe, and a check of host and address that is there, or text enough for the reference of a new one. */
  ghost predicate Probeable(own: Owner, s: Store, probe: Probe, ip: string) {
    && probe.httpGet.Some?
    && (36 + 1 + |ip| + 1 + |probe.httpGet.value.host| >= 64
        || exists h :: h in s.healthChecks && own.host.Some? && s.healthChecks[h].host == own.host &&
                       s.healthChecks[h].ip == ip)
  }

  lemma ProbeableIff(own: Owner, s: Store, probe: Probe, ip: string)
    ensures CanCheck(own, s, probe, ip) <==> Probeable(own, s, probe, ip)
  {
    if h :| CheckFor(own, s, h, ip) {
      assert h in s.healthChecks;
    }
    if h :| h in s.healthChecks && own.host.Some? && s.healthChecks[h].host == own.host && s.healthChecks[h].ip == ip {
      assert CheckFor(own, s, h, ip);
    }
  }

  lemma ResolvableIff(st: EndpointStatus, dns: Dns)
    ensures Resolvable(st, dns) <==> st.platform.Some? && HostsKnown(st, dns)
  {
    LookupFinds(st.ingress, dns, "");
  }

  /** The addresses that are probed. */
  lemma ProbedIff(policy: LoadBalancingPolicy, st: EndpointStatus, dns: Dns, ip: string)
    ensures ip in ProbedIPs(policy, st, dns) <==>
            FirstAddress(st, dns, ip) || (policy.Multivalue? && HasAddress(st, dns, ip))
  {
    AddressesAreThose(st, dns, ip);
    if Addresses(st, dns) != [] {
      var first := Addresses(st, dns)[0];
      FirstOfAddresses(st, dns);
      if FirstAddress(st, dns, ip) {
        LeqIsAscending(ip, first);
        LeqIsAscending(first, ip);
        LeqAntisymmetric(ip, first);
      }
    }
  }

  lemma ServableIff(own: Owner, s: Store, spec: RecordSpec, st: EndpointStatus, dns: Dns)
    ensures Servable(own, s, spec, st, dns) <==>
            Writable(spec.loadBalancingPolicy, st, dns) && Referable(own, s, spec, st, dns)
  {
    var policy := spec.loadBalancingPolicy;
    ResolvableIff(st, dns);
    forall ip
      ensures ip in Addresses(st, dns) <==> HasAddress(st, dns, ip)
      ensures ip in ProbedIPs(policy, st, dns) <==>
        FirstAddress(st, dns, ip) || (policy.Multivalue? && HasAddress(st, dns, ip))
      ensures spec.healthCheck.Some? ==>
        (CanCheck(own, s, spec.healthCheck.value, ip) <==> Probeable(own, s, spec.healthCheck.value, ip))
    {
      AddressesAreThose(st, dns, ip);
      ProbedIff(policy, st, dns, ip);
      if spec.healthCheck.Some? {
        ProbeableIff(own, s, spec.healthCheck.value, ip);
      }
    }
    if Addresses(st, dns) != [] {
      assert HasAddress(st, dns, Addresses(st, dns)[0]);
    }
  }

  lemma FeasibleIff(own: Owner, s: Store, spec: RecordSpec, endpoints: EndpointMap, dns: Dns)
    ensures Feasible(own, s, spec, endpoints, dns) <==> Buildable(own, s, spec, endpoints, dns)
  {
    forall k | k in endpoints
      ensures Servable(own, s, spec, endpoints[k], dns) <==>
              Writable(spec.loadBalancingPolicy, endpoints[k], dns) && Referable(own, s, spec, endpoints[k], dns)
    {
      ServableIff(own, s, spec, endpoints[k], dns);
    }
  }

  /** The caller references of all health checks that the record can need are long enough. */
  ghost predicate AllFit(spec: RecordSpec, endpoints: EndpointMap, dns: Dns) {
    spec.healthCheck.Some? && spec.healthCheck.value.httpGet.Some? ==>
      forall k, ip | k in endpoints && ip in ProbedIPs(spec.loadBalancingPolicy, endpoints[k], dns) ::
        CallerReferenceFits(spec.healthCheck.value.httpGet.value.host, ip)
  }

  /** Ensuring health checks makes no other one possible or impossible. */
  lemma CanCheckStays(own: Owner, s: Store, t: Store, probe: Probe, ip: string)
    requires ChecksGrow(own, s, t) && (probe.httpGet.Some? ==> own.host == Some(probe.httpGet.value.host))
    ensures CanCheck(own, s, probe, ip) <==> CanCheck(own, t, probe, ip)
  {
    if h :| CheckFor(own, s, h, ip) {
      assert CheckFor(own, t, h, ip);
    }
    if h :| CheckFor(own, t, h, ip) {
      assert h in s.healthChecks ==> CheckFor(own, s, h, ip);
    }
  }

  /** With long enough caller references it does not matter which health checks there are. */
  lemma FeasibleAnywhere(own: Owner, s: Store, t: Store, spec: RecordSpec, endpoints: EndpointMap, dns: Dns)
    requires Feasible(own, s, spec, endpoints, dns) && AllFit(spec, endpoints, dns)
    ensures Feasible(own, t, spec, endpoints, dns)
  {
    forall k | k in endpoints ensures Referable(own, t, spec, endpoints[k], dns) {
      assert Referable(own, s, spec, endpoints[k], dns);
    }
  }

  /** A policy gives way with the health checks that its document names; which of them can be ensured again
      does not depend on those that were ensured before. */
  lemma CanCheckWithout(own: Owner, s: Store, t: Store, p: Id, probe: Probe, ip: string)
    requires ChecksGrow(own, s, t) && p in s.policies
    requires probe.httpGet.Some? ==> own.host == Some(probe.httpGet.value.host)
    ensures CanCheck(own, WithoutPolicy(s, p), probe, ip) <==> CanCheck(own, WithoutPolicy(t, p), probe, ip)
  {
    if h :| CheckFor(own, WithoutPolicy(s, p), h, ip) {
      assert CheckFor(own, WithoutPolicy(t, p), h, ip);
    }
    if h :| CheckFor(own, WithoutPolicy(t, p), h, ip) {
      assert h in s.healthChecks ==> CheckFor(own, WithoutPolicy(s, p), h, ip);
    }
  }

  lemma FeasibleWithout(own: Owner, s: Store, t: Store, p: Id, spec: RecordSpec, endpoints: EndpointMap, dns: Dns)
    requires ChecksGrow(own, s, t) && p in s.policies && own.host == HealthCheckHost(spec)
    ensures Feasible(own, WithoutPolicy(s, p), spec, endpoints, dns) <==>
            Feasible(own, WithoutPolicy(t, p), spec, endpoints, dns)
  {
    if spec.healthCheck.Some? {
      forall ip: string ensures CanCheck(own, WithoutPolicy(s, p), spec.healthCheck.value, ip) <==>
                                CanCheck(own, WithoutPolicy(t, p), spec.healthCheck.value, ip) {
        CanCheckWithout(own, s, t, p, spec.healthCheck.value, ip);
      }
    }
    forall k | k in endpoints
      ensures Referable(own, WithoutPolicy(s, p), spec, endpoints[k], dns) <==>
              Referable(own, WithoutPolicy(t, p), spec, endpoints[k], dns)
    {
    }
  }
}
