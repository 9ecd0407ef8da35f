/** The GlobalDNSRecord resource: api/v1alpha1/globaldnsrecord_types.go and the parts of a core/v1
    probe that the controllers read. */
module Api {
  import opened Prelude

  datatype NamespacedName = NamespacedName(name: string, namespace: string)

  datatype Endpoint = Endpoint(
    clusterName: string,
    credentialsSecretRef: NamespacedName,
    loadBalancerServiceRef: NamespacedName
  ) {
    function GetKey(): (key: string)
    {
      loadBalancerServiceRef.namespace + "/" + loadBalancerServiceRef.name + "@" +
      credentialsSecretRef.namespace + "/" + credentialsSecretRef.name
    }
  }

  datatype Header = Header(name: string, value: string)

  datatype HttpGet = HttpGet(host: string, path: string, scheme: string, port: int, headers: seq<Header>)

  datatype Probe = Probe(
    httpGet: Option<HttpGet>,
    initialDelaySeconds: int,
    timeoutSeconds: int,
    periodSeconds: int,
    successThreshold: int,
    failureThreshold: int
  )

  datatype LoadBalancingPolicy =
    | Multivalue | Weighted | Geolocation | Geoproximity | Latency
    | Failover | Geographic | Performance | Subnet

  datatype RecordSpec = RecordSpec(
    name: string,
    endpoints: seq<Endpoint>,
    ttl: int,
    healthCheck: Option<Probe>,
    loadBalancingPolicy: LoadBalancingPolicy,
    globalZoneRef: string
  )

  /** A stored GlobalDNSRecord: `version` is its resource version, `finalizer` says whether the
      operator's finalizer is present, `deleting` whether a deletion timestamp is set. */
  datatype Record = Record(version: nat, finalizer: bool, deleting: bool, spec: RecordSpec)

  /** The host that the record's Route53 health checks probe, when it has an HTTP probe. */
  function HealthCheckHost(spec: RecordSpec): (host: Option<string>) {
    if spec.healthCheck.Some? && spec.healthCheck.value.httpGet.Some?
    then Some(spec.healthCheck.value.httpGet.value.host)
    else None
  }

  /** Kubernetes names and namespaces contain neither separator of an endpoint key. */
  predicate PlainName(s: string) {
    '/' !in s && '@' !in s
  }

  predicate PlainEndpoint(e: Endpoint) {
    && PlainName(e.loadBalancerServiceRef.namespace) && PlainName(e.loadBalancerServiceRef.name)
    && PlainName(e.credentialsSecretRef.namespace) && PlainName(e.credentialsSecretRef.name)
  }

  /** A separator that occurs in neither left part splits the text in one way only. */
  lemma SplitIsUnique(a: string, x: string, b: string, y: string, c: char)
    requires c !in a && c !in b
    requires a + [c] + x == b + [c] + y
    ensures a == b && x == y
  {
    var s := a + [c] + x;
    assert s[|a|] == c && s[|b|] == c;
    assert forall i :: 0 <= i < |a| ==> s[i] == a[i];
    assert forall i :: 0 <= i < |b| ==> s[i] == b[i];
    assert |a| == |b|;
    assert a == s[..|a|] && b == s[..|b|];
    assert x == s[|a| + 1..] && y == s[|b| + 1..];
  }

  /** Two endpoints with the same key name the same service and the same credentials. */
  lemma GetKeyIsInjective(e: Endpoint, f: Endpoint)
    requires PlainEndpoint(e) && PlainEndpoint(f)
    requires e.GetKey() == f.GetKey()
    ensures e.loadBalancerServiceRef == f.loadBalancerServiceRef
    ensures e.credentialsSecretRef == f.credentialsSecretRef
  {
    var es, fs := e.loadBalancerServiceRef, f.loadBalancerServiceRef;
    var ec, fc := e.credentialsSecretRef, f.credentialsSecretRef;
    var eTail, fTail := ec.namespace + "/" + ec.name, fc.namespace + "/" + fc.name;
    assert e.GetKey() == es.namespace + ['/'] + (es.name + "@" + eTail);
    assert f.GetKey() == fs.namespace + ['/'] + (fs.name + "@" + fTail);
    SplitIsUnique(es.namespace, es.name + "@" + eTail, fs.namespace, fs.name + "@" + fTail, '/');
    SplitIsUnique(es.name, eTail, fs.name, fTail, '@');
    SplitIsUnique(ec.namespace, ec.name, fc.namespace, fc.name, '/');
  }
}
