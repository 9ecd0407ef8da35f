/** The Google resources of one record, the calls that change them, and what refers to what
    (controllers/globaldnsrecord/gcpglb.go:66-489, 714-794). */
module GcpResources {
  import opened Prelude

  datatype HttpCheck = HttpCheck(host: string, path: string, portSpecification: string)

  datatype HealthCheck = HealthCheck(
    kind: string, interval: int, unhealthyThreshold: int, timeout: int,
    http: Option<HttpCheck>, https: Option<HttpCheck>
  )

  /** What a forwarding rule refers to: an address and, if `proxied`, the proxy. */
  datatype Forwarding = Forwarding(address: string, proxied: bool)

  /** Resources that have attributes besides what they refer to: protocol and session affinity of the backend
      service, the service of the proxy, protocol and port of the forwarding rule, type and TTL of the DNS entry. */
  datatype Kind = BackendKind | ProxyKind | RuleKind | DnsKind

  /** Which of the record's resources exist. `odd` are those with attributes that are not as the record asks, as
      after an edit of its TTL. A backend service names zonal groups; the forwarding rule and
      the DNS entry carry an address. Every resource has a fixed name, so a reference from one to another
      is broken exactly when the other does not exist or has another address. */
  datatype Resources = Resources(
    check: Option<HealthCheck>,
    groups: set<string>,
    backend: Option<set<string>>,
    proxy: bool,
    address: Option<string>,
    rule: Option<Forwarding>,
    dns: Option<string>,
    odd: set<Kind>
  )

  /** No resource refers to a missing one, and the rule refers to the proxy. */
  ghost predicate Integrity(s: Resources) {
    && (s.dns.Some? ==> s.address == s.dns)
    && (s.rule.Some? ==> s.address == Some(s.rule.value.address) && s.rule.value.proxied && s.proxy)
    && (s.proxy ==> s.backend.Some?)
    && (s.backend.Some? ==> s.check.Some? && s.backend.value <= s.groups)
  }

  datatype Change =
    | PutCheck(check: HealthCheck) | DropCheck
    | PutGroup(zone: string) | DropGroup(zone: string)
    | PutBackend(zones: set<string>) | DropBackend
    | PutProxy | DropProxy
    | PutAddress(address: string) | DropAddress
    | PutRule(to: Forwarding) | DropRule
    | PutDns(address: string) | DropDns

  function Apply(s: Resources, c: Change): (t: Resources) {
    match c
    case PutCheck(check) => s.(check := Some(check))
    case DropCheck => s.(check := None)
    case PutGroup(zone) => s.(groups := s.groups + {zone})
    case DropGroup(zone) => s.(groups := s.groups - {zone})
    case PutBackend(zones) => s.(backend := Some(zones), odd := s.odd - {BackendKind})
    case DropBackend => s.(backend := None)
    case PutProxy => s.(proxy := true, odd := s.odd - {ProxyKind})
    case DropProxy => s.(proxy := false)
    case PutAddress(address) => s.(address := Some(address))
    case DropAddress => s.(address := None)
    case PutRule(to) => s.(rule := Some(to), odd := s.odd - {RuleKind})
    case DropRule => s.(rule := None)
    case PutDns(address) => s.(dns := Some(address), odd := s.odd - {DnsKind})
    case DropDns => s.(dns := None)
  }

  /** The answer to a call. `NotFound` is the googleapi error 404, `ApiError` any other googleapi error and
      `OtherError` an error of another type, such as a broken connection. */
  datatype Reply = Done | NotFound | ApiError | OtherError

  /** A call in state `s` can be answered with `reply` and leave `t`. It can fail before or after it took
      effect. `typed` says that all errors are googleapi errors. */
  ghost predicate Possible(typed: bool, s: Resources, c: Change, reply: Reply, t: Resources) {
    && (t == s || t == Apply(s, c))
    && (reply.Done? ==> t == Apply(s, c))
    && (reply.NotFound? ==> Drops(c) && t == Apply(s, c) == s)
    && (typed ==> !reply.OtherError?)
  }

  /** Nothing refers to what the change would drop. */
  ghost predicate Unused(s: Resources, c: Change) {
    match c
    case DropCheck => s.backend.None?
    case DropGroup(zone) => s.backend.Some? ==> zone !in s.backend.value
    case DropBackend => !s.proxy
    case DropProxy => s.rule.None?
    case DropAddress => s.rule.None? && s.dns.None?
    case _ => true
  }

  predicate Drops(c: Change) {
    c.DropCheck? || c.DropGroup? || c.DropBackend? || c.DropProxy? || c.DropAddress? || c.DropRule? || c.DropDns?
  }

  /** The order of deleteDNSRecord is forced: dropping something keeps a whole state whole exactly when
      its users are gone. In particular a group that the backend names cannot be replaced. */
  lemma DropIsSafeIff(s: Resources, c: Change)
    requires Integrity(s) && Drops(c)
    ensures Integrity(Apply(s, c)) <==> Unused(s, c)
  {
  }

  /** compareHealthCheck, as written: equal HTTP parts count as a difference. */
  predicate CompareHealthCheck(a: HealthCheck, b: HealthCheck) {
    if a.http.Some? && a.http == b.http then false
    else if a.https.Some? && a.https == b.https then false
    else
      && a.interval == b.interval && a.unhealthyThreshold == b.unhealthyThreshold
      && a.timeout == b.timeout && a.kind == b.kind
  }

  /** getDesiredHealthCheck builds one of the two parts, of the kind that the scheme names. */
  predicate Built(c: HealthCheck) {
    (c.kind == "HTTP" && c.http.Some? && c.https.None?) || (c.kind == "HTTPS" && c.http.None? && c.https.Some?)
  }

  /** So a check that is as desired is updated on every pass, and among checks of the built form the
      comparison accepts exactly those that differ in the HTTP part and in nothing else. */
  lemma ComparisonIsInverted(a: HealthCheck, b: HealthCheck)
    requires Built(a) && Built(b)
    ensures !CompareHealthCheck(a, a)
    ensures CompareHealthCheck(a, b) <==> a != b && a == b.(http := a.http, https := a.https)
  {
  }

  /** getDomain: the DNS name up to its first dot. The names of the health check, the groups, the backend, the
      proxy, the address and the forwarding rule are made of it; the DNS entry has the whole name, and firewall
      rules that of the cluster. */
  function Domain(name: string): (first: string) {
    if name == "" || name[0] == '.' then "" else [name[0]] + Domain(name[1..])
  }

  lemma {:induction false} DomainIsFirstLabel(first: string, rest: string)
    requires '.' !in first
    ensures Domain(first + "." + rest) == first
  {
    var name := first + "." + rest;
    if first != "" {
      assert name[0] == first[0] && name[1..] == first[1..] + "." + rest;
      DomainIsFirstLabel(first[1..], rest);
    }
  }

  /** So records whose DNS names share their first label share these resources, whatever follows. `suffix` is
      what a kind of resource appends. */
  lemma FirstLabelTellsResources(first: string, x: string, other: string, y: string, suffix: string)
    requires '.' !in first && '.' !in other
    ensures Domain(first + "." + x) + suffix == Domain(other + "." + y) + suffix <==> first == other
  {
    DomainIsFirstLabel(first, x);
    DomainIsFirstLabel(other, y);
    assert first == (first + suffix)[..|first + suffix| - |suffix|];
    assert other == (other + suffix)[..|other + suffix| - |suffix|];
  }
}
