/** Route53 traffic policy documents (controllers/common/route53/trafficpolicydocument.go) and the
    comparison of two of them (controllers/globaldnsrecord/route53provider.go). */
module Documents {
  import opened Prelude

  datatype PolicyEndpoint = PolicyEndpoint(kind: string, region: string, value: string)

  datatype Reference = Reference(
    endpointReference: string,
    ruleReference: string,
    evaluateTargetHealth: bool,
    healthCheck: string,
    isDefault: bool,
    continent: string,
    country: string,
    subdivision: string,
    region: string,
    latitude: int,
    longitude: int,
    bias: int,
    weight: int
  )

  datatype Rule = Rule(
    ruleType: string,
    primary: Option<Reference>,
    secondary: Option<Reference>,
    locations: seq<Reference>,
    geoproximityLocations: seq<Reference>,
    regions: seq<Reference>,
    items: seq<Reference>
  )

  datatype Document = Document(
    formatVersion: string,
    recordType: string,
    startEndpoint: string,
    startRule: string,
    endpoints: map<string, PolicyEndpoint>,
    rules: map<string, Rule>
  )

  /** Go's zero value, read when a document has no rule of that name. */
  const NO_RULE := Rule("", None, None, [], [], [], [])

  /** A reference to an endpoint with every other field left at its zero value. */
  function EndpointReference(endpoint: string, region: string, healthCheck: string, evaluate: bool): (r: Reference)
  {
    Reference(endpoint, "", evaluate, healthCheck, false, "", "", "", region, 0, 0, 0, 0)
  }

  function MainRule(d: Document): (r: Rule) {
    if "main" in d.rules then d.rules["main"] else NO_RULE
  }

  function Optional(o: Option<Reference>): (q: seq<Reference>) {
    if o.Some? then [o.value] else []
  }

  /** The references of a rule in the order in which deleteTrafficPolicy collects them. */
  function RuleReferences(r: Rule): (q: seq<Reference>) {
    r.items + r.locations + r.regions + r.geoproximityLocations + Optional(r.primary) + Optional(r.secondary)
  }

  function RuleHealthChecks(r: Rule): (ids: set<string>) {
    set x | x in RuleReferences(r) && x.healthCheck != "" :: x.healthCheck
  }

  /** Every health check that any rule of the document names. */
  function HealthChecks(d: Document): (ids: set<string>) {
    set n, h | n in d.rules && h in RuleHealthChecks(d.rules[n]) :: h
  }

  /** Where a document can send a client: the address, the region that attracts the client, and the
      health check that guards the answer. */
  datatype Target = Target(endpoint: PolicyEndpoint, region: string, healthCheck: string)

  function TargetOf(d: Document, r: Reference): (t: Target)
    requires r.endpointReference in d.endpoints
  {
    Target(d.endpoints[r.endpointReference], r.region, r.healthCheck)
  }

  function Targets(d: Document): (ts: set<Target>) {
    set r | r in RuleReferences(MainRule(d)) && r.endpointReference in d.endpoints :: TargetOf(d, r)
  }

  predicate SameRule(l: Rule, r: Rule) {
    && l.ruleType == r.ruleType
    && l.primary == r.primary
    && l.secondary == r.secondary
    && ToSet(l.locations) == ToSet(r.locations)
    && ToSet(l.geoproximityLocations) == ToSet(r.geoproximityLocations)
    && ToSet(l.regions) == ToSet(r.regions)
    && ToSet(l.items) == ToSet(r.items)
  }

  /** What IsSameTrafficPolicyDocument decides: reference lists count as sets, and only the rule
      called "main" is looked at. */
  predicate SameDocument(l: Document, r: Document) {
    && l.formatVersion == r.formatVersion
    && l.startEndpoint == r.startEndpoint
    && l.startRule == r.startRule
    && l.recordType == r.recordType
    && l.endpoints == r.endpoints
    && SameRule(MainRule(l), MainRule(r))
  }

  /** The documents differ in nothing but the order and repetition of references in the lists of the main rule,
      and in other rules. A missing main rule counts as an empty one. */
  ghost predicate DifferInOrderOnly(l: Document, r: Document) {
    forall k {:trigger Key(k)} :: Key(k) ==>
      var empty := Rule("", None, None, [], [], [], []);
      var m := if "main" in l.rules then l.rules["main"] else empty;
      var n := if "main" in r.rules then r.rules["main"] else empty;
      && l.(rules := map[]) == r.(rules := map[])
      && m.(locations := [], geoproximityLocations := [], regions := [], items := []) ==
         n.(locations := [], geoproximityLocations := [], regions := [], items := [])
      && (forall x :: x in m.locations <==> x in n.locations)
      && (forall x :: x in m.geoproximityLocations <==> x in n.geoproximityLocations)
      && (forall x :: x in m.regions <==> x in n.regions)
      && (forall x :: x in m.items <==> x in n.items)
  }

  lemma SameDocumentIff(l: Document, r: Document)
    ensures SameDocument(l, r) <==> DifferInOrderOnly(l, r)
  {
    assert Key(0);
    assert forall q: seq<Reference>, x :: x in q <==> x in ToSet(q);
    if DifferInOrderOnly(l, r) {
      var m, n := MainRule(l), MainRule(r);
      assert ToSet(m.locations) == ToSet(n.locations) && ToSet(m.items) == ToSet(n.items);
      assert ToSet(m.regions) == ToSet(n.regions);
      assert ToSet(m.geoproximityLocations) == ToSet(n.geoproximityLocations);
    }
  }

  lemma SameDocumentIsEquivalence(a: Document, b: Document, c: Document)
    ensures SameDocument(a, a)
    ensures SameDocument(a, b) ==> SameDocument(b, a)
    ensures SameDocument(a, b) && SameDocument(b, c) ==> SameDocument(a, c)
  {
  }

  lemma SameRuleSameReferences(l: Rule, r: Rule)
    requires SameRule(l, r)
    ensures ToSet(RuleReferences(l)) == ToSet(RuleReferences(r))
  {
    forall x
      ensures x in RuleReferences(l) <==> x in RuleReferences(r)
    {
      InRule(l, x);
      InRule(r, x);
    }
  }

  lemma InRule(r: Rule, x: Reference)
    ensures x in RuleReferences(r) <==>
            || x in ToSet(r.items) || x in ToSet(r.locations) || x in ToSet(r.regions)
            || x in ToSet(r.geoproximityLocations) || r.primary == Some(x) || r.secondary == Some(x)
  {
  }

  /** Soundness of the comparison: documents found equal route clients to the same targets, and a
      document without other rules depends on the same health checks. */
  lemma SameDocumentSameRouting(l: Document, r: Document)
    requires SameDocument(l, r)
    ensures Targets(l) == Targets(r)
    ensures RuleHealthChecks(MainRule(l)) == RuleHealthChecks(MainRule(r))
    ensures l.rules.Keys == {"main"} == r.rules.Keys ==> HealthChecks(l) == HealthChecks(r)
  {
    var m, n := MainRule(l), MainRule(r);
    SameRuleSameReferences(m, n);
    assert forall x :: x in RuleReferences(m) <==> x in ToSet(RuleReferences(m));
    assert forall x :: x in RuleReferences(n) <==> x in ToSet(RuleReferences(n));
    if l.rules.Keys == {"main"} == r.rules.Keys {
      MainRuleOnly(l);
      MainRuleOnly(r);
    }
  }

  lemma MainRuleOnly(d: Document)
    requires d.rules.Keys == {"main"}
    ensures HealthChecks(d) == RuleHealthChecks(MainRule(d))
  {
  }

  /** Reordering or repeating the references of a list never changes the verdict. */
  lemma ReferenceListsAreSets(d: Document, r: Rule, items: seq<Reference>, regions: seq<Reference>,
                              locations: seq<Reference>, geo: seq<Reference>, other: Document)
    requires r == MainRule(d) && "main" in d.rules
    requires ToSet(items) == ToSet(r.items) && ToSet(regions) == ToSet(r.regions)
    requires ToSet(locations) == ToSet(r.locations) && ToSet(geo) == ToSet(r.geoproximityLocations)
    ensures
      var e := d.(rules := d.rules["main" := r.(items := items, regions := regions, locations := locations,
                                                geoproximityLocations := geo)]);
      SameDocument(d, e) && (SameDocument(d, other) <==> SameDocument(e, other))
  {
  }

  /** The comparison is blind to rules other than "main": a document it calls the same can depend on
      any further health check. */
  lemma OtherRulesAreIgnored(d: Document, h: string)
    requires h != ""
    ensures exists e :: SameDocument(d, e) && h in HealthChecks(e)
  {
    var rule := NO_RULE.(items := [EndpointReference("e", "", h, true)]);
    var e := d.(rules := d.rules["other" := rule]);
    assert MainRule(e) == MainRule(d);
    assert rule.items[0] in RuleReferences(rule);
    assert h in RuleHealthChecks(e.rules["other"]);
    assert SameDocument(d, e) && h in HealthChecks(e);
  }
}
