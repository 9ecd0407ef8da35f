/** Route53 as a store changed one API call at a time, and what the calls of a record's owner must
    keep. Listings are complete and strongly consistent, and identifiers are never used twice. */
module Route53Store {
  import opened Prelude
  import opened Documents

  type Id = string

  /** A health check. `unset` stands for the fields that the operator never sends: Route53 fills them
      in as it likes. `tag` is the value of its Name tag, which is no part of its configuration. */
  datatype HealthCheck = HealthCheck(
    ip: string,
    host: Option<string>,
    disabled: bool,
    inverted: bool,
    measureLatency: bool,
    enableSNI: bool,
    failureThreshold: int,
    port: int,
    requestInterval: int,
    path: string,
    kind: string,
    unset: string,
    tag: string
  )

  datatype TrafficPolicy = TrafficPolicy(name: string, document: Document)

  datatype PolicyInstance = PolicyInstance(zone: string, name: string, ttl: int, policy: Id)

  /** `issued` holds every identifier handed out so far. */
  datatype Store = Store(
    policies: map<Id, TrafficPolicy>,
    instances: map<Id, PolicyInstance>,
    healthChecks: map<Id, HealthCheck>,
    issued: set<Id>
  )

  /** The calls that can change the store. */
  datatype Call =
    | CreateHealthCheck(id: Id, check: HealthCheck)
    | TagHealthCheck(id: Id, tag: string)
    | UpdateHealthCheck(id: Id, check: HealthCheck)
    | DeleteHealthCheck(id: Id)
    | CreatePolicy(id: Id, policy: TrafficPolicy)
    | DeletePolicy(id: Id)
    | CreateInstance(id: Id, instance: PolicyInstance)
    | DeleteInstance(id: Id)

  /** Whether the call creates or deletes something. */
  predicate Churns(c: Call) {
    !c.TagHealthCheck? && !c.UpdateHealthCheck?
  }

  function Apply(s: Store, c: Call): (t: Store) {
    match c
    case CreateHealthCheck(id, check) =>
      s.(healthChecks := s.healthChecks[id := check], issued := s.issued + {id})
    case TagHealthCheck(id, tag) =>
      if id in s.healthChecks then s.(healthChecks := s.healthChecks[id := s.healthChecks[id].(tag := tag)]) else s
    case UpdateHealthCheck(id, check) =>
      if id in s.healthChecks then s.(healthChecks := s.healthChecks[id := check]) else s
    case DeleteHealthCheck(id) => s.(healthChecks := s.healthChecks - {id})
    case CreatePolicy(id, policy) =>
      s.(policies := s.policies[id := policy], issued := s.issued + {id})
    case DeletePolicy(id) => s.(policies := s.policies - {id})
    case CreateInstance(id, instance) =>
      s.(instances := s.instances[id := instance], issued := s.issued + {id})
    case DeleteInstance(id) => s.(instances := s.instances - {id})
  }

  /** The answer to a call. `OtherError` is an error that is not an AWS error, such as a broken connection. */
  datatype Reply = Done | NoSuchHealthCheck | AwsError | OtherError

  /** A call in state `s` can be answered with `reply` and leave `t`: it can fail before or after it took
      effect. `typed` says that all errors are AWS errors. */
  ghost predicate Possible(typed: bool, s: Store, c: Call, reply: Reply, t: Store) {
    && (t == s || t == Apply(s, c))
    && (reply.Done? ==> t == Apply(s, c))
    && (reply.NoSuchHealthCheck? ==> c.DeleteHealthCheck? && c.id !in t.healthChecks)
    && (typed ==> !reply.OtherError?)
  }

  /** On whose behalf things are in the store: the name that the record's policy carries, the host that its
      health checks probe, and the zone that the record refers to. */
  datatype Owner = Owner(key: string, host: Option<string>, zone: string)

  /** Two records that do not get into each other's way. */
  predicate Apart(a: Owner, b: Owner) {
    a.key != b.key && (a.host.Some? ==> a.host != b.host)
  }

  ghost predicate OwnPolicy(own: Owner, s: Store, p: Id) {
    p in s.policies && s.policies[p].name == own.key
  }

  ghost predicate OwnCheck(own: Owner, s: Store, h: Id) {
    h in s.healthChecks && own.host.Some? && s.healthChecks[h].host == own.host
  }

  ghost predicate OwnInstance(own: Owner, s: Store, i: Id) {
    i in s.instances && OwnPolicy(own, s, s.instances[i].policy)
  }

  /** The health check that a record looks up for an address. */
  ghost predicate CheckFor(own: Owner, s: Store, h: Id, ip: string) {
    OwnCheck(own, s, h) && s.healthChecks[h].ip == ip
  }

  /** Something in Route53 exists on behalf of the owner. */
  ghost predicate Owns(own: Owner, s: Store) {
    || (exists p :: OwnPolicy(own, s, p))
    || (exists h :: OwnCheck(own, s, h))
    || (exists i :: OwnInstance(own, s, i))
  }

  /** The instance routes by an existing policy whose health checks all exist. */
  ghost predicate Live(s: Store, instance: PolicyInstance) {
    && instance.policy in s.policies
    && HealthChecks(s.policies[instance.policy].document) <= s.healthChecks.Keys
  }

  ghost predicate Integrity(s: Store) {
    forall i | i in s.instances :: Live(s, s.instances[i])
  }

  ghost predicate OnePolicy(own: Owner, s: Store) {
    forall p, q | OwnPolicy(own, s, p) && OwnPolicy(own, s, q) :: p == q
  }

  ghost predicate OneInstancePerName(s: Store) {
    forall i, j | i in s.instances && j in s.instances && s.instances[i].zone == s.instances[j].zone &&
                  s.instances[i].name == s.instances[j].name :: i == j
  }

  ghost predicate OneCheckPerAddress(own: Owner, s: Store) {
    forall h, g | OwnCheck(own, s, h) && OwnCheck(own, s, g) && s.healthChecks[h].ip == s.healthChecks[g].ip :: h == g
  }

  ghost predicate MainRulesOnly(own: Owner, s: Store) {
    forall p | OwnPolicy(own, s, p) :: s.policies[p].document.rules.Keys == {"main"}
  }

  ghost predicate ForeignPolicy(own: Owner, s: Store, p: Id) {
    p in s.policies && s.policies[p].name != own.key
  }

  /** Policies of others name no health check of the owner's host and share none with its policies. */
  ghost predicate Separate(own: Owner, s: Store) {
    && (forall p, h | ForeignPolicy(own, s, p) && OwnCheck(own, s, h) :: h !in HealthChecks(s.policies[p].document))
    && (forall p, q | ForeignPolicy(own, s, p) && OwnPolicy(own, s, q) ::
          HealthChecks(s.policies[p].document) !! HealthChecks(s.policies[q].document))
  }

  ghost predicate AllIssued(s: Store) {
    && "" !in s.issued
    && s.policies.Keys <= s.issued && s.instances.Keys <= s.issued && s.healthChecks.Keys <= s.issued
    && forall p | p in s.policies :: HealthChecks(s.policies[p].document) <= s.issued
  }

  /** What holds after every single call of every run. */
  ghost predicate Inv(own: Owner, s: Store) {
    && Integrity(s)
    && OnePolicy(own, s)
    && OneInstancePerName(s)
    && OneCheckPerAddress(own, s)
    && MainRulesOnly(own, s)
    && Separate(own, s)
    && AllIssued(s)
  }

  ghost predicate Fresh(s: Store, id: Id) {
    id != "" && id !in s.issued
  }

  ghost predicate InUse(s: Store, h: Id) {
    exists i :: i in s.instances && s.instances[i].policy in s.policies &&
                h in HealthChecks(s.policies[s.instances[i].policy].document)
  }

  /** When a call of the owner keeps the invariant. */
  ghost predicate Allowed(own: Owner, s: Store, c: Call) {
    match c
    case CreateHealthCheck(id, check) =>
      Fresh(s, id) && own.host.Some? && check.host == own.host && forall h :: !CheckFor(own, s, h, check.ip)
    case TagHealthCheck(id, _) => OwnCheck(own, s, id)
    case UpdateHealthCheck(id, check) => CheckFor(own, s, id, check.ip) && check.host == own.host
    case DeleteHealthCheck(id) => !InUse(s, id)
    case CreatePolicy(id, policy) =>
      && Fresh(s, id) && policy.name == own.key
      && (forall p :: !OwnPolicy(own, s, p))
      && policy.document.rules.Keys == {"main"}
      && forall h | h in HealthChecks(policy.document) :: OwnCheck(own, s, h)
    case DeletePolicy(id) => OwnPolicy(own, s, id) && forall i | i in s.instances :: s.instances[i].policy != id
    case CreateInstance(id, instance) =>
      && Fresh(s, id) && Live(s, instance)
      && forall i | i in s.instances :: s.instances[i].zone == instance.zone ==> s.instances[i].name != instance.name
    case DeleteInstance(_) => true
  }

  /** The caller reference is cut to 64 characters out of a 36-character UUID, the address and the
      host; the slice expression panics on a shorter text. */
  predicate CallerReferenceFits(host: string, ip: string) {
    36 + 1 + |ip| + 1 + |host| >= 64
  }

  /** Only health checks of the owner were added or updated. */
  ghost predicate ChecksGrow(own: Owner, s: Store, t: Store) {
    && t.policies == s.policies && t.instances == s.instances
    && (forall h | h in s.healthChecks ::
          && h in t.healthChecks
          && t.healthChecks[h].host == s.healthChecks[h].host && t.healthChecks[h].ip == s.healthChecks[h].ip
          && (!OwnCheck(own, s, h) ==> t.healthChecks[h] == s.healthChecks[h]))
    && (forall h | h in t.healthChecks && h !in s.healthChecks ::
          && OwnCheck(own, t, h) && CallerReferenceFits(own.host.value, t.healthChecks[h].ip)
          && h !in s.issued)
    && s.issued <= t.issued
  }

  lemma CreatingGrows(own: Owner, s: Store, id: Id, check: HealthCheck)
    requires AllIssued(s) && Fresh(s, id) && own.host.Some? && check.host == own.host
    requires CallerReferenceFits(own.host.value, check.ip)
    ensures var t := Apply(s, CreateHealthCheck(id, check)); ChecksGrow(own, s, t) && CheckFor(own, t, id, check.ip)
  {
  }

  lemma UpdatingGrows(own: Owner, s: Store, id: Id, check: HealthCheck)
    requires CheckFor(own, s, id, check.ip) && check.host == own.host
    ensures var t := Apply(s, UpdateHealthCheck(id, check)); ChecksGrow(own, s, t) && CheckFor(own, t, id, check.ip)
  {
  }

  lemma TaggingGrows(own: Owner, s: Store, id: Id, tag: string)
    requires OwnCheck(own, s, id)
    ensures ChecksGrow(own, s, Apply(s, TagHealthCheck(id, tag)))
  {
  }

  lemma StayingGrows(own: Owner, s: Store)
    ensures ChecksGrow(own, s, s)
  {
  }

  lemma ChecksGrowTransitive(own: Owner, s: Store, t: Store, u: Store)
    requires ChecksGrow(own, s, t) && ChecksGrow(own, t, u)
    ensures ChecksGrow(own, s, u)
  {
  }

  /** Each address of `ids` has the health check that `ids` gives. */
  ghost predicate Right(own: Owner, s: Store, ids: map<string, Id>) {
    forall ip | ip in ids :: CheckFor(own, s, ids[ip], ip)
  }

  lemma RightStays(own: Owner, s: Store, t: Store, ids: map<string, Id>)
    requires Right(own, s, ids) && ChecksGrow(own, s, t)
    ensures Right(own, t, ids)
  {
  }

  lemma RightOneMore(own: Owner, s: Store, ids: map<string, Id>, ip: string, id: Id)
    requires Right(own, s, ids) && CheckFor(own, s, id, ip) && Inv(own, s)
    ensures Right(own, s, ids[ip := id]) && (ip in ids ==> ids[ip] == id)
  {
  }

  /** `t` comes from `s` by deleting nothing but instances of the policy, health checks that its document
      names and, last, the policy itself. */
  ghost predicate Dismantled(s: Store, t: Store, p: Id)
    requires p in s.policies
  {
    && (t.policies == s.policies || t.policies == s.policies - {p})
    && (forall i | i in t.instances :: i in s.instances && t.instances[i] == s.instances[i])
    && (forall i | i in s.instances && s.instances[i].policy != p :: i in t.instances)
    && (forall h | h in t.healthChecks :: h in s.healthChecks && t.healthChecks[h] == s.healthChecks[h])
    && (forall h | h in s.healthChecks && h !in HealthChecks(s.policies[p].document) :: h in t.healthChecks)
  }

  ghost predicate NoInstanceOf(s: Store, p: Id) {
    forall i | i in s.instances :: s.instances[i].policy != p
  }

  lemma DismantleMore(s: Store, t: Store, p: Id, c: Call)
    requires p in s.policies && Dismantled(s, t, p)
    requires || (c.DeleteInstance? && (c.id in s.instances ==> s.instances[c.id].policy == p))
             || (c.DeleteHealthCheck? && c.id in HealthChecks(s.policies[p].document))
             || (c.DeletePolicy? && c.id == p)
    ensures Dismantled(s, Apply(t, c), p)
  {
  }

  /** The instances of the policy that are still there are listed from position `k` on. */
  ghost predicate Remaining(s: Store, p: Id, q: seq<Id>, k: nat) {
    forall i | i in s.instances && s.instances[i].policy == p :: exists j :: k <= j < |q| && q[j] == i
  }

  lemma RemainingAfterDelete(s: Store, p: Id, q: seq<Id>, k: nat)
    requires k < |q| && Remaining(s, p, q, k)
    ensures Remaining(Apply(s, DeleteInstance(q[k])), p, q, k + 1)
  {
  }

  lemma DismantledTransitive(s: Store, t: Store, u: Store, p: Id)
    requires p in s.policies && t.policies == s.policies == u.policies
    requires Dismantled(s, t, p) && Dismantled(t, u, p)
    ensures Dismantled(s, u, p)
  {
  }

  /** Once its instances are gone, nothing in use depends on the health checks of the owner's policy. */
  lemma ChecksOutOfUse(own: Owner, s: Store, p: Id, h: Id)
    requires Inv(own, s) && OwnPolicy(own, s, p) && NoInstanceOf(s, p) && h in HealthChecks(s.policies[p].document)
    ensures !InUse(s, h)
  {
    forall i | i in s.instances && s.instances[i].policy in s.policies
      ensures h !in HealthChecks(s.policies[s.instances[i].policy].document)
    {
      assert !OwnPolicy(own, s, s.instances[i].policy);
      assert ForeignPolicy(own, s, s.instances[i].policy);
    }
  }

  ghost predicate NoPolicyOf(own: Owner, s: Store) {
    forall p :: !OwnPolicy(own, s, p)
  }

  /** A health check that no one would attribute to the owner. */
  ghost predicate ForeignCheck(own: Owner, s: Store, h: Id) {
    && h in s.healthChecks && !OwnCheck(own, s, h)
    && forall p | OwnPolicy(own, s, p) :: h !in HealthChecks(s.policies[p].document)
  }

  ghost predicate ForeignInstance(own: Owner, s: Store, i: Id) {
    i in s.instances && !OwnInstance(own, s, i)
  }

  /** What belongs to others is the same in both states. `site` is a DNS name (with its zone) that the
      owner claims whichever policy answers for it. */
  ghost predicate Untouched(own: Owner, site: Option<(string, string)>, s: Store, t: Store) {
    && (forall p | ForeignPolicy(own, s, p) :: p in t.policies && t.policies[p] == s.policies[p])
    && (forall p | ForeignPolicy(own, t, p) :: p in s.policies && s.policies[p] == t.policies[p])
    && (forall h | ForeignCheck(own, s, h) :: h in t.healthChecks && t.healthChecks[h] == s.healthChecks[h])
    && (forall h | h in t.healthChecks && !OwnCheck(own, t, h) ::
          h in s.healthChecks && s.healthChecks[h] == t.healthChecks[h])
    && (forall i | ForeignInstance(own, s, i) && site != Some((s.instances[i].zone, s.instances[i].name)) ::
          i in t.instances && t.instances[i] == s.instances[i])
    && (forall i | ForeignInstance(own, t, i) :: i in s.instances && s.instances[i] == t.instances[i])
  }

  /** Whether a piece of work kept to what is the owner's. */
  datatype Effect = Contained | Spilled

  /** The seal on it. */
  ghost predicate EffectKey(k: int) {
    true
  }

  ghost function EffectOf(own: Owner, site: Option<(string, string)>, s: Store, t: Store): (e: Effect) {
    if forall k {:trigger EffectKey(k)} :: EffectKey(k) ==> Untouched(own, site, s, t) then Contained else Spilled
  }

  lemma ContainedWithin(own: Owner, site: Option<(string, string)>, s: Store, t: Store)
    requires EffectOf(own, None, s, t) == Contained
    ensures EffectOf(own, site, s, t) == Contained
  {
    assert EffectKey(0);
  }

  /** No policy of the owner came along between the two states. */
  ghost predicate NoNewPolicy(own: Owner, s: Store, t: Store) {
    forall p | OwnPolicy(own, t, p) :: OwnPolicy(own, s, p) && t.policies[p] == s.policies[p]
  }

  lemma InstanceCarries(own: Owner, site: Option<(string, string)>, s: Store, t: Store, i: Id)
    requires Integrity(s) && Untouched(own, site, s, t) && ForeignInstance(own, s, i)
    requires site != Some((s.instances[i].zone, s.instances[i].name))
    ensures ForeignInstance(own, t, i) && t.instances[i] == s.instances[i]
  {
    assert Live(s, s.instances[i]);
    assert ForeignPolicy(own, s, s.instances[i].policy);
  }

  lemma InstanceWasThere(own: Owner, site: Option<(string, string)>, s: Store, t: Store, i: Id)
    requires Integrity(t) && Untouched(own, site, s, t) && ForeignInstance(own, t, i)
    ensures ForeignInstance(own, s, i) && t.instances[i] == s.instances[i]
  {
    assert Live(t, t.instances[i]);
    assert ForeignPolicy(own, t, t.instances[i].policy);
  }

  lemma CheckCarries(own: Owner, s: Store, t: Store, h: Id)
    requires Untouched(own, None, s, t) && NoNewPolicy(own, s, t) && ForeignCheck(own, s, h)
    ensures ForeignCheck(own, t, h) && t.healthChecks[h] == s.healthChecks[h]
  {
  }

  /** Phases of a run that each keep to what is the owner's do so together. */
  lemma UntouchedThen(own: Owner, site: Option<(string, string)>, s: Store, t: Store, u: Store)
    requires Integrity(s) && Integrity(t) && Integrity(u)
    requires EffectOf(own, None, s, t) == Contained && NoNewPolicy(own, s, t) && EffectOf(own, site, t, u) == Contained
    ensures EffectOf(own, site, s, u) == Contained
  {
    assert EffectKey(0);
    forall h | ForeignCheck(own, s, h) ensures ForeignCheck(own, t, h) && t.healthChecks[h] == s.healthChecks[h] {
      CheckCarries(own, s, t, h);
    }
    forall i | ForeignInstance(own, s, i) ensures ForeignInstance(own, t, i) && t.instances[i] == s.instances[i] {
      InstanceCarries(own, None, s, t, i);
    }
    forall i | ForeignInstance(own, u, i) ensures ForeignInstance(own, t, i) && t.instances[i] == u.instances[i] {
      InstanceWasThere(own, site, t, u, i);
    }
  }

  lemma GrowingTouchesNothing(own: Owner, s: Store, t: Store)
    requires ChecksGrow(own, s, t)
    ensures EffectOf(own, None, s, t) == Contained && NoNewPolicy(own, s, t)
  {
  }

  lemma GrownThen(own: Owner, s: Store, t: Store, u: Store)
    requires Integrity(s) && Integrity(t) && Integrity(u)
    requires ChecksGrow(own, s, t) && EffectOf(own, None, t, u) == Contained
    ensures EffectOf(own, None, s, u) == Contained
  {
    GrowingTouchesNothing(own, s, t);
    UntouchedThen(own, None, s, t, u);
  }

  lemma DismantledThen(own: Owner, s: Store, t: Store, u: Store, p: Id)
    requires Integrity(s) && Integrity(t) && Integrity(u)
    requires OwnPolicy(own, s, p) && Dismantled(s, t, p) && EffectOf(own, None, t, u) == Contained
    ensures EffectOf(own, None, s, u) == Contained
  {
    DismantlingTouchesNothing(own, s, t, p);
    UntouchedThen(own, None, s, t, u);
  }

  lemma DismantlingTouchesNothing(own: Owner, s: Store, t: Store, p: Id)
    requires Integrity(t) && OwnPolicy(own, s, p) && Dismantled(s, t, p)
    ensures EffectOf(own, None, s, t) == Contained && NoNewPolicy(own, s, t)
  {
  }

  /** Only health checks of the owner were deleted. */
  ghost predicate ChecksDrop(own: Owner, s: Store, t: Store) {
    && t.policies == s.policies && t.instances == s.instances
    && (forall h | h in t.healthChecks :: h in s.healthChecks && t.healthChecks[h] == s.healthChecks[h])
    && (forall h | h in s.healthChecks && !OwnCheck(own, s, h) :: h in t.healthChecks)
  }

  lemma DroppingTouchesNothing(own: Owner, s: Store, t: Store)
    requires ChecksDrop(own, s, t)
    ensures EffectOf(own, None, s, t) == Contained && NoNewPolicy(own, s, t)
  {
  }

  lemma DropMore(own: Owner, s: Store, t: Store, h: Id)
    requires ChecksDrop(own, s, t) && OwnCheck(own, s, h)
    ensures ChecksDrop(own, s, Apply(t, DeleteHealthCheck(h)))
  {
  }

  /** Once the owner's policy is gone, nothing in use depends on the health checks of its host. */
  lemma OwnChecksOutOfUse(own: Owner, s: Store, h: Id)
    requires Inv(own, s) && (OwnCheck(own, s, h) || h !in s.healthChecks)
    requires forall p | p in s.policies :: s.policies[p].name != own.key
    ensures !InUse(s, h)
  {
  }

  lemma CreatingTouchesNothing(own: Owner, s: Store, c: Call)
    requires Inv(own, s) && Allowed(own, s, c) && c.CreatePolicy?
    ensures EffectOf(own, None, s, Apply(s, c)) == Contained
  {
  }

  /** What an owner finds after a call was there before, except for what the call created. */
  lemma OwnedBefore(own: Owner, s: Store, c: Call)
    ensures var t := Apply(s, c);
      && (forall p | OwnPolicy(own, t, p) ::
            (c.CreatePolicy? && p == c.id) || (OwnPolicy(own, s, p) && t.policies[p] == s.policies[p]))
      && (forall h | OwnCheck(own, t, h) ::
            || ((c.CreateHealthCheck? || c.UpdateHealthCheck? || c.TagHealthCheck?) && h == c.id)
            || (OwnCheck(own, s, h) && t.healthChecks[h] == s.healthChecks[h]))
  {
  }

  lemma AllowedKeepsIntegrity(own: Owner, s: Store, c: Call)
    requires Integrity(s) && AllIssued(s) && Allowed(own, s, c)
    ensures Integrity(Apply(s, c))
  {
  }

  lemma AllowedKeepsOneCheck(own: Owner, s: Store, c: Call)
    requires OneCheckPerAddress(own, s) && Allowed(own, s, c)
    ensures OneCheckPerAddress(own, Apply(s, c))
  {
    var t := Apply(s, c);
    OwnedBefore(own, s, c);
    match c
    case CreateHealthCheck(id, check) =>
      assert forall h | OwnCheck(own, s, h) && s.healthChecks[h].ip == check.ip :: CheckFor(own, s, h, check.ip);
    case UpdateHealthCheck(id, check) =>
      assert forall h | OwnCheck(own, t, h) :: OwnCheck(own, s, h) && t.healthChecks[h].ip == s.healthChecks[h].ip;
    case _ =>
  }

  lemma AllowedKeepsUniqueness(own: Owner, s: Store, c: Call)
    requires OnePolicy(own, s) && OneInstancePerName(s) && MainRulesOnly(own, s) && Allowed(own, s, c)
    ensures OnePolicy(own, Apply(s, c)) && OneInstancePerName(Apply(s, c)) && MainRulesOnly(own, Apply(s, c))
  {
    OwnedBefore(own, s, c);
  }

  lemma AllowedKeepsSeparate(own: Owner, s: Store, c: Call)
    requires Separate(own, s) && AllIssued(s) && Allowed(own, s, c)
    ensures Separate(own, Apply(s, c)) && AllIssued(Apply(s, c))
  {
    OwnedBefore(own, s, c);
    var t := Apply(s, c);
    assert forall p | ForeignPolicy(own, t, p) :: ForeignPolicy(own, s, p) && t.policies[p] == s.policies[p];
  }

  /** Every allowed call keeps the owner's invariant. */
  lemma AllowedKeepsInv(own: Owner, s: Store, c: Call)
    requires Inv(own, s) && Allowed(own, s, c)
    ensures Inv(own, Apply(s, c))
  {
    AllowedKeepsIntegrity(own, s, c);
    AllowedKeepsUniqueness(own, s, c);
    AllowedKeepsOneCheck(own, s, c);
    AllowedKeepsSeparate(own, s, c);
  }

  lemma AllowedKeepsOthersUniqueness(own: Owner, other: Owner, s: Store, c: Call)
    requires OnePolicy(other, s) && OneCheckPerAddress(other, s) && MainRulesOnly(other, s) && AllIssued(s)
    requires Allowed(own, s, c)
    requires Apart(own, other)
    ensures OnePolicy(other, Apply(s, c)) && OneCheckPerAddress(other, Apply(s, c)) && MainRulesOnly(other, Apply(s, c))
  {
    OwnedBefore(other, s, c);
    assert c.UpdateHealthCheck? ==> forall h | OwnCheck(other, Apply(s, c), h) :: h != c.id;
  }

  lemma AllowedKeepsOthersSeparate(own: Owner, other: Owner, s: Store, c: Call)
    requires Separate(other, s) && AllIssued(s) && Allowed(own, s, c) && !c.CreatePolicy?
    requires own.host.Some? ==> own.host != other.host
    ensures Separate(other, Apply(s, c))
  {
    OwnedBefore(other, s, c);
    var t := Apply(s, c);
    assert forall p | ForeignPolicy(other, t, p) :: ForeignPolicy(other, s, p) && t.policies[p] == s.policies[p];
  }

  lemma CreatePolicyKeepsOthersSeparate(own: Owner, other: Owner, s: Store, c: Call)
    requires Separate(own, s) && Separate(other, s) && Allowed(own, s, c) && c.CreatePolicy?
    requires Apart(own, other)
    ensures Separate(other, Apply(s, c))
  {
    var t := Apply(s, c);
    assert forall p | ForeignPolicy(other, t, p) ::
      p == c.id || (ForeignPolicy(other, s, p) && t.policies[p] == s.policies[p]);
    assert forall q | OwnPolicy(other, t, q) ::
      OwnPolicy(other, s, q) && ForeignPolicy(own, s, q) && t.policies[q] == s.policies[q];
    assert forall h | OwnCheck(other, t, h) :: OwnCheck(other, s, h) && !OwnCheck(own, s, h);
  }

  /** ... and the invariant of every other owner with another name and another host. */
  lemma AllowedKeepsOthersInv(own: Owner, other: Owner, s: Store, c: Call)
    requires Inv(own, s) && Inv(other, s) && Allowed(own, s, c)
    requires Apart(own, other)
    ensures Inv(other, Apply(s, c))
  {
    AllowedKeepsInv(own, s, c);
    AllowedKeepsOthersUniqueness(own, other, s, c);
    if c.CreatePolicy? {
      CreatePolicyKeepsOthersSeparate(own, other, s, c);
    } else {
      AllowedKeepsOthersSeparate(own, other, s, c);
    }
  }

  // ----- what is left

  /** A health check that the document of one of the owner's policies names. */
  ghost predicate NamedByOwn(own: Owner, s: Store, h: Id) {
    exists p :: OwnPolicy(own, s, p) && h in HealthChecks(s.policies[p].document)
  }

  /** The store without a policy, its instances and the health checks that its document names. */
  function WithoutPolicy(s: Store, p: Id): (t: Store)
    requires p in s.policies
  {
    Store(s.policies - {p}, map i | i in s.instances && s.instances[i].policy != p :: s.instances[i],
          s.healthChecks - HealthChecks(s.policies[p].document), s.issued)
  }

  /** The store without the health checks of the owner's host. */
  ghost function WithoutChecks(own: Owner, s: Store): (t: Store) {
    s.(healthChecks := map h | h in s.healthChecks && !OwnCheck(own, s, h) :: s.healthChecks[h])
  }

  /** The store without anything that belongs to the owner. */
  ghost function Cleaned(own: Owner, s: Store): (t: Store) {
    Store(map p | p in s.policies && !OwnPolicy(own, s, p) :: s.policies[p],
          map i | i in s.instances && !OwnInstance(own, s, i) :: s.instances[i],
          map h | h in s.healthChecks && !OwnCheck(own, s, h) && !NamedByOwn(own, s, h) :: s.healthChecks[h],
          s.issued)
  }

  lemma CleanedWithPolicy(own: Owner, s: Store, p: Id)
    requires OnePolicy(own, s) && OwnPolicy(own, s, p)
    ensures Cleaned(own, s) == WithoutChecks(own, WithoutPolicy(s, p))
  {
    var t, u := Cleaned(own, s), WithoutChecks(own, WithoutPolicy(s, p));
    assert t.policies == u.policies;
    assert t.instances == u.instances;
    assert forall h :: NamedByOwn(own, s, h) <==> h in HealthChecks(s.policies[p].document);
    assert t.healthChecks == u.healthChecks;
  }

  lemma CleanedWithoutPolicy(own: Owner, s: Store)
    requires forall p :: !OwnPolicy(own, s, p)
    ensures Cleaned(own, s) == WithoutChecks(own, s)
  {
    var t, u := Cleaned(own, s), WithoutChecks(own, s);
    assert t.policies == u.policies;
    assert t.instances == u.instances;
    assert t.healthChecks == u.healthChecks;
  }

  /** The instances of a policy. */
  ghost function InstancesOf(instances: map<Id, PolicyInstance>, p: Id): (m: map<Id, PolicyInstance>) {
    map i | i in instances && instances[i].policy == p :: instances[i]
  }

  /** An identifier that is new has no instances yet. */
  lemma FreshHasNoInstance(s: Store, p: Id)
    requires Integrity(s) && AllIssued(s) && p !in s.issued
    ensures InstancesOf(s.instances, p) == map[]
  {
    forall i | i in s.instances ensures s.instances[i].policy != p {
      assert Live(s, s.instances[i]);
    }
  }
}
