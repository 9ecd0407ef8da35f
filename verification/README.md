# Global load balancer operator: a verified model

The operator drives external state towards what Kubernetes resources ask for, by a sequence of calls each of
which may fail. This project models that behaviour and proves what holds after every call, over whole runs and
for every order in which Go may range over a map.

- **Route53** (`Route53Store`, `Route53World`, `Route53Provider`, `CheckDeletion`, `Leftovers`, `Feasibility`,
  `Lifecycle`, `AllRecords`, `Initialization`, `ProbeConfig`).
  Route53 is a store of traffic policies, policy instances and health checks, changed one call at a time. Before
  every call users may change or delete any record; a call may fail before or after it took effect. The provider
  is a class whose methods follow the Go functions; `Standing() == Sound` says that every state in the world's
  trace was safe. `Lifecycle` adds the finalizer, optimistic concurrency on the record, and zones that are served
  from elsewhere; `AllRecords` puts many records together. `CheckDeletion` is the deletion of health checks as
  runs, `Leftovers` what successful deletions and clean-ups can leave, `Feasibility` says when a document can be
  built at all.
- **Policy documents** (`Api`, `Endpoints`, `Documents`, `DesiredDocument`, `ReferenceSet`, `Promises`, `Fulfilment`):
  the document that two traversals of the endpoint map build, and its comparison through the hand-written set.
  `Promises` says in terms of the record, its clusters and the resolver what a stored document must say; nothing that
  runs uses it.
- **Remote managers** (`RemoteManagers`): diff of running against needed managers, with deferred deletions.
- **Google** (`FanOut`, `NetworkEndpoints`, `Firewalls`, `GcpResources`, `GcpCreation`, `GcpDeletion`,
  `GcpProvider`): the two-level fan-out as interleaved steps, the outer join of network endpoints, the firewall
  loop, and creation and deletion as runs, which the methods of the provider follow.
- **Route discovery** (`RouteDiscovery`, `DiscoveryOrder`): routes of many clusters become records.

Some predicates are sealed: they are stated for all keys (`Prelude.Key`, `SafeKey`, `EffectKey`,
`PromiseKey`), and a proof looks into them only where it mentions a key. This keeps proofs small and says
nothing else.

`dafny verify dfyconfig.toml` checks the whole project.

## Assumptions

- Listings are complete and strongly consistent, calls are complete when they return, and Route53 never hands out
  an identifier twice.
- The short key of a resource is injective: it appears as the owner's name.
- There is one reconcile worker. Different records have different names and probe different hosts, since health
  checks are looked up by host and address only (controllers/globaldnsrecord/route53provider.go:93).
- Users do not remove the finalizer, undo a deletion, or change the probed host or the zone reference
  (`Route53World.UsersMay`). `Leftovers.HostEditLeavesNothingIff` says exactly when an edit of the host would leave
  something behind. A zone may be moved elsewhere; `Lifecycle.Reconcile` and `Operate` say what that does.
- Records with a Google zone have DNS names with different first labels, since the names of all their resources but
  the DNS entry are made of the first label (controllers/globaldnsrecord/gcpglb.go:853-886).
- A Go panic ends a run as an error does (`Fault.Panicked`).

## Where the code does less than it intends

Each is modelled as written; where a property fails, the member named gives the exact condition under which it holds
or the input that shows the failure.

- A probe without timeout sets the success threshold instead of the timeout, so the record is neither ensured nor
  released: `InitializationConvergesIff`.
- Endpoint names made of key and address can collide, and then the document depends on map order:
  `CollisionExists`, `OrderIndependentIffNoCollision`.
- Rules other than main are not compared: `OtherRulesAreIgnored`.
- The update input lacks fields, so some health checks are updated for ever: `UpdatesConvergeIff`.
- The caller reference is sliced without looking at its length: `CreateHealthCheck`.
- `IPs[0]` is read before the error of the lookup is looked at: `ReferencesFor`.
- Errors that are not AWS errors are ignored when health checks are deleted: `CheckDeletion.SuccessDeletesIff`.
- Errors that are not googleapi errors are ignored when Google resources are deleted: `DeletionIsWholeIff`,
  `GcpDeletion.SuccessDeletesIff`; and the deletion workers share one error variable: `NilTrustedIff`.
- Lookups that fail with such an error are passed over when Google resources are created, and a stale group is
  deleted while the backend names it: `CreationIsWholeIff`, `SuccessCompletesIff`.
- Backends are appended without a lock: `BackendsCompleteIff`.
- Clean-up goes to the provider of the zone that the record names now: `Lifecycle.Reconcile`, `ZoneEditLeaks`.
- Health checks are looked up by the host that the record probes now: `HostEditLeavesNothingIff`.
- A policy that is kept while the DNS name is edited keeps its instance under the old name: `SolelyIff`.
- Google resource names, but for the DNS entry, carry the first label of the DNS name only:
  `FirstLabelTellsResources`.
- The join of network endpoints ignores ports, and clusters in one zone share a group: `JoinAligns`,
  `SharedZoneSettlesIff`.
- The firewall loop returns after its first insert: `PassesSettle`.
- compareHealthCheck is inverted, so a desired check is updated on every pass and a wrong one may be kept:
  `ComparisonIsInverted`, `CompleteRests`, `SuccessCompletesIff`.
- A route's TLS is not part of the consistency check, and groups may share a host:
  `DiscoveryOrder.OrderIndependentIff`.

## Model

| member | source | states |
|---|---|---|
| `AllRecords.System.Operate` | controllers/globaldnsrecord/globaldnsrecord_controller.go:78-209 | The whole system: over any turns of any records with pairwise different names and hosts, with users acting on all records at every call, every record is safe in every state that the account goes through, up to a turn in which a record vanishes whose zone is elsewhere; all states before that were safe |
| `AllRecords.System.Turn` | controllers/globaldnsrecord/globaldnsrecord_controller.go:78-209 | One record's turn, during which users act on all records: every record is safe in every state on the way, unless the zone is elsewhere and the record vanishes, and then in all states before |
| `Lifecycle.Operate` | controllers/globaldnsrecord/globaldnsrecord_controller.go:78-209 | Over any rounds, each a reconcile in any surroundings or something users do, with any call failing before or after it took effect, every state is safe for all records: all of `Route53Store.Inv` holds, and policies, instances and health checks of a record exist only while the stored record carries the finalizer. The run ends early only in a round in which the zone is elsewhere and the record vanishes; the last state is then safe exactly when nothing of the record is left in the account |
| `Lifecycle.Reconcile` | controllers/globaldnsrecord/globaldnsrecord_controller.go:78-209 | One reconcile does at most one of initialize, clean up and ensure; every state before its last is safe, and so is the last one unless the record leaks, that is, is being deleted while its zone is elsewhere and something of it is here. `Released`: the record was being deleted and is gone, and the state is safe exactly when it did not leak. `Initialized`: the stored record is the one read with finalizer, TTL and probe defaults. `Ensured`, at home: stored document and instance say what is promised of exactly the spec that was read. A ready record whose name is not in the domain of its zone fails without a call. With the zone elsewhere nothing here changes. An incomplete record is neither released nor ensured. Without failures and with idle users the outcome is the expected one |
| `Lifecycle.Converge` | controllers/globaldnsrecord/globaldnsrecord_controller.go:78-209 | Progress: when no call fails and users are idle, two reconciles settle any record with a timeout whose name is in the domain and whose document can be built, or make it vanish without a trace if it is being deleted |
| `Lifecycle.EnsureAgain` | controllers/globaldnsrecord/route53provider.go:61-82 | Quiescence: once the goal is reached, a further run for the same spec and addresses issues no create and no delete call and ends with the same policy and instance ids, for every order of maps, listings and DNS answers, whatever users did in between; under multivalue no endpoint name may be written with two values, under geoproximity and latency that is given |
| `Lifecycle.ZoneEditLeaks` | controllers/globaldnsrecord/globaldnsrecord_controller.go:349-377 | A record can leak: a safe state with a policy of a record that is being deleted, and surroundings in which its zone is elsewhere |
| `Lifecycle.VanishedLeavesNothing` | controllers/globaldnsrecord/globaldnsrecord_controller.go:121-137 | In a safe state a record that no longer exists has no policy of its name, no instance of such a policy and no health check for its host |
| `Lifecycle.NewRecordIsSafeIff` | controllers/globaldnsrecord/globaldnsrecord_controller.go:78-95 | Where nothing belongs to the record, safety amounts to the integrity of the store as a whole |
| `Lifecycle.SameGoal` | controllers/globaldnsrecord/route53provider.go:61-82 | The goal depends on spec, zone, endpoints and addresses only |
| `Lifecycle.GatherEndpoints` | controllers/globaldnsrecord/globaldnsrecord_controller.go:153-163 | Each endpoint is filed under its name with platform, region and ingress of its cluster, later ones winning |
| `Lifecycle.EndpointsAreFiled` | controllers/globaldnsrecord/globaldnsrecord_controller.go:153-163 | With names free of `/` and `@`, an endpoint loses its place in the map only to a later one for the same service and the same credentials |
| `Lifecycle.Ensure` | controllers/globaldnsrecord/globaldnsrecord_controller.go:141-208 | The part after initialization: every state stays safe; a name that does not end with the domain of the zone is refused without a call; success at home means that all endpoints are on AWS and that policy and instance say what is promised of the spec, the zone and the endpoints as their clusters give them; in a reliable world it is sure where the document can be built |
| `Lifecycle.Release` | controllers/globaldnsrecord/globaldnsrecord_controller.go:121-137 | At home the finalizer is removed only after a complete clean-up; removing it makes the record vanish; elsewhere the account is left as it is; in a reliable world with idle users release succeeds |
| `Lifecycle.CleanUpIn` | controllers/globaldnsrecord/globaldnsrecord_controller.go:325-388 | The provider of the zone cleans up: at home success leaves nothing of the record, elsewhere nothing here changes; the record keeps its finalizer meanwhile |
| `Lifecycle.RemoveFinalizer` | controllers/globaldnsrecord/globaldnsrecord_controller.go:130-136 | The write that lets the record go keeps the state safe if nothing of the record is left |
| `Lifecycle.Initialize` | controllers/globaldnsrecord/globaldnsrecord_controller.go:112-119 | Writing defaults back touches nothing in Route53; after success the record carries the finalizer and its defaults; without failures and with idle users it succeeds |
| `Lifecycle.FittingIsSure` | controllers/globaldnsrecord/route53provider.go:132-164 | With caller references that fit, a document that can be built can also be built after the policy has given way |
| `Lifecycle.HasSuffixIff` | controllers/globaldnsrecord/globaldnsrecord_controller.go:141 | The suffix test accepts exactly the names made of a head and the domain |
| `Lifecycle.AllFiled` | controllers/globaldnsrecord/globaldnsrecord_controller.go:153-163 | Each entry of the endpoint map has what the cluster of the last endpoint of its name tells |
| `Initialization.IsInitialized` | controllers/globaldnsrecord/globaldnsrecord_controller.go:288-323 | Says whether finalizer, TTL and all probe fields are there, and fills in the finalizer, a TTL of 60, a failure threshold of 3, a period of 10 and a success threshold of 1 |
| `Initialization.FilledIn` | controllers/globaldnsrecord/globaldnsrecord_controller.go:288-323 | Filling in adds the finalizer and a TTL, keeps version, deletion mark and probed host, and changes nothing in a complete record |
| `Initialization.InitializationConvergesIff` | controllers/globaldnsrecord/globaldnsrecord_controller.go:288-323 | One write gets past initialization, or no number of writes does: exactly a probe with a zero timeout is never completed |
| `Initialization.FillingIn` | controllers/globaldnsrecord/globaldnsrecord_controller.go:288-323 | The defaults and the condition for having them all, field by field |
| `Route53Provider.Provider.EnsureDNSRecord` | controllers/globaldnsrecord/route53provider.go:61-82 | Every state on the way is safe. Success means, in the record's own terms, that the stored document says what is promised: under multivalue an entry and a reference for each address, under geoproximity and latency one for each load balancer with the host name of its first ingress and its region, and with a probe each reference is guarded by a health check of its address that is as the probe asks for (`Promises.Promised`); and that the instance has the zone, the dotted name and the TTL of the record. The policy then has no other instance exactly when it had none under another DNS name before; unless an error that is not an AWS error is ignored, success implies that the policy could be ensured, and in a reliable world it is sure when that is given (`SureIff`, `Feasibility.FeasibleIff`); nothing of others changes except an instance that held the DNS name; if the goal was reached before, nothing is created or deleted and the ids stay the same |
| `Route53Provider.Provider.CleanUp` | controllers/globaldnsrecord/route53provider.go:694-742 | Success, after any number of failed attempts, leaves no policy of the record's name, no instance of one and no health check for the probed host, and is one of the outcomes of `Leftovers.CleanUpCanLeave`, so exactly the store without what is the record's unless an error that is not an AWS error was ignored; success or not, nothing of others is touched and every intermediate state is safe; in a reliable world it succeeds |
| `Route53Provider.Provider.SettledIsExact` | controllers/globaldnsrecord/route53provider.go:61-82 | At the goal there is exactly one policy of the record's name, exactly one instance of its DNS name in the zone, with the record's TTL, and every health check that the policy names exists |
| `Route53Provider.Provider.SolelyIff` | controllers/globaldnsrecord/route53provider.go:362-417 | The document does not contain the DNS name, so a policy is kept when the name is edited: the wanted instance is its only one exactly when it had none under another name |
| `Route53Provider.Provider.SureIff` | controllers/globaldnsrecord/route53provider.go:61-82 | Where no endpoint name is written with two values, what success implies about the state before is also enough for it in a reliable world |
| `Route53Provider.Provider.StaysCurrent` | controllers/globaldnsrecord/route53provider.go:236-247 | A document built while the policy is current compares equal to the stored one, so it is not replaced |
| `Route53Provider.Provider.WantedAlike` | controllers/globaldnsrecord/route53provider.go:522-692 | Two documents wanted in one state are equivalent, because an address has at most one health check |
| `Route53Provider.Provider.EquivalentIsLive` | controllers/globaldnsrecord/route53provider.go:242-265 | Liveness of the freshly ensured health checks carries over to a stored document that compares equal |
| `Route53Provider.Provider.WantedNamesOwnChecks` | controllers/globaldnsrecord/route53provider.go:578-668 | A wanted document names only existing health checks of the record's host |
| `Route53Provider.Provider.EnsureTrafficPolicy` | controllers/globaldnsrecord/route53provider.go:203-266 | Success returns a policy of the record whose document is equivalent to a wanted one, with the instances it had; a policy that is current already is left alone; without ignored errors success implies that the document could be built and that a policy which was not current could give way, and in a reliable world that is enough |
| `Route53Provider.Provider.KeepOrReplace` | controllers/globaldnsrecord/route53provider.go:236-265 | The existing policy is kept when the rebuilt document compares equal and is dismantled and rebuilt otherwise; either way the result is current; without ignored errors success implies that the policy was current or could give way, and in a reliable world that is enough |
| `Route53Provider.Provider.Rebuild` | controllers/globaldnsrecord/route53provider.go:247-262 | Replacing the policy touches nothing of others and, in a reliable world, succeeds exactly when the document can be built without the health checks that go with the old policy |
| `Route53Provider.Provider.ReplaceTrafficPolicy` | controllers/globaldnsrecord/route53provider.go:247-262 | Deleting and recreating touches nothing of others and ends with a current policy that has no instance yet; in a reliable world exactly when the document can be built in what the deletion leaves |
| `Route53Provider.Provider.CreateTrafficPolicy` | controllers/globaldnsrecord/route53provider.go:343-360 | Creates the one policy of the record's name, with a document that says what is promised; in a reliable world exactly when the document can be built |
| `Route53Provider.Provider.PublishPolicy` | controllers/globaldnsrecord/route53provider.go:349-359 | The create call changes no instance and nothing of others; it fails only when the call does |
| `Route53Provider.Provider.FindTrafficPolicy` | controllers/globaldnsrecord/route53provider.go:204-225 | Finds a policy of the record's name if and only if there is one |
| `Route53Provider.Provider.DeleteTrafficPolicy` | controllers/globaldnsrecord/route53provider.go:268-341 | Deletes only instances of the policy, health checks its document names, and the policy; every intermediate state keeps referential integrity; success leaves no policy of the record's name and is instances, then a successful run of `CheckDeletion`, then the policy; unless an error that is not an AWS error was ignored, exactly the rest of the store is left; in a reliable world it succeeds |
| `Route53Provider.Provider.DeleteInstances` | controllers/globaldnsrecord/route53provider.go:269-286 | Success leaves no instance of the policy; nothing else is touched |
| `Route53Provider.Provider.DeleteHealthChecks` | controllers/globaldnsrecord/route53provider.go:288-331 | Is one of the runs of `CheckDeletion` over exactly the health checks that the document names: success is a run without an AWS error that counts, failure one that stopped at such an error; neither policies nor instances change |
| `Route53Provider.Provider.DeleteNamedCheck` | controllers/globaldnsrecord/route53provider.go:307-330 | One call of that run, at a point where no instance depends on the health check |
| `Route53Provider.Provider.EnsureInstance` | controllers/globaldnsrecord/route53provider.go:362-417 | Success means an instance with the right zone, name, TTL and policy; nothing changes but the instance of the record's DNS name; one that is as wanted is left alone; it fails only when a call does |
| `Route53Provider.Provider.ReplaceInstance` | controllers/globaldnsrecord/route53provider.go:396-414 | Deletes the instance found and creates the wanted one; if the second call fails, nothing but the old instance is missing |
| `Route53Provider.Provider.CreateInstance` | controllers/globaldnsrecord/route53provider.go:439-453 | Creates the wanted instance where the DNS name is free |
| `Route53Provider.Provider.FindInstance` | controllers/globaldnsrecord/route53provider.go:362-385 | Finds the instance of the DNS name in the zone if and only if there is one |
| `Route53Provider.Provider.FinishDNSRecord` | controllers/globaldnsrecord/route53provider.go:74-81 | With a current policy, success of the second half reaches the goal, and only a failing call prevents it; the wanted instance is the only one of the policy exactly when all it had before were for the DNS name |
| `Route53Provider.Provider.BuildDocument` | controllers/globaldnsrecord/route53provider.go:522-692 | Only health checks of the record are added or updated; success gives a document that says what is promised about endpoints, references, regions and health checks (`Promises.Promised`); with all checks in place nothing is created; in a reliable world it succeeds exactly when the document can be built |
| `Route53Provider.Provider.BuildReferences` | controllers/globaldnsrecord/route53provider.go:575-676 | The references of all endpoints, as a set, are those the spec asks for, for every traversal order; in a reliable world they can be built exactly when each endpoint can be referred to |
| `Route53Provider.Provider.ReferencesFor` | controllers/globaldnsrecord/route53provider.go:578-668 | The references of one endpoint are, as a set, those the spec asks for; with a probe, an endpoint without address fails under geoproximity and latency |
| `Route53Provider.Provider.AddressReferences` | controllers/globaldnsrecord/route53provider.go:581-604 | One reference per address, each with the health check of that very address |
| `Route53Provider.Provider.CheckedReference` | controllers/globaldnsrecord/route53provider.go:588-601 | A reference carries the id of its health check, which is also recorded in the status under name and address |
| `Route53Provider.Provider.EnsureHealthCheck` | controllers/globaldnsrecord/route53provider.go:84-130 | Success gives the check of this host and address. A new one has threshold, interval, port, path, type, SNI and tag as the probe gives them; an existing one keeps its id, is updated only if it differs, and then has all that an update carries; what was so for other checks stays so; nothing is created if there is one; in a reliable world it succeeds exactly for an HTTP probe with a check already there or a caller reference that fits |
| `Route53Provider.Provider.FindHealthCheck` | controllers/globaldnsrecord/route53provider.go:84-98 | Finds the check of host and address if and only if there is one |
| `Route53Provider.Provider.CreateHealthCheck` | controllers/globaldnsrecord/route53provider.go:132-164 | Creates at most one check, for an address that has none, also when tagging fails after creation; success gives one made and tagged as the probe asks for; it panics, before any call, exactly when the probe is an HTTP probe and host and address have fewer than 26 characters; another probe is rejected |
| `Route53Provider.Provider.CleanUpPolicies` | controllers/globaldnsrecord/route53provider.go:694-718 | Success leaves no policy of the record's name, and nothing else is gone but what belongs to it |
| `Route53Provider.Provider.CleanUpPolicy` | controllers/globaldnsrecord/route53provider.go:702-717 | The policy found during clean-up is dismantled, and no policy comes along |
| `Route53Provider.Provider.CleanUpHealthChecks` | controllers/globaldnsrecord/route53provider.go:721-741 | Deletes only health checks of the record's host; success leaves exactly the others |
| `Route53Provider.Provider.KeptWasCurrent` | controllers/globaldnsrecord/route53provider.go:236-247 | A document that compares equal to the stored one names only health checks that were there before, so the policy was current before they were ensured |
| `Route53Provider.Provider.BalancerReferences` | controllers/globaldnsrecord/route53provider.go:606-668 | Under geoproximity and latency one reference with the health check of the first address; without address it panics |
| `Route53Provider.Provider.UpdateHealthCheck` | controllers/globaldnsrecord/route53provider.go:109-130 | One update exactly if the configuration differs, and no other change |
| `Route53Provider.Provider.Making` | controllers/globaldnsrecord/route53provider.go:132-164 | Creating and tagging a check is allowed, touches no other check, and makes it as the probe asks for |
| `Route53Provider.Provider.WantedFulfils` | controllers/globaldnsrecord/route53provider.go:522-692 | A document that was built, with the health checks ensured on the way, says what is promised |
| `Route53Provider.Provider.KeptFulfils` | controllers/globaldnsrecord/route53provider.go:236-247 | A stored policy that is kept says what is promised, too |
| `Leftovers.HostEditLeavesNothingIff` | controllers/globaldnsrecord/route53provider.go:726-739 | After an edit of the probed host, every successful clean-up leaves nothing of the record exactly when there is no health check of the old host, or all of them are named by the record's policy and all errors are AWS errors |
| `Leftovers.HostEditLeaves` | controllers/globaldnsrecord/route53provider.go:317-329 | A clean-up that leaves a given health check of the old host and reports success: any one that is not named or, when an error can be ignored, any one at all |
| `Leftovers.UndoneExactly` | controllers/globaldnsrecord/route53provider.go:268-341 | With AWS errors only, instances, then health checks, then the policy remove exactly what goes with the policy |
| `Leftovers.UndoneTouches` | controllers/globaldnsrecord/route53provider.go:268-341 | With any errors, a successful deletion removes the policy, its instances and at most the health checks of its document |
| `Leftovers.TypedCleanUpIsExact` | controllers/globaldnsrecord/route53provider.go:694-742 | With AWS errors only, a successful clean-up leaves exactly the store without what is the record's |
| `Leftovers.CleanUpLeavesNoPolicy` | controllers/globaldnsrecord/route53provider.go:694-742 | With any errors, a successful clean-up leaves no policy of the name and brings no health check back |
| `CheckDeletion.SuccessDeletesIff` | controllers/globaldnsrecord/route53provider.go:307-331 | A loop that reports success has deleted the health checks of the document exactly when all errors are AWS errors or there was none of them to delete |
| `CheckDeletion.TypedRunDeletes` | controllers/globaldnsrecord/route53provider.go:307-331 | While only AWS errors occur, exactly the health checks tried without an error that counts are gone, in every state of every run |
| `CheckDeletion.IgnoredErrors` | controllers/globaldnsrecord/route53provider.go:317-329 | A run in which every call fails with an error that is not an AWS error reports success and deletes nothing |
| `CheckDeletion.CheckIdsOfDocument` | controllers/globaldnsrecord/route53provider.go:294-305 | The health checks visited are those that the main rule names |
| `Feasibility.CanCheckStays` | controllers/globaldnsrecord/route53provider.go:84-130 | Ensuring health checks makes no other one possible or impossible |
| `Feasibility.FeasibleAnywhere` | controllers/globaldnsrecord/route53provider.go:132-164 | With caller references that fit, whether a document can be built does not depend on the health checks there are |
| `Feasibility.FeasibleWithout` | controllers/globaldnsrecord/route53provider.go:236-262 | Ensuring health checks changes nothing about whether the document can be built once the policy has given way |
| `Feasibility.FeasibleIff` | controllers/globaldnsrecord/route53provider.go:84-164 | What building a document takes, in terms of the record, its clusters and the store alone |
| `Feasibility.ProbedIff` | controllers/globaldnsrecord/route53provider.go:578-668 | The addresses probed are all of them under multivalue, and otherwise the smallest |
| `Route53World.AllowedKeepsAllSafe` | controllers/globaldnsrecord/route53provider.go:84-453 | A call that is allowed for one record that has its finalizer keeps all records safe |
| `Route53World.World.SafePerform` | controllers/globaldnsrecord/route53provider.go:84-453 | Such a call, after whatever users did to any record, keeps every state safe, also when it fails after it took effect |
| `Route53World.World.SafeUpdate` | controllers/globaldnsrecord/globaldnsrecord_controller.go:112-136 | A write of the record keeps every state safe while the finalizer stays or nothing of the record is in the account; otherwise only the last state can be unsafe |
| `Route53Store.AllowedKeepsInv` | controllers/globaldnsrecord/route53provider.go:84-453 | Each call of the provider, when issued under its guard, keeps: instances refer to existing policies, health checks named by a policy with an instance exist, one policy per name, one instance per DNS name, one check per address, documents with a main rule only, and separation from other records |
| `Route53Store.AllowedKeepsOthersInv` | controllers/globaldnsrecord/route53provider.go:84-453 | Each such call keeps the same for every other record with another name and another host |
| `Route53Store.ChecksOutOfUse` | controllers/globaldnsrecord/route53provider.go:268-331 | Once its instances are deleted, nothing live depends on the health checks of the policy: this is why instances go first |
| `Route53Store.OwnChecksOutOfUse` | controllers/globaldnsrecord/route53provider.go:721-741 | Once its policy is deleted, nothing live depends on the health checks of the host |
| `Route53Store.UntouchedThen` | controllers/globaldnsrecord/route53provider.go:203-266 | Touching nothing of others composes over the phases of a run |
| `Route53Store.CleanedWithPolicy` | controllers/globaldnsrecord/route53provider.go:694-742 | Deleting the policy with what its document names, then the checks of the host, is the same as removing all that belongs to the record |
| `Route53Store.FreshHasNoInstance` | controllers/globaldnsrecord/route53provider.go:343-360 | A policy with a new identifier has no instance |
| `ProbeConfig.SameCheckIff` | controllers/globaldnsrecord/route53provider.go:166-188 | Two probes ask for the same health check exactly when address, host, path, scheme, port, failure threshold and period agree |
| `ProbeConfig.UpdatesConvergeIff` | controllers/globaldnsrecord/route53provider.go:109-130 | One pass makes the stored configuration the desired one exactly when the fields that the update input does not carry agree already; otherwise no later pass does |
| `ProbeConfig.UncarriedNeverChange` | controllers/globaldnsrecord/route53provider.go:190-201 | No number of passes changes address, latency measurement, interval or type |
| `ProbeConfig.PassCarries` | controllers/globaldnsrecord/route53provider.go:109-130 | One pass leaves host, port, path, SNI, threshold and flags as the probe asks for them and every other field as it was |
| `Promises.BalancersStand` | controllers/globaldnsrecord/route53provider.go:547-567 | Under geoproximity and latency the promised document has, under the key of each endpoint, its load balancer with the host name of the first ingress |
| `Promises.AddressesStand` | controllers/globaldnsrecord/route53provider.go:529-545 | Under multivalue it has each address under key and address, where no name is made of two addresses |
| `Fulfilment.DescribedIsPromised` | controllers/globaldnsrecord/route53provider.go:522-692 | A document that describes what the record wishes for says what is promised in terms of record, clusters and resolver |
| `Fulfilment.PromisedAlike` | controllers/globaldnsrecord/route53provider.go:455-520 | So does every document that compares equal to it |
| `DesiredDocument.OrderIndependentIffNoCollision` | controllers/globaldnsrecord/route53provider.go:522-692 | The built document is the same, up to the comparison, for every pair of traversal orders exactly when no endpoint name is written with two values |
| `DesiredDocument.OrderDoesNotMatter` | controllers/globaldnsrecord/route53provider.go:522-692 | Two builds agree once the health checks they name agree |
| `DesiredDocument.ReferencesResolve` | controllers/globaldnsrecord/route53provider.go:522-692 | Every rule reference resolves to its own endpoint: the address whose health check it carries, or the host name of the load balancer, in the region of its cluster |
| `DesiredDocument.HealthChecksOfBuilt` | controllers/globaldnsrecord/route53provider.go:578-668 | A built document names only health checks of probed addresses |
| `DesiredDocument.OneEntryPerBalancer` | controllers/globaldnsrecord/route53provider.go:547-567 | Under geoproximity and latency there is never a collision |
| `DesiredDocument.LastVisitWins` | controllers/globaldnsrecord/route53provider.go:532-544 | The endpoint visited last decides the names it writes |
| `DesiredDocument.TraversalDescribes` | controllers/globaldnsrecord/route53provider.go:529-567 | Whatever the order, all names are written and each carries one of the values written under it |
| `DesiredDocument.DocumentForDescribes` | controllers/globaldnsrecord/route53provider.go:677-692 | The document assembled from endpoints and references describes the spec |
| `DesiredDocument.CollisionExists` | controllers/globaldnsrecord/route53provider.go:539 | For endpoints that the provider accepts, on AWS and with names free of `/` and `@`, endpoint names made by appending an address to a key do collide although the keys differ |
| `DesiredDocument.BuildEndpoints` | controllers/globaldnsrecord/route53provider.go:528-573 | The first traversal, in any order, enters each address or each load balancer under its name, and nothing else; an unsupported policy is rejected; in a reliable world it succeeds exactly when each endpoint has what its policy needs |
| `DesiredDocument.WriteEndpoints` | controllers/globaldnsrecord/route53provider.go:532-564 | What one endpoint adds: an entry of type value for each address, or one for its load balancer with the host name of the first ingress; without ingress the load balancer policies panic |
| `DesiredDocument.EntriesAreThose` | controllers/globaldnsrecord/route53provider.go:528-573 | The entries described are those of the addresses or of the load balancers, and no others |
| `DesiredDocument.WritingAdds` | controllers/globaldnsrecord/route53provider.go:532-544 | Writing the addresses of an endpoint one after the other adds exactly their entries |
| `Documents.SameDocumentIsEquivalence` | controllers/globaldnsrecord/route53provider.go:455-486 | The comparison is an equivalence relation |
| `Documents.SameDocumentSameRouting` | controllers/globaldnsrecord/route53provider.go:455-516 | Documents found equal route clients to the same (endpoint, region, health check) targets and, with a main rule only, depend on the same health checks |
| `Documents.ReferenceListsAreSets` | controllers/globaldnsrecord/route53provider.go:518-520 | Permuting or repeating references changes no verdict |
| `Documents.OtherRulesAreIgnored` | controllers/globaldnsrecord/route53provider.go:482-484 | The comparison is blind to rules other than main: a document called the same can depend on any further health check |
| `Documents.InRule` | controllers/globaldnsrecord/route53provider.go:294-305 | The references of a rule are those of its four lists, its primary and its secondary |
| `Documents.SameDocumentIff` | controllers/globaldnsrecord/route53provider.go:455-520 | Documents compare equal exactly when they differ in nothing but order and repetition of references in the main rule, and in other rules |
| `ReferenceSet.CompareDocuments` | controllers/globaldnsrecord/route53provider.go:455-486 | The comparison through hand-written sets accepts exactly the documents that differ in nothing but order and repetition of references in the main rule, and in other rules |
| `ReferenceSet.CompareRules` | controllers/globaldnsrecord/route53provider.go:488-516 | The comparison of rules decides `SameRule` |
| `ReferenceSet.CompareReferences` | controllers/globaldnsrecord/route53provider.go:518-520 | Two lists compare equal exactly when they have the same elements |
| `ReferenceSet.Set.constructor` | controllers/common/route53/route53endpointrulereferenceset/route53endpointrulereferenceset.go:29-40 | A new set holds exactly the given items |
| `ReferenceSet.Set.Add` | controllers/common/route53/route53endpointrulereferenceset/route53endpointrulereferenceset.go:42-48 | Adds exactly the given items |
| `ReferenceSet.Set.Remove` | controllers/common/route53/route53endpointrulereferenceset/route53endpointrulereferenceset.go:50-56 | Removes exactly the given items |
| `ReferenceSet.Set.IsEqual` | controllers/common/route53/route53endpointrulereferenceset/route53endpointrulereferenceset.go:119-132 | Size shortcut and early exit decide set equality |
| `ReferenceSet.Set.IsSubset` | controllers/common/route53/route53endpointrulereferenceset/route53endpointrulereferenceset.go:135-148 | Size shortcut and early exit decide inclusion of the argument |
| `ReferenceSet.Set.IsSuperset` | controllers/common/route53/route53endpointrulereferenceset/route53endpointrulereferenceset.go:151-153 | Decides inclusion in the argument |
| `ReferenceSet.Set.Copy` | controllers/common/route53/route53endpointrulereferenceset/route53endpointrulereferenceset.go:167-173 | A new object with the same elements |
| `ReferenceSet.Set.Merge` | controllers/common/route53/route53endpointrulereferenceset/route53endpointrulereferenceset.go:196-200 | In-place union, also with itself |
| `ReferenceSet.Set.Separate` | controllers/common/route53/route53endpointrulereferenceset/route53endpointrulereferenceset.go:204-208 | In-place difference, also with itself while ranging over it |
| `ReferenceSet.Largest` | controllers/common/route53/route53endpointrulereferenceset/route53endpointrulereferenceset.go:213-220 | Finds a largest set, or that all are empty |
| `ReferenceSet.Union` | controllers/common/route53/route53endpointrulereferenceset/route53endpointrulereferenceset.go:212-235 | Seeded from the largest set, the result is the exact union of any number of sets, and no input changes |
| `ReferenceSet.Difference` | controllers/common/route53/route53endpointrulereferenceset/route53endpointrulereferenceset.go:239-245 | Exact difference with any number of sets |
| `ReferenceSet.Retain` | controllers/common/route53/route53endpointrulereferenceset/route53endpointrulereferenceset.go:267-271 | One pass that deletes what another set lacks |
| `ReferenceSet.SymmetricDifference` | controllers/common/route53/route53endpointrulereferenceset/route53endpointrulereferenceset.go:278-282 | Exact symmetric difference |
| `ReferenceSet.Intersection` | controllers/common/route53/route53endpointrulereferenceset/route53endpointrulereferenceset.go:249-274 | Seeded from the smallest set and deleting during the range, the result is the exact intersection of any number of sets if one of them is smaller than the largest int; otherwise, and without argument, it is empty |
| `Endpoints.SortForgetsOrder` | controllers/globaldnsrecord/endpointstatus.go:57 | Sorting forgets exactly the order of the addresses |
| `Endpoints.SortStringsSorts` | controllers/globaldnsrecord/endpointstatus.go:57 | The result is sorted and a permutation |
| `Endpoints.GetIPs` | controllers/globaldnsrecord/endpointstatus.go:34-59 | A successful call returns all addresses of the endpoint in ascending order, so the same list whatever the order of the DNS answers; without platform status it panics; off AWS it never fails; in a reliable world it fails only for unknown host names |
| `Endpoints.GetAWSIPs` | controllers/globaldnsrecord/endpointstatus.go:69-80 | All addresses of all host names, each as often as it was found; in a reliable world exactly when all names are known |
| `Endpoints.GetDefaultIPs` | controllers/globaldnsrecord/endpointstatus.go:61-67 | One address per ingress, at the same position |
| `Endpoints.AddressesAreThose` | controllers/globaldnsrecord/endpointstatus.go:34-80 | The addresses found are those behind the host names on AWS, and those of the ingresses elsewhere |
| `Endpoints.LeqIsAscending` | controllers/globaldnsrecord/endpointstatus.go:57 | The order of the addresses is ascending, character by character |
| `Endpoints.FirstOfAddresses` | controllers/globaldnsrecord/endpointstatus.go:34-59 | The first address is the smallest of all |
| `Api.GetKeyIsInjective` | api/v1alpha1/globaldnsrecord_types.go:107-109 | Endpoints with the same key name the same service and the same credentials, when names hold neither `/` nor `@` |
| `RemoteManagers.Controller.EnsureRemoteManagers` | controllers/globaldnsrecord/globaldnsrecord_controller.go:390-439 | After every call, successful or aborted: the running managers are exactly those in the map, keys are needed keys, kept managers are the same objects, unneeded ones are stopped, no fewer needed keys are present than before; success gives exactly the needed keys, and is sure if the listing works and every manager can be created |
| `RemoteManagers.Controller.CollectNeeded` | controllers/globaldnsrecord/globaldnsrecord_controller.go:397-406 | A key is needed exactly when a resource that is not being deleted refers to it |
| `RemoteManagers.Controller.StopAll` | controllers/globaldnsrecord/globaldnsrecord_controller.go:419-426 | Stops exactly the managers of the given keys and defers their removal from the map |
| `RemoteManagers.Controller.StartAll` | controllers/globaldnsrecord/globaldnsrecord_controller.go:428-436 | Adds running managers until one cannot be created, each under its own key, and leaves those in the map alone |
| `RemoteManagers.Controller.RunDeferred` | controllers/globaldnsrecord/globaldnsrecord_controller.go:419-420 | Removes exactly the deferred keys, on both ways out |
| `FanOut.EveryRunIsSound` | controllers/globaldnsrecord/gcpglb.go:564-686 | In every state of every interleaving no send meets a closed channel, some step is possible until the function has returned, and the number of steps is bounded |
| `FanOut.StepKeepsInv` | controllers/globaldnsrecord/gcpglb.go:564-686 | Every step keeps the invariant: received values are counted exactly, and reports sum up the values sent |
| `FanOut.RunKeepsInv` | controllers/globaldnsrecord/gcpglb.go:564-686 | The invariant holds in every state of every run |
| `FanOut.NotStuck` | controllers/globaldnsrecord/gcpglb.go:564-686 | Before the return some step is possible that is not a failure of a call |
| `FanOut.RunsEnd` | controllers/globaldnsrecord/gcpglb.go:564-686 | Every step lowers a rank, so no run goes on for ever |
| `FanOut.NoSendOnClosed` | controllers/globaldnsrecord/gcpglb.go:566-581 | No goroutine is about to send on a channel that was closed |
| `FanOut.ResultSumsUp` | controllers/globaldnsrecord/gcpglb.go:674-685 | At the return every spawned goroutine has sent its one value, and the error is nil exactly when every value sent was nil |
| `FanOut.NilMeansAllBackends` | controllers/globaldnsrecord/gcpglb.go:665-671 | With append as one step, a nil result means exactly one backend for each zone of each endpoint and nothing else |
| `FanOut.BackendOverwritten` | controllers/globaldnsrecord/gcpglb.go:666 | With append as read then write, any two workers can lose a backend and still return nil |
| `FanOut.BackendsCompleteIff` | controllers/globaldnsrecord/gcpglb.go:564-686 | A nil result promises all backends exactly when there is at most one worker in all |
| `FanOut.QuietEndsNil` | controllers/globaldnsrecord/gcpglb.go:134-177 | A run in which no error is on its way can end with nil, and harm done stays done |
| `FanOut.ErrorOverwritten` | controllers/globaldnsrecord/gcpglb.go:149-163 | Two zones of one endpoint: a failed deletion is overwritten by a successful one and nil is returned |
| `FanOut.ErrorIgnored` | controllers/globaldnsrecord/gcpglb.go:152-162 | One zone is enough when its deletion fails with an error that is not a googleapi error |
| `FanOut.NilTrustedIff` | controllers/globaldnsrecord/gcpglb.go:134-177 | The nil of deleteDNSRecord can be trusted exactly when there is nothing to delete, or no endpoint has more than one zone and all errors are googleapi errors |
| `GcpCreation.CreationIsWholeIff` | controllers/globaldnsrecord/gcpglb.go:179-238 | From a whole state, every state of every run of the creation is whole exactly when all errors are googleapi errors and no group that the backend names needs replacing |
| `GcpCreation.SuccessCompletesIff` | controllers/globaldnsrecord/gcpglb.go:179-238 | From any state, every run that reports success has completed all resources, with the attributes that the record asks for, exactly when all errors are googleapi errors and no existing health check is taken for the desired one by the inverted comparison |
| `GcpCreation.StepKeepsInv` | controllers/globaldnsrecord/gcpglb.go:179-238 | Every step of the main goroutine and of the workers keeps the invariant: pending calls are safe, and a group found or made is there unless another worker has taken it away and not put it back |
| `GcpCreation.RunKeepsInv` | controllers/globaldnsrecord/gcpglb.go:179-238 | The invariant holds in every state of every run |
| `GcpCreation.SuccessCompletes` | controllers/globaldnsrecord/gcpglb.go:179-238 | Then check, groups, backend, proxy, address, rule and DNS entry are there as the record asks for them, also after an edit of the TTL, and refer to each other, with all backends when there is one worker |
| `GcpCreation.UnknownLookupBreaks` | controllers/globaldnsrecord/gcpglb.go:422-489 | A run in which the lookup of the proxy fails with another kind of error: a rule is put that refers to no proxy, and success is reported |
| `GcpCreation.ReplacingBreaks` | controllers/globaldnsrecord/gcpglb.go:585-629 | A run in which a worker deletes a group that the backend names |
| `GcpCreation.CompleteRests` | controllers/globaldnsrecord/gcpglb.go:179-238 | A run over complete resources changes nothing; with one worker at most the only call it issues is the update of the health check that the inverted comparison asks for every time |
| `GcpDeletion.DeletionIsWholeIff` | controllers/globaldnsrecord/gcpglb.go:66-177 | From a whole state, every run of the deletion keeps every state whole exactly when all errors are googleapi errors or nothing refers to anything |
| `GcpDeletion.IgnoredErrorBreaks` | controllers/globaldnsrecord/gcpglb.go:69-77 | Where something refers to something, a run exists in which one ignored error leaves a dangling reference |
| `GcpDeletion.SuccessDeletesIff` | controllers/globaldnsrecord/gcpglb.go:66-132 | A successful run has deleted DNS entry, rule, address, proxy, backend and check exactly when all errors are googleapi errors or there was nothing to delete |
| `GcpDeletion.TypedRunIsWhole` | controllers/globaldnsrecord/gcpglb.go:66-177 | With googleapi errors only, every state of every run is whole, and what was dropped without an error that counts is gone |
| `GcpDeletion.TypedRunDeletes` | controllers/globaldnsrecord/gcpglb.go:66-177 | Success then leaves nothing but the groups of other zones; a run can start from any whole state, and so after a failed one |
| `GcpProvider.Cloud.DeleteDNSRecord` | controllers/globaldnsrecord/gcpglb.go:66-177 | Is one of the runs of `GcpDeletion`; success means that the chain is through and every zone was tried and, where no endpoint has more than one zone, that no call failed with an error that counts |
| `GcpProvider.Cloud.Drop` | controllers/globaldnsrecord/gcpglb.go:69-77 | One call of the chain: only a googleapi error other than 404 stops it |
| `GcpProvider.Cloud.DropChain` | controllers/globaldnsrecord/gcpglb.go:66-132 | The six resources in the order that keeps references whole, stopping at the first error that counts |
| `GcpProvider.Cloud.DropGroups` | controllers/globaldnsrecord/gcpglb.go:134-177 | Tries the groups of all zones of all endpoints; an endpoint whose nodes cannot be listed spoils the result but stops nothing |
| `GcpProvider.Cloud.DropZones` | controllers/globaldnsrecord/gcpglb.go:149-170 | The groups of one endpoint are all tried; with one zone success means no error that counts |
| `GcpProvider.Cloud.EnsureDNSRecord` | controllers/globaldnsrecord/gcpglb.go:179-238 | Is one of the runs of `GcpCreation` to its end, with the outcome that the run reports; success completes all resources under the conditions of `SuccessCompletesIff` |
| `GcpProvider.Cloud.EnsureCheck` | controllers/globaldnsrecord/gcpglb.go:714-794 | Created, updated unless the comparison accepts it, or left; an error that is not a googleapi error ends the run |
| `GcpProvider.Cloud.EnsureGroups` | controllers/globaldnsrecord/gcpglb.go:564-686 | The workers as steps of the run: a failing one stops no other, one whose lookup fails with another kind of error ends the program; success only if all did well |
| `GcpProvider.Cloud.EnsureBackend` | controllers/globaldnsrecord/gcpglb.go:315-345 | Created, updated when its groups or other attributes differ, or left |
| `GcpProvider.Cloud.EnsureProxy` | controllers/globaldnsrecord/gcpglb.go:422-454 | Created, pointed at the backend again when it differs, or left; an unknown error is passed over and leaves the proxy unknown to the rule |
| `GcpProvider.Cloud.EnsureAddress` | controllers/globaldnsrecord/gcpglb.go:456-489 | An existing address is kept, a new one is read back, and an unknown error gives the empty address |
| `GcpProvider.Cloud.EnsureRule` | controllers/globaldnsrecord/gcpglb.go:372-409 | A differing rule is deleted and inserted again; an unknown error is passed over |
| `GcpProvider.Cloud.EnsureDns` | controllers/globaldnsrecord/gcpglb.go:256-282 | Created, patched when address or TTL differ, or left; an unknown error is passed over |
| `GcpProvider.Cloud.CollectBackends` | controllers/globaldnsrecord/gcpglb.go:565-686 | One worker leaves exactly its backend, several may leave fewer |
| `GcpProvider.Cloud.CreationHolds` | controllers/globaldnsrecord/gcpglb.go:179-238 | With googleapi errors only, every state since the run began is whole unless a group that the backend names needs replacing |
| `GcpProvider.Cloud.Work` | controllers/globaldnsrecord/gcpglb.go:585-664 | One worker: it finds the group, replaces a stale one or creates a missing one, and fills it |
| `GcpResources.DropIsSafeIff` | controllers/globaldnsrecord/gcpglb.go:66-177 | Dropping a resource keeps a whole state whole exactly when nothing refers to it: the order of deletion is forced |
| `GcpResources.ComparisonIsInverted` | controllers/globaldnsrecord/gcpglb.go:714-725 | compareHealthCheck never accepts a check that is as desired; among checks of the built form it accepts exactly those that differ in the HTTP part alone |
| `GcpResources.FirstLabelTellsResources` | controllers/globaldnsrecord/gcpglb.go:853-886 | Two records work on the same health check, groups, backend, proxy, address and rule exactly when the first labels of their DNS names are the same |
| `NetworkEndpoints.OuterJoin` | controllers/globaldnsrecord/gcpglb.go:688-712 | Lists exactly the instances that only one side has, once each, as that side has them |
| `NetworkEndpoints.JoinAligns` | controllers/globaldnsrecord/gcpglb.go:643-664 | Detaching and attaching the two lists gives exactly the desired instances and leaves the others as they were; ports end up right exactly when those of the instances that stay were right |
| `NetworkEndpoints.Align` | controllers/globaldnsrecord/gcpglb.go:630-664 | One pass: the lists are disjoint, both are empty exactly when the instances are as desired already, and so a second pass does nothing |
| `NetworkEndpoints.SharedZoneSettlesIff` | controllers/globaldnsrecord/gcpglb.go:884-886 | Two clusters with nodes in one zone share a group; their passes undo each other unless both want the same instances |
| `NetworkEndpoints.AttachAdds` | controllers/globaldnsrecord/gcpglb.go:654-664 | Attaching adds exactly the listed instances |
| `Firewalls.Project.EnsureFirewallRules` | controllers/globaldnsrecord/gcpglb.go:811-840 | A successful pass inserts exactly one missing rule and stops, or finds none missing and leaves every rule with the protocol, direction, ranges, tags and network that health checks need; other rules stay; no failure makes more rules missing; if no call fails it succeeds |
| `Firewalls.PassesSettle` | controllers/globaldnsrecord/gcpglb.go:811-840 | With k rules missing, k + 1 successful passes settle every rule in any order, and after fewer than k passes some rule is still missing |
| `Firewalls.EachPassInsertsOne` | controllers/globaldnsrecord/gcpglb.go:811-840 | After i passes i fewer rules are missing |
| `Firewalls.PassShrinks` | controllers/globaldnsrecord/gcpglb.go:821-828 | A pass lowers the number of missing rules by one until it is zero |
| `Firewalls.NameForInjective` | controllers/globaldnsrecord/gcpglb.go:861-863 | Different clusters need different rules |
| `Firewalls.Project.EnsureRule` | controllers/globaldnsrecord/gcpglb.go:813-838 | One rule: inserted if missing, updated if it does not match, and not written if it does; a lookup that fails ends the pass |
| `Firewalls.DesiredLets` | controllers/globaldnsrecord/gcpglb.go:796-809 | The desired rule lets TCP from the two ranges of the health checkers in to the workers of the cluster, and the comparison accepts exactly such rules |
| `DiscoveryOrder.OrderIndependentIff` | controllers/globalroutediscovery/globalroutediscovery_controller.go:154-228 | Whatever the order of routes and of groups, the same records are written, up to the order of endpoints, exactly when TLS agrees within each group where it matters and groups that share a host have the same record |
| `DiscoveryOrder.VisitingOrderIff` | controllers/globalroutediscovery/globalroutediscovery_controller.go:217-228 | Visiting the groups in another order changes nothing exactly when groups that share a host have the same record |
| `DiscoveryOrder.LastGroupDecides` | controllers/globalroutediscovery/globalroutediscovery_controller.go:217-228 | For every group there is an order of visits after which its host has its record |
| `DiscoveryOrder.DiscoveryIsOrderIndependent` | controllers/globalroutediscovery/globalroutediscovery_controller.go:154-228 | Listing the clusters in another order changes neither success nor, for unambiguous routes, any record but for the order of its endpoints |
| `DiscoveryOrder.SuccessIsOrderIndependent` | controllers/globalroutediscovery/globalroutediscovery_controller.go:154-228 | Whether a run succeeds does not depend on the order of the clusters |
| `DiscoveryOrder.EveryRouteIsServed` | controllers/globalroutediscovery/globalroutediscovery_controller.go:211-228 | The record of a route's host has an endpoint with the cluster, credentials and service of the route, and its endpoints are those of the routes with its key, one for one |
| `DiscoveryOrder.QualifyingIff` | controllers/globalroutediscovery/globalroutediscovery_controller.go:157-207 | Collection succeeds exactly when every cluster does |
| `DiscoveryOrder.QualifyingPermutes` | controllers/globalroutediscovery/globalroutediscovery_controller.go:157-207 | The order of clusters affects neither success nor the routes found |
| `DiscoveryOrder.ConsistencyPermutes` | controllers/globalroutediscovery/globalroutediscovery_controller.go:241-266 | Whether a group is accepted does not depend on the order of its routes |
| `DiscoveryOrder.FirstRouteIsArbitraryIff` | controllers/globalroutediscovery/globalroutediscovery_controller.go:295-297 | Which route comes first does not matter exactly when TLS agrees wherever there is an HTTP probe |
| `DiscoveryOrder.EndpointsPermute` | controllers/globalroutediscovery/globalroutediscovery_controller.go:281-294 | Reordering a group reorders the endpoints of its record |
| `RouteDiscovery.GroupsPartition` | controllers/globalroutediscovery/globalroutediscovery_controller.go:211-215 | Each route is in the group of its key as often as it was found, and in no other group |
| `RouteDiscovery.Group` | controllers/globalroutediscovery/globalroutediscovery_controller.go:211-215 | The grouping loop builds exactly the groups by key |
| `RouteDiscovery.Collect` | controllers/globalroutediscovery/globalroutediscovery_controller.go:154-207 | All qualifying routes of all clusters, or the first failure |
| `RouteDiscovery.GetGlobalDNSRecord` | controllers/globalroutediscovery/globalroutediscovery_controller.go:233-299 | Comparing each route with the first accepts a group exactly when all its routes agree on host, policy, TTL and probe; the record has the host, TTL, policy and zone, a probe moved to the route, and one endpoint per route with its cluster, credentials and service |
| `RouteDiscovery.GetHealthCheck` | controllers/globalroutediscovery/globalroutediscovery_controller.go:301-335 | The probe moved to the route: its host, HTTPS and 443 or HTTP and 80, the path and timing as they were, and all headers but those named host |
| `RouteDiscovery.HealthCheckIsStable` | controllers/globalroutediscovery/globalroutediscovery_controller.go:301-335 | Moving it again changes nothing, and the timing of the probe is kept |
| `RouteDiscovery.Discover` | controllers/globalroutediscovery/globalroutediscovery_controller.go:154-228 | A run succeeds exactly when every cluster can be read, every group agrees and every write succeeds; each group then has a record under its host, and each record says what a group says, field by field |
| `RouteDiscovery.WriteRecords` | controllers/globalroutediscovery/globalroutediscovery_controller.go:217-228 | Succeeds exactly when every group is accepted and written; each record is that of a group with its host; later ones overwrite earlier ones |
| `RouteDiscovery.CollectCluster` | controllers/globalroutediscovery/globalroutediscovery_controller.go:163-201 | Succeeds exactly when each route has an info, and then lists these position by position |
| `RouteDiscovery.InfosAreThoseOfRoutes` | controllers/globalroutediscovery/globalroutediscovery_controller.go:163-201 | The infos of a cluster are those of its routes, position by position, and there are any exactly when each route has one |
| `RouteDiscovery.InfoIff` | controllers/globalroutediscovery/globalroutediscovery_controller.go:165-200 | A route has an info exactly when probe, service and TTL can be read; its own policy and TTL come before the defaults |
| `RouteDiscovery.RecordSays` | controllers/globalroutediscovery/globalroutediscovery_controller.go:269-299 | The record of a group says what its first route says and has an endpoint for each route |
| `RouteDiscovery.HealthCheckIsMoved` | controllers/globalroutediscovery/globalroutediscovery_controller.go:301-335 | The probe is moved field by field |
| `RouteDiscovery.RecordsSay` | controllers/globalroutediscovery/globalroutediscovery_controller.go:217-228 | In whatever order the groups are visited, each has a record under its host and each record is that of a group |
| `RouteDiscovery.EarlierClustersFirst` | controllers/globalroutediscovery/globalroutediscovery_controller.go:154-207 | What the first clusters have comes first |

## Left out

- Azure Traffic Manager and External DNS providers, the zone controller and the watch handlers: they would only add easier members.
- Client construction, credentials, events, status conditions and logging: plumbing without a hard property.
- JSON marshalling of documents: the model works on structured documents; nil and empty collections are the same.
- Policy versions, pagination of listings, and splitting a health check location at `/`: identifiers hold no `/`.
- Health checks with a host but no address, which make the Go code dereference nil.
- Set String, Pop, Pop2, Has, HasAny, Clear, IsEmpty and List: easy members.
- findProbeForRoute, findQualifyingRoutes and findIngressControllerServiceForRoute: what they return is an input of the model.
- getDesiredNepsByZone: the nodes of a zone are an input of the model.
- Garbage collection of records whose routes have disappeared: the code has none.
- What the provider of a zone that is elsewhere does there; `Lifecycle.Reconcile` says what then happens in this account.
- Concurrent reconciles of several records: the controller has one worker, so the runs of `AllRecords` follow one another.
- GcpProvider.Cloud.EnsureGroups: the workers run one after the other; `GcpCreation` has their interleavings.
- Attributes of Google resources other than their references and the health check: a resource has them as the record asks or not (`GcpResources.Kind`), without their values.
- Google firewall rules are a loop of their own (`Firewalls`) and not part of the runs of `GcpCreation`.
- GcpProvider.Cloud.DropGroups: the workers run one after the other; their interleavings are in `FanOut`.
- GcpProvider.Cloud.DropZones: where an endpoint has several zones, whether an error is lost is a free choice; `FanOut.NilTrustedIff` says when it can be.
