/** Keeping one remote manager per needed cluster endpoint
    (controllers/globaldnsrecord/globaldnsrecord_controller.go:390-439, and the same algorithm in
    controllers/globalroutediscovery/globalroutediscovery_controller.go:445-494). */
module RemoteManagers {
  import opened Prelude

  /** One listed resource: whether it is being deleted, and the keys of the clusters it refers to. */
  datatype Listed = Listed(deleting: bool, keys: seq<string>)

  /** The keys that resources not being deleted refer to. */
  function Needed(instances: seq<Listed>): (keys: set<string>) {
    set i, k | 0 <= i < |instances| && !instances[i].deleting && k in instances[i].keys :: k
  }

  /** Some resource that is not being deleted refers to the key. */
  ghost predicate IsNeeded(instances: seq<Listed>, k: string) {
    exists i :: 0 <= i < |instances| && !instances[i].deleting && k in instances[i].keys
  }

  class RemoteManager {
    var running: bool

    constructor ()
      ensures !running
    {
      running := false;
    }

    method Start()
      modifies this
      ensures running
    {
      running := true;
    }

    method Stop()
      modifies this
      ensures !running
    {
      running := false;
    }
  }

  class Controller {
    const reliable: bool      // whether every manager can be created
    var managers: map<string, RemoteManager>
    ghost var created: set<RemoteManager>

    constructor (reliable: bool)
      ensures Valid() && managers == map[] && created == {} && this.reliable == reliable
    {
      this.reliable, managers, created := reliable, map[], {};
    }

    /** Every key has its own manager. */
    ghost predicate Distinct(m: map<string, RemoteManager>) {
      forall k, l | k in m && l in m && m[k] == m[l] :: k == l
    }

    /** The managers that run are exactly those in the map. */
    ghost predicate Valid()
      reads this, created
    {
      && Distinct(managers)
      && (forall k | k in managers :: managers[k] in created && managers[k].running)
      && (forall r | r in created && r.running :: exists k :: k in managers && managers[k] == r)
    }

    /** The keys needed, collected by two nested loops. */
    method CollectNeeded(instances: seq<Listed>) returns (needed: set<string>)
      ensures needed == Needed(instances) && forall k :: k in needed <==> IsNeeded(instances, k)
    {
      needed := {};
      for i := 0 to |instances|
        invariant needed == Needed(instances[..i])
      {
        assert instances[..i + 1] == instances[..i] + [instances[i]];
        if !instances[i].deleting {
          ghost var before := needed;
          for j := 0 to |instances[i].keys|
            invariant needed == before + ToSet(instances[i].keys[..j])
          {
            needed := needed + {instances[i].keys[j]};
          }
          assert instances[i].keys[..|instances[i].keys|] == instances[i].keys;
          assert needed == before + ToSet(instances[i].keys);
        }
      }
      assert instances[..|instances|] == instances;
    }

    /** Stops the managers of the given keys; their removal from the map is deferred. */
    method StopAll(keys: set<string>) returns (deferred: seq<string>)
      requires Valid() && keys <= managers.Keys
      modifies created
      ensures Enumerates(deferred, keys)
      ensures forall k | k in managers :: managers[k].running <==> k !in keys
      ensures forall r | r in created && r.running :: old(r.running)
    {
      var order := AnyOrder(keys);
      deferred := [];
      for i := 0 to |order|
        invariant deferred == order[..i]
        invariant forall k | k in managers :: managers[k].running <==> k !in order[..i]
        invariant forall r | r in created && r.running :: old(r.running)
      {
        deferred := deferred + [order[i]];
        managers[order[i]].Stop();
      }
      assert order[..|order|] == order;
    }

    /** The managers of `keys` were created and came on top of those in `was`. */
    ghost predicate Started(was: map<string, RemoteManager>, now: map<string, RemoteManager>, made: set<RemoteManager>,
                            created: set<RemoteManager>, keys: set<string>)
    {
      forall k {:trigger Key(k)} :: Key(k) ==>
        && now.Keys == was.Keys + keys && made <= created && Distinct(now)
        && (forall k | k in was :: now[k] == was[k] && now[k] in made)
        && (forall k | k in now && k !in was :: now[k] in created && now[k] !in made)
        && (forall r | r in created && r !in made :: exists k :: k in keys && k in now && now[k] == r)
    }

    lemma NoneStarted(was: map<string, RemoteManager>, made: set<RemoteManager>)
      requires Distinct(was) && forall k | k in was :: was[k] in made
      ensures Started(was, was, made, made, {})
    {
    }

    lemma OneMoreStarted(was: map<string, RemoteManager>, now: map<string, RemoteManager>, made: set<RemoteManager>,
                         created: set<RemoteManager>, keys: set<string>, key: string, manager: RemoteManager)
      requires key !in keys && key !in was && manager !in created && Started(was, now, made, created, keys)
      ensures Started(was, now[key := manager], made, created + {manager}, keys + {key})
    {
      assert Key(0);
      var next := now[key := manager];
      assert forall k | k in now :: next[k] == now[k] && now[k] in created;
      forall r | r in created && r !in made ensures exists k :: k in keys + {key} && k in next && next[k] == r {
        var k :| k in keys && k in now && now[k] == r;
        assert k in keys + {key} && next[k] == r;
      }
      assert key in keys + {key} && next[key] == manager;
    }

    lemma StartedMeans(was: map<string, RemoteManager>, now: map<string, RemoteManager>, made: set<RemoteManager>,
                       created: set<RemoteManager>, some: set<string>, keys: set<string>)
      requires Started(was, now, made, created, some) && some <= keys && forall k | k in was :: was[k] in made
      ensures now.Keys <= was.Keys + keys && (some == keys ==> now.Keys == was.Keys + keys)
      ensures Distinct(now) && made <= created && forall k | k in now :: now[k] in created
      ensures forall k | k in was :: k in now && now[k] == was[k]
      ensures forall k | k in now && k !in was :: k in keys && now[k] in created && now[k] !in made
      ensures forall r | r in created && r !in made :: exists k :: k in keys && k in now && now[k] == r
    {
      assert Key(0);
    }

    /** Creates and starts a manager, or fails to create it. */
    method StartOne(key: string) returns (manager: RemoteManager?)
      modifies this
      ensures manager == null ==> managers == old(managers) && created == old(created)
      ensures manager != null ==>
        && fresh(manager) && manager.running
        && managers == old(managers)[key := manager] && created == old(created) + {manager}
      ensures reliable ==> manager != null
    {
      var fails: bool := *;
      if fails && !reliable {
        return null;
      }
      var made := new RemoteManager();
      managers := managers[key := made];
      created := created + {made};
      made.Start();
      manager := made;
    }

    /** Creates and starts the managers of the given keys until one cannot be created. */
    method StartAll(keys: set<string>) returns (ok: bool)
      requires keys !! managers.Keys && Distinct(managers)
      requires forall k | k in managers :: managers[k] in created
      modifies this
      ensures managers.Keys <= old(managers.Keys) + keys && (ok ==> managers.Keys == old(managers.Keys) + keys)
      ensures forall k | k in old(managers) :: k in managers && managers[k] == old(managers[k])
      ensures forall k | k in managers && k !in old(managers) :: k in keys && fresh(managers[k]) && managers[k].running
      ensures Distinct(managers) && old(created) <= created
      ensures forall k | k in managers :: managers[k] in created
      ensures forall r | r in created && r !in old(created) :: fresh(r) && exists k ::
        k in keys && k in managers && managers[k] == r
      ensures reliable ==> ok
    {
      var order := AnyOrder(keys);
      NoneStarted(managers, created);
      for i := 0 to |order|
        invariant Started(old(managers), managers, old(created), created, ToSet(order[..i]))
        invariant forall r | r in created && r !in old(created) :: fresh(r) && r.running
      {
        ghost var before, made := managers, created;
        var manager := StartOne(order[i]);
        if manager == null {
          StartedMeans(old(managers), managers, old(created), created, ToSet(order[..i]), keys);
          return false;
        }
        OneMoreStarted(old(managers), before, old(created), made, ToSet(order[..i]), order[i], manager);
        assert ToSet(order[..i + 1]) == ToSet(order[..i]) + {order[i]};
      }
      assert order[..|order|] == order && ToSet(order) == keys;
      StartedMeans(old(managers), managers, old(created), created, keys, keys);
      return true;
    }

    /** ensureRemoteManagers. `listed` is None when the listing fails. The deferred deletions run on both
        ways out, last one first. */
    method EnsureRemoteManagers(listed: Option<seq<Listed>>) returns (ok: bool)
      requires Valid()
      modifies this, created
      ensures Valid()
      ensures listed.None? ==> !ok && managers == old(managers)
      ensures listed.Some? && reliable ==> ok
      ensures listed.Some? ==> managers.Keys <= Needed(listed.value)
      ensures ok ==> managers.Keys == Needed(listed.value) && forall k :: k in managers <==> IsNeeded(listed.value, k)
      ensures listed.Some? ==>
        forall k | k in old(managers) && k in Needed(listed.value) :: k in managers && managers[k] == old(managers[k])
      ensures listed.Some? ==> forall k | k in old(managers) && k !in Needed(listed.value) :: !old(managers[k]).running
      ensures listed.Some? ==> Needed(listed.value) - managers.Keys <= Needed(listed.value) - old(managers.Keys)
    {
      if listed.None? {
        return false;
      }
      var needed := CollectNeeded(listed.value);
      var toBeAdded, toBeRemoved := needed - managers.Keys, managers.Keys - needed;
      var deferred := StopAll(toBeRemoved);
      ok := StartAll(toBeAdded);
      ghost var full := managers;
      RunDeferred(deferred);
      forall r | r in created && r.running ensures exists k :: k in managers && managers[k] == r {
        if r in old(created) {
          var k :| k in old(managers) && old(managers[k]) == r;
          assert k !in toBeRemoved;
          assert k in managers && managers[k] == r;
        } else {
          var k :| k in toBeAdded && k in full && full[k] == r;
          assert k in managers && managers[k] == r;
        }
      }
    }

    /** The deferred deletions, last one first. */
    method RunDeferred(deferred: seq<string>)
      modifies `managers
      ensures managers == old(managers) - ToSet(deferred)
    {
      var rest := deferred;
      while rest != []
        invariant rest <= deferred && managers == old(managers) - ToSet(deferred[|rest|..])
        decreases |rest|
      {
        var last := |rest| - 1;
        managers := managers - {rest[last]};
        assert deferred[last..] == [rest[last]] + deferred[last + 1..];
        rest := rest[..last];
      }
      assert deferred[0..] == deferred;
    }
  }
}
