/** What successful deletions and clean-ups of the Route53 provider can leave behind
    (controllers/globaldnsrecord/route53provider.go:268-341, 694-742). */
module Leftovers {
  import opened Prelude
  import opened Documents
  import opened Route53Store
  import opened CheckDeletion

  function WithoutInstances(s: Store, p: Id): (t: Store) {
    s.(instances := map i | i in s.instances && s.instances[i].policy != p :: s.instances[i])
  }

  /** A successful deleteTrafficPolicy can lead from `s` to `t`: the instances are gone, the loop over the health
      checks of the document is a successful run, and the policy is gone. */
  ghost predicate Undone(typed: bool, s: Store, t: Store, p: Id) {
    && p in s.policies
    && exists r :: UndoneBy(typed, s, t, p, r)
  }

  ghost predicate UndoneBy(typed: bool, s: Store, t: Store, p: Id, r: Deletion)
    requires p in s.policies
  {
    var ids := ChecksToDelete(s.policies[p].document);
    && Runs(typed, ids, r) && Succeeded(ids, r) && r.states[0] == WithoutInstances(s, p)
    && t == Apply(r.states[|r.replies|], DeletePolicy(p))
  }

  /** A successful clean-up for the owner can lead from `s` to `t`. */
  ghost predicate CleanUpCanLeave(typed: bool, own: Owner, s: Store, t: Store) {
    || (NoPolicyOf(own, s) && t == WithoutChecks(own, s))
    || exists p, middle :: OwnPolicy(own, s, p) && Undone(typed, s, middle, p) && t == WithoutChecks(own, middle)
  }

  /** Deleting the instances of the policy leaves exactly the store without them. */
  lemma InstancesGone(s: Store, t: Store, p: Id)
    requires p in s.policies && t == s.(instances := t.instances) && Dismantled(s, t, p) && NoInstanceOf(t, p)
    ensures t == WithoutInstances(s, p)
  {
    assert t.instances == WithoutInstances(s, p).instances;
  }

  /** The three phases of deleteTrafficPolicy, put together. */
  lemma UndoneByPhases(typed: bool, s: Store, t: Store, u: Store, p: Id, r: Deletion)
    requires p in s.policies && t == WithoutInstances(s, p)
    requires StageOf(typed, t, u, ChecksToDelete(s.policies[p].document), r) == Through
    ensures Undone(typed, s, Apply(u, DeletePolicy(p)), p)
  {
    assert Key(0);
    assert UndoneBy(typed, s, Apply(u, DeletePolicy(p)), p, r);
  }

  /** Each run of the loop only deletes, and deletes nothing but what it was to delete. */
  lemma {:induction false} RunOnlyDeletes(typed: bool, ids: seq<Id>, r: Deletion, k: nat)
    requires Runs(typed, ids, r) && k <= |r.replies|
    ensures r.states[k] == r.states[0].(healthChecks := r.states[k].healthChecks)
    ensures forall h | h in r.states[k].healthChecks ::
              h in r.states[0].healthChecks && r.states[k].healthChecks[h] == r.states[0].healthChecks[h]
    ensures forall h | h in r.states[0].healthChecks && h !in ids :: h in r.states[k].healthChecks
  {
    if k > 0 {
      RunOnlyDeletes(typed, ids, r, k - 1);
      assert Possible(typed, r.states[k - 1], DeleteHealthCheck(ids[k - 1]), r.replies[k - 1], r.states[k]);
      assert ids[k - 1] in ids;
    }
  }

  /** What is undone is the policy, its instances and at most the health checks of its document. */
  lemma UndoneTouches(typed: bool, s: Store, t: Store, p: Id)
    requires Undone(typed, s, t, p)
    ensures t.policies == s.policies - {p} && t.instances == WithoutInstances(s, p).instances && t.issued == s.issued
    ensures forall h | h in t.healthChecks :: h in s.healthChecks && t.healthChecks[h] == s.healthChecks[h]
    ensures forall h | h in s.healthChecks && h !in ChecksToDelete(s.policies[p].document) :: h in t.healthChecks
  {
    var r :| UndoneBy(typed, s, t, p, r);
    RunOnlyDeletes(typed, ChecksToDelete(s.policies[p].document), r, |r.replies|);
  }

  /** While all errors are AWS errors it is exactly that. */
  lemma UndoneExactly(s: Store, t: Store, p: Id)
    requires Undone(true, s, t, p) && s.policies[p].document.rules.Keys == {"main"}
    ensures t == WithoutPolicy(s, p)
  {
    var ids := ChecksToDelete(s.policies[p].document);
    var r :| UndoneBy(true, s, t, p, r);
    TypedRunDeletes(ids, r, |ids|);
    assert ids[..|ids|] == ids;
    CheckIdsOfDocument(s.policies[p].document);
  }

  /** A run in which every call is answered well. */
  lemma SmoothRun(typed: bool, s: Store, ids: seq<Id>) returns (r: Deletion)
    ensures Runs(typed, ids, r) && Succeeded(ids, r) && r.states[0] == s
  {
    r := Deletion(seq(|ids|, _ => Done), seq(|ids| + 1, k requires 0 <= k <= |ids| =>
                    s.(healthChecks := s.healthChecks - ToSet(ids[..k]))));
    assert s.healthChecks - ToSet(ids[..0]) == s.healthChecks by {
      assert ids[..0] == [];
    }
    forall i | 0 <= i < |ids|
      ensures Possible(typed, r.states[i], DeleteHealthCheck(ids[i]), r.replies[i], r.states[i + 1])
    {
      assert ids[..i + 1] == ids[..i] + [ids[i]];
      assert ToSet(ids[..i + 1]) == ToSet(ids[..i]) + {ids[i]};
    }
  }

  /** Some clean-up succeeds; where errors can be ignored, one that leaves all health checks of the document. */
  lemma SomeCleanUp(typed: bool, own: Owner, s: Store, p: Id) returns (t: Store)
    requires OwnPolicy(own, s, p)
    ensures CleanUpCanLeave(typed, own, s, t)
    ensures forall h | h in s.healthChecks && !OwnCheck(own, s, h) && h !in ChecksToDelete(s.policies[p].document) ::
              h in t.healthChecks && t.healthChecks[h] == s.healthChecks[h]
    ensures !typed ==> forall h | h in s.healthChecks && !OwnCheck(own, s, h) ::
              h in t.healthChecks && t.healthChecks[h] == s.healthChecks[h]
  {
    var ids, begin := ChecksToDelete(s.policies[p].document), WithoutInstances(s, p);
    var r: Deletion;
    if typed {
      r := SmoothRun(typed, begin, ids);
    } else {
      r := IgnoredErrors(begin, ids);
    }
    RunOnlyDeletes(typed, ids, r, |r.replies|);
    var middle := Apply(r.states[|r.replies|], DeletePolicy(p));
    assert UndoneBy(typed, s, middle, p, r);
    assert Undone(typed, s, middle, p);
    t := WithoutChecks(own, middle);
  }

  /** Clean-up leaves no policy of the record's name and brings no health check back. */
  lemma CleanUpLeavesNoPolicy(typed: bool, own: Owner, s: Store, t: Store)
    requires CleanUpCanLeave(typed, own, s, t) && OnePolicy(own, s)
    ensures NoPolicyOf(own, t)
    ensures forall h | h in t.healthChecks :: h in s.healthChecks && t.healthChecks[h] == s.healthChecks[h]
  {
    if NoPolicyOf(own, s) {
      assert forall q | OwnPolicy(own, t, q) :: OwnPolicy(own, s, q);
    } else {
      var p, middle :| OwnPolicy(own, s, p) && Undone(typed, s, middle, p) && t == WithoutChecks(own, middle);
      UndoneTouches(typed, s, middle, p);
      assert forall q | OwnPolicy(own, t, q) :: OwnPolicy(own, s, q) && q != p;
    }
  }

  lemma TypedCleanUpIsExact(own: Owner, s: Store, t: Store)
    requires CleanUpCanLeave(true, own, s, t) && OnePolicy(own, s) && MainRulesOnly(own, s)
    ensures t == Cleaned(own, s)
  {
    if NoPolicyOf(own, s) {
      CleanedWithoutPolicy(own, s);
    } else {
      var p, middle :| OwnPolicy(own, s, p) && Undone(true, s, middle, p) && t == WithoutChecks(own, middle);
      UndoneExactly(s, middle, p);
      CleanedWithPolicy(own, s, p);
    }
  }

  /** Each health check of the owner's host is named by a policy of the owner. */
  ghost predicate AllNamed(own: Owner, s: Store) {
    forall h | OwnCheck(own, s, h) :: NamedByOwn(own, s, h)
  }

  ghost predicate NoCheckOf(own: Owner, s: Store) {
    forall h :: !OwnCheck(own, s, h)
  }

  /** Some clean-up after the edit leaves a health check of the old host. */
  lemma HostEditLeaves(typed: bool, own: Owner, s: Store, host: Option<string>, h: Id) returns (t: Store)
    requires Inv(own, s) && host != own.host && OwnCheck(own, s, h) && (typed ==> !NamedByOwn(own, s, h))
    ensures CleanUpCanLeave(typed, own.(host := host), s, t) && OwnCheck(own, t, h)
  {
    var moved := own.(host := host);
    if p :| OwnPolicy(own, s, p) {
      CheckIdsOfDocument(s.policies[p].document);
      assert h in ChecksToDelete(s.policies[p].document) ==> NamedByOwn(own, s, h) by {
        if h in ChecksToDelete(s.policies[p].document) {
          assert h in ToSet(ChecksToDelete(s.policies[p].document));
        }
      }
      t := SomeCleanUp(typed, moved, s, p);
    } else {
      assert NoPolicyOf(moved, s) by {
        assert forall q :: OwnPolicy(moved, s, q) <==> OwnPolicy(own, s, q);
      }
      t := WithoutChecks(moved, s);
    }
  }

  /** A user who edits the probed host makes later clean-ups look for the new host. Every successful clean-up then
      leaves nothing of the record exactly when there is no health check of the old host, or all of them are
      named by the record's policy and all errors are AWS errors. */
  lemma HostEditLeavesNothingIff(typed: bool, own: Owner, s: Store, host: Option<string>)
    requires Inv(own, s) && host != own.host
    ensures (forall t | CleanUpCanLeave(typed, own.(host := host), s, t) :: !Owns(own, t)) <==>
            NoCheckOf(own, s) || (typed && AllNamed(own, s))
  {
    var moved := own.(host := host);
    if NoCheckOf(own, s) || (typed && AllNamed(own, s)) {
      forall t | CleanUpCanLeave(typed, moved, s, t) ensures !Owns(own, t) {
        HostEditLeavesNothing(typed, own, s, host, t);
      }
    } else {
      var h :| OwnCheck(own, s, h) && (typed ==> !NamedByOwn(own, s, h));
      var t := HostEditLeaves(typed, own, s, host, h);
      assert Owns(own, t);
    }
  }

  /** Only the health checks tell an owner that probes another host apart. */
  lemma MovedAlike(own: Owner, host: Option<string>, s: Store)
    ensures var moved := own.(host := host);
      && (forall q :: OwnPolicy(moved, s, q) <==> OwnPolicy(own, s, q))
      && (NoPolicyOf(moved, s) <==> NoPolicyOf(own, s))
      && (OnePolicy(own, s) ==> OnePolicy(moved, s)) && (MainRulesOnly(own, s) ==> MainRulesOnly(moved, s))
      && (forall h :: NamedByOwn(moved, s, h) <==> NamedByOwn(own, s, h))
  {
    var moved := own.(host := host);
    assert forall q :: OwnPolicy(moved, s, q) <==> OwnPolicy(own, s, q);
  }

  lemma NamedChecksGo(own: Owner, s: Store, host: Option<string>)
    requires AllNamed(own, s)
    ensures NoCheckOf(own, Cleaned(own.(host := host), s))
  {
    MovedAlike(own, host, s);
    var t := Cleaned(own.(host := host), s);
    assert forall h | OwnCheck(own, s, h) :: h !in t.healthChecks;
  }

  lemma NothingLeft(own: Owner, t: Store)
    requires NoPolicyOf(own, t) && NoCheckOf(own, t)
    ensures !Owns(own, t)
  {
  }

  lemma HostEditLeavesNothing(typed: bool, own: Owner, s: Store, host: Option<string>, t: Store)
    requires OnePolicy(own, s) && MainRulesOnly(own, s) && CleanUpCanLeave(typed, own.(host := host), s, t)
    requires NoCheckOf(own, s) || (typed && AllNamed(own, s))
    ensures !Owns(own, t)
  {
    var moved := own.(host := host);
    assert OnePolicy(moved, s) && MainRulesOnly(moved, s) by {
      MovedAlike(own, host, s);
    }
    CleanUpLeavesNoPolicy(typed, moved, s, t);
    assert NoPolicyOf(own, t) by {
      MovedAlike(own, host, t);
    }
    if NoCheckOf(own, s) {
      assert forall h | OwnCheck(own, t, h) :: OwnCheck(own, s, h);
    } else {
      TypedCleanUpIsExact(moved, s, t);
      NamedChecksGo(own, s, host);
    }
    NothingLeft(own, t);
  }
}
