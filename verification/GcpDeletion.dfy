/** deleteDNSRecord of the Google provider as runs: one call after the other, each answered in any possible
    way (controllers/globaldnsrecord/gcpglb.go:66-177). */
module GcpDeletion {
  import opened Prelude
  import opened GcpResources

  /** The calls that are made one after the other, before the zonal groups. */
  function Link(k: nat): (c: Change)
    requires k < LINKS
  {
    match k
    case 0 => DropDns
    case 1 => DropRule
    case 2 => DropAddress
    case 3 => DropProxy
    case 4 => DropBackend
    case _ => DropCheck
  }

  const LINKS: nat := 6

  /** A run, complete or stopped: the calls planned, the answers so far, and the states gone through. */
  datatype Deletion = Deletion(plan: seq<Change>, replies: seq<Reply>, states: seq<Resources>)

  /** The deletion of the chain stops at a googleapi error other than 404 and ignores every other error. The
      groups are dropped after the chain, in any order and whatever becomes of the others. */
  ghost predicate Runs(typed: bool, r: Deletion) {
    && LINKS <= |r.plan| && |r.replies| <= |r.plan| && |r.states| == |r.replies| + 1
    && (forall i :: 0 <= i < LINKS ==> r.plan[i] == Link(i))
    && (forall i :: LINKS <= i < |r.plan| ==> r.plan[i].DropGroup?)
    && (forall i {:trigger r.replies[i]} :: 0 <= i < |r.replies| ==>
          Possible(typed, r.states[i], r.plan[i], r.replies[i], r.states[i + 1]))
    && (forall i :: 0 <= i < LINKS && i < |r.replies| - 1 ==> !r.replies[i].ApiError?)
  }

  function Chain(): (plan: seq<Change>)
    ensures |plan| == LINKS && forall k :: 0 <= k < LINKS ==> plan[k] == Link(k)
  {
    seq(LINKS, k requires 0 <= k < LINKS => Link(k))
  }

  function Begin(s: Resources): (r: Deletion) {
    Deletion(Chain(), [], [s])
  }

  lemma BeginRuns(typed: bool, s: Resources)
    ensures Runs(typed, Begin(s))
  {
  }

  /** The run with one more answer. */
  function Answered(r: Deletion, reply: Reply, t: Resources): (q: Deletion) {
    r.(replies := r.replies + [reply], states := r.states + [t])
  }

  ghost predicate GoesOn(r: Deletion) {
    |r.replies| < |r.plan| && (0 < |r.replies| <= LINKS ==> !r.replies[|r.replies| - 1].ApiError?)
  }

  lemma AnsweredRuns(typed: bool, r: Deletion, reply: Reply, t: Resources)
    requires Runs(typed, r) && GoesOn(r)
    requires Possible(typed, r.states[|r.replies|], r.plan[|r.replies|], reply, t)
    ensures Runs(typed, Answered(r, reply, t))
  {
    var q := Answered(r, reply, t);
    forall i | 0 <= i < |q.replies|
      ensures Possible(typed, q.states[i], q.plan[i], q.replies[i], q.states[i + 1])
    {
      assert i < |r.replies| ==> q.replies[i] == r.replies[i];
    }
  }

  /** The run with one more group to drop. */
  function Planned(r: Deletion, zone: string): (q: Deletion) {
    r.(plan := r.plan + [DropGroup(zone)])
  }

  lemma PlannedRuns(typed: bool, r: Deletion, zone: string)
    requires Runs(typed, r)
    ensures Runs(typed, Planned(r, zone))
  {
  }

  // ----- when all errors are googleapi errors

  /** What the first `k` calls of the chain drop is gone. */
  ghost predicate Gone(s: Resources, k: nat) {
    && (k > 0 ==> s.dns.None?)
    && (k > 1 ==> s.rule.None?)
    && (k > 2 ==> s.address.None?)
    && (k > 3 ==> !s.proxy)
    && (k > 4 ==> s.backend.None?)
    && (k > 5 ==> s.check.None?)
  }

  lemma ChainStep(s: Resources, k: nat, reply: Reply, t: Resources)
    requires Integrity(s) && Gone(s, k) && k < LINKS && Possible(true, s, Link(k), reply, t)
    ensures Integrity(t) && Gone(t, k) && (!reply.ApiError? ==> Gone(t, k + 1)) && t.groups == s.groups
    ensures t.odd == s.odd
  {
  }

  lemma GroupStep(s: Resources, c: Change, reply: Reply, t: Resources)
    requires Integrity(s) && Gone(s, LINKS) && c.DropGroup? && Possible(true, s, c, reply, t)
    ensures Integrity(t) && Gone(t, LINKS) && t == s.(groups := t.groups)
    ensures s.groups - {c.zone} <= t.groups <= s.groups && (!reply.ApiError? ==> c.zone !in t.groups)
  {
  }

  /** Every state of a run is whole, and what was dropped without an error is gone. */
  lemma {:induction false} TypedRunIsWhole(r: Deletion, k: nat)
    requires Runs(true, r) && Integrity(r.states[0]) && k <= |r.replies|
    ensures Integrity(r.states[k]) && r.states[k].odd == r.states[0].odd
    ensures (k > 0 ==> !r.replies[k - 1].ApiError? || k > LINKS) ==> Gone(r.states[k], if k < LINKS then k else LINKS)
    ensures 0 < k <= LINKS ==> Gone(r.states[k], k - 1)
  {
    if k > 0 {
      TypedRunIsWhole(r, k - 1);
      var s, t, reply := r.states[k - 1], r.states[k], r.replies[k - 1];
      assert Possible(true, s, r.plan[k - 1], reply, t);
      if k <= LINKS {
        assert r.plan[k - 1] == Link(k - 1);
        ChainStep(s, k - 1, reply, t);
      } else {
        GroupStep(s, r.plan[k - 1], reply, t);
      }
    }
  }

  /** A run that reached the end of its plan, with none of the answers an error that it reports. */
  ghost predicate Succeeded(r: Deletion) {
    |r.replies| == |r.plan| && forall i :: 0 <= i < |r.replies| ==> !r.replies[i].ApiError?
  }

  ghost function ZonesOf(plan: seq<Change>): (zones: set<string>) {
    set c | c in plan && c.DropGroup? :: c.zone
  }

  lemma ZonesOfOneMore(plan: seq<Change>, zone: string)
    ensures ZonesOf(plan + [DropGroup(zone)]) == ZonesOf(plan) + {zone}
  {
    assert forall c :: c in plan + [DropGroup(zone)] <==> c in plan || c == DropGroup(zone);
  }

  lemma ChainHasNoZones()
    ensures ZonesOf(Chain()) == {}
  {
  }

  /** `k` calls of the chain have been made, and none failed with an error that counts. */
  ghost predicate Through(r: Deletion, k: nat) {
    r.plan == Chain() && |r.replies| == k && forall i :: 0 <= i < k ==> !r.replies[i].ApiError?
  }

  /** The last answer is an error that counts. */
  ghost predicate Refused(r: Deletion) {
    r.replies != [] && r.replies[|r.replies| - 1].ApiError?
  }

  /** The chain is through, and every group planned so far was tried. */
  ghost predicate ChainDone(r: Deletion) {
    LINKS <= |r.replies| == |r.plan| && forall i :: 0 <= i < LINKS ==> !r.replies[i].ApiError?
  }

  /** Where a run that began in `start` stands: how many calls of the chain were made without an error that
      counts, or that one stopped it. */
  datatype Stage = Made(calls: nat) | Stopped | Astray

  ghost function StageOf(typed: bool, start: Resources, r: Deletion): (stage: Stage) {
    if !Runs(typed, r) || r.states[0] != start then Astray
    else if Through(r, |r.replies|) then Made(|r.replies|)
    else if Refused(r) then Stopped
    else Astray
  }

  lemma StageNext(typed: bool, start: Resources, r: Deletion, k: nat, reply: Reply, t: Resources)
    requires StageOf(typed, start, r) == Made(k) && k < LINKS
    requires Possible(typed, r.states[k], Link(k), reply, t)
    ensures StageOf(typed, start, Answered(r, reply, t)) == if reply.ApiError? then Stopped else Made(k + 1)
  {
    AnsweredRuns(typed, r, reply, t);
    var q := Answered(r, reply, t);
    if reply.ApiError? {
      assert q.replies[k].ApiError? && !Through(q, k + 1);
    }
  }

  /** After the chain: the zones whose groups were tried, and whether no call failed with an error that counts. */
  datatype Tally = Tally(zones: set<string>, clean: bool) | NoTally

  ghost function TallyOf(typed: bool, start: Resources, r: Deletion): (tally: Tally) {
    if Runs(typed, r) && r.states[0] == start && ChainDone(r) then Tally(ZonesOf(r.plan), Succeeded(r)) else NoTally
  }

  lemma TallyBegins(typed: bool, start: Resources, r: Deletion)
    requires StageOf(typed, start, r) == Made(LINKS)
    ensures TallyOf(typed, start, r) == Tally({}, true)
  {
    ChainHasNoZones();
  }

  lemma TallyNext(typed: bool, start: Resources, r: Deletion, zone: string, reply: Reply, t: Resources)
    requires TallyOf(typed, start, r).Tally? && Possible(typed, r.states[|r.replies|], DropGroup(zone), reply, t)
    ensures TallyOf(typed, start, Answered(Planned(r, zone), reply, t)) ==
      var tally := TallyOf(typed, start, r); Tally(tally.zones + {zone}, tally.clean && !reply.ApiError?)
  {
    PlannedRuns(typed, r, zone);
    AnsweredRuns(typed, Planned(r, zone), reply, t);
    ZonesOfOneMore(r.plan, zone);
    var q := Answered(Planned(r, zone), reply, t);
    assert forall i :: 0 <= i < |r.replies| ==> q.replies[i] == r.replies[i];
    assert q.replies[|r.replies|] == reply;
  }

  lemma {:induction false} GroupsAfter(r: Deletion, k: nat)
    requires Runs(true, r) && Integrity(r.states[0]) && k <= |r.replies|
    requires forall i :: 0 <= i < k ==> !r.replies[i].ApiError?
    ensures r.states[k].groups == r.states[0].groups - ZonesOf(r.plan[..k])
  {
    if k > 0 {
      GroupsAfter(r, k - 1);
      TypedRunIsWhole(r, k - 1);
      var s, t, c := r.states[k - 1], r.states[k], r.plan[k - 1];
      assert Possible(true, s, c, r.replies[k - 1], t);
      assert r.plan[..k] == r.plan[..k - 1] + [c];
      if k <= LINKS {
        assert c == Link(k - 1);
        ChainStep(s, k - 1, r.replies[k - 1], t);
        assert ZonesOf(r.plan[..k]) == ZonesOf(r.plan[..k - 1]);
      } else {
        GroupStep(s, c, r.replies[k - 1], t);
        assert ZonesOf(r.plan[..k]) == ZonesOf(r.plan[..k - 1]) + {c.zone};
      }
    }
  }

  /** Success leaves nothing but the groups of other zones. A run can start from any whole state, and so from
      one that a failed run has left. */
  lemma TypedRunDeletes(r: Deletion)
    requires Runs(true, r) && Integrity(r.states[0]) && Succeeded(r)
    ensures r.states[|r.replies|] ==
            Resources(None, r.states[0].groups - ZonesOf(r.plan), None, false, None, None, None, r.states[0].odd)
  {
    TypedRunIsWhole(r, |r.replies|);
    GroupsAfter(r, |r.replies|);
    assert r.plan[..|r.replies|] == r.plan;
  }

  // ----- when an error can be of another type

  /** Nothing refers to anything. */
  ghost predicate Unreferring(s: Resources) {
    s.dns.None? && s.rule.None? && !s.proxy && s.backend.None?
  }

  lemma {:induction false} UnreferringStays(typed: bool, r: Deletion, k: nat)
    requires Runs(typed, r) && Unreferring(r.states[0]) && k <= |r.replies|
    ensures Unreferring(r.states[k])
  {
    if k > 0 {
      UnreferringStays(typed, r, k - 1);
      assert Possible(typed, r.states[k - 1], r.plan[k - 1], r.replies[k - 1], r.states[k]);
      assert k <= LINKS ==> r.plan[k - 1] == Link(k - 1);
    }
  }

  /** The state after the first `k` calls of the chain when those in `lost` fail without effect. */
  function Play(s: Resources, lost: set<nat>, k: nat): (t: Resources)
    requires k <= LINKS
  {
    if k == 0 then s
    else
      var before := Play(s, lost, k - 1);
      if k - 1 in lost then before else Apply(before, Link(k - 1))
  }

  /** A run in which the calls in `lost` fail with errors that are not googleapi errors. */
  ghost function Losing(s: Resources, lost: set<nat>): (r: Deletion) {
    Deletion(Chain(), seq(LINKS, i => if i in lost then OtherError else Done),
             seq(LINKS + 1, k requires 0 <= k <= LINKS => Play(s, lost, k)))
  }

  lemma LosingRuns(s: Resources, lost: set<nat>)
    ensures Runs(false, Losing(s, lost)) && Succeeded(Losing(s, lost)) && Losing(s, lost).states[0] == s
  {
    var r := Losing(s, lost);
    forall i | 0 <= i < |r.replies|
      ensures Possible(false, r.states[i], r.plan[i], r.replies[i], r.states[i + 1])
    {
      assert r.states[i + 1] == Play(s, lost, i + 1);
    }
  }

  /** What is left after the first `k` calls when call `j` is lost. */
  lemma {:induction false} LosingOne(s: Resources, j: nat, k: nat)
    requires k <= LINKS
    ensures Play(s, {j}, k) == Resources(
      if k <= 5 || j == 5 then s.check else None, s.groups, if k <= 4 || j == 4 then s.backend else None, s.proxy &&
        (k <= 3 || j == 3),
      if k <= 2 || j == 2 then s.address else None, if k <= 1 || j == 1 then s.rule else None,
      if k == 0 || j == 0 then s.dns else None, s.odd)
  {
    if k > 0 {
      LosingOne(s, j, k - 1);
    }
  }

  /** One ignored error breaks a reference: the run that loses the call for a resource that refers to
      another goes on to drop that other one. */
  lemma IgnoredErrorBreaks(s: Resources) returns (r: Deletion)
    requires !Unreferring(s)
    ensures Runs(false, r) && r.states[0] == s && !Integrity(r.states[|r.replies|])
  {
    var j := if s.dns.Some? then 0 else if s.rule.Some? then 1 else if s.proxy then 3 else 4;
    LosingRuns(s, {j});
    LosingOne(s, j, LINKS);
    r := Losing(s, {j});
  }

  /** From a whole state, every run keeps every state whole exactly when all errors are googleapi errors or
      nothing refers to anything. */
  lemma DeletionIsWholeIff(typed: bool, s: Resources)
    requires Integrity(s)
    ensures (forall r, k | Runs(typed, r) && r.states[0] == s && 0 <= k <= |r.replies| :: Integrity(r.states[k]))
            <==> typed || Unreferring(s)
  {
    if typed || Unreferring(s) {
      forall r, k | Runs(typed, r) && r.states[0] == s && 0 <= k <= |r.replies| ensures Integrity(r.states[k]) {
        if typed {
          TypedRunIsWhole(r, k);
        } else {
          UnreferringStays(typed, r, k);
        }
      }
    } else {
      var r := IgnoredErrorBreaks(s);
      var k := |r.replies|;
      assert Runs(typed, r) && r.states[0] == s && 0 <= k <= |r.replies| && !Integrity(r.states[k]);
    }
  }

  /** The chain's resources are gone. */
  ghost predicate Cleared(s: Resources) {
    Gone(s, LINKS)
  }

  lemma {:induction false} LosingAll(s: Resources, k: nat)
    requires k <= LINKS
    ensures Play(s, {0, 1, 2, 3, 4, 5}, k) == s
  {
    if k > 0 {
      LosingAll(s, k - 1);
    }
  }

  lemma {:induction false} ClearedStays(typed: bool, r: Deletion, k: nat)
    requires Runs(typed, r) && Cleared(r.states[0]) && k <= |r.replies|
    ensures Cleared(r.states[k])
  {
    if k > 0 {
      ClearedStays(typed, r, k - 1);
      assert Possible(typed, r.states[k - 1], r.plan[k - 1], r.replies[k - 1], r.states[k]);
      assert k <= LINKS ==> r.plan[k - 1] == Link(k - 1);
    }
  }

  /** A successful run has deleted what it was to delete exactly when all errors are googleapi errors or there
      was nothing to delete. */
  lemma SuccessDeletesIff(typed: bool, s: Resources)
    requires Integrity(s)
    ensures (forall r | Runs(typed, r) && r.states[0] == s && Succeeded(r) :: Cleared(r.states[|r.replies|]))
            <==> typed || Cleared(s)
  {
    if typed || Cleared(s) {
      forall r | Runs(typed, r) && r.states[0] == s && Succeeded(r) ensures Cleared(r.states[|r.replies|]) {
        if typed {
          TypedRunDeletes(r);
        } else {
          ClearedStays(typed, r, |r.replies|);
        }
      }
    } else {
      LosingRuns(s, {0, 1, 2, 3, 4, 5});
      LosingAll(s, LINKS);
      var r := Losing(s, {0, 1, 2, 3, 4, 5});
      assert Runs(typed, r) && r.states[0] == s && Succeeded(r) && !Cleared(r.states[|r.replies|]);
    }
  }
}
