/** The loop of deleteTrafficPolicy over the health checks of a document, as runs: one call after the other,
    each answered in any possible way (controllers/globaldnsrecord/route53provider.go:294-331). */
module CheckDeletion {
  import opened Prelude
  import opened Documents
  import opened Route53Store

  /** The health checks that the first `k` references name, in order. */
  function CheckIds(q: seq<Reference>, k: nat): (ids: seq<Id>)
    requires k <= |q|
  {
    if k == 0 then []
    else if q[k - 1].healthCheck == "" then CheckIds(q, k - 1)
    else CheckIds(q, k - 1) + [q[k - 1].healthCheck]
  }

  lemma {:induction false} CheckIdsAreThoseNamed(q: seq<Reference>, k: nat, h: Id)
    requires k <= |q|
    ensures h in CheckIds(q, k) <==> exists i :: 0 <= i < k && q[i].healthCheck == h && h != ""
  {
    if k > 0 {
      CheckIdsAreThoseNamed(q, k - 1, h);
    }
  }

  lemma {:induction false} CheckIdsPrefix(q: seq<Reference>, k: nat, n: nat)
    requires k <= n <= |q|
    ensures CheckIds(q, k) <= CheckIds(q, n)
  {
    if k < n {
      CheckIdsPrefix(q, k, n - 1);
    }
  }

  /** The health checks of a document in the order in which they are deleted: those of the main rule. */
  function ChecksToDelete(d: Document): (ids: seq<Id>) {
    var q := RuleReferences(MainRule(d)); CheckIds(q, |q|)
  }

  lemma CheckIdsOfDocument(d: Document)
    ensures ToSet(ChecksToDelete(d)) == RuleHealthChecks(MainRule(d))
    ensures d.rules.Keys == {"main"} ==> ToSet(ChecksToDelete(d)) == HealthChecks(d)
  {
    if d.rules.Keys == {"main"} {
      MainRuleOnly(d);
    }
    var q := RuleReferences(MainRule(d));
    forall h ensures h in CheckIds(q, |q|) <==> h in RuleHealthChecks(MainRule(d)) {
      CheckIdsAreThoseNamed(q, |q|, h);
    }
  }

  /** A run, complete or stopped: the answers so far, and the states gone through. */
  datatype Deletion = Deletion(replies: seq<Reply>, states: seq<Store>)

  /** The loop stops at an AWS error other than NoSuchHealthCheck and ignores every other error. */
  ghost predicate Runs(typed: bool, ids: seq<Id>, r: Deletion) {
    && |r.replies| <= |ids| && |r.states| == |r.replies| + 1
    && (forall i {:trigger r.replies[i]} :: 0 <= i < |r.replies| ==>
          Possible(typed, r.states[i], DeleteHealthCheck(ids[i]), r.replies[i], r.states[i + 1]))
    && (forall i :: 0 <= i < |r.replies| - 1 ==> !r.replies[i].AwsError?)
  }

  ghost predicate Succeeded(ids: seq<Id>, r: Deletion) {
    |r.replies| == |ids| && forall i :: 0 <= i < |r.replies| ==> !r.replies[i].AwsError?
  }

  function Begin(s: Store): (r: Deletion) {
    Deletion([], [s])
  }

  function Answered(r: Deletion, reply: Reply, t: Store): (q: Deletion) {
    Deletion(r.replies + [reply], r.states + [t])
  }

  /** Where a run that began in `start` stands: all of `ids` were tried and none failed with an error that
      counts, or the last one did. */
  datatype Stage = Through | Stopped | Astray

  ghost function StageOf(typed: bool, start: Store, now: Store, ids: seq<Id>, r: Deletion): (stage: Stage) {
    if forall k {:trigger Key(k)} :: Key(k) ==> Leads(typed, start, now, ids, r) && Succeeded(ids, r) then Through
    else if forall k {:trigger Key(k)} :: Key(k) ==> Leads(typed, start, now, ids, r) && Refused(r) then Stopped
    else Astray
  }

  /** The run leads from one state to the other. */
  ghost predicate Leads(typed: bool, start: Store, now: Store, ids: seq<Id>, r: Deletion) {
    Runs(typed, ids, r) && r.states[0] == start && r.states[|r.replies|] == now
  }

  /** The last answer is an error that counts. */
  ghost predicate Refused(r: Deletion) {
    r.replies != [] && r.replies[|r.replies| - 1].AwsError?
  }

  lemma StageBegins(typed: bool, start: Store)
    ensures StageOf(typed, start, start, [], Begin(start)) == Through
  {
  }

  lemma StageNext(typed: bool, start: Store, now: Store, ids: seq<Id>, r: Deletion, id: Id, reply: Reply, t: Store)
    requires StageOf(typed, start, now, ids, r) == Through && Possible(typed, now, DeleteHealthCheck(id), reply, t)
    ensures StageOf(typed, start, t, ids + [id], Answered(r, reply, t)) == if reply.AwsError? then Stopped else Through
  {
    assert Key(0);
    var q, more := Answered(r, reply, t), ids + [id];
    forall i | 0 <= i < |q.replies|
      ensures Possible(typed, q.states[i], DeleteHealthCheck(more[i]), q.replies[i], q.states[i + 1])
    {
      assert i < |r.replies| ==> q.replies[i] == r.replies[i];
    }
    assert q.replies[|ids|] == reply;
  }

  /** A run that was stopped is one of the longer loop, too. */
  lemma StoppedStays(typed: bool, start: Store, now: Store, ids: seq<Id>, more: seq<Id>, r: Deletion)
    requires StageOf(typed, start, now, ids, r) == Stopped && ids <= more
    ensures StageOf(typed, start, now, more, r) == Stopped
  {
    assert Key(0);
    assert !Succeeded(more, r) by {
      assert r.replies[|r.replies| - 1].AwsError?;
    }
  }

  /** While only AWS errors occur, exactly the health checks tried without an error that counts are gone. */
  lemma {:induction false} TypedRunDeletes(ids: seq<Id>, r: Deletion, k: nat)
    requires Runs(true, ids, r) && k <= |r.replies| && forall i :: 0 <= i < k ==> !r.replies[i].AwsError?
    ensures r.states[k] == r.states[0].(healthChecks := r.states[0].healthChecks - ToSet(ids[..k]))
  {
    if k > 0 {
      TypedRunDeletes(ids, r, k - 1);
      assert Possible(true, r.states[k - 1], DeleteHealthCheck(ids[k - 1]), r.replies[k - 1], r.states[k]);
      assert ToSet(ids[..k]) == ToSet(ids[..k - 1]) + {ids[k - 1]} by {
        assert ids[..k] == ids[..k - 1] + [ids[k - 1]];
      }
      var m := r.states[0].healthChecks;
      assert m - ToSet(ids[..k]) == m - ToSet(ids[..k - 1]) - {ids[k - 1]};
      if r.states[k] == r.states[k - 1] {
        assert ids[k - 1] !in r.states[k].healthChecks;
      }
    } else {
      assert r.states[0].healthChecks - {} == r.states[0].healthChecks;
      assert ids[..0] == [];
    }
  }

  lemma {:induction false} NothingComesBack(typed: bool, ids: seq<Id>, r: Deletion, k: nat, h: Id)
    requires Runs(typed, ids, r) && k <= |r.replies| && h !in r.states[0].healthChecks
    ensures h !in r.states[k].healthChecks
  {
    if k > 0 {
      NothingComesBack(typed, ids, r, k - 1, h);
      assert Possible(typed, r.states[k - 1], DeleteHealthCheck(ids[k - 1]), r.replies[k - 1], r.states[k]);
    }
  }

  /** A run in which every call fails with an error that is not an AWS error: it succeeds and deletes nothing. */
  lemma IgnoredErrors(s: Store, ids: seq<Id>) returns (r: Deletion)
    ensures Runs(false, ids, r) && Succeeded(ids, r) && r.states[0] == s && r.states[|r.replies|] == s
  {
    r := Deletion(seq(|ids|, _ => OtherError), seq(|ids| + 1, _ => s));
  }

  /** A loop that reports success has deleted its health checks exactly when all errors are AWS errors or there
      was none of them to delete. */
  lemma SuccessDeletesIff(typed: bool, s: Store, ids: seq<Id>)
    ensures (forall r | Runs(typed, ids, r) && r.states[0] == s && Succeeded(ids, r) ::
               forall h | h in ids :: h !in r.states[|r.replies|].healthChecks)
            <==> typed || forall h | h in ids :: h !in s.healthChecks
  {
    if typed || forall h | h in ids :: h !in s.healthChecks {
      forall r, h | Runs(typed, ids, r) && r.states[0] == s && Succeeded(ids, r) && h in ids
        ensures h !in r.states[|r.replies|].healthChecks
      {
        if typed {
          TypedRunDeletes(ids, r, |ids|);
          assert ids[..|ids|] == ids;
        } else {
          NothingComesBack(typed, ids, r, |r.replies|, h);
        }
      }
    } else {
      var h :| h in ids && h in s.healthChecks;
      var r := IgnoredErrors(s, ids);
      assert Runs(typed, ids, r) && r.states[0] == s && Succeeded(ids, r) && h in r.states[|r.replies|].healthChecks;
    }
  }
}
