/** The world in which the operator runs: Route53, the stored GlobalDNSRecords, and users who act on
    all of them between any two calls. Every state the world goes through is kept in a ghost trace. */
module Route53World {
  import opened Prelude
  import opened Api
  import opened Route53Store

  /** One record, stored or not, and the account. */
  datatype Snapshot = Snapshot(record: Option<Record>, store: Store)

  /** All records and the account. */
  datatype Moment = Moment(records: map<Owner, Option<Record>>, store: Store)

  /** What can be relied on: that all errors are AWS errors, that no call fails at all, and that users leave
      the record alone. */
  datatype Conditions = Conditions(typed: bool, reliable: bool, idle: bool) {
    /** No error occurs that is not an AWS error. */
    predicate Tidy() {
      typed || reliable
    }
  }

  /** A verdict that contracts carry as one value. */
  datatype Verdict = Sound | Broken

  ghost function Judge(b: bool): (v: Verdict) {
    if b then Sound else Broken
  }

  ghost predicate Finalized(record: Option<Record>) {
    record.Some? && record.value.finalizer
  }

  /** The central claim about a state: the invariant of the store, and nothing in Route53 belongs to
      the record unless the record is stored and carries the finalizer. */
  ghost predicate SafeAt(own: Owner, state: Snapshot) {
    Inv(own, state.store) && (Owns(own, state.store) ==> Finalized(state.record))
  }

  /** Every record is safe. */
  ghost predicate SafeMoment(m: Moment) {
    forall o | o in m.records :: SafeAt(o, Snapshot(m.records[o], m.store))
  }

  /** Records have different names and probe different hosts. */
  ghost predicate AllApart(owners: set<Owner>) {
    forall a, b | a in owners && b in owners && a != b :: Apart(a, b)
  }

  /** What a call of one record can do to what belongs to another. */
  lemma OwnsNoMore(own: Owner, other: Owner, s: Store, c: Call)
    requires Apart(own, other) && Allowed(own, s, c) && Owns(other, Apply(s, c))
    ensures Owns(other, s)
  {
    var t := Apply(s, c);
    OwnedBefore(other, s, c);
    assert forall p | OwnPolicy(other, t, p) :: OwnPolicy(other, s, p);
    assert forall h | OwnCheck(other, t, h) :: OwnCheck(other, s, h);
  }

  /** No record that had its finalizer has lost it. */
  ghost predicate FinalizersStay(before: map<Owner, Option<Record>>, after: map<Owner, Option<Record>>) {
    before.Keys == after.Keys && forall o | o in before && Finalized(before[o]) :: Finalized(after[o])
  }

  lemma FinalizersKeepSafe(m: Moment, records: map<Owner, Option<Record>>)
    requires SafeMoment(m) && FinalizersStay(m.records, records)
    ensures SafeMoment(m.(records := records))
  {
    forall o | o in records ensures SafeAt(o, Snapshot(records[o], m.store)) {
      assert SafeAt(o, Snapshot(m.records[o], m.store));
    }
  }

  /** A call that the operator may issue for a record that has its finalizer keeps all records safe. */
  lemma AllowedKeepsAllSafe(own: Owner, m: Moment, c: Call)
    requires SafeMoment(m) && AllApart(m.records.Keys) && own in m.records && Finalized(m.records[own])
    requires Allowed(own, m.store, c)
    ensures SafeMoment(m.(store := Apply(m.store, c)))
  {
    var t := Apply(m.store, c);
    assert SafeAt(own, Snapshot(m.records[own], m.store));
    forall o | o in m.records ensures SafeAt(o, Snapshot(m.records[o], t)) {
      assert SafeAt(o, Snapshot(m.records[o], m.store));
      if o == own {
        AllowedKeepsInv(own, m.store, c);
      } else {
        AllowedKeepsOthersInv(own, o, m.store, c);
        if Owns(o, t) {
          OwnsNoMore(own, o, m.store, c);
        }
      }
    }
  }

  /** What a record must be like to have this owner. */
  predicate Fits(own: Owner, spec: RecordSpec) {
    HealthCheckHost(spec) == own.host && spec.globalZoneRef == own.zone
  }

  /** What users can do to the stored record while the operator is between two calls: anything, except
      remove the finalizer, undo a deletion, or change the probed host or the zone. The API server stamps
      every change with a new version, and keeps a record that has a finalizer. */
  predicate UsersMay(own: Owner, clock: nat, before: Option<Record>, after: Option<Record>) {
    || after == before
    || (&& (after.Some? ==> after.value.version > clock && Fits(own, after.value.spec))
        && (before.Some? && before.value.finalizer ==>
              after.Some? && after.value.finalizer && (before.value.deleting ==> after.value.deleting)))
  }

  function VersionOf(record: Option<Record>): (version: nat) {
    if record.Some? then record.value.version else 0
  }

  /** Users do what they may to other records. */
  predicate UsersMayToOthers(before: map<Owner, Option<Record>>, after: map<Owner, Option<Record>>) {
    before.Keys == after.Keys && forall o | o in before :: UsersMay(o, VersionOf(before[o]), before[o], after[o])
  }

  predicate AllFitting(records: map<Owner, Option<Record>>) {
    forall o | o in records && records[o].Some? :: Fits(o, records[o].value.spec)
  }

  lemma OthersKeepFinalizers(before: map<Owner, Option<Record>>, after: map<Owner, Option<Record>>)
    requires UsersMayToOthers(before, after)
    ensures FinalizersStay(before, after) && (AllFitting(before) ==> AllFitting(after))
  {
    forall o | o in before
      ensures Finalized(before[o]) ==> Finalized(after[o])
      ensures AllFitting(before) && after[o].Some? ==> Fits(o, after[o].value.spec)
    {
      assert UsersMay(o, VersionOf(before[o]), before[o], after[o]);
    }
  }

  /** Whatever users do between two calls, no record loses its finalizer. */
  lemma UsersKeepFinalizers(own: Owner, clock: nat, before: Option<Record>, after: Option<Record>,
                            others: map<Owner, Option<Record>>, edited: map<Owner, Option<Record>>)
    requires UsersMay(own, clock, before, after) && UsersMayToOthers(others, edited)
    ensures FinalizersStay(others[own := before], edited[own := after])
  {
    OthersKeepFinalizers(others, edited);
  }

  /** The write of `copy` over `met` took effect and left `record`. */
  ghost predicate Accepted(met: Option<Record>, copy: Record, record: Option<Record>) {
    && met.Some? && met.value.version == copy.version
    && if copy.deleting && !copy.finalizer then record.None?
       else
         && record.Some? && record.value.version > copy.version
         && record.value == copy.(version := record.value.version)
  }

  class World {
    const own: Owner
    const sky: Conditions
    ghost const crowd: set<Owner>   // all records, this one among them
    var store: Store
    var record: Option<Record>
    var others: map<Owner, Option<Record>>
    var clock: nat
    ghost var trace: seq<Moment>
    ghost var churn: nat      // create and delete calls issued so far
    ghost var updates: nat    // update calls issued so far

    constructor (own: Owner, sky: Conditions, store: Store, record: Option<Record>, others: map<Owner, Option<Record>>)
      ensures this.own == own && this.sky == sky && crowd == others.Keys + {own}
      ensures this.store == store && this.record == record && this.others == others
      ensures clock == VersionOf(record) && trace == [Here()]
    {
      this.own, this.sky, this.store, this.record, this.others := own, sky, store, record, others;
      clock := VersionOf(record);
      crowd := others.Keys + {own};
      new;
      trace := [Here()];
    }

    ghost function Here(): (m: Moment)
      reads this
    {
      Moment(others[own := record], store)
    }

    /** All records are safe in the state. */
    ghost predicate AllSafe(m: Moment) {
      forall k {:trigger SafeKey(k)} :: SafeKey(k) ==> m.records.Keys == crowd && SafeMoment(m)
    }

    lemma OthersStaySane(before: map<Owner, Option<Record>>, after: map<Owner, Option<Record>>)
      requires OthersSane(before) && UsersMayToOthers(before, after)
      ensures OthersSane(after)
    {
      assert SafeKey(0);
      OthersKeepFinalizers(before, after);
    }

    /** When every record has kept its finalizer, the states around a call that the operator may issue for this
        record are safe. */
    lemma SafeAround(m: Moment, n: Moment, others: map<Owner, Option<Record>>, c: Call, t: Store)
      requires AllSafe(m) && OthersSane(others) && n.store == m.store && FinalizersStay(m.records, n.records)
      requires own in n.records && Finalized(n.records[own]) && Allowed(own, m.store, c)
      requires t == m.store || t == Apply(m.store, c)
      ensures AllSafe(n) && AllSafe(n.(store := t))
    {
      assert SafeKey(0);
      FinalizersKeepSafe(m, n.records);
      AllowedKeepsAllSafe(own, n, c);
    }

    /** A state in which no record has lost its finalizer is as safe as before. */
    lemma StillSafe(m: Moment, n: Moment)
      requires AllSafe(m) && n.store == m.store && FinalizersStay(m.records, n.records)
      ensures AllSafe(n)
    {
      assert SafeKey(0);
      FinalizersKeepSafe(m, n.records);
    }

    /** Every state so far was safe; the last one is the present one. */
    ghost predicate Safe()
      reads this
    {
      && (forall m | m in trace :: AllSafe(m)) && AllSafe(Here()) && trace != [] && trace[|trace| - 1] == Here()
      && Sane()
    }

    /** Every state was safe up to the present one, about which nothing is said. */
    ghost predicate SafeUntilNow()
      reads this
    {
      && trace != [] && trace[|trace| - 1] == Here() && Sane()
      && forall m | m in trace[..|trace| - 1] :: AllSafe(m)
    }

    /** The records belong to their owners, which do not get into each other's way. */
    ghost predicate Sane()
      reads this
    {
      && OthersSane(others)
      && (record.Some? ==> record.value.version <= clock && Fits(own, record.value.spec))
    }

    ghost predicate OthersSane(records: map<Owner, Option<Record>>) {
      forall k {:trigger SafeKey(k)} :: SafeKey(k) ==>
        AllApart(crowd) && own in crowd && records.Keys == crowd - {own} && AllFitting(records)
    }

    /** The record is still there with its finalizer, and is the one that was read or a later version. */
    ghost predicate Holds(read: Record)
      reads this
    {
      && Finalized(record) && read.version <= clock
      && (record.value == read || record.value.version > read.version)
      && (read.deleting ==> record.value.deleting)
    }

    method UsersAct()
      modifies `record, `others, `clock, `trace
      ensures UsersMay(own, old(clock), old(record), record) && (sky.idle ==> record == old(record))
      ensures UsersMayToOthers(old(others), others)
      ensures old(clock) <= clock && (record == old(record) || (record.Some? ==> record.value.version <= clock))
      ensures trace == old(trace) + [Here()]
    {
      var wanted: Option<Record> := *;
      if !sky.idle && UsersMay(own, clock, record, wanted) {
        record := wanted;
        if record.Some? && record.value.version > clock {
          clock := record.value.version;
        }
      }
      var edited: map<Owner, Option<Record>> := *;
      if UsersMayToOthers(others, edited) {
        others := edited;
      }
      trace := trace + [Here()];
    }

    /** Issues one call, after whatever users did in the meantime. The call can fail before or after
        it took effect. */
    method Perform(c: Call) returns (reply: Reply)
      modifies this
      ensures UsersMay(own, old(clock), old(record), record) && (sky.idle ==> record == old(record))
      ensures UsersMayToOthers(old(others), others)
      ensures old(clock) <= clock && (record == old(record) || (record.Some? ==> record.value.version <= clock))
      ensures Possible(sky.Tidy(), old(store), c, reply, store)
      ensures sky.reliable ==> reply.Done? || (c.DeleteHealthCheck? && c.id !in old(store).healthChecks)
      ensures sky.reliable ==> reply.Done? || reply.NoSuchHealthCheck?
      ensures trace == old(trace) + [Here().(store := old(store)), Here()]
      ensures churn == old(churn) + (if Churns(c) then 1 else 0)
      ensures updates == old(updates) + (if c.UpdateHealthCheck? then 1 else 0)
    {
      UsersAct();
      var lands: bool := *;
      var answered: bool := *;
      var recognised: bool := *;
      answered := answered || sky.reliable;
      reply := if sky.Tidy() || recognised then AwsError else OtherError;
      if answered && c.DeleteHealthCheck? && c.id !in store.healthChecks {
        reply := NoSuchHealthCheck;
      } else if lands || answered {
        store := Apply(store, c);
        reply := if answered then Done else reply;
      }
      trace := trace + [Here()];
      churn := churn + if Churns(c) then 1 else 0;
      updates := updates + if c.UpdateHealthCheck? then 1 else 0;
    }

    /** A call that the operator may issue for this record, as long as the record has its finalizer, keeps every
        state safe. */
    method SafePerform(c: Call) returns (reply: Reply)
      requires Safe() && Finalized(record) && Allowed(own, store, c)
      modifies this
      ensures Safe() && old(trace) <= trace
      ensures UsersMay(own, old(clock), old(record), record) && (sky.idle ==> record == old(record))
      ensures old(clock) <= clock
      ensures Possible(sky.Tidy(), old(store), c, reply, store)
      ensures sky.reliable ==> reply.Done? || (c.DeleteHealthCheck? && c.id !in old(store).healthChecks)
      ensures sky.reliable ==> reply.Done? || reply.NoSuchHealthCheck?
      ensures churn == old(churn) + (if Churns(c) then 1 else 0)
      ensures updates == old(updates) + (if c.UpdateHealthCheck? then 1 else 0)
    {
      ghost var before, was := Here(), trace;
      reply := Perform(c);
      ghost var between := Here().(store := before.store);
      UsersKeepFinalizers(own, old(clock), old(record), record, old(others), others);
      OthersStaySane(old(others), others);
      SafeAround(before, between, others, c, store);
      assert forall m | m in trace :: m in was || m == between || m == Here();
    }

    /** The operator writes its copy of the record back. The API server refuses a copy of an older
        version, and drops a record that is being deleted and has no finalizer left. `met` is the
        record as the write finds it. */
    method Update(copy: Record) returns (ok: bool, ghost met: Option<Record>)
      modifies `record, `others, `clock, `trace
      ensures UsersMay(own, old(clock), old(record), met) && (sky.idle ==> met == old(record))
      ensures UsersMayToOthers(old(others), others)
      ensures old(clock) <= clock && (met == old(record) || (met.Some? ==> met.value.version <= clock))
      ensures if Accepted(met, copy, record) then record.Some? ==> record.value.version == clock
              else !ok && record == met
      ensures sky.reliable && met.Some? && met.value.version == copy.version ==> ok
      ensures trace == old(trace) + [Moment(others[own := met], store), Here()]
    {
      UsersAct();
      met := record;
      ok := false;
      var lands: bool := *;
      if (lands || sky.reliable) && record.Some? && record.value.version == copy.version {
        clock := (if clock < copy.version then copy.version else clock) + 1;
        record := if copy.deleting && !copy.finalizer then None else Some(copy.(version := clock));
        var answered: bool := *;
        ok := answered || sky.reliable;
      }
      trace := trace + [Here()];
    }

    /** Users act: every state stays safe. */
    method SafeUsersAct()
      requires Safe()
      modifies `record, `others, `clock, `trace
      ensures Safe() && old(trace) <= trace
      ensures UsersMay(own, old(clock), old(record), record) && (sky.idle ==> record == old(record))
      ensures old(clock) <= clock && (record == old(record) || (record.Some? ==> record.value.version <= clock))
    {
      ghost var before, was := Here(), trace;
      UsersAct();
      UsersKeepFinalizers(own, old(clock), old(record), record, old(others), others);
      OthersStaySane(old(others), others);
      StillSafe(before, Here());
      assert forall m | m in trace :: m in was || m == Here();
    }

    /** A record without finalizer of which nothing is in the store is as safe as one with it. */
    lemma SafeWithout(m: Moment, record: Option<Record>)
      requires AllSafe(m) && own in m.records && (Finalized(record) || !Owns(own, m.store))
      ensures AllSafe(m.(records := m.records[own := record]))
    {
      assert SafeKey(0);
      var n := m.(records := m.records[own := record]);
      forall o | o in n.records ensures SafeAt(o, Snapshot(n.records[o], n.store)) {
        assert SafeAt(o, Snapshot(m.records[o], m.store));
      }
    }

    /** A write of the record keeps every state safe while the finalizer stays or nothing of the record is in the
        store; at worst it is the last state that is not. */
    method SafeUpdate(copy: Record) returns (ok: bool, ghost met: Option<Record>)
      requires Safe() && Fits(own, copy.spec)
      modifies `record, `others, `clock, `trace
      ensures SafeUntilNow() && old(trace) <= trace
      ensures copy.finalizer || !Owns(own, store) || !Accepted(met, copy, record) ==> Safe()
      ensures UsersMay(own, old(clock), old(record), met) && (sky.idle ==> met == old(record))
      ensures if Accepted(met, copy, record) then record.Some? ==> record.value.version == clock
              else !ok && record == met
      ensures sky.reliable && met.Some? && met.value.version == copy.version ==> ok
    {
      ghost var before, was := Here(), trace;
      ok, met := Update(copy);
      ghost var between := Moment(others[own := met], store);
      UsersKeepFinalizers(own, old(clock), old(record), met, old(others), others);
      OthersStaySane(old(others), others);
      StillSafe(before, between);
      assert trace[..|trace| - 1] == was + [between];
      if copy.finalizer || !Owns(own, store) || !Accepted(met, copy, record) {
        if Accepted(met, copy, record) {
          SafeWithout(between, record);
          assert Here() == between.(records := between.records[own := record]);
        }
        assert forall m | m in trace :: m in was || m == between || m == Here();
      }
    }

    /** An identifier that Route53 has never handed out. */
    method NewId() returns (id: Id)
      ensures Fresh(store, id)
    {
      id := *;
      if id != "" && id !in store.issued {
        return;
      }
      var rest := store.issued;
      var longest: nat := 0;
      while rest != {}
        invariant rest <= store.issued
        invariant forall x | x in store.issued - rest :: |x| <= longest
        decreases rest
      {
        var x :| x in rest;
        rest := rest - {x};
        longest := if |x| > longest then |x| else longest;
      }
      id := seq(longest + 1, _ => 'x');
    }

    /** A listing: it fails or returns everything, in some order. */
    method List(ids: set<Id>) returns (r: Outcome<seq<Id>>)
      ensures r.Ok? ==> Enumerates(r.value, ids)
      ensures sky.reliable ==> r.Ok?
    {
      var fails: bool := *;
      if fails && !sky.reliable {
        return Err(CallFailed);
      }
      var q := AnyOrder(ids);
      return Ok(q);
    }

    method Get<T>(m: map<Id, T>, id: Id) returns (r: Outcome<T>)
      ensures r.Ok? ==> id in m && r.value == m[id]
      ensures sky.reliable && id in m ==> r.Ok?
    {
      var fails: bool := *;
      return if (fails && !sky.reliable) || id !in m then Err(CallFailed) else Ok(m[id]);
    }
  }
}
