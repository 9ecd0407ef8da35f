/** All records together: one Route53 account and the records that are served from it, reconciled one after the
    other by the controller's worker (controllers/globaldnsrecord/globaldnsrecord_controller.go:78-209). */
module AllRecords {
  import opened Prelude
  import opened Api
  import opened Route53Store
  import opened Route53World
  import opened Lifecycle

  /** Every record is safe in all of these states but perhaps the last. */
  ghost predicate SafeButForLast(q: seq<Moment>) {
    q != [] && forall m | m in q[..|q| - 1] :: SafeMoment(m)
  }

  class System {
    const sky: Conditions
    var store: Store
    var records: map<Owner, Option<Record>>
    ghost var trace: seq<Moment>

    constructor (sky: Conditions, store: Store, records: map<Owner, Option<Record>>)
      ensures this.sky == sky && this.store == store && this.records == records
      ensures trace == [Moment(records, store)]
    {
      this.sky, this.store, this.records, trace := sky, store, records, [Moment(records, store)];
    }

    /** Every record was safe in every state so far. */
    ghost predicate Safe()
      reads this
    {
      && (forall m | m in trace :: SafeMoment(m))
      && SafeMoment(Moment(records, store)) && AllApart(records.Keys) && AllFitting(records)
    }

    /** The world as the run for one record sees it, when that is over. */
    method RunFor(own: Owner, round: Option<Surroundings>) returns (world: World, gone: bool)
      requires Safe() && own in records
      ensures fresh(world) && world.own == own && world.crowd == records.Keys && world.SafeUntilNow()
      ensures !gone ==> world.Safe()
      ensures gone ==> round.Some? && !AtHome(round.value, own) && world.record.None?
    {
      world := new World(own, sky, store, records[own], records - {own});
      assert world.Here() == Moment(records, store);
      assert world.crowd == records.Keys;
      var left := Lifecycle.Operate(world, [round]);
      gone := left.Some?;
    }

    /** One record has its turn: a reconcile, or something that users do to it. Users of all records act meanwhile.
        Every record is safe in every state on the way, unless the zone of this one is elsewhere and it vanishes;
        then all states before were. */
    method Turn(own: Owner, round: Option<Surroundings>) returns (gone: bool)
      requires Safe() && own in records
      modifies this
      ensures old(trace) <= trace && records.Keys == old(records.Keys)
      ensures !gone ==> Safe()
      ensures gone ==>
        && round.Some? && !AtHome(round.value, own) && own in records && records[own].None?
        && SafeButForLast(trace)
    {
      var world;
      world, gone := RunFor(own, round);
      ghost var was := trace;
      store, records := world.store, world.others[own := world.record];
      trace := trace + world.trace;
      TurnOver(world, was, gone);
    }

    lemma TurnOver(world: World, was: seq<Moment>, gone: bool)
      requires world.SafeUntilNow() && (!gone ==> world.Safe()) && trace == was + world.trace
      requires forall m | m in was :: SafeMoment(m)
      requires Moment(records, store) == world.Here()
      ensures records.Keys == world.crowd && AllApart(world.crowd)
      ensures !gone ==> (forall m | m in trace :: SafeMoment(m)) && SafeMoment(world.Here()) && AllFitting(records)
      ensures SafeButForLast(trace)
    {
      assert SafeKey(0);
      assert trace[..|trace| - 1] == was + world.trace[..|world.trace| - 1];
      forall m | m in trace[..|trace| - 1] ensures SafeMoment(m) {
        assert m in was || (m in world.trace[..|world.trace| - 1] && world.AllSafe(m));
      }
    }

    /** Any number of turns of any records, in any order, until a record vanishes whose zone is elsewhere. */
    method Operate(turns: seq<(Owner, Option<Surroundings>)>) returns (gone: Option<nat>)
      requires Safe() && forall i :: 0 <= i < |turns| ==> turns[i].0 in records
      modifies this
      ensures old(trace) <= trace && records.Keys == old(records.Keys)
      ensures gone.None? ==> Safe()
      ensures gone.Some? ==>
        && gone.value < |turns| && turns[gone.value].1.Some? && !AtHome(turns[gone.value].1.value, turns[gone.value].0)
        && SafeButForLast(trace)
    {
      for i := 0 to |turns|
        invariant Safe() && old(trace) <= trace && records.Keys == old(records.Keys)
      {
        var left := Turn(turns[i].0, turns[i].1);
        if left {
          return Some(i);
        }
      }
      return None;
    }
  }
}
