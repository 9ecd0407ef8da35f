/** The two-level fan-out and fan-in over unbuffered channels of
    controllers/globaldnsrecord/gcpglb.go:134-177 and 564-686, as interleaved steps.

    The main goroutine launches one outer goroutine per endpoint; each of these launches one inner
    goroutine per zone and receives one value from each; the main goroutine receives one value from each
    outer one. A value on a channel is reduced to whether it is an error. A send and its receive are one
    step. The channel of an outer goroutine is closed when that goroutine ends, the main channel when the
    main goroutine returns. */
module FanOut {
  import opened Prelude

  /** How inner goroutines touch what they share. `Append`: adding a backend is one step. `LoadStore`:
      append reads the slice and writes it back later. `SharedError`: the goroutines that delete groups
      assign the result of their call to one variable of the outer goroutine and then test that variable,
      in which only a googleapi error counts; `typed` says that calls fail with such errors only. */
  datatype Mode = Append | LoadStore | SharedError(typed: bool)

  datatype Inner =
    | Unborn
    | Working
    | Loaded(seen: seq<(nat, nat)>)
    | Called(failed: bool)
    | Sending(error: bool, failed: bool)
    | Sent(error: bool, failed: bool)

  datatype Outer =
    | Waiting
    | Starting
    | Spawning
    | Collecting(received: nat, error: bool)
    | Reporting(error: bool)
    | Finished(error: bool)

  datatype Main =
    | Launching
    | Receiving(received: nat, error: bool)
    | Returned(error: bool)

  /** `inners[e][z]` works on zone `z` of endpoint `e`; `lastError[e]` is the error variable of outer
      goroutine `e`; `backends` is the slice that the inner goroutines fill. */
  datatype State = State(
    main: Main, outers: seq<Outer>, inners: seq<seq<Inner>>, lastError: seq<bool>, backends: seq<(nat, nat)>
  )

  datatype Step =
    | Launch(e: nat)
    | AllLaunched
    | DiscoveryFails(e: nat)
    | DiscoverySucceeds(e: nat)
    | Spawn(e: nat, z: nat)
    | AllSpawned(e: nat)
    | CallFails(e: nat, z: nat)
    | CallFailsUntyped(e: nat, z: nat)
    | CallSucceeds(e: nat, z: nat)
    | StoreBackend(e: nat, z: nat)
    | TestError(e: nat, z: nat)
    | Deliver(e: nat, z: nat)
    | AllDelivered(e: nat)
    | Report(e: nat)
    | Return

  predicate Shape(s: State) {
    |s.inners| == |s.outers| == |s.lastError|
  }

  predicate OuterIs(s: State, e: nat, o: Outer) {
    e < |s.outers| && s.outers[e] == o
  }

  predicate InnerExists(s: State, e: nat, z: nat) {
    e < |s.inners| && z < |s.inners[e]|
  }

  /** The step can be taken now. */
  predicate Enabled(m: Mode, s: State, step: Step)
    requires Shape(s)
  {
    match step
    case Launch(e) => s.main.Launching? && OuterIs(s, e, Waiting)
    case AllLaunched => s.main.Launching? && forall e :: 0 <= e < |s.outers| ==> !s.outers[e].Waiting?
    case DiscoveryFails(e) => OuterIs(s, e, Starting)
    case DiscoverySucceeds(e) => OuterIs(s, e, Starting)
    case Spawn(e, z) => OuterIs(s, e, Spawning) && InnerExists(s, e, z) && s.inners[e][z].Unborn?
    case AllSpawned(e) => OuterIs(s, e, Spawning) && forall z :: 0 <= z < |s.inners[e]| ==> !s.inners[e][z].Unborn?
    case CallFails(e, z) => InnerExists(s, e, z) && s.inners[e][z].Working?
    case CallFailsUntyped(e, z) => m == SharedError(false) && InnerExists(s, e, z) && s.inners[e][z].Working?
    case CallSucceeds(e, z) => InnerExists(s, e, z) && s.inners[e][z].Working?
    case StoreBackend(e, z) => InnerExists(s, e, z) && s.inners[e][z].Loaded?
    case TestError(e, z) => InnerExists(s, e, z) && s.inners[e][z].Called?
    case Deliver(e, z) =>
      && InnerExists(s, e, z) && s.inners[e][z].Sending?
      && s.outers[e].Collecting? && s.outers[e].received < |s.inners[e]|
    case AllDelivered(e) => e < |s.outers| && s.outers[e].Collecting? && s.outers[e].received == |s.inners[e]|
    case Report(e) =>
      && e < |s.outers| && s.outers[e].Reporting?
      && s.main.Receiving? && s.main.received < |s.outers|
    case Return => s.main.Receiving? && s.main.received == |s.outers|
  }

  function SetOuter(s: State, e: nat, o: Outer): (t: State)
    requires e < |s.outers|
  {
    s.(outers := s.outers[e := o])
  }

  function SetInner(s: State, e: nat, z: nat, i: Inner): (t: State)
    requires InnerExists(s, e, z)
  {
    s.(inners := s.inners[e := s.inners[e][z := i]])
  }

  function Take(m: Mode, s: State, step: Step): (t: State)
    requires Shape(s) && Enabled(m, s, step)
    ensures Shape(t)
  {
    match step
    case Launch(e) => SetOuter(s, e, Starting)
    case AllLaunched => s.(main := Receiving(0, false))
    case DiscoveryFails(e) => SetOuter(s, e, Reporting(true))
    case DiscoverySucceeds(e) => SetOuter(s, e, Spawning)
    case Spawn(e, z) => SetInner(s, e, z, Working)
    case AllSpawned(e) => SetOuter(s, e, Collecting(0, false))
    case CallFails(e, z) =>
      if m.SharedError? then SetInner(s, e, z, Called(true)).(lastError := s.lastError[e := true])
      else SetInner(s, e, z, Sending(true, true))
    case CallFailsUntyped(e, z) => SetInner(s, e, z, Called(true)).(lastError := s.lastError[e := false])
    case CallSucceeds(e, z) =>
      (match m
       case Append => SetInner(s, e, z, Sending(false, false)).(backends := s.backends + [(e, z)])
       case LoadStore => SetInner(s, e, z, Loaded(s.backends))
       case SharedError(_) => SetInner(s, e, z, Called(false)).(lastError := s.lastError[e := false]))
    case StoreBackend(e, z) => SetInner(s, e, z, Sending(false, false)).(backends := s.inners[e][z].seen + [(e, z)])
    case TestError(e, z) => SetInner(s, e, z, Sending(s.lastError[e], s.inners[e][z].failed))
    case Deliver(e, z) =>
      var i := s.inners[e][z];
      SetOuter(SetInner(s, e, z, Sent(i.error, i.failed)), e,
               Collecting(s.outers[e].received + 1, s.outers[e].error || i.error))
    case AllDelivered(e) => SetOuter(s, e, Reporting(s.outers[e].error))
    case Report(e) =>
      SetOuter(s, e, Finished(s.outers[e].error)).(
        main := Receiving(s.main.received + 1, s.main.error || s.outers[e].error))
    case Return => s.(main := Returned(s.main.error))
  }

  /** The state in which the function is entered, for endpoints with these numbers of zones. */
  function Initial(zones: seq<nat>): (s: State)
    ensures Shape(s)
  {
    State(Launching, seq(|zones|, _ => Waiting), seq(|zones|, e requires 0 <= e < |zones| => seq(zones[e],
        _ => Unborn)),
          seq(|zones|, _ => false), [])
  }

  /** The step moves an inner goroutine. */
  predicate MovesInner(step: Step) {
    || step.Spawn? || step.CallFails? || step.CallFailsUntyped? || step.CallSucceeds? || step.StoreBackend?
    || step.TestError? || step.Deliver?
  }

  /** What such a step does to the goroutines. */
  lemma InnerStepMoves(m: Mode, s: State, step: Step)
    requires Shape(s) && Enabled(m, s, step) && MovesInner(step)
    ensures InnerExists(s, step.e, step.z)
    ensures var t, e, z := Take(m, s, step), step.e, step.z;
      && t.main == s.main && t.inners == SetInner(s, e, z, t.inners[e][z]).inners
      && t.outers == if step.Deliver? then s.outers[e := t.outers[e]] else s.outers
  {
  }

  // ----- counting

  /** Changing one element changes the total by that element's share. */
  lemma {:induction false} SumUpdate<T>(q: seq<T>, f: T -> nat, i: nat, x: T)
    requires i < |q|
    ensures Sum(q[i := x], f) + f(q[i]) == Sum(q, f) + f(x)
  {
    var last := |q| - 1;
    if i == last {
      assert q[i := x][..last] == q[..last];
    } else {
      assert q[i := x][..last] == q[..last][i := x];
      SumUpdate(q[..last], f, i, x);
    }
  }

  /** A total that reaches the length means that every element counts. */
  lemma {:induction false} SumFull<T>(q: seq<T>, f: T -> nat)
    requires forall i :: 0 <= i < |q| ==> f(q[i]) <= 1
    ensures Sum(q, f) <= |q|
    ensures Sum(q, f) == |q| <==> forall i :: 0 <= i < |q| ==> f(q[i]) == 1
  {
    if q != [] {
      var last := |q| - 1;
      SumFull(q[..last], f);
      assert forall i :: 0 <= i < last ==> q[..last][i] == q[i];
    }
  }

  lemma {:induction false} SumZero<T>(q: seq<T>, f: T -> nat)
    requires forall i :: 0 <= i < |q| ==> f(q[i]) == 0
    ensures Sum(q, f) == 0
  {
    if q != [] {
      SumZero(q[..|q| - 1], f);
    }
  }

  const SENT: Inner -> nat := (i: Inner) => if i.Sent? then 1 else 0
  const FINISHED: Outer -> nat := (o: Outer) => if o.Finished? then 1 else 0

  // ----- invariant

  ghost predicate AnySentError(q: seq<Inner>) {
    exists z :: 0 <= z < |q| && q[z].Sent? && q[z].error
  }

  ghost predicate AllUnborn(q: seq<Inner>) {
    forall z :: 0 <= z < |q| ==> q[z].Unborn?
  }

  ghost predicate NoneSent(q: seq<Inner>) {
    forall z :: 0 <= z < |q| ==> !q[z].Sent?
  }

  ghost predicate NoneUnborn(q: seq<Inner>) {
    forall z :: 0 <= z < |q| ==> !q[z].Unborn?
  }

  ghost predicate AllSent(q: seq<Inner>) {
    forall z :: 0 <= z < |q| ==> q[z].Sent?
  }

  /** A report is an error because discovery failed and no one was spawned, or it sums up the values
      that all inner goroutines sent. */
  ghost predicate SumsUp(error: bool, q: seq<Inner>) {
    (error && AllUnborn(q)) || (AllSent(q) && (error <==> AnySentError(q)))
  }

  ghost predicate EndpointInv(o: Outer, q: seq<Inner>) {
    match o
    case Waiting => AllUnborn(q)
    case Starting => AllUnborn(q)
    case Spawning => NoneSent(q)
    case Collecting(n, error) => NoneUnborn(q) && n == Sum(q, SENT) && (error <==> AnySentError(q))
    case Reporting(error) => SumsUp(error, q)
    case Finished(error) => SumsUp(error, q)
  }

  ghost predicate AnyFinishedError(q: seq<Outer>) {
    exists e :: 0 <= e < |q| && q[e].Finished? && q[e].error
  }

  ghost predicate MainInv(main: Main, q: seq<Outer>) {
    match main
    case Launching => forall e :: 0 <= e < |q| ==> !q[e].Finished?
    case Receiving(n, error) =>
      && (forall e :: 0 <= e < |q| ==> !q[e].Waiting?)
      && n == Sum(q, FINISHED) && (error <==> AnyFinishedError(q))
    case Returned(error) => (forall e :: 0 <= e < |q| ==> q[e].Finished?) && (error <==> AnyFinishedError(q))
  }

  ghost predicate Inv(s: State) {
    && Shape(s)
    && MainInv(s.main, s.outers)
    && forall e :: 0 <= e < |s.outers| ==> EndpointInv(s.outers[e], s.inners[e])
  }

  lemma InitialInv(zones: seq<nat>)
    ensures Inv(Initial(zones))
  {
  }

  lemma DeliverKeepsEndpointInv(o: Outer, q: seq<Inner>, z: nat)
    requires EndpointInv(o, q) && o.Collecting? && z < |q| && q[z].Sending?
    ensures EndpointInv(Collecting(o.received + 1, o.error || q[z].error), q[z := Sent(q[z].error, q[z].failed)])
  {
    var i := Sent(q[z].error, q[z].failed);
    var t := q[z := i];
    SumUpdate(q, SENT, z, i);
    assert t[z] == i;
    assert AnySentError(q) ==> AnySentError(t) by {
      if w :| 0 <= w < |q| && q[w].Sent? && q[w].error {
        assert t[w] == q[w];
      }
    }
    assert forall w :: 0 <= w < |q| && w != z ==> t[w] == q[w];
  }

  lemma FullCountIsAllSent(q: seq<Inner>)
    ensures Sum(q, SENT) <= |q| && (Sum(q, SENT) == |q| <==> AllSent(q))
  {
  }

  /** An inner goroutine that moves without sending keeps what its endpoint promises. */
  lemma InnerMoveKeepsEndpointInv(o: Outer, q: seq<Inner>, z: nat, i: Inner)
    requires EndpointInv(o, q) && z < |q| && !i.Sent? && !i.Unborn?
    requires !q[z].Sent? && (q[z].Unborn? ==> o.Spawning?)
    ensures EndpointInv(o, q[z := i])
  {
    var t := q[z := i];
    assert t[z] == i && forall w :: 0 <= w < |q| && w != z ==> t[w] == q[w];
    SumUpdate(q, SENT, z, i);
    assert o.Collecting? ==> (AnySentError(t) <==> AnySentError(q));
  }

  lemma InnerStepKeepsEndpointInv(m: Mode, s: State, step: Step)
    requires Shape(s) && Enabled(m, s, step) && MovesInner(step)
    requires step.e < |s.outers| && EndpointInv(s.outers[step.e], s.inners[step.e])
    ensures var t := Take(m, s, step); EndpointInv(t.outers[step.e], t.inners[step.e])
  {
    var e, z, t := step.e, step.z, Take(m, s, step);
    if step.Deliver? {
      DeliverKeepsEndpointInv(s.outers[e], s.inners[e], z);
    } else {
      InnerMoveKeepsEndpointInv(s.outers[e], s.inners[e], z, t.inners[e][z]);
    }
  }

  lemma StepKeepsEndpointInv(m: Mode, s: State, step: Step, e: nat)
    requires Shape(s) && Enabled(m, s, step) && e < |s.outers| && EndpointInv(s.outers[e], s.inners[e])
    ensures var t := Take(m, s, step); EndpointInv(t.outers[e], t.inners[e])
  {
    if MovesInner(step) {
      InnerStepMoves(m, s, step);
      if step.e == e {
        InnerStepKeepsEndpointInv(m, s, step);
      }
    } else if step == AllSpawned(e) {
      SumZero(s.inners[e], SENT);
    } else if step == AllDelivered(e) {
      FullCountIsAllSent(s.inners[e]);
    }
  }

  lemma ReportKeepsMainInv(main: Main, q: seq<Outer>, e: nat)
    requires MainInv(main, q) && main.Receiving? && e < |q| && q[e].Reporting?
    ensures MainInv(Receiving(main.received + 1, main.error || q[e].error), q[e := Finished(q[e].error)])
  {
    var o := Finished(q[e].error);
    var t := q[e := o];
    SumUpdate(q, FINISHED, e, o);
    assert t[e] == o;
    assert AnyFinishedError(q) ==> AnyFinishedError(t) by {
      if w :| 0 <= w < |q| && q[w].Finished? && q[w].error {
        assert t[w] == q[w];
      }
    }
    assert forall w :: 0 <= w < |q| && w != e ==> t[w] == q[w];
  }

  lemma OuterMoveKeepsMainInv(main: Main, q: seq<Outer>, e: nat, o: Outer)
    requires MainInv(main, q) && e < |q| && !o.Finished? && !q[e].Finished? && !o.Waiting?
    ensures MainInv(main, q[e := o])
  {
    var t := q[e := o];
    assert t[e] == o && forall w :: 0 <= w < |q| && w != e ==> t[w] == q[w];
    SumUpdate(q, FINISHED, e, o);
    assert AnyFinishedError(t) <==> AnyFinishedError(q);
  }

  lemma StepKeepsMainInv(m: Mode, s: State, step: Step)
    requires Inv(s) && Enabled(m, s, step)
    ensures var t := Take(m, s, step); MainInv(t.main, t.outers)
  {
    var t := Take(m, s, step);
    match step
    case Launch(e) => OuterMoveKeepsMainInv(s.main, s.outers, e, Starting);
    case AllLaunched => SumZero(s.outers, FINISHED);
    case DiscoveryFails(e) => OuterMoveKeepsMainInv(s.main, s.outers, e, Reporting(true));
    case DiscoverySucceeds(e) => OuterMoveKeepsMainInv(s.main, s.outers, e, Spawning);
    case AllSpawned(e) => OuterMoveKeepsMainInv(s.main, s.outers, e, t.outers[e]);
    case Deliver(e, z) => OuterMoveKeepsMainInv(s.main, s.outers, e, t.outers[e]);
    case AllDelivered(e) => OuterMoveKeepsMainInv(s.main, s.outers, e, t.outers[e]);
    case Report(e) => ReportKeepsMainInv(s.main, s.outers, e);
    case Return => SumFull(s.outers, FINISHED);
    case _ =>
  }

  lemma StepKeepsInv(m: Mode, s: State, step: Step)
    requires Inv(s) && Enabled(m, s, step)
    ensures Inv(Take(m, s, step))
  {
    StepKeepsMainInv(m, s, step);
    forall e | 0 <= e < |s.outers|
      ensures EndpointInv(Take(m, s, step).outers[e], Take(m, s, step).inners[e])
    {
      StepKeepsEndpointInv(m, s, step, e);
    }
  }

  // ----- whole runs

  /** `states` is a run: it starts at the entry of the function and each state follows by one step. */
  ghost predicate Run(m: Mode, zones: seq<nat>, steps: seq<Step>, states: seq<State>) {
    && |states| == |steps| + 1 && states[0] == Initial(zones)
    && forall k {:trigger steps[k]} :: 0 <= k < |steps| ==>
         Shape(states[k]) && Enabled(m, states[k], steps[k]) && states[k + 1] == Take(m, states[k], steps[k])
  }

  lemma {:induction false} RunKeepsInv(m: Mode, zones: seq<nat>, steps: seq<Step>, states: seq<State>, k: nat)
    requires Run(m, zones, steps, states) && k < |states|
    ensures Inv(states[k])
  {
    if k == 0 {
      InitialInv(zones);
    } else {
      RunKeepsInv(m, zones, steps, states, k - 1);
      StepKeepsInv(m, states[k - 1], steps[k - 1]);
    }
  }

  /** Someone is about to send on a channel that has been closed, which panics. */
  ghost predicate SendsOnClosed(s: State)
    requires Shape(s)
  {
    || (exists e: nat, z: nat :: InnerExists(s, e, z) && s.inners[e][z].Sending? && s.outers[e].Finished?)
    || (exists e :: 0 <= e < |s.outers| && s.outers[e].Reporting? && s.main.Returned?)
  }

  /** The step is not a failure of the outside world. */
  predicate Favourable(step: Step) {
    !step.DiscoveryFails? && !step.CallFails? && !step.CallFailsUntyped?
  }

  /** Some step can be taken, unless the main goroutine has returned. */
  lemma NotStuck(m: Mode, s: State) returns (step: Step)
    requires Inv(s) && !s.main.Returned?
    ensures Enabled(m, s, step) && Favourable(step)
  {
    if s.main.Launching? {
      if e :| 0 <= e < |s.outers| && s.outers[e].Waiting? {
        step := Launch(e);
      } else {
        step := AllLaunched;
      }
    } else if s.main.received == |s.outers| {
      step := Return;
    } else {
      SumFull(s.outers, FINISHED);
      var e :| 0 <= e < |s.outers| && FINISHED(s.outers[e]) != 1;
      step := EndpointNotStuck(m, s, e);
    }
  }

  lemma EndpointNotStuck(m: Mode, s: State, e: nat) returns (step: Step)
    requires Inv(s) && s.main.Receiving? && s.main.received < |s.outers| && e < |s.outers| && !s.outers[e].Finished?
    ensures Enabled(m, s, step) && Favourable(step)
  {
    var q := s.inners[e];
    match s.outers[e]
    case Starting => step := DiscoverySucceeds(e);
    case Spawning =>
      if z :| 0 <= z < |q| && q[z].Unborn? {
        step := Spawn(e, z);
      } else {
        step := AllSpawned(e);
      }
    case Collecting(n, _) =>
      FullCountIsAllSent(q);
      if n == |q| {
        step := AllDelivered(e);
      } else {
        var z :| 0 <= z < |q| && !q[z].Sent?;
        step := if q[z].Working? then CallSucceeds(e, z)
                else if q[z].Loaded? then StoreBackend(e, z)
                else if q[z].Called? then TestError(e, z)
                else Deliver(e, z);
      }
    case _ => step := Report(e);
  }

  const INNER_RANK: Inner -> nat := (i: Inner) =>
    match i
    case Unborn => 4
    case Working => 3
    case Loaded(_) => 2
    case Called(_) => 2
    case Sending(_, _) => 1
    case Sent(_, _) => 0

  const OUTER_RANK: Outer -> nat := (o: Outer) =>
    match o
    case Waiting => 5
    case Starting => 4
    case Spawning => 3
    case Collecting(_, _) => 2
    case Reporting(_) => 1
    case Finished(_) => 0

  const ENDPOINT_RANK: seq<Inner> -> nat := (q: seq<Inner>) => Sum(q, INNER_RANK)

  /** A bound on the number of steps still to come. */
  function Rank(s: State): (n: nat) {
    (match s.main case Launching => 2 case Receiving(_, _) => 1 case Returned(_) => 0)
    + Sum(s.outers, OUTER_RANK) + Sum(s.inners, ENDPOINT_RANK)
  }

  lemma InnerMoveRank(s: State, e: nat, z: nat, i: Inner)
    requires InnerExists(s, e, z)
    ensures Sum(SetInner(s, e, z, i).inners, ENDPOINT_RANK) + INNER_RANK(s.inners[e][z]) ==
            Sum(s.inners, ENDPOINT_RANK) + INNER_RANK(i)
  {
    SumUpdate(s.inners[e], INNER_RANK, z, i);
    SumUpdate(s.inners, ENDPOINT_RANK, e, s.inners[e][z := i]);
  }

  lemma InnerStepLowersRank(m: Mode, s: State, step: Step)
    requires Shape(s) && Enabled(m, s, step) && MovesInner(step)
    ensures Rank(Take(m, s, step)) < Rank(s)
  {
    var t := Take(m, s, step);
    var i := t.inners[step.e][step.z];
    InnerStepMoves(m, s, step);
    InnerMoveRank(s, step.e, step.z, i);
    if step.Deliver? {
      SumUpdate(s.outers, OUTER_RANK, step.e, t.outers[step.e]);
    }
  }

  lemma StepLowersRank(m: Mode, s: State, step: Step)
    requires Shape(s) && Enabled(m, s, step)
    ensures Rank(Take(m, s, step)) < Rank(s)
  {
    if MovesInner(step) {
      InnerStepLowersRank(m, s, step);
    } else if !step.AllLaunched? && !step.Return? {
      SumUpdate(s.outers, OUTER_RANK, step.e, Take(m, s, step).outers[step.e]);
    }
  }

  /** No run goes on for ever. */
  lemma {:induction false} RunsEnd(m: Mode, zones: seq<nat>, steps: seq<Step>, states: seq<State>, k: nat)
    requires Run(m, zones, steps, states) && k < |states|
    ensures k + Rank(states[k]) <= Rank(Initial(zones))
  {
    if k > 0 {
      RunsEnd(m, zones, steps, states, k - 1);
      StepLowersRank(m, states[k - 1], steps[k - 1]);
    }
  }

  lemma NoSendOnClosed(s: State)
    requires Inv(s)
    ensures !SendsOnClosed(s)
  {
  }

  /** In every state of every run no send meets a closed channel and something can move; a run that can
      go no further has returned, and it has at most as many steps as the initial rank. */
  lemma EveryRunIsSound(m: Mode, zones: seq<nat>, steps: seq<Step>, states: seq<State>, k: nat)
    requires Run(m, zones, steps, states) && k < |states|
    ensures Inv(states[k]) && !SendsOnClosed(states[k])
    ensures !states[k].main.Returned? ==> exists step :: Enabled(m, states[k], step)
    ensures |steps| <= Rank(Initial(zones))
  {
    RunKeepsInv(m, zones, steps, states, k);
    RunsEnd(m, zones, steps, states, |steps|);
    NoSendOnClosed(states[k]);
    if !states[k].main.Returned? {
      var step := NotStuck(m, states[k]);
    }
  }

  /** When the function has returned, every spawned goroutine has sent its one value, and the error is nil
      exactly when every value sent was nil: by outer goroutines, whose values sum up those of their inner
      ones, and so by all of them. */
  lemma ResultSumsUp(s: State)
    requires Inv(s) && s.main.Returned?
    ensures !s.main.error <==> forall e :: 0 <= e < |s.outers| ==> s.outers[e] == Finished(false)
    ensures forall e :: 0 <= e < |s.outers| ==> s.outers[e].Finished? && SumsUp(s.outers[e].error, s.inners[e])
    ensures forall e: nat, z: nat :: InnerExists(s, e, z) ==> s.inners[e][z].Sent? || s.inners[e][z].Unborn?
    ensures !s.main.error ==> forall e: nat, z: nat ::
      InnerExists(s, e, z) ==> s.inners[e][z].Sent? && !s.inners[e][z].error
    ensures s.main.error ==>
      exists e :: 0 <= e < |s.outers| && (AllUnborn(s.inners[e]) || AnySentError(s.inners[e]))
  {
  }

  // ----- what the workers share

  /** The worker is past its call and reports no error. */
  predicate Succeeded(i: Inner) {
    (i.Sending? || i.Sent?) && !i.error
  }

  /** A worker that succeeded has added its backend exactly once, any other has added nothing, and workers
      report what happened to their own call. */
  ghost predicate BackendFine(s: State, e: nat, z: nat)
    requires InnerExists(s, e, z)
  {
    var i := s.inners[e][z];
    && multiset(s.backends)[(e, z)] == (if Succeeded(i) then 1 else 0)
    && (i.Sending? || i.Sent? ==> i.error == i.failed) && !i.Loaded? && !i.Called?
  }

  ghost predicate BackendsInv(s: State) {
    && (forall e: nat, z: nat :: InnerExists(s, e, z) ==> BackendFine(s, e, z))
    && (forall b | b in s.backends :: InnerExists(s, b.0, b.1))
  }

  lemma StepKeepsBackendsInv(s: State, step: Step)
    requires Shape(s) && BackendsInv(s) && Enabled(Append, s, step)
    ensures BackendsInv(Take(Append, s, step))
  {
    var t := Take(Append, s, step);
    if MovesInner(step) {
      InnerStepMoves(Append, s, step);
    }
    assert forall e: nat, z: nat :: InnerExists(t, e, z) <==> InnerExists(s, e, z);
    forall e: nat, z: nat | InnerExists(t, e, z) ensures BackendFine(t, e, z) {
      assert BackendFine(s, e, z);
    }
  }

  lemma {:induction false} RunKeepsBackendsInv(zones: seq<nat>, steps: seq<Step>, states: seq<State>, k: nat)
    requires Run(Append, zones, steps, states) && k < |states|
    ensures BackendsInv(states[k])
  {
    if k > 0 {
      RunKeepsBackendsInv(zones, steps, states, k - 1);
      StepKeepsBackendsInv(states[k - 1], steps[k - 1]);
    }
  }

  lemma {:induction false} RunKeepsZones(m: Mode, zones: seq<nat>, steps: seq<Step>, states: seq<State>, k: nat)
    requires Run(m, zones, steps, states) && k < |states|
    ensures |states[k].inners| == |zones| && forall e :: 0 <= e < |zones| ==> |states[k].inners[e]| == zones[e]
  {
    if k > 0 {
      RunKeepsZones(m, zones, steps, states, k - 1);
      assert states[k] == Take(m, states[k - 1], steps[k - 1]);
    }
  }

  /** When append is one step, a nil result means that no call failed and that there is exactly one backend
      for each zone of each endpoint. */
  lemma NilMeansAllBackends(zones: seq<nat>, steps: seq<Step>, states: seq<State>)
    requires Run(Append, zones, steps, states)
    requires states[|steps|].main == Returned(false)
    ensures var s := states[|steps|];
      && (forall e: nat, z: nat :: e < |zones| && z < zones[e] ==> multiset(s.backends)[(e, z)] == 1)
      && (forall e: nat, z: nat :: InnerExists(s, e, z) ==> s.inners[e][z] == Sent(false, false))
      && (forall b | b in s.backends :: b.0 < |zones| && b.1 < zones[b.0])
  {
    RunKeepsInv(Append, zones, steps, states, |steps|);
    RunKeepsBackendsInv(zones, steps, states, |steps|);
    RunKeepsZones(Append, zones, steps, states, |steps|);
    ResultSumsUp(states[|steps|]);
    assert forall e: nat, z: nat :: e < |zones| && z < zones[e] ==> InnerExists(states[|steps|], e, z);
  }

  ghost predicate Reaches(m: Mode, zones: seq<nat>, s: State) {
    exists steps, states :: Run(m, zones, steps, states) && states[|steps|] == s
  }

  lemma ReachesInitial(m: Mode, zones: seq<nat>)
    ensures Reaches(m, zones, Initial(zones))
  {
    assert Run(m, zones, [], [Initial(zones)]);
  }

  lemma ReachesNext(m: Mode, zones: seq<nat>, s: State, step: Step)
    requires Reaches(m, zones, s) && Shape(s) && Enabled(m, s, step)
    ensures Reaches(m, zones, Take(m, s, step))
  {
    var steps, states :| Run(m, zones, steps, states) && states[|steps|] == s;
    var more, further := steps + [step], states + [Take(m, s, step)];
    forall k | 0 <= k < |more|
      ensures Shape(further[k]) && Enabled(m, further[k], more[k]) && further[k + 1] == Take(m, further[k], more[k])
    {
      assert k < |steps| ==> more[k] == steps[k];
    }
    assert Run(m, zones, more, further) && further[|more|] == Take(m, s, step);
  }

  lemma ReachableInv(m: Mode, zones: seq<nat>, s: State)
    requires Reaches(m, zones, s)
    ensures Inv(s) && |s.inners| == |zones| && forall e :: 0 <= e < |zones| ==> |s.inners[e]| == zones[e]
  {
    var steps, states :| Run(m, zones, steps, states) && states[|steps|] == s;
    RunKeepsInv(m, zones, steps, states, |steps|);
    RunKeepsZones(m, zones, steps, states, |steps|);
  }

  // ----- when sharing does harm

  predicate NoError(i: Inner) {
    i.Sending? || i.Sent? ==> !i.error
  }

  predicate NoOuterError(o: Outer) {
    o.Collecting? || o.Reporting? || o.Finished? ==> !o.error
  }

  /** No error is on its way to the caller. */
  ghost predicate Quiet(s: State) {
    && (s.main.Launching? || !s.main.error)
    && (forall e :: 0 <= e < |s.outers| ==> NoOuterError(s.outers[e]))
    && (forall e :: 0 <= e < |s.lastError| ==> !s.lastError[e])
    && (forall e: nat, z: nat :: InnerExists(s, e, z) ==> NoError(s.inners[e][z]))
  }

  lemma FavourableKeepsQuiet(m: Mode, s: State, step: Step)
    requires Shape(s) && Quiet(s) && Enabled(m, s, step) && Favourable(step)
    ensures Quiet(Take(m, s, step))
  {
  }

  /** Harm is done to worker (e, z): its failure was overwritten, or its backend got lost. */
  ghost predicate Harmed(m: Mode, s: State, e: nat, z: nat) {
    && InnerExists(s, e, z)
    && var i := s.inners[e][z];
       match m
       case Append => false
       case SharedError(_) => (i.Called? || i.Sending? || i.Sent?) && i.failed
       case LoadStore =>
         && (i.Sending? || i.Sent?) && (e, z) !in s.backends
         && forall x: nat, y: nat :: InnerExists(s, x, y) && s.inners[x][y].Loaded? ==> (e, z) !in s.inners[x][y].seen
  }

  lemma HarmStays(m: Mode, s: State, step: Step, e: nat, z: nat)
    requires Shape(s) && Harmed(m, s, e, z) && Enabled(m, s, step)
    ensures Harmed(m, Take(m, s, step), e, z)
  {
  }

  /** A quiet state can run on to a nil result, and harm done stays done. */
  lemma {:induction false} QuietEndsNil(m: Mode, zones: seq<nat>, s: State, e: nat, z: nat) returns (t: State)
    requires Reaches(m, zones, s) && Quiet(s) && Harmed(m, s, e, z)
    ensures Reaches(m, zones, t) && t.main == Returned(false) && Harmed(m, t, e, z)
    decreases Rank(s)
  {
    if s.main.Returned? {
      t := s;
    } else {
      ReachableInv(m, zones, s);
      var step := NotStuck(m, s);
      ReachesNext(m, zones, s, step);
      FavourableKeepsQuiet(m, s, step);
      HarmStays(m, s, step, e, z);
      StepLowersRank(m, s, step);
      t := QuietEndsNil(m, zones, Take(m, s, step), e, z);
    }
  }

  /** Launches the goroutine of endpoint `e`, if need be, and spawns its worker for zone `z`. */
  lemma SpawnWorker(m: Mode, zones: seq<nat>, s: State, e: nat, z: nat) returns (t: State)
    requires Reaches(m, zones, s) && Shape(s) && s.main.Launching?
    requires InnerExists(s, e, z) && s.inners[e][z].Unborn? && (s.outers[e].Waiting? || s.outers[e].Spawning?)
    ensures t == SetInner(SetOuter(s, e, Spawning), e, z, Working) && Shape(t)
    ensures Reaches(m, zones, t)
  {
    t := s;
    if t.outers[e].Waiting? {
      ReachesNext(m, zones, t, Launch(e));
      t := Take(m, t, Launch(e));
      ReachesNext(m, zones, t, DiscoverySucceeds(e));
      t := Take(m, t, DiscoverySucceeds(e));
    }
    assert t == SetOuter(s, e, Spawning);
    ReachesNext(m, zones, t, Spawn(e, z));
    t := Take(m, t, Spawn(e, z));
  }

  /** Two workers ready to call, everyone else not yet spawned. */
  ghost predicate Ready(s: State, e: nat, z: nat, x: nat, y: nat) {
    && Shape(s) && InnerExists(s, e, z) && InnerExists(s, x, y) && (e, z) != (x, y)
    && s.inners[e][z].Working? && s.inners[x][y].Working? && s.backends == [] && Quiet(s)
    && forall u: nat, v: nat :: InnerExists(s, u, v) ==> s.inners[u][v].Unborn? || s.inners[u][v].Working?
  }

  lemma TwoReady(m: Mode, zones: seq<nat>, e: nat, z: nat, x: nat, y: nat) returns (s: State)
    requires e < |zones| && z < zones[e] && x < |zones| && y < zones[x] && (e, z) != (x, y)
    ensures Reaches(m, zones, s) && Ready(s, e, z, x, y)
  {
    ReachesInitial(m, zones);
    var t := SpawnWorker(m, zones, Initial(zones), e, z);
    s := SpawnWorker(m, zones, t, x, y);
  }

  /** Two workers of one outer goroutine: the failure of one is overwritten by the success of the other. */
  lemma ErrorOverwritten(typed: bool, zones: seq<nat>, e: nat) returns (s: State)
    requires e < |zones| && zones[e] >= 2
    ensures Reaches(SharedError(typed), zones, s) && s.main == Returned(false)
    ensures Harmed(SharedError(typed), s, e, 0)
  {
    var m := SharedError(typed);
    s := TwoReady(m, zones, e, 0, e, 1);
    ReachesNext(m, zones, s, CallFails(e, 0));
    var t := Take(m, s, CallFails(e, 0));
    ReachesNext(m, zones, t, CallSucceeds(e, 1));
    var u := Take(m, t, CallSucceeds(e, 1));
    assert u.inners[e][0] == Called(true);
    assert forall x: nat, y: nat ::
      InnerExists(u, x, y) ==> InnerExists(s, x, y) && (u.inners[x][y] == s.inners[x][y] || x == e);
    s := QuietEndsNil(m, zones, u, e, 0);
  }

  /** One worker is enough when its call fails with an error that is not a googleapi error: nil is sent. */
  lemma ErrorIgnored(zones: seq<nat>, e: nat) returns (s: State)
    requires e < |zones| && zones[e] >= 1
    ensures Reaches(SharedError(false), zones, s) && s.main == Returned(false)
    ensures Harmed(SharedError(false), s, e, 0)
  {
    var m := SharedError(false);
    ReachesInitial(m, zones);
    s := SpawnWorker(m, zones, Initial(zones), e, 0);
    ReachesNext(m, zones, s, CallFailsUntyped(e, 0));
    var t := Take(m, s, CallFailsUntyped(e, 0));
    assert t.inners[e][0] == Called(true);
    s := QuietEndsNil(m, zones, t, e, 0);
  }

  /** Two workers that have both read the empty slice. */
  lemma TwoLoaded(zones: seq<nat>, e: nat, z: nat, x: nat, y: nat) returns (s: State)
    requires e < |zones| && z < zones[e] && x < |zones| && y < zones[x] && (e, z) != (x, y)
    ensures Reaches(LoadStore, zones, s) && Shape(s) && Quiet(s)
    ensures InnerExists(s, e, z) && InnerExists(s, x, y) && s.inners[e][z] == Loaded([]) == s.inners[x][y]
    ensures forall u: nat, v: nat :: InnerExists(s, u, v) && s.inners[u][v].Loaded? ==> s.inners[u][v].seen == []
  {
    var r := TwoReady(LoadStore, zones, e, z, x, y);
    ReachesNext(LoadStore, zones, r, CallSucceeds(e, z));
    var t := Take(LoadStore, r, CallSucceeds(e, z));
    ReachesNext(LoadStore, zones, t, CallSucceeds(x, y));
    s := Take(LoadStore, t, CallSucceeds(x, y));
  }

  /** Any two workers: both read the slice before either writes it back, and one backend is lost. */
  lemma BackendOverwritten(zones: seq<nat>, e: nat, z: nat, x: nat, y: nat) returns (s: State)
    requires e < |zones| && z < zones[e] && x < |zones| && y < zones[x] && (e, z) != (x, y)
    ensures Reaches(LoadStore, zones, s) && s.main == Returned(false) && Harmed(LoadStore, s, e, z)
  {
    var u := TwoLoaded(zones, e, z, x, y);
    ReachesNext(LoadStore, zones, u, StoreBackend(e, z));
    var v := Take(LoadStore, u, StoreBackend(e, z));
    ReachesNext(LoadStore, zones, v, StoreBackend(x, y));
    var w := Take(LoadStore, v, StoreBackend(x, y));
    s := QuietEndsNil(LoadStore, zones, w, e, z);
  }

  // ----- when sharing is harmless

  predicate OneZoneEach(zones: seq<nat>) {
    forall e :: 0 <= e < |zones| ==> zones[e] <= 1
  }

  ghost predicate OneWorkerInAll(zones: seq<nat>) {
    forall e: nat, z: nat, x: nat, y: nat ::
      e < |zones| && z < zones[e] && x < |zones| && y < zones[x] ==> (e, z) == (x, y)
  }

  predicate Failed(i: Inner) {
    i.Sent? && i.failed
  }

  /** The error variable still holds the result of the one worker that tests it. */
  ghost predicate OwnError(s: State) {
    && Shape(s)
    && (forall e: nat, z: nat :: InnerExists(s, e, z) ==> z == 0)
    && (forall e: nat, z: nat :: InnerExists(s, e, z) ==>
          var i := s.inners[e][z];
          && (i.Called? ==> s.lastError[e] == i.failed)
          && (i.Sending? || i.Sent? ==> i.error == i.failed))
  }

  lemma StepKeepsOwnError(s: State, step: Step)
    requires OwnError(s) && Enabled(SharedError(true), s, step)
    ensures OwnError(Take(SharedError(true), s, step))
  {
    var t := Take(SharedError(true), s, step);
    assert forall x: nat, y: nat :: InnerExists(t, x, y) ==> InnerExists(s, x, y);
    if MovesInner(step) {
      assert forall x: nat, y: nat :: InnerExists(s, x, y) && (x, y) != (step.e, step.z) ==>
               x != step.e && t.inners[x][y] == s.inners[x][y];
    }
  }

  lemma {:induction false} RunKeepsOwnError(zones: seq<nat>, steps: seq<Step>, states: seq<State>, k: nat)
    requires Run(SharedError(true), zones, steps, states) && k < |states| && OneZoneEach(zones)
    ensures OwnError(states[k])
  {
    if k > 0 {
      RunKeepsOwnError(zones, steps, states, k - 1);
      StepKeepsOwnError(states[k - 1], steps[k - 1]);
    }
  }

  predicate NoZones(zones: seq<nat>) {
    forall e :: 0 <= e < |zones| ==> zones[e] == 0
  }

  /** A nil result means that no deletion failed. */
  ghost predicate NilTrusted(typed: bool, zones: seq<nat>) {
    forall s | Reaches(SharedError(typed), zones, s) && s.main == Returned(false) ::
      forall e: nat, z: nat :: InnerExists(s, e, z) ==> !Failed(s.inners[e][z])
  }

  lemma OwnErrorIsTrusted(zones: seq<nat>, s: State, e: nat, z: nat)
    requires OneZoneEach(zones) && Reaches(SharedError(true), zones, s) && s.main == Returned(false)
    requires InnerExists(s, e, z)
    ensures !Failed(s.inners[e][z])
  {
    ReachableInv(SharedError(true), zones, s);
    ResultSumsUp(s);
    var steps, states :| Run(SharedError(true), zones, steps, states) && states[|steps|] == s;
    RunKeepsOwnError(zones, steps, states, |steps|);
  }

  lemma HarmIsDistrust(typed: bool, zones: seq<nat>, s: State, e: nat)
    requires Reaches(SharedError(typed), zones, s) && s.main == Returned(false) && Harmed(SharedError(typed), s, e, 0)
    ensures !NilTrusted(typed, zones)
  {
    ReachableInv(SharedError(typed), zones, s);
    ResultSumsUp(s);
    assert Failed(s.inners[e][0]);
  }

  /** deleteDNSRecord's nil result can be trusted exactly when no endpoint has more than one zone and all
      errors are googleapi errors, or when there is nothing to delete. */
  lemma NilTrustedIff(typed: bool, zones: seq<nat>)
    ensures NilTrusted(typed, zones) <==> NoZones(zones) || (OneZoneEach(zones) && typed)
  {
    if e :| 0 <= e < |zones| && zones[e] > 1 {
      var s := ErrorOverwritten(typed, zones, e);
      HarmIsDistrust(typed, zones, s, e);
    } else if e :| 0 <= e < |zones| && zones[e] == 1 && !typed {
      var s := ErrorIgnored(zones, e);
      HarmIsDistrust(typed, zones, s, e);
    } else {
      forall s, e: nat, z: nat | Reaches(SharedError(typed), zones, s) && s.main == Returned(false) &&
        InnerExists(s, e, z)
        ensures !Failed(s.inners[e][z])
      {
        ReachableInv(SharedError(typed), zones, s);
        OwnErrorIsTrusted(zones, s, e, z);
      }
    }
  }

  /** The one worker there is loads an empty slice. */
  ghost predicate LoneWorker(s: State) {
    && Shape(s)
    && (forall e: nat, z: nat, x: nat, y: nat :: InnerExists(s, e, z) && InnerExists(s, x, y) ==> (e, z) == (x, y))
    && (forall e: nat, z: nat :: InnerExists(s, e, z) && Succeeded(s.inners[e][z]) ==> s.backends == [(e, z)])
    && (forall e: nat, z: nat :: InnerExists(s, e, z) && !Succeeded(s.inners[e][z]) ==> s.backends == [])
    && (forall e: nat, z: nat :: InnerExists(s, e, z) && s.inners[e][z].Loaded? ==> s.inners[e][z].seen == [])
    && (forall e: nat, z: nat :: InnerExists(s, e, z) ==> !s.inners[e][z].Called?)
  }

  lemma StepKeepsLoneWorker(s: State, step: Step)
    requires LoneWorker(s) && Enabled(LoadStore, s, step)
    ensures LoneWorker(Take(LoadStore, s, step))
  {
    var t := Take(LoadStore, s, step);
    assert forall x: nat, y: nat :: InnerExists(t, x, y) ==> InnerExists(s, x, y);
  }

  lemma {:induction false} RunKeepsLoneWorker(zones: seq<nat>, steps: seq<Step>, states: seq<State>, k: nat)
    requires Run(LoadStore, zones, steps, states) && k < |states| && OneWorkerInAll(zones)
    ensures LoneWorker(states[k])
  {
    if k > 0 {
      RunKeepsLoneWorker(zones, steps, states, k - 1);
      StepKeepsLoneWorker(states[k - 1], steps[k - 1]);
    }
  }

  /** Without a lock, a nil result of ensureZonalNetworkEndpointGroups promises all backends exactly when
      there is at most one worker in all. */
  lemma BackendsCompleteIff(zones: seq<nat>)
    ensures (forall s | Reaches(LoadStore, zones, s) && s.main == Returned(false) ::
               forall e: nat, z: nat :: InnerExists(s, e, z) ==> (e, z) in s.backends)
            <==> OneWorkerInAll(zones)
  {
    if OneWorkerInAll(zones) {
      forall s, e: nat, z: nat | Reaches(LoadStore, zones, s) && s.main == Returned(false) && InnerExists(s, e, z)
        ensures (e, z) in s.backends
      {
        ReachableInv(LoadStore, zones, s);
        ResultSumsUp(s);
        var steps, states :| Run(LoadStore, zones, steps, states) && states[|steps|] == s;
        RunKeepsLoneWorker(zones, steps, states, |steps|);
      }
    } else {
      var e: nat, z: nat, x: nat, y: nat :|
        e < |zones| && z < zones[e] && x < |zones| && y < zones[x] && (e, z) != (x, y);
      var s := BackendOverwritten(zones, e, z, x, y);
      assert InnerExists(s, e, z) && (e, z) !in s.backends;
    }
  }
}
