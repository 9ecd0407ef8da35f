/** ensureDNSRecord of the Google provider as runs, after the firewall rules: lookups and calls one after the
    other, with the workers for zonal groups interleaved, each answered in any possible way
    (controllers/globaldnsrecord/gcpglb.go:179-238, 256-489, 564-686, 762-794). */
module GcpCreation {
  import opened Prelude
  import opened GcpResources

  /** A worker: the zone of its group, and whether it finds an existing group wanting, and so replaces it. */
  datatype Worker = Worker(zone: string, stale: bool)

  /** `check` is the health check that the record asks for. */
  datatype Config = Config(typed: bool, workers: seq<Worker>, check: HealthCheck)

  /** What looking a resource up gives. `Unknown` is an error that is not a googleapi error. */
  datatype Seen = Exists | Absent | Failed | Unknown

  datatype Job = Looking | Deleting | Inserting | Filling | Well | Broken

  /** What is looked at next. `Backend` has the groups that the backend is to name, `Address` whether the proxy is
      known, `Rule` what the rule is to refer to and `Dns` the address. */
  datatype Stage =
    | Check | Groups | Backend(zones: set<string>) | Proxy | Address(proxied: bool) | AddressAgain(proxied: bool)
    | Rule(to: Forwarding) | Dns(address: string) | End(ok: bool)

  /** Where the main goroutine is: about to look, or about to issue a call. */
  datatype Pc = At(stage: Stage) | Calling(c: Change, next: Pc)

  datatype State = State(pc: Pc, jobs: seq<Job>, now: Resources)

  datatype Step =
    | Look(seen: Seen, granted: string)
    | Answer(reply: Reply)
    | WorkerLooks(w: nat, seen: Seen)
    | WorkerIsAnswered(w: nat, reply: Reply)
    | WorkerFills(w: nat, fine: bool)
    | Gather(zones: set<string>)

  const FAILED: Pc := At(End(false))

  function Initial(cfg: Config, now: Resources): (s: State) {
    State(At(Check), seq(|cfg.workers|, _ => Looking), now)
  }

  function Zones(cfg: Config): (zones: set<string>) {
    set w | w in cfg.workers :: w.zone
  }

  /** The resource of the stage is there. */
  predicate Present(stage: Stage, now: Resources) {
    match stage
    case Check => now.check.Some?
    case Backend(_) => now.backend.Some?
    case Proxy => now.proxy
    case Address(_) => now.address.Some?
    case AddressAgain(_) => now.address.Some?
    case Rule(_) => now.rule.Some?
    case Dns(_) => now.dns.Some?
    case _ => false
  }

  /** A lookup can give this. */
  predicate CanSee(cfg: Config, present: bool, seen: Seen) {
    (seen.Exists? ==> present) && (seen.Absent? ==> !present) && (seen.Unknown? ==> !cfg.typed)
  }

  function AddressOf(now: Resources): (address: string) {
    if now.address.Some? then now.address.value else ""
  }

  /** What is found is not as it should be, as the comparisons of the provider judge. */
  predicate Differs(check: HealthCheck, stage: Stage, now: Resources) {
    match stage
    case Check => now.check.Some? && !CompareHealthCheck(now.check.value, check)
    case Backend(zones) => now.backend != Some(zones) || BackendKind in now.odd
    case Proxy => ProxyKind in now.odd
    case Rule(to) => now.rule != Some(to) || RuleKind in now.odd
    case Dns(address) => now.dns != Some(address) || DnsKind in now.odd
    case _ => false
  }

  /** Where a lookup leads; `granted` is the address that Google would grant. After an error that is not a googleapi
      error the health check and the backend dereference nil, the proxy, the rule and the DNS entry are passed over,
      and proxy and address are referred to by empty strings. */
  function AfterLook(check: HealthCheck, stage: Stage, now: Resources, seen: Seen, granted: string): (pc: Pc) {
    var fine := seen.Exists? && !Differs(check, stage, now);
    var wanting := seen.Absent? || (seen.Exists? && Differs(check, stage, now));
    match stage
    case Check => if fine then At(Groups) else if wanting then Calling(PutCheck(check), At(Groups)) else FAILED
    case Backend(zones) =>
      if fine then At(Proxy) else if wanting then Calling(PutBackend(zones), At(Proxy)) else FAILED
    case Proxy =>
      if fine then At(Address(true))
      else if wanting then Calling(PutProxy, At(Address(true)))
      else if seen.Unknown? then At(Address(false)) else FAILED
    case Address(proxied) =>
      if seen.Exists? then At(Rule(Forwarding(AddressOf(now), proxied)))
      else if seen.Unknown? then At(Rule(Forwarding("", proxied)))
      else if seen.Absent? then Calling(PutAddress(granted), At(AddressAgain(proxied))) else FAILED
    case AddressAgain(proxied) => if seen.Exists? then At(Rule(Forwarding(AddressOf(now), proxied))) else FAILED
    case Rule(to) =>
      if fine || seen.Unknown? then At(Dns(to.address))
      else if seen.Exists? then Calling(DropRule, Calling(PutRule(to), At(Dns(to.address))))
      else if wanting then Calling(PutRule(to), At(Dns(to.address))) else FAILED
    case Dns(address) =>
      if fine || seen.Unknown? then At(End(true))
      else if wanting then Calling(PutDns(address), At(End(true))) else FAILED
    case _ => FAILED
  }

  function JobAfterLook(worker: Worker, seen: Seen): (job: Job) {
    match seen
    case Exists => if worker.stale then Deleting else Filling
    case Absent => Inserting
    case _ => Broken
  }

  function CallOf(worker: Worker, job: Job): (c: Change)
    requires job.Deleting? || job.Inserting?
  {
    if job.Deleting? then DropGroup(worker.zone) else PutGroup(worker.zone)
  }

  predicate Over(job: Job) {
    job.Well? || job.Broken?
  }

  ghost predicate InGroups(cfg: Config, s: State, w: nat) {
    s.pc == At(Groups) && |s.jobs| == |cfg.workers| && w < |s.jobs|
  }

  function SetJob(s: State, w: nat, job: Job): (t: State)
    requires w < |s.jobs|
  {
    s.(jobs := s.jobs[w := job])
  }

  /** The step leads from `s` to `t`. A worker whose lookup fails with an error that is not a googleapi error
      panics, and with it the whole program ends; any other failure of a worker lets the others go on. */
  ghost predicate Next(cfg: Config, s: State, step: Step, t: State) {
    match step
    case Look(seen, granted) =>
      && s.pc.At? && !s.pc.stage.Groups? && !s.pc.stage.End? && CanSee(cfg, Present(s.pc.stage, s.now), seen)
      && t == s.(pc := AfterLook(cfg.check, s.pc.stage, s.now, seen, granted))
    case Answer(reply) =>
      && s.pc.Calling? && Possible(cfg.typed, s.now, s.pc.c, reply, t.now)
      && t == State(if reply.Done? then s.pc.next else FAILED, s.jobs, t.now)
    case WorkerLooks(w, seen) =>
      && InGroups(cfg, s, w) && s.jobs[w].Looking? && CanSee(cfg, cfg.workers[w].zone in s.now.groups, seen)
      && t == if seen.Unknown? then s.(pc := FAILED) else SetJob(s, w, JobAfterLook(cfg.workers[w], seen))
    case WorkerIsAnswered(w, reply) =>
      && InGroups(cfg, s, w) && (s.jobs[w].Deleting? || s.jobs[w].Inserting?)
      && Possible(cfg.typed, s.now, CallOf(cfg.workers[w], s.jobs[w]), reply, t.now)
      && t == SetJob(s, w, if !reply.Done? then Broken else if s.jobs[w].Deleting? then Inserting else Filling).(
                now := t.now)
    case WorkerFills(w, fine) =>
      InGroups(cfg, s, w) && s.jobs[w].Filling? && t == SetJob(s, w, if fine then Well else Broken)
    case Gather(zones) =>
      && s.pc == At(Groups) && (forall w :: 0 <= w < |s.jobs| ==> Over(s.jobs[w]))
      && zones <= Zones(cfg) && (|cfg.workers| <= 1 ==> zones == Zones(cfg))
      && t == s.(pc := if forall w :: 0 <= w < |s.jobs| ==> s.jobs[w].Well? then At(Backend(zones)) else FAILED)
  }

  /** Whether a step leads from one state to another, as one value. */
  datatype Verdict = Follows | Impossible

  ghost function Judge(cfg: Config, s: State, step: Step, t: State): (v: Verdict) {
    if Next(cfg, s, step, t) then Follows else Impossible
  }

  /** A run, complete or not: it begins with the lookup of the health check. */
  datatype Creation = Creation(steps: seq<Step>, states: seq<State>)

  ghost predicate Runs(cfg: Config, start: Resources, r: Creation) {
    && |r.states| == |r.steps| + 1 && r.states[0] == Initial(cfg, start)
    && forall i {:trigger r.steps[i]} :: 0 <= i < |r.steps| ==> Next(cfg, r.states[i], r.steps[i], r.states[i + 1])
  }

  function Begin(cfg: Config, start: Resources): (r: Creation) {
    Creation([], [Initial(cfg, start)])
  }

  function Last(r: Creation): (s: State)
    requires r.states != []
  {
    r.states[|r.states| - 1]
  }

  function Then(r: Creation, step: Step, t: State): (q: Creation) {
    Creation(r.steps + [step], r.states + [t])
  }

  lemma ThenRuns(cfg: Config, start: Resources, r: Creation, step: Step, t: State)
    requires Runs(cfg, start, r) && Next(cfg, Last(r), step, t)
    ensures Runs(cfg, start, Then(r, step, t))
  {
    var q := Then(r, step, t);
    forall i | 0 <= i < |q.steps| ensures Next(cfg, q.states[i], q.steps[i], q.states[i + 1]) {
      assert i < |r.steps| ==> q.steps[i] == r.steps[i];
    }
  }

  // ----- what every step keeps

  /** No worker replaces a group that the backend names. */
  ghost predicate NothingStaleNamed(cfg: Config, now: Resources) {
    now.backend.Some? ==> forall w | w in cfg.workers && w.stale :: w.zone !in now.backend.value
  }

  /** What is to be shown of runs: that every state is whole, or that success completes all resources. */
  datatype Goal = Wholeness | Completion

  /** The health check that is there, if any, is not one that the comparison takes for the desired one. */
  predicate CheckIsSeen(cfg: Config, now: Resources) {
    now.check.Some? ==> !CompareHealthCheck(now.check.value, cfg.check)
  }

  ghost predicate Careful(goal: Goal, now: Resources) {
    goal.Wholeness? ==> Integrity(now)
  }

  /** The goal can be reached by runs from this state. */
  ghost predicate Warranted(goal: Goal, cfg: Config, start: Resources) {
    && cfg.typed && Careful(goal, start)
    && if goal.Wholeness? then NothingStaleNamed(cfg, start) else CheckIsSeen(cfg, start)
  }

  ghost predicate CheckDone(goal: Goal, cfg: Config, now: Resources) {
    now.check.Some? && (goal.Completion? ==> now.check == Some(cfg.check))
  }

  /** The backend names groups of the workers, all of them if there is one worker, and all groups exist. */
  ghost predicate BackendDone(goal: Goal, cfg: Config, now: Resources) {
    && CheckDone(goal, cfg, now)
    && now.backend.Some? && BackendKind !in now.odd && now.backend.value <= Zones(cfg) <= now.groups
    && (|cfg.workers| <= 1 ==> now.backend.value == Zones(cfg))
  }

  ghost predicate ProxyDone(goal: Goal, cfg: Config, now: Resources) {
    BackendDone(goal, cfg, now) && now.proxy && ProxyKind !in now.odd
  }

  ghost predicate StageFine(goal: Goal, cfg: Config, stage: Stage, now: Resources) {
    match stage
    case Check => Warranted(goal, cfg, now)
    case Groups => CheckDone(goal, cfg, now) && (goal.Wholeness? ==> NothingStaleNamed(cfg, now))
    case Backend(zones) =>
      && CheckDone(goal, cfg, now) && zones <= Zones(cfg) <= now.groups
      && (|cfg.workers| <= 1 ==> zones == Zones(cfg))
    case Proxy => BackendDone(goal, cfg, now)
    case Address(proxied) => ProxyDone(goal, cfg, now) && proxied
    case AddressAgain(proxied) => ProxyDone(goal, cfg, now) && proxied
    case Rule(to) => ProxyDone(goal, cfg, now) && to.proxied && now.address == Some(to.address)
    case Dns(address) =>
      && ProxyDone(goal, cfg, now) && now.address == Some(address)
      && now.rule == Some(Forwarding(address, true)) && RuleKind !in now.odd
    case End(ok) => ok && goal.Completion? ==> Complete(cfg, now)
  }

  /** All resources of the record are there, as the record asks for them, and refer to each other. */
  ghost predicate Complete(cfg: Config, now: Resources) {
    && Integrity(now) && now.check == Some(cfg.check) && now.odd == {}
    && now.backend.Some? && now.backend.value <= Zones(cfg) <= now.groups
    && (|cfg.workers| <= 1 ==> now.backend.value == Zones(cfg))
    && now.proxy && now.address.Some?
    && now.rule == Some(Forwarding(now.address.value, true)) && now.dns == now.address
  }

  /** A pending call of the main goroutine is safe, leaves the groups alone and leads on to where all is fine. */
  ghost predicate Fine(goal: Goal, cfg: Config, pc: Pc, now: Resources)
    decreases pc
  {
    match pc
    case At(stage) => StageFine(goal, cfg, stage, now)
    case Calling(c, next) =>
      && Apply(now, c).groups == now.groups && Careful(goal, Apply(now, c))
      && Fine(goal, cfg, next, Apply(now, c))
  }

  /** A group that a worker has found or made is there, unless another worker has taken it away and has yet to
      put it back, or has failed to. */
  ghost predicate JobFine(cfg: Config, s: State, w: nat)
    requires |s.jobs| == |cfg.workers| && w < |s.jobs|
  {
    && (s.jobs[w].Deleting? ==> cfg.workers[w].stale)
    && (s.jobs[w].Filling? || s.jobs[w].Well? ==>
          || cfg.workers[w].zone in s.now.groups
          || exists v :: 0 <= v < |s.jobs| && TookAway(cfg, s, v, cfg.workers[w].zone))
  }

  ghost predicate TookAway(cfg: Config, s: State, v: nat, zone: string)
    requires |s.jobs| == |cfg.workers| && v < |s.jobs|
  {
    cfg.workers[v].zone == zone && (s.jobs[v].Inserting? || s.jobs[v].Broken?)
  }

  ghost predicate JobsFine(cfg: Config, s: State) {
    |s.jobs| == |cfg.workers| && forall w :: 0 <= w < |s.jobs| ==> JobFine(cfg, s, w)
  }

  ghost predicate Inv(goal: Goal, cfg: Config, s: State) {
    cfg.typed && Careful(goal, s.now) && Fine(goal, cfg, s.pc, s.now) && JobsFine(cfg, s)
  }

  lemma InitialInv(goal: Goal, cfg: Config, now: Resources)
    requires Warranted(goal, cfg, now)
    ensures Inv(goal, cfg, Initial(cfg, now))
  {
  }

  lemma OddKinds(odd: set<Kind>)
    requires BackendKind !in odd && ProxyKind !in odd && RuleKind !in odd && DnsKind !in odd
    ensures odd == {}
  {
    assert forall k | k in odd :: k == BackendKind || k == ProxyKind || k == RuleKind || k == DnsKind;
  }

  lemma OddAfterDns(now: Resources, address: string)
    requires BackendKind !in now.odd && ProxyKind !in now.odd && RuleKind !in now.odd
    ensures Apply(now, PutDns(address)).odd == {}
  {
    OddKinds(now.odd - {DnsKind});
  }

  lemma LookKeepsFine(goal: Goal, cfg: Config, stage: Stage, now: Resources, seen: Seen, granted: string)
    requires cfg.typed && Careful(goal, now) && StageFine(goal, cfg, stage, now) && !stage.Groups? && !stage.End?
    requires CanSee(cfg, Present(stage, now), seen)
    ensures Fine(goal, cfg, AfterLook(cfg.check, stage, now, seen, granted), now)
  {
    if stage.Dns? && seen.Exists? && !Differs(cfg.check, stage, now) {
      OddKinds(now.odd);
    } else if stage.Dns? && goal.Completion? {
      OddAfterDns(now, stage.address);
    }
  }

  lemma AnswerKeepsInv(goal: Goal, cfg: Config, s: State, reply: Reply, t: State)
    requires Inv(goal, cfg, s) && Next(cfg, s, Answer(reply), t)
    ensures Inv(goal, cfg, t)
  {
    assert t.now.groups == s.now.groups;
    forall w | 0 <= w < |t.jobs| ensures JobFine(cfg, t, w) {
      JobStaysFine(cfg, s, t, w);
    }
  }

  /** A job stays fine while jobs and groups stay the same. */
  lemma JobStaysFine(cfg: Config, s: State, t: State, w: nat)
    requires JobsFine(cfg, s) && w < |s.jobs| && t.jobs == s.jobs && t.now.groups == s.now.groups
    ensures JobFine(cfg, t, w)
  {
    assert JobFine(cfg, s, w);
    if v :| 0 <= v < |s.jobs| && TookAway(cfg, s, v, cfg.workers[w].zone) {
      assert TookAway(cfg, t, v, cfg.workers[w].zone);
    }
  }

  /** Another worker's job stays fine when the job of `w` moves: `w` took away only what it had taken away before,
      or it owns up to it, or it has put it back. */
  lemma OtherJobStaysFine(cfg: Config, s: State, t: State, w: nat, u: nat)
    requires JobsFine(cfg, s) && |t.jobs| == |s.jobs| && w < |s.jobs| && u < |s.jobs| && u != w
    requires t.jobs == s.jobs[w := t.jobs[w]]
    requires forall z | z in s.now.groups && z !in t.now.groups :: TookAway(cfg, t, w, z)
    requires s.jobs[w].Inserting? ==> t.jobs[w].Broken? || cfg.workers[w].zone in t.now.groups
    requires !s.jobs[w].Broken?
    ensures JobFine(cfg, t, u)
  {
    assert JobFine(cfg, s, u);
    var z := cfg.workers[u].zone;
    if (t.jobs[u].Filling? || t.jobs[u].Well?) && z !in t.now.groups {
      if z in s.now.groups {
        assert TookAway(cfg, t, w, z);
      } else {
        var v :| 0 <= v < |s.jobs| && TookAway(cfg, s, v, z);
        assert TookAway(cfg, t, v, z);
      }
    }
  }

  lemma WorkerMoveKeepsInv(goal: Goal, cfg: Config, s: State, t: State, w: nat)
    requires Inv(goal, cfg, s) && s.pc == At(Groups) == t.pc && |t.jobs| == |s.jobs| && w < |s.jobs|
    requires t.jobs == s.jobs[w := t.jobs[w]] && t.now == s.now.(groups := t.now.groups) && Careful(goal, t.now)
    requires forall z | z in s.now.groups && z !in t.now.groups :: TookAway(cfg, t, w, z)
    requires s.jobs[w].Inserting? ==> t.jobs[w].Broken? || cfg.workers[w].zone in t.now.groups
    requires !s.jobs[w].Broken? && JobFine(cfg, t, w)
    ensures Inv(goal, cfg, t)
  {
    forall u | 0 <= u < |t.jobs| ensures JobFine(cfg, t, u) {
      if u != w {
        OtherJobStaysFine(cfg, s, t, w, u);
      }
    }
  }

  lemma WorkerLooksKeepsInv(goal: Goal, cfg: Config, s: State, w: nat, seen: Seen, t: State)
    requires Inv(goal, cfg, s) && Next(cfg, s, WorkerLooks(w, seen), t)
    ensures Inv(goal, cfg, t)
  {
    WorkerMoveKeepsInv(goal, cfg, s, t, w);
  }

  lemma WorkerIsAnsweredKeepsInv(goal: Goal, cfg: Config, s: State, w: nat, reply: Reply, t: State)
    requires Inv(goal, cfg, s) && Next(cfg, s, WorkerIsAnswered(w, reply), t)
    ensures Inv(goal, cfg, t)
  {
    assert JobFine(cfg, s, w);
    assert cfg.workers[w] in cfg.workers;
    WorkerMoveKeepsInv(goal, cfg, s, t, w);
  }

  lemma WorkerFillsKeepsInv(goal: Goal, cfg: Config, s: State, w: nat, fine: bool, t: State)
    requires Inv(goal, cfg, s) && Next(cfg, s, WorkerFills(w, fine), t)
    ensures Inv(goal, cfg, t)
  {
    assert JobFine(cfg, s, w);
    assert JobFine(cfg, t, w) by {
      if v :| 0 <= v < |s.jobs| && TookAway(cfg, s, v, cfg.workers[w].zone) {
        assert TookAway(cfg, t, v, cfg.workers[w].zone);
      }
    }
    WorkerMoveKeepsInv(goal, cfg, s, t, w);
  }

  lemma GatherKeepsInv(goal: Goal, cfg: Config, s: State, zones: set<string>, t: State)
    requires Inv(goal, cfg, s) && Next(cfg, s, Gather(zones), t)
    ensures Inv(goal, cfg, t)
  {
    forall u | 0 <= u < |t.jobs| ensures JobFine(cfg, t, u) {
      JobStaysFine(cfg, s, t, u);
    }
    if forall w :: 0 <= w < |s.jobs| ==> s.jobs[w].Well? {
      forall z | z in Zones(cfg) ensures z in s.now.groups {
        var w :| 0 <= w < |cfg.workers| && cfg.workers[w].zone == z;
        assert JobFine(cfg, s, w);
      }
    }
  }

  lemma StepKeepsInv(goal: Goal, cfg: Config, s: State, step: Step, t: State)
    requires Inv(goal, cfg, s) && Next(cfg, s, step, t)
    ensures Inv(goal, cfg, t)
  {
    match step
    case Look(seen, granted) =>
      LookKeepsFine(goal, cfg, s.pc.stage, s.now, seen, granted);
      forall u | 0 <= u < |t.jobs| ensures JobFine(cfg, t, u) {
        JobStaysFine(cfg, s, t, u);
      }
    case Answer(reply) => AnswerKeepsInv(goal, cfg, s, reply, t);
    case WorkerLooks(w, seen) => WorkerLooksKeepsInv(goal, cfg, s, w, seen, t);
    case WorkerIsAnswered(w, reply) => WorkerIsAnsweredKeepsInv(goal, cfg, s, w, reply, t);
    case WorkerFills(w, fine) => WorkerFillsKeepsInv(goal, cfg, s, w, fine, t);
    case Gather(zones) => GatherKeepsInv(goal, cfg, s, zones, t);
  }

  lemma {:induction false} RunKeepsInv(goal: Goal, cfg: Config, start: Resources, r: Creation, k: nat)
    requires Runs(cfg, start, r) && k <= |r.steps| && Warranted(goal, cfg, start)
    ensures Inv(goal, cfg, r.states[k])
  {
    if k == 0 {
      InitialInv(goal, cfg, start);
    } else {
      RunKeepsInv(goal, cfg, start, r, k - 1);
      assert Next(cfg, r.states[k - 1], r.steps[k - 1], r.states[k]);
      StepKeepsInv(goal, cfg, r.states[k - 1], r.steps[k - 1], r.states[k]);
    }
  }

  /** When all errors are googleapi errors and no check is taken for the desired one, a run that ends well has
      completed all resources. */
  lemma SuccessCompletes(cfg: Config, start: Resources, r: Creation)
    requires Runs(cfg, start, r) && cfg.typed && CheckIsSeen(cfg, start) && Last(r).pc == At(End(true))
    ensures Complete(cfg, Last(r).now)
  {
    RunKeepsInv(Completion, cfg, start, r, |r.steps|);
  }

  // ----- runs that break a reference

  /** Some run from `start` leads to `s`. */
  ghost predicate Reaches(cfg: Config, start: Resources, s: State) {
    exists r :: Runs(cfg, start, r) && Last(r) == s
  }

  lemma ReachesInitial(cfg: Config, start: Resources)
    ensures Reaches(cfg, start, Initial(cfg, start))
  {
    assert Runs(cfg, start, Begin(cfg, start));
  }

  lemma ReachesNext(cfg: Config, start: Resources, s: State, step: Step, t: State)
    requires Reaches(cfg, start, s) && Next(cfg, s, step, t)
    ensures Reaches(cfg, start, t)
  {
    var r :| Runs(cfg, start, r) && Last(r) == s;
    ThenRuns(cfg, start, r, step, t);
    assert Last(Then(r, step, t)) == t;
  }

  /** A favourable lookup of the main goroutine. */
  lemma PassLook(cfg: Config, start: Resources, s: State) returns (t: State)
    requires Reaches(cfg, start, s) && s.pc.At? && !s.pc.stage.Groups? && !s.pc.stage.End?
    ensures Reaches(cfg, start, t)
    ensures t == s.(pc := AfterLook(cfg.check, s.pc.stage, s.now,
                                    if Present(s.pc.stage, s.now) then Exists else Absent, ""))
  {
    var look := Look(if Present(s.pc.stage, s.now) then Exists else Absent, "");
    t := s.(pc := AfterLook(cfg.check, s.pc.stage, s.now, look.seen, ""));
    ReachesNext(cfg, start, s, look, t);
  }

  /** A call that succeeds. */
  lemma PassCalling(cfg: Config, start: Resources, s: State) returns (t: State)
    requires Reaches(cfg, start, s) && s.pc.Calling?
    ensures Reaches(cfg, start, t) && t == State(s.pc.next, s.jobs, Apply(s.now, s.pc.c))
  {
    t := State(s.pc.next, s.jobs, Apply(s.now, s.pc.c));
    ReachesNext(cfg, start, s, Answer(Done), t);
  }

  /** A favourable lookup and the call it may lead to, which leave the health check alone unless it is its turn. */
  lemma PassStage(cfg: Config, start: Resources, s: State) returns (t: State)
    requires Reaches(cfg, start, s) && s.pc.At?
    requires s.pc.stage.Check? || s.pc.stage.Backend? || s.pc.stage.Proxy? || s.pc.stage.Dns?
    ensures Reaches(cfg, start, t) && t.jobs == s.jobs && t.now.groups == s.now.groups
    ensures s.pc.stage.Check? ==>
      && t.pc == At(Groups) && t.now == s.now.(check := t.now.check)
      && t.now.check == if CheckIsSeen(cfg, s.now) then Some(cfg.check) else s.now.check
    ensures !s.pc.stage.Check? ==> t.now.check == s.now.check
    ensures s.pc.stage.Backend? ==> t.pc == At(Proxy)
    ensures s.pc.stage.Proxy? ==> t.pc == At(Address(true))
    ensures s.pc.stage.Dns? ==> t.pc == At(End(true))
  {
    t := PassLook(cfg, start, s);
    if t.pc.Calling? {
      t := PassCalling(cfg, start, t);
    }
  }

  /** A call of a worker that succeeds. */
  lemma PassCall(cfg: Config, start: Resources, s: State, w: nat) returns (t: State)
    requires Reaches(cfg, start, s) && InGroups(cfg, s, w) && (s.jobs[w].Deleting? || s.jobs[w].Inserting?)
    ensures Reaches(cfg, start, t)
    ensures t == SetJob(s, w, if s.jobs[w].Deleting? then Inserting else Filling).(
                   now := Apply(s.now, CallOf(cfg.workers[w], s.jobs[w])))
  {
    t := SetJob(s, w, if s.jobs[w].Deleting? then Inserting else Filling).(
           now := Apply(s.now, CallOf(cfg.workers[w], s.jobs[w])));
    ReachesNext(cfg, start, s, WorkerIsAnswered(w, Done), t);
  }

  /** A worker that is done well, with its group there. */
  lemma PassWorker(cfg: Config, start: Resources, s: State, w: nat) returns (t: State)
    requires Reaches(cfg, start, s) && InGroups(cfg, s, w) && s.jobs[w].Looking?
    ensures Reaches(cfg, start, t) && t.pc == s.pc && t.jobs == s.jobs[w := Well]
    ensures t.now == s.now.(groups := s.now.groups + {cfg.workers[w].zone})
  {
    var worker := cfg.workers[w];
    var seen := if worker.zone in s.now.groups then Exists else Absent;
    t := SetJob(s, w, JobAfterLook(worker, seen));
    ReachesNext(cfg, start, s, WorkerLooks(w, seen), t);
    if t.jobs[w].Deleting? {
      t := PassCall(cfg, start, t, w);
    }
    if t.jobs[w].Inserting? {
      t := PassCall(cfg, start, t, w);
    }
    var u := SetJob(t, w, Well);
    ReachesNext(cfg, start, t, WorkerFills(w, true), u);
    t := u;
    assert t.now.groups == s.now.groups + {worker.zone};
  }

  ghost predicate WellBelow(s: State, w: nat) {
    && w <= |s.jobs| && (forall v :: 0 <= v < w ==> s.jobs[v].Well?)
    && (forall v :: w <= v < |s.jobs| ==> s.jobs[v].Looking?)
  }

  lemma {:induction false} PassWorkers(cfg: Config, start: Resources, s: State, w: nat) returns (t: State)
    requires Reaches(cfg, start, s) && s.pc == At(Groups) && |s.jobs| == |cfg.workers| && WellBelow(s, w)
    ensures Reaches(cfg, start, t) && t.pc == At(Groups) && WellBelow(t, |cfg.workers|) && |t.jobs| == |cfg.workers|
    ensures t.now == s.now.(groups := t.now.groups)
    decreases |cfg.workers| - w
  {
    if w == |cfg.workers| {
      t := s;
    } else {
      var u := PassWorker(cfg, start, s, w);
      t := PassWorkers(cfg, start, u, w + 1);
    }
  }

  /** Every run can get to the lookup of the proxy. */
  lemma GetToProxy(cfg: Config, start: Resources) returns (s: State)
    ensures Reaches(cfg, start, s) && s.pc == At(Proxy)
    ensures s.now.check == if CheckIsSeen(cfg, start) then Some(cfg.check) else start.check
  {
    ReachesInitial(cfg, start);
    var t := PassStage(cfg, start, Initial(cfg, start));
    var u := PassWorkers(cfg, start, t, 0);
    var v := u.(pc := At(Backend(Zones(cfg))));
    ReachesNext(cfg, start, u, Gather(Zones(cfg)), v);
    s := PassStage(cfg, start, v);
  }

  /** The rule comes to refer to `to`, whether or not there was one. */
  lemma PassRule(cfg: Config, start: Resources, s: State, to: Forwarding) returns (t: State)
    requires Reaches(cfg, start, s) && s.pc == At(Rule(to))
    ensures Reaches(cfg, start, t) && t.pc == At(Dns(to.address)) && t.now.rule == Some(to)
    ensures t.now.check == s.now.check
  {
    t := PassLook(cfg, start, s);
    if t.pc.Calling? {
      t := PassCalling(cfg, start, t);
    }
    if t.pc.Calling? {
      t := PassCalling(cfg, start, t);
    }
  }

  /** The address is found, or granted and found. */
  lemma PassAddress(cfg: Config, start: Resources, s: State) returns (t: State, to: Forwarding)
    requires Reaches(cfg, start, s) && s.pc == At(Address(true))
    ensures Reaches(cfg, start, t) && t.pc == At(Rule(to)) && t.now.check == s.now.check
  {
    t := PassLook(cfg, start, s);
    if t.pc.Calling? {
      t := PassCalling(cfg, start, t);
      t := PassLook(cfg, start, t);
    }
    to := t.pc.stage.to;
  }

  /** Every run can report success. */
  lemma GetToEnd(cfg: Config, start: Resources) returns (s: State)
    ensures Reaches(cfg, start, s) && s.pc == At(End(true))
    ensures s.now.check == if CheckIsSeen(cfg, start) then Some(cfg.check) else start.check
  {
    var t := GetToProxy(cfg, start);
    t := PassStage(cfg, start, t);
    var to;
    t, to := PassAddress(cfg, start, t);
    t := PassRule(cfg, start, t, to);
    s := PassStage(cfg, start, t);
  }

  /** A lookup of the main goroutine that is passed over. */
  lemma PassOver(cfg: Config, start: Resources, s: State, next: Stage) returns (t: State)
    requires Reaches(cfg, start, s) && !cfg.typed && s.pc.At?
    requires s.pc.stage.Proxy? || s.pc.stage.Address? || s.pc.stage.Rule? || s.pc.stage.Dns?
    requires AfterLook(cfg.check, s.pc.stage, s.now, Unknown, "") == At(next)
    ensures Reaches(cfg, start, t) && t == s.(pc := At(next))
  {
    t := s.(pc := At(next));
    ReachesNext(cfg, start, s, Look(Unknown, ""), t);
  }

  /** A lookup of the proxy that fails with an error that is not a googleapi error is enough: the rule that is then
      put refers to no proxy, and the run goes on to report success. */
  lemma UnknownLookupBreaks(cfg: Config, start: Resources) returns (s: State)
    requires !cfg.typed
    ensures Reaches(cfg, start, s) && s.pc == At(End(true)) && !Integrity(s.now)
  {
    var t := GetToProxy(cfg, start);
    t := PassOver(cfg, start, t, Address(false));
    t := PassOver(cfg, start, t, Rule(Forwarding("", false)));
    t := PassRule(cfg, start, t, Forwarding("", false));
    s := PassOver(cfg, start, t, End(true));
  }

  /** So is a group that the backend names and that a worker replaces. */
  lemma ReplacingBreaks(cfg: Config, start: Resources) returns (s: State)
    requires Integrity(start) && !NothingStaleNamed(cfg, start)
    ensures Reaches(cfg, start, s) && !Integrity(s.now)
  {
    var worker :| worker in cfg.workers && worker.stale && worker.zone in start.backend.value;
    var w :| 0 <= w < |cfg.workers| && cfg.workers[w] == worker;
    ReachesInitial(cfg, start);
    var t := PassStage(cfg, start, Initial(cfg, start));
    var u := SetJob(t, w, Deleting);
    ReachesNext(cfg, start, t, WorkerLooks(w, Exists), u);
    s := SetJob(u, w, Inserting).(now := Apply(u.now, DropGroup(worker.zone)));
    ReachesNext(cfg, start, u, WorkerIsAnswered(w, Done), s);
    assert worker.zone !in s.now.groups;
  }

  /** From a whole state, every run of the creation keeps every state whole exactly when all errors are googleapi
      errors and no group that the backend names needs replacing. */
  lemma CreationIsWholeIff(cfg: Config, start: Resources)
    requires Integrity(start)
    ensures (forall s | Reaches(cfg, start, s) :: Integrity(s.now)) <==> cfg.typed && NothingStaleNamed(cfg, start)
  {
    if !cfg.typed {
      var s := UnknownLookupBreaks(cfg, start);
    } else if !NothingStaleNamed(cfg, start) {
      var s := ReplacingBreaks(cfg, start);
    } else {
      forall s | Reaches(cfg, start, s) ensures Integrity(s.now) {
        var r :| Runs(cfg, start, r) && Last(r) == s;
        RunKeepsInv(Wholeness, cfg, start, r, |r.steps|);
      }
    }
  }

  /** A check that is taken for the desired one is not the desired one. */
  lemma AcceptedIsWrong(cfg: Config, now: Resources)
    requires Built(cfg.check) && !CheckIsSeen(cfg, now)
    ensures now.check != Some(cfg.check)
  {
  }

  /** From any state, every run that reports success has completed all resources exactly when all errors are
      googleapi errors and there is no health check that the inverted comparison takes for the desired one. */
  lemma SuccessCompletesIff(cfg: Config, start: Resources)
    requires Built(cfg.check)
    ensures (forall s | Reaches(cfg, start, s) && s.pc == At(End(true)) :: Complete(cfg, s.now)) <==>
            cfg.typed && CheckIsSeen(cfg, start)
  {
    if !cfg.typed {
      var s := UnknownLookupBreaks(cfg, start);
    } else if !CheckIsSeen(cfg, start) {
      var s := GetToEnd(cfg, start);
      AcceptedIsWrong(cfg, start);
      assert s.now.check == start.check && !Complete(cfg, s.now);
    } else {
      forall s | Reaches(cfg, start, s) && s.pc == At(End(true)) ensures Complete(cfg, s.now) {
        var r :| Runs(cfg, start, r) && Last(r) == s;
        SuccessCompletes(cfg, start, r);
      }
    }
  }

  // ----- when nothing is to be done

  /** Where a run over complete resources can stand: the one call it issues is the update of the health check. */
  ghost predicate Resting(cfg: Config, start: Resources, pc: Pc) {
    match pc
    case Calling(c, next) => c == PutCheck(cfg.check) && next == At(Groups)
    case At(stage) =>
      match stage
      case Backend(zones) => start.backend == Some(zones)
      case Address(proxied) => proxied
      case AddressAgain(_) => false
      case Rule(to) => start.rule == Some(to)
      case Dns(address) => start.dns == Some(address)
      case _ => true
  }

  ghost predicate RestingInv(cfg: Config, start: Resources, s: State) {
    && s.now == start && Resting(cfg, start, s.pc)
    && forall w :: 0 <= w < |s.jobs| ==> !s.jobs[w].Deleting? && !s.jobs[w].Inserting?
  }

  lemma StepKeepsRest(cfg: Config, start: Resources, s: State, step: Step, t: State)
    requires cfg.typed && Complete(cfg, start) && |cfg.workers| <= 1 && forall w | w in cfg.workers :: !w.stale
    requires RestingInv(cfg, start, s) && Next(cfg, s, step, t)
    ensures RestingInv(cfg, start, t)
  {
    if step.WorkerLooks? {
      assert cfg.workers[step.w] in cfg.workers;
    }
  }

  /** A run over complete resources changes nothing. With one worker at most, and no group to be replaced, the only
      call it issues is the update of the health check, which the inverted comparison asks for every time. */
  lemma {:induction false} CompleteRests(cfg: Config, start: Resources, r: Creation, k: nat)
    requires Runs(cfg, start, r) && k <= |r.steps|
    requires cfg.typed && Complete(cfg, start) && |cfg.workers| <= 1 && forall w | w in cfg.workers :: !w.stale
    ensures r.states[k].now == start
    ensures r.states[k].pc.Calling? ==> r.states[k].pc.c == PutCheck(cfg.check)
    ensures RestingInv(cfg, start, r.states[k])
  {
    if k > 0 {
      CompleteRests(cfg, start, r, k - 1);
      assert Next(cfg, r.states[k - 1], r.steps[k - 1], r.states[k]);
      StepKeepsRest(cfg, start, r.states[k - 1], r.steps[k - 1], r.states[k]);
    }
  }
}
