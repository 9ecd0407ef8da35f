/** The Google provider: creating and deleting the resources of a record, each proved to be one of the runs of
    GcpCreation and GcpDeletion (controllers/globaldnsrecord/gcpglb.go:66-489, 564-686, 762-794). The workers of
    the fan-out run one after the other here; GcpCreation interleaves them, and FanOut says what they can lose. */
module GcpProvider {
  import opened Prelude
  import opened GcpResources
  import opened GcpDeletion
  import Creation = GcpCreation

  /** No endpoint has nodes in more than one zone. */
  ghost predicate OneZoneEach(zones: seq<set<string>>) {
    forall e :: 0 <= e < |zones| ==> |zones[e]| <= 1
  }

  function AllZones(zones: seq<set<string>>): (all: set<string>) {
    set e, z | 0 <= e < |zones| && z in zones[e] :: z
  }

  lemma AllZonesNext(zones: seq<set<string>>, e: nat)
    requires e < |zones|
    ensures AllZones(zones[..e + 1]) == AllZones(zones[..e]) + zones[e]
  {
    assert zones[..e + 1] == zones[..e] + [zones[e]];
  }

  /** Whether what happened so far is a given run. */
  datatype Track = Following | Departed

  /** What a run of the creation is about: the states before it, the workers, and the state it begins in. */
  datatype Journey = Journey(was: seq<Resources>, cfg: Creation.Config, start: Resources)

  ghost function Nows(q: seq<Creation.State>): (nows: seq<Resources>)
    ensures |nows| == |q| && forall i :: 0 <= i < |q| ==> nows[i] == q[i].now
  {
    seq(|q|, i requires 0 <= i < |q| => q[i].now)
  }

  /** A run goes on by one step. */
  lemma Proceeds(j: Journey, r: Creation.Creation, step: Creation.Step, t: Creation.State)
    requires Creation.Runs(j.cfg, j.start, r)
    requires Creation.Judge(j.cfg, Creation.Last(r), step, t) == Creation.Follows
    ensures Creation.Runs(j.cfg, j.start, Creation.Then(r, step, t))
    ensures Nows(Creation.Then(r, step, t).states[1..]) == Nows(r.states[1..]) + [t.now]
  {
    Creation.ThenRuns(j.cfg, j.start, r, step, t);
    assert Creation.Then(r, step, t).states[1..] == r.states[1..] + [t];
  }

  /** The jobs below `w` are over, and all of them well if `ok`; the others have not begun. */
  ghost predicate Handled(jobs: seq<Creation.Job>, w: nat, ok: bool) {
    && w <= |jobs| && (forall v :: 0 <= v < w ==> Creation.Over(jobs[v]))
    && (ok <==> forall v :: 0 <= v < w ==> jobs[v].Well?)
    && (forall v :: w <= v < |jobs| ==> jobs[v].Looking?)
  }

  lemma HandledNextJob(jobs: seq<Creation.Job>, w: nat, ok: bool, fine: bool)
    requires Handled(jobs, w, ok) && w < |jobs|
    ensures jobs[w].Looking?
    ensures Handled(jobs[w := if fine then Creation.Well else Creation.Broken], w + 1, ok && fine)
  {
    var next := jobs[w := if fine then Creation.Well else Creation.Broken];
    assert next[w] == if fine then Creation.Well else Creation.Broken;
    assert forall v :: 0 <= v < w ==> next[v] == jobs[v];
  }

  class Cloud {
    const typed: bool          // whether all errors are googleapi errors
    const reliable: bool       // whether no call fails
    var now: Resources
    ghost var trace: seq<Resources>

    constructor (typed: bool, reliable: bool, now: Resources)
      ensures this.typed == typed && this.reliable == reliable && this.now == now && trace == [now]
    {
      this.typed, this.reliable, this.now, trace := typed, reliable, now, [now];
    }

    /** One call. It can fail before or after it took effect; NotFound means that what was to be dropped
        does not exist. */
    method Perform(c: Change) returns (reply: Reply)
      modifies this
      ensures Possible(typed, old(now), c, reply, now)
      ensures trace == old(trace) + [now]
      ensures reliable ==> reply.Done? || (reply.NotFound? && now == old(now))
    {
      var lands: bool := *;
      var answered: bool := *;
      answered := answered || reliable;
      var wellTyped: bool := *;
      reply := if typed || wellTyped then ApiError else OtherError;
      if answered && Drops(c) && Apply(now, c) == now {
        reply := NotFound;
      } else if lands || answered {
        now := Apply(now, c);
        reply := if answered then Done else reply;
      }
      trace := trace + [now];
    }

    // ----- deletion

    /** Following while the states since `was` are those of the run. */
    ghost function TrackOf(was: seq<Resources>, r: Deletion): (track: Track)
      reads this
    {
      if r.states != [] && now == r.states[|r.states| - 1] && trace == was + r.states[1..] then Following else Departed
    }

    /** "Delete if it exists", for a resource of the chain: only a googleapi error other than 404 stops the
        deletion. */
    method Drop(c: Change, k: nat, ghost was: seq<Resources>, ghost start: Resources, ghost r: Deletion)
      returns (goOn: bool, ghost q: Deletion)
      requires TrackOf(was, r) == Following && StageOf(typed, start, r) == Made(k) && k < LINKS && Link(k) == c
      modifies this
      ensures TrackOf(was, q) == Following && StageOf(typed, start, q) == if goOn then Made(k + 1) else Stopped
      ensures reliable ==> goOn
    {
      var reply := Perform(c);
      StageNext(typed, start, r, k, reply, now);
      q := Answered(r, reply, now);
      goOn := !reply.ApiError?;
    }

    /** The resources that are deleted one after the other, those that refer to others first. */
    method DropChain(ghost was: seq<Resources>, ghost start: Resources, ghost begin: Deletion)
      returns (ok: bool, ghost r: Deletion)
      requires TrackOf(was, begin) == Following && StageOf(typed, start, begin) == Made(0)
      modifies this
      ensures TrackOf(was, r) == Following && StageOf(typed, start, r) == if ok then Made(LINKS) else Stopped
      ensures reliable ==> ok
    {
      ok, r := Drop(DropDns, 0, was, start, begin);
      if !ok { return; }
      ok, r := Drop(DropRule, 1, was, start, r);
      if !ok { return; }
      ok, r := Drop(DropAddress, 2, was, start, r);
      if !ok { return; }
      ok, r := DropRest(was, start, r);
    }

    method DropRest(ghost was: seq<Resources>, ghost start: Resources, ghost begin: Deletion)
      returns (ok: bool, ghost r: Deletion)
      requires TrackOf(was, begin) == Following && StageOf(typed, start, begin) == Made(3)
      modifies this
      ensures TrackOf(was, r) == Following && StageOf(typed, start, r) == if ok then Made(LINKS) else Stopped
      ensures reliable ==> ok
    {
      ok, r := Drop(DropProxy, 3, was, start, begin);
      if !ok { return; }
      ok, r := Drop(DropBackend, 4, was, start, r);
      if !ok { return; }
      ok, r := Drop(DropCheck, 5, was, start, r);
    }

    /** deleteDNSRecord is one of the runs of GcpDeletion; `zones` are those in which the clusters have nodes
        now. Success means that the chain is through and every zone was tried and, where no endpoint has more
        than one zone, that no call failed with an error that counts. */
    method DeleteDNSRecord(zones: seq<set<string>>) returns (ok: bool, ghost r: Deletion)
      modifies this
      ensures TrackOf(old(trace), r) == Following && Runs(typed, r) && r.states[0] == old(now)
      ensures ok ==> ChainDone(r) && ZonesOf(r.plan) == AllZones(zones)
      ensures ok && OneZoneEach(zones) ==> Succeeded(r)
      ensures reliable ==> ok
    {
      ghost var was, start := trace, now;
      BeginRuns(typed, now);
      ok, r := DropChain(was, start, Begin(now));
      if !ok { return; }
      TallyBegins(typed, start, r);
      ok, r := DropGroups(zones, was, start, r);
    }

    /** The groups of all endpoints; an endpoint whose nodes cannot be listed spoils the result but stops
        nothing. */
    method DropGroups(zones: seq<set<string>>, ghost was: seq<Resources>, ghost start: Resources, ghost r: Deletion)
      returns (ok: bool, ghost q: Deletion)
      requires TrackOf(was, r) == Following && TallyOf(typed, start, r) == Tally({}, true)
      modifies this
      ensures TrackOf(was, q) == Following && TallyOf(typed, start, q).Tally?
      ensures ok ==> TallyOf(typed, start, q).zones == AllZones(zones)
      ensures ok && OneZoneEach(zones) ==> TallyOf(typed, start, q).clean
      ensures reliable ==> ok
    {
      ok, q := true, r;
      for e := 0 to |zones|
        invariant TrackOf(was, q) == Following && TallyOf(typed, start, q).Tally?
        invariant ok ==> TallyOf(typed, start, q).zones == AllZones(zones[..e])
        invariant ok && OneZoneEach(zones) ==> TallyOf(typed, start, q).clean
        invariant reliable ==> ok
      {
        var found: bool := *;
        if found || reliable {
          var fine;
          fine, q := DropZones(zones[e], was, start, q);
          ok := ok && fine;
        } else {
          ok := false;
        }
        AllZonesNext(zones, e);
      }
      assert zones[..|zones|] == zones;
    }

    /** One worker: it drops the group of its zone. */
    method DropZone(zone: string, ghost was: seq<Resources>, ghost start: Resources, ghost r: Deletion,
                    ghost tally: Tally)
      returns (refused: bool, ghost q: Deletion)
      requires TrackOf(was, r) == Following && TallyOf(typed, start, r) == tally && tally.Tally?
      modifies this
      ensures TrackOf(was, q) == Following
      ensures TallyOf(typed, start, q) == Tally(tally.zones + {zone}, tally.clean && !refused)
      ensures reliable ==> !refused
    {
      var reply := Perform(DropGroup(zone));
      TallyNext(typed, start, r, zone, reply, now);
      q := Answered(Planned(r, zone), reply, now);
      refused := reply.ApiError?;
    }

    /** The groups of one endpoint. With several zones, a worker can lose its error to another. */
    method DropZones(zones: set<string>, ghost was: seq<Resources>, ghost start: Resources, ghost r: Deletion)
      returns (ok: bool, ghost q: Deletion)
      requires TrackOf(was, r) == Following && TallyOf(typed, start, r).Tally?
      modifies this
      ensures TrackOf(was, q) == Following && TallyOf(typed, start, q).Tally?
      ensures TallyOf(typed, start, q).zones == TallyOf(typed, start, r).zones + zones
      ensures ok && |zones| <= 1 && TallyOf(typed, start, r).clean ==> TallyOf(typed, start, q).clean
      ensures reliable ==> ok
    {
      var order := AnyOrder(zones);
      ok, q := true, r;
      ghost var before := TallyOf(typed, start, r);
      ghost var tally := before;
      for i := 0 to |order|
        invariant TrackOf(was, q) == Following && TallyOf(typed, start, q) == tally && tally.Tally?
        invariant tally.zones == before.zones + ToSet(order[..i])
        invariant ok && |zones| <= 1 && before.clean ==> tally.clean
        invariant reliable ==> ok
      {
        var refused;
        refused, q := DropZone(order[i], was, start, q, tally);
        tally := Tally(tally.zones + {order[i]}, tally.clean && !refused);
        var overwritten: bool := *;
        ok := ok && (!refused || (|zones| > 1 && overwritten));
        assert ToSet(order[..i + 1]) == ToSet(order[..i]) + {order[i]};
      }
      assert order[..|order|] == order && ToSet(order) == zones;
    }

    // ----- creation

    /** The state that a run has led to, as long as the run is what happened on the journey. */
    ghost function StateOf(j: Journey, r: Creation.Creation): (s: Option<Creation.State>)
      reads this
    {
      if r.states != [] && forall k {:trigger Key(k)} :: Key(k) ==> Happened(j, r)
      then Some(Creation.Last(r)) else None
    }

    ghost predicate Happened(j: Journey, r: Creation.Creation)
      reads this
    {
      && j.cfg.typed == typed && Creation.Runs(j.cfg, j.start, r) && Creation.Last(r).now == now
      && trace == j.was + Nows(r.states[1..])
    }

    lemma StateMeans(j: Journey, r: Creation.Creation)
      requires StateOf(j, r).Some?
      ensures Happened(j, r)
    {
      assert Key(0);
    }

    /** What a lookup can give. */
    method See(present: bool) returns (seen: Creation.Seen)
      modifies `trace
      ensures (seen.Exists? ==> present) && (seen.Absent? ==> !present) && (seen.Unknown? ==> !typed)
      ensures trace == old(trace) + [now]
      ensures reliable ==> seen == if present then Creation.Exists else Creation.Absent
    {
      var fails: bool := *;
      var wellTyped: bool := *;
      seen := if fails && !reliable then (if typed || wellTyped then Creation.Failed else Creation.Unknown)
              else if present then Creation.Exists else Creation.Absent;
      trace := trace + [now];
    }

    /** A lookup of the main goroutine; `granted` is the address that would be granted. */
    method Look(stage: Creation.Stage, ghost j: Journey, ghost r: Creation.Creation)
      returns (seen: Creation.Seen, granted: string, ghost q: Creation.Creation)
      requires StateOf(j, r).Some? && StateOf(j, r).value.pc == Creation.At(stage) && !stage.Groups? && !stage.End?
      modifies this
      ensures StateOf(j, q).Some? && StateOf(j, q).value.jobs == old(StateOf(j, r)).value.jobs
      ensures StateOf(j, q).value.pc == Creation.AfterLook(j.cfg.check, stage, now, seen, granted)
      ensures now == old(now) && (seen.Exists? ==> Creation.Present(stage, now))
      ensures reliable ==> seen == if Creation.Present(stage, now) then Creation.Exists else Creation.Absent
    {
      StateMeans(j, r);
      ghost var s := Creation.Last(r);
      var here := Creation.Present(stage, now);
      seen := See(here);
      granted := *;
      ghost var t := s.(pc := Creation.AfterLook(j.cfg.check, stage, now, seen, granted));
      Proceeds(j, r, Creation.Look(seen, granted), t);
      q := Creation.Then(r, Creation.Look(seen, granted), t);
    }

    /** A pending call of the main goroutine. */
    method Issue(c: Change, ghost next: Creation.Pc, ghost j: Journey, ghost r: Creation.Creation)
      returns (ok: bool, ghost q: Creation.Creation)
      requires StateOf(j, r).Some? && StateOf(j, r).value.pc == Creation.Calling(c, next)
      modifies this
      ensures StateOf(j, q).Some? && StateOf(j, q).value.jobs == old(StateOf(j, r)).value.jobs
      ensures StateOf(j, q).value.pc == if ok then next else Creation.FAILED
      ensures reliable && (!Drops(c) || Apply(old(now), c) != old(now)) ==> ok
      ensures ok ==> now == Apply(old(now), c)
    {
      StateMeans(j, r);
      ghost var s := Creation.Last(r);
      var reply := Perform(c);
      ok := reply.Done?;
      ghost var t := Creation.State(if ok then next else Creation.FAILED, s.jobs, now);
      Proceeds(j, r, Creation.Answer(reply), t);
      q := Creation.Then(r, Creation.Answer(reply), t);
    }

    /** The main goroutine stands before a stage. */
    ghost predicate Before(j: Journey, r: Creation.Creation, stage: Creation.Stage)
      reads this
    {
      StateOf(j, r).Some? && StateOf(j, r).value.pc == Creation.At(stage)
    }

    /** ensureHealthCheck: created, updated or left as it is. A check whose lookup fails with an unknown error is
        compared all the same, which dereferences nil. */
    method EnsureCheck(desired: HealthCheck, ghost j: Journey, ghost r: Creation.Creation)
      returns (ok: bool, ghost q: Creation.Creation)
      requires Before(j, r, Creation.Check) && j.cfg.check == desired
      modifies this
      ensures Before(j, q, if ok then Creation.Groups else Creation.End(false))
      ensures StateOf(j, q).value.jobs == old(StateOf(j, r)).value.jobs
      ensures reliable ==> ok
    {
      var seen, granted;
      seen, granted, q := Look(Creation.Check, j, r);
      if seen.Failed? || seen.Unknown? {
        return false, q;
      }
      if seen.Exists? && CompareHealthCheck(now.check.value, desired) {
        return true, q;
      }
      ok, q := Issue(PutCheck(desired), Creation.At(Creation.Groups), j, q);
    }

    /** ensureBackendService: a difference in groups or in other attributes brings an update. */
    method EnsureBackend(zones: set<string>, ghost j: Journey, ghost r: Creation.Creation)
      returns (ok: bool, ghost q: Creation.Creation)
      requires Before(j, r, Creation.Backend(zones))
      modifies this
      ensures Before(j, q, if ok then Creation.Proxy else Creation.End(false))
      ensures reliable ==> ok
    {
      var seen, granted;
      seen, granted, q := Look(Creation.Backend(zones), j, r);
      if seen.Failed? || seen.Unknown? {
        return false, q;
      }
      if seen.Exists? && now.backend == Some(zones) && BackendKind !in now.odd {
        return true, q;
      }
      ok, q := Issue(PutBackend(zones), Creation.At(Creation.Proxy), j, q);
    }

    /** ensureTargetTCPProxy: created, pointed at the backend, or left as it is. An unknown error is passed over,
        and then the proxy is referred to by an empty string: it is not `known`. */
    method EnsureProxy(ghost j: Journey, ghost r: Creation.Creation)
      returns (known: Option<bool>, ghost q: Creation.Creation)
      requires Before(j, r, Creation.Proxy)
      modifies this
      ensures Before(j, q, if known.Some? then Creation.Address(known.value) else Creation.End(false))
      ensures reliable ==> known.Some?
    {
      var seen, granted;
      seen, granted, q := Look(Creation.Proxy, j, r);
      if seen.Failed? {
        return None, q;
      }
      if seen.Unknown? || (seen.Exists? && ProxyKind !in now.odd) {
        return Some(seen.Exists?), q;
      }
      var ok;
      ok, q := Issue(PutProxy, Creation.At(Creation.Address(true)), j, q);
      known := if ok then Some(true) else None;
    }

    /** ensureGlobalIP: an unknown error gives the empty address. */
    method EnsureAddress(proxied: bool, ghost j: Journey, ghost r: Creation.Creation)
      returns (address: Option<string>, ghost q: Creation.Creation)
      requires Before(j, r, Creation.Address(proxied))
      modifies this
      ensures Before(j, q, if address.Some? then Creation.Rule(Forwarding(address.value, proxied))
                           else Creation.End(false))
      ensures reliable ==> address.Some?
    {
      var seen, granted;
      seen, granted, q := Look(Creation.Address(proxied), j, r);
      if seen.Exists? {
        return Some(Creation.AddressOf(now)), q;
      }
      if seen.Unknown? {
        return Some(""), q;
      }
      if seen.Failed? {
        return None, q;
      }
      var ok;
      ok, q := Issue(PutAddress(granted), Creation.At(Creation.AddressAgain(proxied)), j, q);
      if !ok {
        return None, q;
      }
      seen, granted, q := Look(Creation.AddressAgain(proxied), j, q);
      address := if seen.Exists? then Some(Creation.AddressOf(now)) else None;
    }

    /** ensureForwardingRule: one that differs is deleted and inserted again; an unknown error is passed over. */
    method EnsureRule(to: Forwarding, ghost j: Journey, ghost r: Creation.Creation)
      returns (ok: bool, ghost q: Creation.Creation)
      requires Before(j, r, Creation.Rule(to))
      modifies this
      ensures Before(j, q, if ok then Creation.Dns(to.address) else Creation.End(false))
      ensures reliable ==> ok
    {
      var seen, granted;
      seen, granted, q := Look(Creation.Rule(to), j, r);
      if seen.Failed? {
        return false, q;
      }
      if seen.Unknown? || (seen.Exists? && now.rule == Some(to) && RuleKind !in now.odd) {
        return true, q;
      }
      ghost var put := Creation.Calling(PutRule(to), Creation.At(Creation.Dns(to.address)));
      if seen.Exists? {
        ok, q := Issue(DropRule, put, j, q);
        if !ok {
          return;
        }
      }
      ok, q := Issue(PutRule(to), Creation.At(Creation.Dns(to.address)), j, q);
    }

    /** ensureDNSEntry: created, patched or left as it is; an unknown error is passed over. */
    method EnsureDns(address: string, ghost j: Journey, ghost r: Creation.Creation)
      returns (ok: bool, ghost q: Creation.Creation)
      requires Before(j, r, Creation.Dns(address))
      modifies this
      ensures Before(j, q, Creation.End(ok))
      ensures reliable ==> ok
    {
      var seen, granted;
      seen, granted, q := Look(Creation.Dns(address), j, r);
      if seen.Failed? {
        return false, q;
      }
      if seen.Unknown? || (seen.Exists? && now.dns == Some(address) && DnsKind !in now.odd) {
        return true, q;
      }
      ok, q := Issue(PutDns(address), Creation.At(Creation.End(true)), j, q);
    }

    /** The worker `w` is at `job`, the others as they were. */
    ghost predicate WorkerAt(j: Journey, r: Creation.Creation, w: nat, job: Creation.Job, jobs: seq<Creation.Job>)
      reads this
    {
      Before(j, r, Creation.Groups) && w < |jobs| && StateOf(j, r).value.jobs == jobs[w := job]
    }

    /** A call of a worker. */
    method WorkerIssues(w: nat, worker: Creation.Worker, job: Creation.Job, ghost j: Journey,
                        ghost r: Creation.Creation, ghost jobs: seq<Creation.Job>)
      returns (ok: bool, ghost q: Creation.Creation)
      requires |jobs| == |j.cfg.workers| && w < |jobs| && worker == j.cfg.workers[w]
      requires (job.Deleting? || job.Inserting?) && WorkerAt(j, r, w, job, jobs)
      modifies this
      ensures WorkerAt(j, q, w, if !ok then Creation.Broken else if job.Deleting? then Creation.Inserting
                                else Creation.Filling, jobs)
      ensures reliable && (job.Deleting? ==> worker.zone in old(now).groups) ==> ok
    {
      StateMeans(j, r);
      ghost var s := Creation.Last(r);
      var reply := Perform(Creation.CallOf(worker, job));
      ok := reply.Done?;
      ghost var next := if !ok then Creation.Broken else if job.Deleting? then Creation.Inserting else Creation.Filling;
      ghost var t := Creation.SetJob(s, w, next).(now := now);
      Proceeds(j, r, Creation.WorkerIsAnswered(w, reply), t);
      q := Creation.Then(r, Creation.WorkerIsAnswered(w, reply), t);
      assert jobs[w := job][w := next] == jobs[w := next];
    }

    /** The lookup of a worker; an unknown error makes it dereference nil, and with it the program ends. */
    method WorkerSees(w: nat, worker: Creation.Worker, ghost j: Journey, ghost r: Creation.Creation,
                      ghost jobs: seq<Creation.Job>)
      returns (seen: Creation.Seen, ghost q: Creation.Creation)
      requires |jobs| == |j.cfg.workers| && w < |jobs| && worker == j.cfg.workers[w]
      requires WorkerAt(j, r, w, Creation.Looking, jobs)
      modifies this
      ensures if seen.Unknown? then Before(j, q, Creation.End(false))
              else WorkerAt(j, q, w, Creation.JobAfterLook(worker, seen), jobs)
      ensures now == old(now)
      ensures reliable ==> seen == if worker.zone in now.groups then Creation.Exists else Creation.Absent
    {
      StateMeans(j, r);
      ghost var s := Creation.Last(r);
      seen := See(worker.zone in now.groups);
      ghost var t := if seen.Unknown? then s.(pc := Creation.FAILED)
                     else Creation.SetJob(s, w, Creation.JobAfterLook(worker, seen));
      Proceeds(j, r, Creation.WorkerLooks(w, seen), t);
      q := Creation.Then(r, Creation.WorkerLooks(w, seen), t);
      assert jobs[w := Creation.Looking][w := Creation.JobAfterLook(worker, seen)] ==
             jobs[w := Creation.JobAfterLook(worker, seen)];
    }

    /** Listing, detaching and attaching network endpoints, any of which can fail. */
    method WorkerFills(w: nat, ghost j: Journey, ghost r: Creation.Creation, ghost jobs: seq<Creation.Job>)
      returns (fine: bool, ghost q: Creation.Creation)
      requires |jobs| == |j.cfg.workers| && w < |jobs| && WorkerAt(j, r, w, Creation.Filling, jobs)
      modifies this
      ensures WorkerAt(j, q, w, if fine then Creation.Well else Creation.Broken, jobs)
      ensures reliable ==> fine
    {
      StateMeans(j, r);
      ghost var s := Creation.Last(r);
      var succeeds: bool := *;
      fine := succeeds || reliable;
      trace := trace + [now];
      ghost var job := if fine then Creation.Well else Creation.Broken;
      ghost var t := Creation.SetJob(s, w, job);
      Proceeds(j, r, Creation.WorkerFills(w, fine), t);
      q := Creation.Then(r, Creation.WorkerFills(w, fine), t);
      assert jobs[w := Creation.Filling][w := job] == jobs[w := job];
    }

    /** One worker: it finds the group, replaces it or creates it, and fills it. `crashed` says that it took the
        program with it. */
    method Work(w: nat, worker: Creation.Worker, ghost j: Journey, ghost r: Creation.Creation,
                ghost jobs: seq<Creation.Job>)
      returns (ok: bool, crashed: bool, ghost q: Creation.Creation)
      requires |jobs| == |j.cfg.workers| && w < |jobs| && worker == j.cfg.workers[w]
      requires WorkerAt(j, r, w, Creation.Looking, jobs)
      modifies this
      ensures if crashed then Before(j, q, Creation.End(false))
              else WorkerAt(j, q, w, if ok then Creation.Well else Creation.Broken, jobs)
      ensures reliable ==> ok && !crashed
    {
      var seen;
      seen, q := WorkerSees(w, worker, j, r, jobs);
      if seen.Unknown? || seen.Failed? {
        return false, seen.Unknown?, q;
      }
      if seen.Exists? && worker.stale {
        ok, q := WorkerIssues(w, worker, Creation.Deleting, j, q, jobs);
        if !ok {
          return false, false, q;
        }
      }
      if seen.Absent? || worker.stale {
        ok, q := WorkerIssues(w, worker, Creation.Inserting, j, q, jobs);
        if !ok {
          return false, false, q;
        }
      }
      ok, q := WorkerFills(w, j, q, jobs);
      crashed := false;
    }

    /** The workers below `w` are over, and all of them well if `ok`; the others have not begun. */
    ghost predicate WorkersAt(j: Journey, r: Creation.Creation, w: nat, ok: bool)
      reads this
    {
      && Before(j, r, Creation.Groups) && |StateOf(j, r).value.jobs| == |j.cfg.workers|
      && forall k {:trigger Key(k)} :: Key(k) ==> Handled(StateOf(j, r).value.jobs, w, ok)
    }

    lemma WorkersNext(j: Journey, r: Creation.Creation, w: nat, ok: bool)
      requires WorkersAt(j, r, w, ok) && w < |j.cfg.workers|
      ensures var jobs := StateOf(j, r).value.jobs;
        && WorkerAt(j, r, w, Creation.Looking, jobs)
        && Handled(jobs[w := Creation.Well], w + 1, ok) && Handled(jobs[w := Creation.Broken], w + 1, false)
    {
      assert Key(0);
      var jobs := StateOf(j, r).value.jobs;
      HandledNextJob(jobs, w, ok, true);
      HandledNextJob(jobs, w, ok, false);
      assert jobs[w := Creation.Looking] == jobs;
    }

    lemma WorkersOver(j: Journey, r: Creation.Creation, ok: bool)
      requires WorkersAt(j, r, |j.cfg.workers|, ok)
      ensures var jobs := StateOf(j, r).value.jobs;
        && (forall w :: 0 <= w < |jobs| ==> Creation.Over(jobs[w]))
        && (ok <==> forall w :: 0 <= w < |jobs| ==> jobs[w].Well?)
    {
      assert Key(0);
    }

    /** ensureZonalNetworkEndpointGroups, with the workers one after the other: a failing one stops no other. The
        groups collected are those that the workers leave in the shared slice. */
    method EnsureGroups(workers: seq<Creation.Worker>, ghost j: Journey, ghost r: Creation.Creation)
      returns (zones: Option<set<string>>, ghost q: Creation.Creation)
      requires WorkersAt(j, r, 0, true) && j.cfg.workers == workers
      modifies this
      ensures Before(j, q, if zones.Some? then Creation.Backend(zones.value) else Creation.End(false))
      ensures reliable ==> zones.Some?
    {
      var ok := true;
      q := r;
      for w := 0 to |workers|
        invariant WorkersAt(j, q, w, ok) && (reliable ==> ok)
      {
        ghost var jobs := StateOf(j, q).value.jobs;
        WorkersNext(j, q, w, ok);
        var fine, crashed;
        fine, crashed, q := Work(w, workers[w], j, q, jobs);
        if crashed {
          return None, q;
        }
        ok := ok && fine;
      }
      zones, q := CollectGroups(workers, ok, j, q);
    }

    /** The end of the fan-in. */
    method CollectGroups(workers: seq<Creation.Worker>, ok: bool, ghost j: Journey, ghost r: Creation.Creation)
      returns (zones: Option<set<string>>, ghost q: Creation.Creation)
      requires WorkersAt(j, r, |workers|, ok) && j.cfg.workers == workers
      modifies this
      ensures Before(j, q, if zones.Some? then Creation.Backend(zones.value) else Creation.End(false))
      ensures zones.Some? <==> ok
    {
      StateMeans(j, r);
      ghost var s := Creation.Last(r);
      WorkersOver(j, r, ok);
      var all := set w | w in workers :: w.zone;
      var kept := CollectBackends(all, |workers|);
      trace := trace + [now];
      ghost var t := s.(pc := if ok then Creation.At(Creation.Backend(kept)) else Creation.FAILED);
      Proceeds(j, r, Creation.Gather(kept), t);
      q := Creation.Then(r, Creation.Gather(kept), t);
      zones := if ok then Some(kept) else None;
    }

    /** The backends that the workers for `zones` leave behind: several of them can overwrite each other's
        (see FanOut.BackendsCompleteIff). */
    method CollectBackends(zones: set<string>, workers: nat) returns (backends: set<string>)
      ensures backends <= zones && (workers <= 1 ==> backends == zones)
    {
      var some: set<string> := *;
      backends := if workers > 1 && some <= zones then some else zones;
    }

    /** ensureDNSRecord after the firewall rules is one of the runs of GcpCreation, to its end. */
    method EnsureDNSRecord(workers: seq<Creation.Worker>, desired: HealthCheck)
      returns (ok: bool, ghost r: Creation.Creation)
      modifies this
      ensures Before(Journey(old(trace), Creation.Config(typed, workers, desired), old(now)), r, Creation.End(ok))
      ensures typed && ok && (old(now).check.Some? ==> !CompareHealthCheck(old(now).check.value, desired)) ==>
        Creation.Complete(Creation.Config(typed, workers, desired), now)
      ensures reliable ==> ok
    {
      ghost var j := Journey(trace, Creation.Config(typed, workers, desired), now);
      r := JourneyBegins(j);
      ok, r := EnsureCheck(desired, j, r);
      if !ok { return; }
      var zones;
      zones, r := EnsureGroups(workers, j, r);
      if zones.None? { return false, r; }
      ok, r := EnsureBackend(zones.value, j, r);
      if !ok { return; }
      var known;
      known, r := EnsureProxy(j, r);
      if known.None? { return false, r; }
      var address;
      address, r := EnsureAddress(known.value, j, r);
      if address.None? { return false, r; }
      ok, r := EnsureRule(Forwarding(address.value, known.value), j, r);
      if !ok { return; }
      ok, r := EnsureDns(address.value, j, r);
      if ok && typed && Creation.CheckIsSeen(j.cfg, j.start) {
        CreationCompletes(j, r);
      }
    }

    lemma JourneyBegins(j: Journey) returns (r: Creation.Creation)
      requires j == Journey(trace, j.cfg, now) && j.cfg.typed == typed
      ensures Before(j, r, Creation.Check)
      ensures |StateOf(j, r).value.jobs| == |j.cfg.workers| && Handled(StateOf(j, r).value.jobs, 0, true)
    {
      r := Creation.Begin(j.cfg, j.start);
    }

    lemma CreationCompletes(j: Journey, r: Creation.Creation)
      requires Before(j, r, Creation.End(true)) && typed && Creation.CheckIsSeen(j.cfg, j.start)
      ensures Creation.Complete(j.cfg, now)
    {
      StateMeans(j, r);
      Creation.SuccessCompletes(j.cfg, j.start, r);
    }

    /** When all errors are googleapi errors, every state since the run began is whole unless a group that the
        backend names needs replacing. By CreationIsWholeIff the conditions are exact. */
    lemma CreationHolds(j: Journey, r: Creation.Creation, ok: bool)
      requires Before(j, r, Creation.End(ok)) && typed
      requires Integrity(j.start) && Creation.NothingStaleNamed(j.cfg, j.start)
      ensures |j.was| <= |trace| && forall i :: |j.was| <= i < |trace| ==> Integrity(trace[i])
    {
      StateMeans(j, r);
      forall i | |j.was| <= i < |trace| ensures Integrity(trace[i]) {
        Creation.RunKeepsInv(Creation.Wholeness, j.cfg, j.start, r, i - |j.was| + 1);
        assert trace[i] == r.states[i - |j.was| + 1].now;
      }
    }
  }
}
