/** The defaults that a reconcile fills in before anything else
    (controllers/globaldnsrecord/globaldnsrecord_controller.go:288-323). */
module Initialization {
  import opened Prelude
  import opened Api

  /** Something in the record still has to be filled in, as IsInitialized judges it. */
  predicate Unready(r: Record) {
    || !r.finalizer || r.spec.ttl == 0
    || (r.spec.healthCheck.Some? &&
        var p := r.spec.healthCheck.value;
        p.failureThreshold == 0 || p.periodSeconds == 0 || p.successThreshold == 0 || p.timeoutSeconds == 0)
  }

  /** The record with its defaults. A missing timeout sets the success threshold instead. */
  function FilledIn(r: Record): (f: Record)
    ensures f.finalizer && f.spec.ttl != 0 && f.version == r.version && f.deleting == r.deleting
    ensures HealthCheckHost(f.spec) == HealthCheckHost(r.spec)
    ensures !Unready(r) ==> f == r
  {
    var ttl := if r.spec.ttl == 0 then 60 else r.spec.ttl;
    var check := if r.spec.healthCheck.None? then None
                 else Some(FilledInProbe(r.spec.healthCheck.value));
    r.(finalizer := true, spec := r.spec.(ttl := ttl, healthCheck := check))
  }

  function FilledInProbe(p: Probe): (f: Probe) {
    p.(failureThreshold := if p.failureThreshold == 0 then 3 else p.failureThreshold,
       periodSeconds := if p.periodSeconds == 0 then 10 else p.periodSeconds,
       successThreshold := if p.successThreshold == 0 || p.timeoutSeconds == 0 then 1 else p.successThreshold)
  }

  /** `f` is `r` with the finalizer and, wherever `r` has a zero, a TTL of 60, a failure threshold of 3, a period of
      10 and a success threshold of 1. Without a timeout the success threshold is 1, too, and the timeout stays
      zero. Nothing else differs. */
  ghost predicate Defaulted(r: Record, f: Record) {
    && f.finalizer && f == r.(finalizer := true, spec := f.spec)
    && f.spec == r.spec.(ttl := f.spec.ttl, healthCheck := f.spec.healthCheck)
    && f.spec.ttl == (if r.spec.ttl == 0 then 60 else r.spec.ttl)
    && (f.spec.healthCheck.Some? <==> r.spec.healthCheck.Some?)
    && (r.spec.healthCheck.Some? ==>
          var p, q := r.spec.healthCheck.value, f.spec.healthCheck.value;
          && q.httpGet == p.httpGet && q.initialDelaySeconds == p.initialDelaySeconds
          && q.timeoutSeconds == p.timeoutSeconds
          && q.failureThreshold == (if p.failureThreshold == 0 then 3 else p.failureThreshold)
          && q.periodSeconds == (if p.periodSeconds == 0 then 10 else p.periodSeconds)
          && q.successThreshold == if p.successThreshold == 0 || p.timeoutSeconds == 0 then 1 else p.successThreshold)
  }

  /** The record has its finalizer, a TTL and, if any, a probe without zeros. */
  ghost predicate Ready(r: Record) {
    && r.finalizer && r.spec.ttl != 0
    && (r.spec.healthCheck.Some? ==>
          var p := r.spec.healthCheck.value;
          p.failureThreshold != 0 && p.periodSeconds != 0 && p.successThreshold != 0 && p.timeoutSeconds != 0)
  }

  lemma FillingIn(r: Record)
    ensures Defaulted(r, FilledIn(r)) && (Unready(r) <==> !Ready(r))
  {
  }

  /** IsInitialized: fills defaults into its copy of the record and says whether nothing was missing. */
  method IsInitialized(r: Record) returns (ready: bool, copy: Record)
    ensures ready <==> !Unready(r)
    ensures copy == FilledIn(r)
    ensures (ready <==> Ready(r)) && Defaulted(r, copy)
  {
    ready, copy := true, r;
    if !copy.finalizer {
      copy := copy.(finalizer := true);
      ready := false;
    }
    if copy.spec.ttl == 0 {
      copy := copy.(spec := copy.spec.(ttl := 60));
      ready := false;
    }
    if copy.spec.healthCheck.Some? {
      var probe := copy.spec.healthCheck.value;
      if probe.failureThreshold == 0 {
        probe := probe.(failureThreshold := 3);
        ready := false;
      }
      if probe.periodSeconds == 0 {
        probe := probe.(periodSeconds := 10);
        ready := false;
      }
      if probe.successThreshold == 0 {
        probe := probe.(successThreshold := 1);
        ready := false;
      }
      if probe.timeoutSeconds == 0 {
        probe := probe.(successThreshold := 1);
        ready := false;
      }
      copy := copy.(spec := copy.spec.(healthCheck := Some(probe)));
    }
  }

  /** The record after a number of reconciles that wrote their defaults back. */
  function AfterWrites(r: Record, writes: nat): (s: Record) {
    if writes == 0 then r else FilledIn(AfterWrites(r, writes - 1))
  }

  predicate MissingTimeout(r: Record) {
    r.spec.healthCheck.Some? && r.spec.healthCheck.value.timeoutSeconds == 0
  }

  /** One write is enough, or no number of writes is: it depends on the timeout alone. */
  lemma {:induction false} InitializationConvergesIff(r: Record, writes: nat)
    requires writes >= 1
    ensures !Unready(AfterWrites(r, writes)) <==> !MissingTimeout(r)
    ensures MissingTimeout(AfterWrites(r, writes)) <==> MissingTimeout(r)
  {
    if writes > 1 {
      InitializationConvergesIff(r, writes - 1);
    } else {
      assert AfterWrites(r, 0) == r;
    }
  }
}
