/** The Route53 health check that a probe asks for, and what updates can and cannot correct
    (controllers/globaldnsrecord/route53provider.go:84-201). */
module ProbeConfig {
  import opened Prelude
  import opened Api
  import opened Route53Store

  /** getAWSHealthCheckConfig: None for a probe that is not an HTTP probe. */
  function DesiredCheck(probe: Probe, ip: string): (r: Option<HealthCheck>)
    ensures r.Some? ==> r.value.ip == ip && probe.httpGet.Some? && r.value.host == Some(probe.httpGet.value.host)
  {
    if probe.httpGet.None? then None
    else
      var get := probe.httpGet.value;
      Some(HealthCheck(ip, Some(get.host), false, false, false, get.scheme == "HTTPS", probe.failureThreshold,
                       get.port, probe.periodSeconds, get.path, get.scheme, "", ""))
  }

  /** The check has what an update carries as the probe asks for it. */
  ghost predicate Carries(probe: Probe, check: HealthCheck) {
    probe.httpGet.Some? && forall k {:trigger Key(k)} :: Key(k) ==>
      var get := probe.httpGet.value;
      && check.host == Some(get.host) && check.port == get.port && check.path == get.path
      && check.enableSNI == (get.scheme == "HTTPS") && check.failureThreshold == probe.failureThreshold
      && !check.disabled && !check.inverted
  }

  /** The check has all that a new one is given for an address. */
  ghost predicate MadeFor(probe: Probe, ip: string, check: HealthCheck) {
    Carries(probe, check) && forall k {:trigger Key(k)} :: Key(k) ==>
      var get := probe.httpGet.value;
      && check.ip == ip && check.requestInterval == probe.periodSeconds && check.kind == get.scheme
      && !check.measureLatency && check.tag == get.host + "@" + ip
  }

  /** What of a probe reaches Route53: two probes ask for the same health check exactly when they agree on
      these fields. Timeout, initial delay, success threshold and headers make no difference. */
  lemma SameCheckIff(p: Probe, ip: string, q: Probe, jp: string)
    requires p.httpGet.Some? && q.httpGet.Some?
    ensures DesiredCheck(p, ip) == DesiredCheck(q, jp) <==>
      && ip == jp && p.failureThreshold == q.failureThreshold && p.periodSeconds == q.periodSeconds
      && p.httpGet.value == q.httpGet.value.(headers := p.httpGet.value.headers)
  {
  }

  /** What UpdateHealthCheck leaves behind: the fields that the update input carries are replaced. */
  function Updated(current: HealthCheck, desired: HealthCheck): (r: HealthCheck) {
    current.(enableSNI := desired.enableSNI, failureThreshold := desired.failureThreshold, host := desired.host,
             port := desired.port, path := desired.path, disabled := false, inverted := false)
  }

  /** The fields that the update input does not carry agree. */
  predicate UncarriedAgree(current: HealthCheck, desired: HealthCheck) {
    && current.ip == desired.ip && current.measureLatency == desired.measureLatency
    && current.requestInterval == desired.requestInterval && current.kind == desired.kind
    && current.unset == desired.unset
  }

  /** The configurations are equal, whatever the tags. */
  predicate SameConfig(current: HealthCheck, desired: HealthCheck) {
    current.(tag := desired.tag) == desired
  }

  /** One pass of ensureRoute53HealthCheck over an existing check. */
  function Pass(current: HealthCheck, desired: HealthCheck): (r: HealthCheck) {
    if SameConfig(current, desired) then current else Updated(current, desired)
  }

  /** A pass leaves the carried fields as the probe asks for them and all others as they were. */
  lemma PassCarries(current: HealthCheck, probe: Probe, ip: string)
    requires DesiredCheck(probe, ip).Some?
    ensures var after := Pass(current, DesiredCheck(probe, ip).value);
      && Carries(probe, after)
      && after == current.(enableSNI := after.enableSNI, failureThreshold := after.failureThreshold,
                           host := after.host, port := after.port, path := after.path, disabled := after.disabled,
                           inverted := after.inverted)
  {
  }

  /** The stored configuration after a number of passes of ensureRoute53HealthCheck. */
  function AfterPasses(current: HealthCheck, desired: HealthCheck, passes: nat): (r: HealthCheck) {
    if passes == 0 then current
    else Pass(AfterPasses(current, desired, passes - 1), desired)
  }

  /** One pass reaches the desired configuration exactly when the fields it cannot send agree already.
      Otherwise no number of passes does, and so every pass updates again. */
  lemma {:induction false} UpdatesConvergeIff(current: HealthCheck, probe: Probe, ip: string, passes: nat)
    requires DesiredCheck(probe, ip).Some? && passes >= 1
    ensures var desired := DesiredCheck(probe, ip).value;
      SameConfig(AfterPasses(current, desired, passes), desired) <==> UncarriedAgree(current, desired)
  {
    var desired := DesiredCheck(probe, ip).value;
    var before := AfterPasses(current, desired, passes - 1);
    if passes > 1 {
      UpdatesConvergeIff(current, probe, ip, passes - 1);
      UncarriedNeverChange(current, desired, passes - 1);
    }
  }

  lemma {:induction false} UncarriedNeverChange(current: HealthCheck, desired: HealthCheck, passes: nat)
    ensures UncarriedAgree(AfterPasses(current, desired, passes), current)
  {
    if passes > 0 {
      UncarriedNeverChange(current, desired, passes - 1);
    }
  }
}
