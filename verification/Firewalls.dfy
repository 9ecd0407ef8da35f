/** Firewall rules for health checks: controllers/globaldnsrecord/gcpglb.go:796-851. */
module Firewalls {
  import opened Prelude

  /** A firewall rule; `protocol` is that of its first allow entry, if it has one. */
  datatype Rule = Rule(
    name: string, protocol: Option<string>, direction: string,
    sourceRanges: seq<string>, targetTags: seq<string>, network: string
  )

  type Rules = map<string, Rule>

  function RuleName(infrastructure: string): (name: string) {
    infrastructure + "-fw-allow-health-checks"
  }

  function DesiredRule(project: string, infrastructure: string): (r: Rule)
    ensures r.name == RuleName(infrastructure) && r.protocol == Some("tcp")
  {
    Rule(RuleName(infrastructure), Some("tcp"), "INGRESS", ["35.191.0.0/16", "130.211.0.0/22"],
         [infrastructure + "-worker"], "projects/" + project + "/global/networks/" + infrastructure + "-network")
  }

  /** compareFirewallRules. */
  predicate SameRule(a: Rule, b: Rule) {
    && a.protocol.Some? && a.protocol == b.protocol && a.direction == b.direction && a.sourceRanges == b.sourceRanges
    && a.targetTags == b.targetTags && a.network == b.network && a.name == b.name
  }

  /** The name under which a cluster's rule is to be found. */
  ghost function NameFor(infrastructure: string): (name: string) {
    infrastructure + "-fw-allow-health-checks"
  }

  /** The rule lets Google's health checkers reach the workers of the cluster. */
  ghost predicate Lets(project: string, infrastructure: string, r: Rule) {
    && r.name == NameFor(infrastructure) && r.protocol == Some("tcp") && r.direction == "INGRESS"
    && r.sourceRanges == ["35.191.0.0/16", "130.211.0.0/22"] && r.targetTags == [infrastructure + "-worker"]
    && r.network == "projects/" + project + "/global/networks/" + infrastructure + "-network"
  }

  /** The comparison with the desired rule accepts exactly the rules that do. */
  lemma DesiredLets(project: string, c: string, r: Rule)
    ensures SameRule(DesiredRule(project, c), r) <==> Lets(project, c, r)
    ensures RuleName(c) == NameFor(c)
  {
  }

  /** Different clusters have different rules. */
  lemma NameForInjective(c: string, d: string)
    requires NameFor(c) == NameFor(d)
    ensures c == d
  {
    assert c == NameFor(c)[..|c|] && d == NameFor(d)[..|d|];
  }

  lemma DesiredMatchesItself(project: string, c: string)
    ensures SameRule(DesiredRule(project, c), DesiredRule(project, c))
  {
  }

  /** The names of the rules that the endpoints' clusters need. */
  ghost function Names(clusters: set<string>): (names: set<string>) {
    set c | c in clusters :: NameFor(c)
  }

  ghost function Missing(clusters: set<string>, rules: Rules): (names: set<string>) {
    Names(clusters) - rules.Keys
  }

  ghost predicate Settled(project: string, clusters: set<string>, rules: Rules) {
    forall c | c in clusters :: NameFor(c) in rules && Lets(project, c, rules[NameFor(c)])
  }

  /** A missing rule was inserted, as desired, and no other rule was added or removed. */
  ghost predicate Inserted(project: string, clusters: set<string>, before: Rules, after: Rules, c: string) {
    && c in clusters && NameFor(c) in Missing(clusters, before)
    && after.Keys == before.Keys + {NameFor(c)} && Lets(project, c, after[NameFor(c)])
  }

  /** What a successful pass does: it inserts exactly one missing rule and stops, or it finds none missing
      and leaves every rule matching. */
  ghost predicate Pass(project: string, clusters: set<string>, before: Rules, after: Rules) {
    || (exists c :: Inserted(project, clusters, before, after, c))
    || (Missing(clusters, before) == {} && after.Keys == before.Keys && Settled(project, clusters, after))
  }

  /** Rules that no cluster needs stay as they are. */
  ghost predicate OthersKept(clusters: set<string>, before: Rules, after: Rules) {
    forall n | n !in Names(clusters) :: (n in after <==> n in before) && (n in before ==> after[n] == before[n])
  }

  /** What came of one rule. */
  datatype Step = Fine | New | Refused

  class Project {
    const project: string
    const reliable: bool      // whether no call fails
    var rules: Rules
    ghost var writes: nat     // inserts and updates issued so far

    constructor (project: string, reliable: bool, rules: Rules)
      ensures this.project == project && this.reliable == reliable && this.rules == rules && writes == 0
    {
      this.project, this.reliable, this.rules, writes := project, reliable, rules, 0;
    }

    /** Firewalls.Get: the rule of that name, if there is one. */
    method Get(name: string) returns (r: Outcome<Option<Rule>>)
      ensures r.Ok? ==> r.value == if name in rules then Some(rules[name]) else None
      ensures reliable ==> r.Ok?
    {
      var fails: bool := *;
      if fails && !reliable {
        return Err(CallFailed);
      }
      r := Ok(if name in rules then Some(rules[name]) else None);
    }

    /** Firewalls.Insert or Firewalls.Update: it can fail before or after it took effect. */
    method Put(rule: Rule) returns (ok: bool)
      modifies `rules, `writes
      ensures writes == old(writes) + 1
      ensures rules == old(rules) || rules == old(rules)[rule.name := rule]
      ensures ok ==> rules == old(rules)[rule.name := rule]
      ensures reliable ==> ok
    {
      var lands: bool := *;
      ok := *;
      ok := ok || reliable;
      writes := writes + 1;
      if lands || ok {
        rules := rules[rule.name := rule];
      }
    }

    /** The rule of one cluster: inserted if it is missing, updated if it does not match, left alone if it does. */
    method EnsureRule(c: string) returns (step: Step)
      modifies `rules, `writes
      ensures rules == old(rules) || (NameFor(c) in rules && rules == old(rules)[NameFor(c) := rules[NameFor(c)]])
      ensures !step.Refused? ==> NameFor(c) in rules && Lets(project, c, rules[NameFor(c)])
      ensures step.Fine? ==> NameFor(c) in old(rules)
      ensures step.New? ==> NameFor(c) !in old(rules)
      ensures NameFor(c) in old(rules) && Lets(project, c, old(rules)[NameFor(c)]) ==>
        !step.New? && rules == old(rules) && writes == old(writes)
      ensures reliable ==> !step.Refused?
    {
      var desired := DesiredRule(project, c);
      DesiredLets(project, c, desired);
      DesiredMatchesItself(project, c);
      var found := Get(RuleName(c));
      if found.Err? {
        return Refused;
      }
      if found.value.None? {
        var inserted := Put(desired);
        return if inserted then New else Refused;
      }
      DesiredLets(project, c, found.value.value);
      if !SameRule(desired, found.value.value) {
        var updated := Put(desired);
        return if updated then Fine else Refused;
      }
      return Fine;
    }

    /** ensureFirewallRulesAllowForHealthChecks. `endpoints` gives the cluster of each endpoint. Any error
        leaves no more rules missing than before. */
    method EnsureFirewallRules(endpoints: map<string, string>) returns (ok: bool)
      modifies `rules, `writes
      ensures ok ==> Pass(project, endpoints.Values, old(rules), rules)
      ensures OthersKept(endpoints.Values, old(rules), rules)
      ensures Missing(endpoints.Values, rules) <= Missing(endpoints.Values, old(rules))
      ensures Settled(project, endpoints.Values, old(rules)) ==> rules == old(rules) && writes == old(writes)
      ensures reliable ==> ok
    {
      var order := AnyOrder(endpoints.Keys);
      ghost var seen: set<string> := {};
      NoneSeen(endpoints.Values, rules);
      for i := 0 to |order|
        invariant Seen(endpoints.Values, old(rules), rules, seen)
        invariant Settled(project, endpoints.Values, old(rules)) ==> rules == old(rules) && writes == old(writes)
        invariant seen <= endpoints.Values && forall j :: 0 <= j < i ==> endpoints[order[j]] in seen
      {
        var c := endpoints[order[i]];
        assert c in endpoints.Values;
        ghost var before := rules;
        var step := EnsureRule(c);
        OneMoreSeen(endpoints.Values, old(rules), before, rules, seen, c);
        if !step.Fine? {
          return step.New?;
        }
        seen := seen + {c};
      }
      assert forall k | k in endpoints :: k in order;
      AllSeen(endpoints.Values, old(rules), seen);
      return true;
    }

    /** No rule was added or removed, those of the clusters in `seen` are as needed, and rules that no cluster needs
        are as they were. */
    ghost predicate Seen(clusters: set<string>, was: Rules, now: Rules, seen: set<string>) {
      forall k {:trigger Key(k)} :: Key(k) ==>
        && now.Keys == was.Keys && OthersKept(clusters, was, now)
        && forall c | c in seen :: NameFor(c) in now && Lets(project, c, now[NameFor(c)])
    }

    lemma NoneSeen(clusters: set<string>, was: Rules)
      ensures Seen(clusters, was, was, {})
    {
    }

    /** After one more rule, left as it was or written. */
    lemma OneMoreSeen(clusters: set<string>, was: Rules, before: Rules, now: Rules, seen: set<string>, c: string)
      requires Seen(clusters, was, before, seen) && c in clusters
      requires now == before || (NameFor(c) in now && now == before[NameFor(c) := now[NameFor(c)]])
      ensures OthersKept(clusters, was, now) && Missing(clusters, now) <= Missing(clusters, was)
      ensures NameFor(c) in now && Lets(project, c, now[NameFor(c)]) ==>
        if NameFor(c) in before then Seen(clusters, was, now, seen + {c}) else Inserted(project, clusters, was, now, c)
    {
      assert Key(0) && NameFor(c) in Names(clusters);
      forall d | NameFor(d) == NameFor(c) ensures d == c {
        NameForInjective(c, d);
      }
    }

    lemma AllSeen(clusters: set<string>, was: Rules, seen: set<string>)
      requires Seen(clusters, was, rules, seen) && clusters <= seen
      ensures Pass(project, clusters, was, rules) && OthersKept(clusters, was, rules)
      ensures Missing(clusters, rules) <= Missing(clusters, was)
    {
      assert Key(0);
    }
  }

  /** `states` are the rules between successive successful passes. */
  ghost predicate Passes(project: string, clusters: set<string>, states: seq<Rules>) {
    |states| > 0 && forall i, j ::
        0 <= i < |states| && j == i + 1 < |states| ==> Pass(project, clusters, states[i], states[j])
  }

  lemma InsertedLeaves(project: string, clusters: set<string>, before: Rules, after: Rules, c: string)
    requires Inserted(project, clusters, before, after, c)
    ensures Missing(clusters, after) == Missing(clusters, before) - {NameFor(c)} &&
            NameFor(c) in Missing(clusters, before)
  {
  }

  lemma PassShrinks(project: string, clusters: set<string>, before: Rules, after: Rules)
    requires Pass(project, clusters, before, after)
    ensures |Missing(clusters, after)| ==
      if Missing(clusters, before) == {} then 0 else |Missing(clusters, before)| - 1
  {
    if c :| Inserted(project, clusters, before, after, c) {
      InsertedLeaves(project, clusters, before, after, c);
    } else {
      assert Missing(clusters, after) == {};
    }
  }

  /** Each pass inserts one missing rule as long as there is one. */
  lemma {:induction false} EachPassInsertsOne(project: string, clusters: set<string>, states: seq<Rules>, i: nat)
    requires Passes(project, clusters, states) && i < |states|
    ensures var missing := |Missing(clusters, states[0])|;
      |Missing(clusters, states[i])| == if i <= missing then missing - i else 0
  {
    if i > 0 {
      EachPassInsertsOne(project, clusters, states, i - 1);
      PassShrinks(project, clusters, states[i - 1], states[i]);
    }
  }

  /** With k rules missing, k + 1 successful passes settle every rule, in whatever order the endpoints are
      visited; after k passes none is missing, and before that some is. */
  lemma PassesSettle(project: string, clusters: set<string>, states: seq<Rules>)
    requires Passes(project, clusters, states)
    requires |states| - 1 == |Missing(clusters, states[0])| + 1
    ensures Settled(project, clusters, states[|states| - 1])
    ensures forall i :: 0 <= i < |states| - 2 ==> Missing(clusters, states[i]) != {}
  {
    var k := |states| - 2;
    forall i | 0 <= i <= k ensures |Missing(clusters, states[i])| == k - i {
      EachPassInsertsOne(project, clusters, states, i);
    }
    assert Missing(clusters, states[k]) == {};
    assert Pass(project, clusters, states[k], states[k + 1]);
  }
}
