/** Endpoint addresses: controllers/globaldnsrecord/endpointstatus.go. */
module Endpoints {
  import opened Prelude
  import opened Api

  datatype Ingress = Ingress(ip: string, hostname: string)

  /** What a reconcile learned about an endpoint. `platform` is None when the cluster could not be
      read. */
  datatype EndpointStatus = EndpointStatus(
    endpoint: Endpoint, platform: Option<string>, region: string, ingress: seq<Ingress>
  )

  type EndpointMap = map<string, EndpointStatus>

  /** The addresses behind each host name. The resolver may list them in a different order each time. */
  type Dns = map<string, seq<string>>

  predicate Leq(a: string, b: string) {
    a == [] || (b != [] && (a[0] < b[0] || (a[0] == b[0] && Leq(a[1..], b[1..]))))
  }

  /** Ascending order: where the strings part, the first has the smaller character, or it ends there. */
  ghost predicate Ascending(a: string, b: string) {
    a <= b || exists i :: 0 <= i < |a| && i < |b| && a[..i] == b[..i] && a[i] < b[i]
  }

  lemma AscendingFrom(a: string, b: string, i: nat)
    requires i < |a| && i < |b| && a[..i] == b[..i] && a[i] < b[i]
    requires a[0] == b[0]
    ensures Ascending(a[1..], b[1..])
  {
    assert i > 0 && a[1..][..i - 1] == a[..i][1..] == b[1..][..i - 1];
    assert a[1..][i - 1] < b[1..][i - 1];
  }

  lemma AscendingBehind(a: string, b: string)
    requires a != [] && b != [] && a[0] == b[0] && Ascending(a[1..], b[1..])
    ensures Ascending(a, b)
  {
    var x, y := a[1..], b[1..];
    assert a == [a[0]] + x && b == [a[0]] + y;
    if !(x <= y) {
      var i :| 0 <= i < |x| && i < |y| && x[..i] == y[..i] && x[i] < y[i];
      assert a[..i + 1] == [a[0]] + x[..i] == b[..i + 1] && a[i + 1] < b[i + 1];
    }
  }

  lemma {:induction false} LeqIsAscending(a: string, b: string)
    ensures Leq(a, b) <==> Ascending(a, b)
  {
    if a != [] && b != [] && a[0] == b[0] {
      LeqIsAscending(a[1..], b[1..]);
      if Ascending(a[1..], b[1..]) {
        AscendingBehind(a, b);
      } else if i :| 0 <= i < |a| && i < |b| && a[..i] == b[..i] && a[i] < b[i] {
        AscendingFrom(a, b, i);
      }
    } else if a != [] && b != [] {
      assert a[..0] == b[..0];
    }
  }

  lemma {:induction false} LeqTotal(a: string, b: string)
    ensures Leq(a, b) || Leq(b, a)
  {
    if a != [] && b != [] && a[0] == b[0] {
      LeqTotal(a[1..], b[1..]);
    }
  }

  lemma {:induction false} LeqAntisymmetric(a: string, b: string)
    requires Leq(a, b) && Leq(b, a)
    ensures a == b
  {
    if a != [] && b != [] {
      LeqAntisymmetric(a[1..], b[1..]);
      assert a == [a[0]] + a[1..] && b == [b[0]] + b[1..];
    }
  }

  lemma {:induction false} LeqTransitive(a: string, b: string, c: string)
    requires Leq(a, b) && Leq(b, c)
    ensures Leq(a, c)
  {
    if a != [] && b != [] && c != [] && a[0] == b[0] == c[0] {
      LeqTransitive(a[1..], b[1..], c[1..]);
    }
  }

  predicate Sorted(q: seq<string>) {
    forall i, j :: 0 <= i < j < |q| ==> Leq(q[i], q[j])
  }

  function Insert(x: string, q: seq<string>): (r: seq<string>) {
    if q == [] then [x] else if Leq(x, q[0]) then [x] + q else [q[0]] + Insert(x, q[1..])
  }

  lemma {:induction false} InsertAdds(x: string, q: seq<string>)
    ensures multiset(Insert(x, q)) == multiset(q) + multiset{x}
  {
    if q != [] && !Leq(x, q[0]) {
      assert q == [q[0]] + q[1..];
      InsertAdds(x, q[1..]);
    }
  }

  lemma {:induction false} InsertSorts(x: string, q: seq<string>)
    requires Sorted(q)
    ensures Sorted(Insert(x, q))
  {
    if q == [] {
    } else if Leq(x, q[0]) {
      forall j | 0 < j < |q| ensures Leq(x, q[j]) { LeqTransitive(x, q[0], q[j]); }
    } else {
      var r := Insert(x, q[1..]);
      InsertSorts(x, q[1..]);
      forall y | y in r ensures Leq(q[0], y) {
        InsertAdds(x, q[1..]);
        assert y in multiset(r);
        LeqTotal(x, q[0]);
      }
    }
  }

  /** sort.Strings. */
  function SortStrings(q: seq<string>): (r: seq<string>) {
    if q == [] then [] else Insert(q[0], SortStrings(q[1..]))
  }

  lemma {:induction false} SortStringsSorts(q: seq<string>)
    ensures Sorted(SortStrings(q)) && multiset(SortStrings(q)) == multiset(q)
  {
    if q != [] {
      assert q == [q[0]] + q[1..];
      SortStringsSorts(q[1..]);
      InsertSorts(q[0], SortStrings(q[1..]));
      InsertAdds(q[0], SortStrings(q[1..]));
    }
  }

  lemma SmallestComesFirst(a: seq<string>, x: string)
    requires Sorted(a) && x in a
    ensures Leq(a[0], x)
  {
    LeqReflexive(x);
  }

  lemma SameFirst(a: seq<string>, b: seq<string>)
    requires Sorted(a) && Sorted(b) && a != [] && b != [] && multiset(a) == multiset(b)
    ensures a[0] == b[0]
  {
    assert a[0] in multiset(b) && b[0] in multiset(a);
    SmallestComesFirst(a, b[0]);
    SmallestComesFirst(b, a[0]);
    LeqAntisymmetric(a[0], b[0]);
  }

  lemma {:induction false} SortedIsCanonical(a: seq<string>, b: seq<string>)
    requires Sorted(a) && Sorted(b) && multiset(a) == multiset(b)
    ensures a == b
  {
    assert |multiset(a)| == |a| && |multiset(b)| == |b|;
    if a != [] {
      SameFirst(a, b);
      assert a == [a[0]] + a[1..] && b == [b[0]] + b[1..];
      assert multiset(a[1..]) == multiset(a) - multiset{a[0]} == multiset(b[1..]);
      SortedIsCanonical(a[1..], b[1..]);
    }
  }

  lemma LeqReflexive(a: string)
    ensures Leq(a, a)
  {
    LeqTotal(a, a);
  }

  /** Sorting forgets exactly the order of the answers. */
  lemma SortForgetsOrder(a: seq<string>, b: seq<string>)
    ensures SortStrings(a) == SortStrings(b) <==> multiset(a) == multiset(b)
  {
    SortStringsSorts(a);
    SortStringsSorts(b);
    if multiset(a) == multiset(b) {
      SortedIsCanonical(SortStrings(a), SortStrings(b));
    }
  }

  /** The addresses of all host names, in the order of the resolver's table. */
  function Lookup(ingress: seq<Ingress>, dns: Dns): (r: Option<seq<string>>) {
    if ingress == [] then Some([])
    else if ingress[|ingress| - 1].hostname !in dns then None
    else
      var front := Lookup(ingress[..|ingress| - 1], dns);
      if front.None? then None else Some(front.value + dns[ingress[|ingress| - 1].hostname])
  }

  function IngressIPs(ingress: seq<Ingress>): (ips: seq<string>)
    ensures |ips| == |ingress| && forall i :: 0 <= i < |ingress| ==> ips[i] == ingress[i].ip
  {
    if ingress == [] then [] else IngressIPs(ingress[..|ingress| - 1]) + [ingress[|ingress| - 1].ip]
  }

  /** The addresses that getIPs returns when nothing fails; empty when a host name is unknown. */
  function Addresses(st: EndpointStatus, dns: Dns): (ips: seq<string>) {
    if st.platform == Some("AWS") then
      var r := Lookup(st.ingress, dns);
      if r.Some? then SortStrings(r.value) else []
    else SortStrings(IngressIPs(st.ingress))
  }

  /** The addresses of the endpoint can be had: its cluster was read and, on AWS, all host names are known. */
  predicate Resolvable(st: EndpointStatus, dns: Dns) {
    st.platform.Some? && (st.platform.value == "AWS" ==> Lookup(st.ingress, dns).Some?)
  }

  /** An address of the endpoint: on AWS one of those behind its host names, provided that all are known,
      elsewhere that of an ingress. */
  ghost predicate HasAddress(st: EndpointStatus, dns: Dns, ip: string) {
    if st.platform == Some("AWS")
    then HostsKnown(st, dns) && exists i :: 0 <= i < |st.ingress| && ip in dns[st.ingress[i].hostname]
    else exists i :: 0 <= i < |st.ingress| && ip == st.ingress[i].ip
  }

  /** On AWS all host names of the endpoint are known to the resolver. */
  ghost predicate HostsKnown(st: EndpointStatus, dns: Dns) {
    st.platform == Some("AWS") ==> forall i :: 0 <= i < |st.ingress| ==> st.ingress[i].hostname in dns
  }

  /** All addresses of the endpoint, in ascending order. */
  ghost predicate Answers(ips: seq<string>, st: EndpointStatus, dns: Dns) {
    forall k {:trigger Key(k)} :: Key(k) ==>
      && (forall ip :: ip in ips <==> HasAddress(st, dns, ip))
      && (forall i, j :: 0 <= i < j < |ips| ==> Ascending(ips[i], ips[j]))
  }

  lemma {:induction false} LookupFinds(ingress: seq<Ingress>, dns: Dns, ip: string)
    ensures Lookup(ingress, dns).Some? <==> forall i :: 0 <= i < |ingress| ==> ingress[i].hostname in dns
    ensures Lookup(ingress, dns).Some? ==>
      (ip in Lookup(ingress, dns).value <==> exists i :: 0 <= i < |ingress| && ip in dns[ingress[i].hostname])
  {
    if ingress != [] {
      var last := |ingress| - 1;
      LookupFinds(ingress[..last], dns, ip);
      assert forall i :: 0 <= i < last ==> ingress[..last][i] == ingress[i];
    }
  }

  lemma SortKeepsElements(q: seq<string>, x: string)
    ensures x in SortStrings(q) <==> x in q
  {
    SortStringsSorts(q);
    assert x in SortStrings(q) <==> x in multiset(SortStrings(q));
    assert x in q <==> x in multiset(q);
  }

  lemma AddressesAreThose(st: EndpointStatus, dns: Dns, ip: string)
    ensures ip in Addresses(st, dns) <==> HasAddress(st, dns, ip)
  {
    LookupFinds(st.ingress, dns, ip);
    if st.platform == Some("AWS") {
      if Lookup(st.ingress, dns).Some? {
        SortKeepsElements(Lookup(st.ingress, dns).value, ip);
      }
    } else {
      SortKeepsElements(IngressIPs(st.ingress), ip);
    }
  }

  lemma AddressesAnswer(st: EndpointStatus, dns: Dns)
    ensures Answers(Addresses(st, dns), st, dns)
  {
    var ips := Addresses(st, dns);
    forall ip ensures ip in ips <==> HasAddress(st, dns, ip) {
      AddressesAreThose(st, dns, ip);
    }
    forall i, j | 0 <= i < j < |ips| ensures Ascending(ips[i], ips[j]) {
      SortStringsSorts(IngressIPs(st.ingress));
      if Lookup(st.ingress, dns).Some? {
        SortStringsSorts(Lookup(st.ingress, dns).value);
      }
      LeqIsAscending(ips[i], ips[j]);
    }
  }

  /** The smallest address comes first. */
  ghost predicate FirstAddress(st: EndpointStatus, dns: Dns, ip: string) {
    HasAddress(st, dns, ip) && forall jp | HasAddress(st, dns, jp) :: Ascending(ip, jp)
  }

  lemma FirstOfAddresses(st: EndpointStatus, dns: Dns)
    requires Addresses(st, dns) != []
    ensures FirstAddress(st, dns, Addresses(st, dns)[0])
  {
    var ips := Addresses(st, dns);
    AddressesAreThose(st, dns, ips[0]);
    forall jp | HasAddress(st, dns, jp) ensures Ascending(ips[0], jp) {
      AddressesAreThose(st, dns, jp);
      SortStringsSorts(IngressIPs(st.ingress));
      if Lookup(st.ingress, dns).Some? {
        SortStringsSorts(Lookup(st.ingress, dns).value);
      }
      SmallestComesFirst(ips, jp);
      LeqIsAscending(ips[0], jp);
    }
  }

  /** One DNS query: it lists the addresses in any order, or it fails, which in a reliable world happens to
      unknown names only. */
  method LookupHost(hostname: string, dns: Dns, reliable: bool) returns (r: Outcome<seq<string>>)
    ensures r.Ok? ==> hostname in dns && multiset(r.value) == multiset(dns[hostname])
    ensures reliable && hostname in dns ==> r.Ok?
  {
    var fails: bool := *;
    var answer: seq<string> := *;
    if (fails && !reliable) || hostname !in dns {
      return Err(CallFailed);
    }
    return Ok(if multiset(answer) == multiset(dns[hostname]) then answer else dns[hostname]);
  }

  method GetAWSIPs(ingress: seq<Ingress>, dns: Dns, reliable: bool) returns (r: Outcome<seq<string>>)
    ensures r.Ok? ==> Lookup(ingress, dns).Some? && multiset(r.value) == multiset(Lookup(ingress, dns).value)
    ensures reliable && Lookup(ingress, dns).Some? ==> r.Ok?
  {
    var ips: seq<string> := [];
    for i := 0 to |ingress|
      invariant Lookup(ingress[..i], dns).Some? && multiset(ips) == multiset(Lookup(ingress[..i], dns).value)
    {
      assert ingress[..i + 1][..i] == ingress[..i];
      var answer := LookupHost(ingress[i].hostname, dns, reliable);
      if answer.Err? {
        if ingress[i].hostname !in dns {
          UnknownStays(ingress, dns, i + 1);
        }
        return Err(answer.fault);
      }
      ips := ips + answer.value;
    }
    assert ingress[..|ingress|] == ingress;
    return Ok(ips);
  }

  /** One unknown host name is enough to have no addresses. */
  lemma {:induction false} UnknownStays(ingress: seq<Ingress>, dns: Dns, i: nat)
    requires i <= |ingress| && Lookup(ingress[..i], dns).None?
    ensures Lookup(ingress, dns).None?
    decreases |ingress| - i
  {
    if i < |ingress| {
      assert ingress[..i + 1][..i] == ingress[..i];
      UnknownStays(ingress, dns, i + 1);
    } else {
      assert ingress[..i] == ingress;
    }
  }

  /** One address per ingress, at the same position. */
  method GetDefaultIPs(ingress: seq<Ingress>) returns (ips: seq<string>)
    ensures |ips| == |ingress| && forall i :: 0 <= i < |ingress| ==> ips[i] == ingress[i].ip
    ensures ips == IngressIPs(ingress)
  {
    ips := [];
    for i := 0 to |ingress|
      invariant ips == IngressIPs(ingress[..i])
    {
      ips := ips + [ingress[i].ip];
      assert ingress[..i + 1][..i] == ingress[..i];
    }
    assert ingress[..|ingress|] == ingress;
  }

  /** getIPs: whatever order the resolver answers in, a successful call returns the same list. A
      cluster without platform status makes the Go code dereference nil. */
  method GetIPs(st: EndpointStatus, dns: Dns, reliable: bool) returns (r: Outcome<seq<string>>)
    ensures r.Ok? ==> Resolvable(st, dns) && r.value == Addresses(st, dns) && Answers(r.value, st, dns)
    ensures r.Ok? ==> HostsKnown(st, dns)
    ensures reliable && Resolvable(st, dns) ==> r.Ok?
    ensures reliable && st.platform.Some? && HostsKnown(st, dns) ==> r.Ok?
    ensures st.platform.None? ==> r == Err(Panicked)
    ensures st.platform.Some? && st.platform.value != "AWS" ==> r.Ok?
  {
    if st.platform.None? {
      return Err(Panicked);
    }
    AddressesAnswer(st, dns);
    LookupFinds(st.ingress, dns, "");
    if st.platform.value == "AWS" {
      r := GetAWSIPs(st.ingress, dns, reliable);
      if r.Ok? {
        SortForgetsOrder(r.value, Lookup(st.ingress, dns).value);
        r := Ok(SortStrings(r.value));
      }
    } else {
      var ips := GetDefaultIPs(st.ingress);
      r := Ok(SortStrings(ips));
    }
  }
}
