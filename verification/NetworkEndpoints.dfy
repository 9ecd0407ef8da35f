/** Bringing the members of a zonal network endpoint group in line with the desired ones
    (controllers/globaldnsrecord/gcpglb.go:643-664, 688-712). */
module NetworkEndpoints {
  import opened Prelude

  datatype NetworkEndpoint = NetworkEndpoint(instance: string, port: int)

  /** A group: the port under which each attached instance serves. */
  type Group = map<string, int>

  function Instances(q: seq<NetworkEndpoint>): (names: set<string>) {
    set n | n in q :: n.instance
  }

  /** A Go map filled in a loop: the last endpoint of an instance wins. */
  function ByInstance(q: seq<NetworkEndpoint>): (m: map<string, NetworkEndpoint>)
    ensures m.Keys == Instances(q)
    ensures forall i | i in m :: m[i] in q && m[i].instance == i
  {
    if q == [] then map[]
    else
      var last := |q| - 1;
      assert q == q[..last] + [q[last]];
      ByInstance(q[..last])[q[last].instance := q[last]]
  }

  /** `q` lists the endpoints of exactly these instances, once each, as `m` has them. */
  ghost predicate Picks(q: seq<NetworkEndpoint>, m: map<string, NetworkEndpoint>, names: set<string>) {
    && Instances(q) == names
    && (forall n | n in q :: n.instance in m && m[n.instance] == n)
    && (forall i, j :: 0 <= i < j < |q| ==> q[i].instance != q[j].instance)
  }

  method Index(q: seq<NetworkEndpoint>) returns (m: map<string, NetworkEndpoint>)
    ensures m == ByInstance(q)
  {
    m := map[];
    for i := 0 to |q|
      invariant m == ByInstance(q[..i])
    {
      m := m[q[i].instance := q[i]];
      assert q[..i + 1][..i] == q[..i];
    }
    assert q[..|q|] == q;
  }

  method PickAll(m: map<string, NetworkEndpoint>, names: set<string>) returns (q: seq<NetworkEndpoint>)
    requires names <= m.Keys && forall i | i in m :: m[i].instance == i
    ensures Picks(q, m, names)
  {
    var order := AnyOrder(names);
    q := [];
    for i := 0 to |order|
      invariant |q| == i && forall k :: 0 <= k < i ==> q[k] == m[order[k]]
    {
      q := q + [m[order[i]]];
    }
    assert forall i :: 0 <= i < |order| ==> order[i] in names && q[i].instance == order[i];
    forall n | n in names ensures n in Instances(q) {
      var i :| 0 <= i < |order| && order[i] == n;
      assert q[i] in q;
    }
  }

  /** getNepOuterJoin: what only the left side has, and what only the right side has. */
  method OuterJoin(left: seq<NetworkEndpoint>, right: seq<NetworkEndpoint>)
    returns (leftOnly: seq<NetworkEndpoint>, rightOnly: seq<NetworkEndpoint>)
    ensures Picks(leftOnly, ByInstance(left), Instances(left) - Instances(right))
    ensures Picks(rightOnly, ByInstance(right), Instances(right) - Instances(left))
  {
    var leftMap := Index(left);
    var rightMap := Index(right);
    leftOnly := PickAll(leftMap, leftMap.Keys - rightMap.Keys);
    rightOnly := PickAll(rightMap, rightMap.Keys - leftMap.Keys);
  }

  function Detach(g: Group, q: seq<NetworkEndpoint>): (h: Group) {
    g - Instances(q)
  }

  function Attach(g: Group, q: seq<NetworkEndpoint>): (h: Group) {
    if q == [] then g else Attach(g, q[..|q| - 1])[q[|q| - 1].instance := q[|q| - 1].port]
  }

  /** The listing of a group: each instance once, with its port. */
  ghost predicate ListingOf(q: seq<NetworkEndpoint>, g: Group) {
    && Instances(q) == g.Keys
    && forall n | n in q :: g[n.instance] == n.port
  }

  lemma InstancesSnoc(q: seq<NetworkEndpoint>, n: NetworkEndpoint)
    ensures Instances(q + [n]) == Instances(q) + {n.instance}
  {
    assert forall m :: m in q + [n] <==> m in q || m == n;
  }

  lemma {:induction false} AttachAdds(g: Group, q: seq<NetworkEndpoint>)
    ensures Attach(g, q).Keys == g.Keys + Instances(q)
    ensures forall i | i in g && i !in Instances(q) :: Attach(g, q)[i] == g[i]
    ensures forall i | i in Instances(q) :: NetworkEndpoint(i, Attach(g, q)[i]) in q
  {
    if q != [] {
      var last := |q| - 1;
      AttachAdds(g, q[..last]);
      assert q == q[..last] + [q[last]];
      InstancesSnoc(q[..last], q[last]);
      forall i | i in Instances(q) ensures NetworkEndpoint(i, Attach(g, q)[i]) in q {
        assert i != q[last].instance ==> NetworkEndpoint(i, Attach(g, q[..last])[i]) in q[..last];
        assert q[last] in q;
      }
    }
  }

  /** The ports of a group are right when each instance serves under its desired port. */
  ghost predicate RightPorts(g: Group, desired: seq<NetworkEndpoint>) {
    forall i | i in g && i in Instances(desired) :: g[i] == ByInstance(desired)[i].port
  }

  lemma EmptyIffNoInstance(q: seq<NetworkEndpoint>)
    ensures q == [] <==> Instances(q) == {}
  {
    if q != [] {
      assert q[0].instance in Instances(q);
    }
  }

  /** `detached` and `attached` are what the join of the group and the desired endpoints lists. */
  ghost predicate Joined(g: Group, desired: seq<NetworkEndpoint>, detached: seq<NetworkEndpoint>,
                         attached: seq<NetworkEndpoint>) {
    && Instances(detached) == g.Keys - Instances(desired)
    && Picks(attached, ByInstance(desired), Instances(desired) - g.Keys)
  }

  lemma JoinedInstances(g: Group, desired: seq<NetworkEndpoint>, detached: seq<NetworkEndpoint>,
                        attached: seq<NetworkEndpoint>)
    requires Joined(g, desired, detached, attached)
    ensures var h := Attach(Detach(g, detached), attached);
      h.Keys == Instances(desired) && forall i | i in g && i in h :: h[i] == g[i]
  {
    AttachAdds(Detach(g, detached), attached);
  }

  lemma JoinedPorts(g: Group, desired: seq<NetworkEndpoint>, detached: seq<NetworkEndpoint>,
                    attached: seq<NetworkEndpoint>, i: string)
    requires Joined(g, desired, detached, attached) && i in Instances(desired) && i !in g
    ensures var h := Attach(Detach(g, detached), attached); i in h && h[i] == ByInstance(desired)[i].port
  {
    AttachAdds(Detach(g, detached), attached);
    var n := NetworkEndpoint(i, Attach(Detach(g, detached), attached)[i]);
    assert n in attached;
  }

  /** Detaching and attaching what the join lists gives exactly the desired instances, leaves those that
      stay as they were, and gives new ones their desired port. So the ports end up right exactly when
      those of the instances that stay were right: the join looks at instances only. */
  lemma JoinAligns(g: Group, desired: seq<NetworkEndpoint>, detached: seq<NetworkEndpoint>,
                   attached: seq<NetworkEndpoint>)
    requires Joined(g, desired, detached, attached)
    ensures var h := Attach(Detach(g, detached), attached);
      && h.Keys == Instances(desired)
      && (forall i | i in g && i in h :: h[i] == g[i])
      && (RightPorts(h, desired) <==> RightPorts(g, desired))
  {
    JoinedInstances(g, desired, detached, attached);
    forall i | i in Instances(desired) && i !in g
      ensures Attach(Detach(g, detached), attached)[i] == ByInstance(desired)[i].port
    {
      JoinedPorts(g, desired, detached, attached, i);
    }
  }

  function Joining(g: Group, detached: seq<NetworkEndpoint>, attached: seq<NetworkEndpoint>): (h: Group) {
    Attach(Detach(g, detached), attached)
  }

  /** The name of a group carries its zone but not its cluster, so two clusters with nodes in one zone work on
      the same group: the pass of the second detaches every instance that only the first has, and the next
      pass of the first attaches them all again. Both are served, and the passes have nothing left to do,
      exactly when they want the same instances. */
  lemma SharedZoneSettlesIff(g: Group, one: seq<NetworkEndpoint>, two: seq<NetworkEndpoint>,
                             off1: seq<NetworkEndpoint>, on1: seq<NetworkEndpoint>, off2: seq<NetworkEndpoint>,
                             on2: seq<NetworkEndpoint>,
                             off3: seq<NetworkEndpoint>, on3: seq<NetworkEndpoint>)
    requires Joined(g, one, off1, on1)
    requires Joined(Joining(g, off1, on1), two, off2, on2)
    requires Joined(Joining(Joining(g, off1, on1), off2, on2), one, off3, on3)
    ensures Instances(on3) == Instances(off2) == Instances(one) - Instances(two)
    ensures Instances(off3) == Instances(on2) == Instances(two) - Instances(one)
    ensures off3 == [] && on3 == [] <==> Instances(one) == Instances(two)
  {
    var h := Joining(g, off1, on1);
    JoinAligns(g, one, off1, on1);
    JoinAligns(h, two, off2, on2);
    EmptyIffNoInstance(off3);
    EmptyIffNoInstance(on3);
  }

  /** One pass over a group: list, join, detach, attach. A pass over a group that already has the desired
      instances lists nothing, and so does every second pass. */
  method Align(g: Group, listing: seq<NetworkEndpoint>, desired: seq<NetworkEndpoint>)
    returns (h: Group, detached: seq<NetworkEndpoint>, attached: seq<NetworkEndpoint>)
    requires ListingOf(listing, g)
    ensures h.Keys == Instances(desired)
    ensures forall i | i in g && i in h :: h[i] == g[i]
    ensures RightPorts(h, desired) <==> RightPorts(g, desired)
    ensures Instances(detached) !! Instances(attached)
    ensures g.Keys == Instances(desired) <==> detached == [] && attached == []
    ensures detached == [] && attached == [] ==> h == g
  {
    detached, attached := OuterJoin(listing, desired);
    JoinAligns(g, desired, detached, attached);
    EmptyIffNoInstance(detached);
    EmptyIffNoInstance(attached);
    h := g;
    if |detached| > 0 {
      h := Detach(h, detached);
    } else {
      assert Detach(g, detached) == g;
    }
    if |attached| > 0 {
      h := Attach(h, attached);
    }
  }
}
