/** The hand-written set of
    controllers/common/route53/route53endpointrulereferenceset/route53endpointrulereferenceset.go.
    The Go map's keys are the field `m`; ranging over the map is a loop that takes its elements in an
    arbitrary order. Arguments may be the same object. */
module ReferenceSet {
  import opened Prelude
  import opened Documents

  /** The largest value of Go's 64-bit int. */
  const MAX_INT: int := 0x7FFF_FFFF_FFFF_FFFF

  /** Same size and inclusion give equality: the pigeonhole step behind IsEqual. */
  lemma SameSizeSubset<T>(s: set<T>, t: set<T>)
    requires t <= s && |s| == |t|
    ensures s == t
  {
    assert |s - t| == |s| - |t|;
  }

  lemma SubsetSize<T>(s: set<T>, t: set<T>)
    requires t <= s
    ensures |t| <= |s|
  {
    assert |s - t| == |s| - |t|;
  }

  class Set {
    var m: set<Reference>

    constructor (items: seq<Reference>)
      ensures m == ToSet(items)
    {
      m := {};
      new;
      Add(items);
    }

    method Add(items: seq<Reference>)
      modifies this
      ensures m == old(m) + ToSet(items)
    {
      for i := 0 to |items|
        invariant m == old(m) + ToSet(items[..i])
      {
        m := m + {items[i]};
        assert items[..i + 1] == items[..i] + [items[i]];
      }
      assert items[..|items|] == items;
    }

    method Remove(items: seq<Reference>)
      modifies this
      ensures m == old(m) - ToSet(items)
    {
      for i := 0 to |items|
        invariant m == old(m) - ToSet(items[..i])
      {
        m := m - {items[i]};
        assert items[..i + 1] == items[..i] + [items[i]];
      }
      assert items[..|items|] == items;
    }

    /** Size comparison, then a traversal that stops at the first absent item. */
    method IsEqual(t: Set) returns (equal: bool)
      ensures equal <==> m == t.m
    {
      if |m| != |t.m| {
        return false;
      }
      equal := true;
      var rest := t.m;
      while equal && rest != {}
        invariant rest <= t.m
        invariant if equal then t.m - rest <= m else !(t.m <= m)
        decreases rest
      {
        var item :| item in rest;
        rest := rest - {item};
        equal := item in m;
      }
      if equal {
        SameSizeSubset(m, t.m);
      }
    }

    method IsSubset(t: Set) returns (subset: bool)
      ensures subset <==> t.m <= m
    {
      if |m| < |t.m| {
        if t.m <= m {
          SubsetSize(m, t.m);
        }
        return false;
      }
      subset := true;
      var rest := t.m;
      while subset && rest != {}
        invariant rest <= t.m
        invariant if subset then t.m - rest <= m else !(t.m <= m)
        decreases rest
      {
        var item :| item in rest;
        rest := rest - {item};
        subset := item in m;
      }
    }

    method IsSuperset(t: Set) returns (superset: bool)
      ensures superset <==> m <= t.m
    {
      superset := t.IsSubset(this);
    }

    method Copy() returns (u: Set)
      ensures fresh(u) && u.m == m
    {
      u := new Set([]);
      var rest := m;
      while rest != {}
        invariant rest <= m && fresh(u) && u.m == m - rest
        decreases rest
      {
        var item :| item in rest;
        u.m, rest := u.m + {item}, rest - {item};
      }
    }

    method Merge(t: Set)
      modifies this
      ensures m == old(m) + old(t.m)
    {
      var rest := t.m;
      while rest != {}
        invariant rest <= old(t.m) && m == old(m) + (old(t.m) - rest)
        decreases rest
      {
        var item :| item in rest;
        m, rest := m + {item}, rest - {item};
      }
    }

    /** Deletes from the set while ranging over `t`, which may be the set itself. */
    method Separate(t: Set)
      modifies this
      ensures m == old(m) - old(t.m)
    {
      var rest := t.m;
      while rest != {}
        invariant rest <= old(t.m) && m == old(m) - (old(t.m) - rest)
        decreases rest
      {
        var item :| item in rest;
        m, rest := m - {item}, rest - {item};
      }
    }
  }

  /** The first loop of Union: a largest set, or size 0 when all are empty. */
  method Largest(sets: seq<Set>) returns (maxPos: int, maxSize: nat)
    ensures if maxSize == 0 then forall k :: 0 <= k < |sets| ==> sets[k].m == {}
            else 0 <= maxPos < |sets| && |sets[maxPos].m| == maxSize
    ensures forall k :: 0 <= k < |sets| ==> |sets[k].m| <= maxSize
  {
    maxPos, maxSize := -1, 0;
    for i := 0 to |sets|
      invariant maxSize == 0 || (0 <= maxPos < i && |sets[maxPos].m| == maxSize)
      invariant forall k :: 0 <= k < i ==> |sets[k].m| <= maxSize
    {
      if |sets[i].m| > maxSize {
        maxSize, maxPos := |sets[i].m|, i;
      }
    }
  }

  /** Union starts from a copy of the largest set and skips it in the loop. */
  method Union(sets: seq<Set>) returns (u: Set)
    ensures fresh(u)
    ensures forall x :: x in u.m <==> exists i :: 0 <= i < |sets| && x in sets[i].m
  {
    var maxPos, maxSize := Largest(sets);
    if maxSize == 0 {
      u := new Set([]);
      return;
    }
    u := sets[maxPos].Copy();
    for i := 0 to |sets|
      invariant fresh(u)
      invariant forall x :: x in u.m <==> x in sets[maxPos].m || exists k :: 0 <= k < i && x in sets[k].m
    {
      if i != maxPos {
        u.Merge(sets[i]);
      }
    }
  }

  method Difference(set1: Set, sets: seq<Set>) returns (s: Set)
    ensures fresh(s)
    ensures forall x :: x in s.m <==> x in set1.m && forall i :: 0 <= i < |sets| ==> x !in sets[i].m
  {
    s := set1.Copy();
    for i := 0 to |sets|
      invariant fresh(s)
      invariant forall x :: x in s.m <==> x in set1.m && forall k :: 0 <= k < i ==> x !in sets[k].m
    {
      s.Separate(sets[i]);
    }
  }

  /** Intersection starts from a copy of the smallest set and deletes from it while ranging over it. It gives
      up when no set is smaller than the largest int. */
  method Intersection(sets: seq<Set>) returns (t: Set)
    ensures fresh(t)
    ensures (forall i :: 0 <= i < |sets| ==> |sets[i].m| >= MAX_INT) ==> t.m == {}
    ensures (exists i :: 0 <= i < |sets| && |sets[i].m| < MAX_INT) ==>
      forall x :: x in t.m <==> forall i :: 0 <= i < |sets| ==> x in sets[i].m
  {
    var minPos, minSize := -1, MAX_INT;
    for i := 0 to |sets|
      invariant if minSize == MAX_INT then forall k :: 0 <= k < i ==> |sets[k].m| >= MAX_INT
                else minSize < MAX_INT && 0 <= minPos < i && |sets[minPos].m| == minSize
    {
      if |sets[i].m| < minSize {
        minSize, minPos := |sets[i].m|, i;
      }
    }
    if minSize == MAX_INT || minSize == 0 {
      t := new Set([]);
      return;
    }
    t := sets[minPos].Copy();
    for i := 0 to |sets|
      invariant fresh(t)
      invariant forall x :: x in t.m <==>
        x in sets[minPos].m && forall k :: 0 <= k < i ==> x in sets[k].m
    {
      if i != minPos {
        Retain(t, sets[i]);
      }
    }
  }

  /** The inner loop of Intersection: one pass over `t` that deletes what `keep` lacks. */
  method Retain(t: Set, keep: Set)
    requires t != keep
    modifies t
    ensures t.m == old(t.m) * keep.m
  {
    var rest := t.m;
    while rest != {}
      invariant rest <= old(t.m)
      invariant t.m == old(t.m) - ((old(t.m) - rest) - keep.m)
      decreases rest
    {
      var item :| item in rest;
      rest := rest - {item};
      if item !in keep.m {
        t.m := t.m - {item};
      }
    }
  }

  method SymmetricDifference(s: Set, t: Set) returns (w: Set)
    ensures fresh(w)
    ensures w.m == (s.m - t.m) + (t.m - s.m)
  {
    var u := Difference(s, [t]);
    var v := Difference(t, [s]);
    assert forall x :: x in u.m <==> x in s.m && x !in [t][0].m;
    assert forall x :: x in v.m <==> x in t.m && x !in [s][0].m;
    w := Union([u, v]);
    assert forall x :: x in w.m <==> x in [u, v][0].m || x in [u, v][1].m;
  }

  /** IsSameTrafficPolicyDocument, comparing each list of references through two sets. */
  method CompareDocuments(l: Document, r: Document) returns (same: bool)
    ensures same <==> SameDocument(l, r)
    ensures same <==> DifferInOrderOnly(l, r)
  {
    SameDocumentIff(l, r);
    if || l.formatVersion != r.formatVersion || l.startEndpoint != r.startEndpoint
       || l.startRule != r.startRule || l.recordType != r.recordType || l.endpoints != r.endpoints
    {
      return false;
    }
    same := CompareRules(MainRule(l), MainRule(r));
  }

  method CompareRules(l: Rule, r: Rule) returns (same: bool)
    ensures same <==> SameRule(l, r)
  {
    if l.ruleType != r.ruleType || l.primary != r.primary || l.secondary != r.secondary {
      return false;
    }
    same := CompareReferences(l.locations, r.locations);
    if !same { return; }
    same := CompareReferences(l.geoproximityLocations, r.geoproximityLocations);
    if !same { return; }
    same := CompareReferences(l.regions, r.regions);
    if !same { return; }
    same := CompareReferences(l.items, r.items);
  }

  method CompareReferences(l: seq<Reference>, r: seq<Reference>) returns (same: bool)
    ensures same <==> ToSet(l) == ToSet(r)
  {
    var a := new Set(l);
    var b := new Set(r);
    same := a.IsEqual(b);
  }
}
