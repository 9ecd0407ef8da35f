/** Vocabulary shared by every part of the model: optional values, the outcome of a run, and the
    arbitrary order in which Go ranges over a map. */
module Prelude {

  datatype Option<+T> = None | Some(value: T)

  /** Why a run stopped early. `Panicked` is a Go run-time panic, such as an index out of range: it
      ends the run at that point just as a returned error does. */
  datatype Fault = CallFailed | Rejected | Panicked

  datatype Outcome<+T> = Ok(value: T) | Err(fault: Fault)

  /** A seal: what is stated for all keys is looked into only where a proof mentions a key. */
  ghost predicate Key(k: int) {
    true
  }

  /** The seal on what every state keeps. */
  ghost predicate SafeKey(k: int) {
    true
  }

  ghost predicate NoDuplicates<T>(q: seq<T>) {
    forall i, j :: 0 <= i < j < |q| ==> q[i] != q[j]
  }

  /** `q` lists every element of `s` exactly once. */
  ghost predicate Enumerates<T>(q: seq<T>, s: set<T>) {
    NoDuplicates(q) && (forall x | x in q :: x in s) && (forall x | x in s :: x in q)
  }

  function ToSet<T>(q: seq<T>): (s: set<T>) {
    set x | x in q
  }

  /** One traversal of a Go map or of an API listing: every element once, in some order. */
  method AnyOrder<T(==)>(s: set<T>) returns (q: seq<T>)
    ensures Enumerates(q, s)
  {
    q := [];
    var rest := s;
    while rest != {}
      invariant rest <= s && Enumerates(q, s - rest)
      decreases rest
    {
      var x :| x in rest;
      q, rest := q + [x], rest - {x};
    }
  }

  ghost function SomeOrder<T(!new)>(s: set<T>): (q: seq<T>)
    ensures Enumerates(q, s)
  {
    if s == {} then []
    else
      var x :| x in s;
      SomeOrder(s - {x}) + [x]
  }

  /** The total of `f` over a sequence. */
  function Sum<T>(q: seq<T>, f: T -> nat): (n: nat) {
    if q == [] then 0 else Sum(q[..|q| - 1], f) + f(q[|q| - 1])
  }

  lemma {:induction false} SumWithout<T>(q: seq<T>, f: T -> nat, i: nat)
    requires i < |q|
    ensures Sum(q, f) == Sum(q[..i] + q[i + 1..], f) + f(q[i])
  {
    var last := |q| - 1;
    if i == last {
      assert q[..i] + q[i + 1..] == q[..last];
    } else {
      SumWithout(q[..last], f, i);
      var rest := q[..i] + q[i + 1..];
      assert rest[..|rest| - 1] == q[..last][..i] + q[..last][i + 1..];
      assert rest[|rest| - 1] == q[last];
    }
  }

  lemma MultisetWithout<T>(q: seq<T>, i: nat)
    requires i < |q|
    ensures multiset(q[..i] + q[i + 1..]) == multiset(q) - multiset{q[i]}
  {
    assert q == q[..i] + [q[i]] + q[i + 1..];
  }

  lemma FindInPermutation<T>(q: seq<T>, r: seq<T>, x: T) returns (i: nat)
    requires multiset(q) == multiset(r) && x in q
    ensures i < |r| && r[i] == x
  {
    assert x in multiset(r);
    i :| 0 <= i < |r| && r[i] == x;
  }

  lemma PermutationWithout<T>(q: seq<T>, r: seq<T>, i: nat)
    requires multiset(q) == multiset(r) && q != [] && i < |r| && r[i] == q[|q| - 1]
    ensures multiset(q[..|q| - 1]) == multiset(r[..i] + r[i + 1..])
  {
    var last := |q| - 1;
    MultisetWithout(q, last);
    MultisetWithout(r, i);
    assert q[..last] + q[last + 1..] == q[..last];
  }

  /** A total does not depend on the order. */
  lemma {:induction false} SumPermutes<T>(q: seq<T>, r: seq<T>, f: T -> nat)
    requires multiset(q) == multiset(r)
    ensures Sum(q, f) == Sum(r, f)
  {
    if q == [] {
      assert |multiset(r)| == |r| && |multiset(q)| == 0;
    } else {
      var last := |q| - 1;
      var i := FindInPermutation(q, r, q[last]);
      var rest := r[..i] + r[i + 1..];
      PermutationWithout(q, r, i);
      SumPermutes(q[..last], rest, f);
      SumWithout(r, f, i);
    }
  }
}
