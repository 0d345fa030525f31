/** Multisets read off a sequence element by element, and what permuting the sequence keeps. */
module Projections {

  /** All but the last element. */
  function Front<T>(s: seq<T>): (r: seq<T>)
    requires s != []
    ensures |r| == |s| - 1
  {
    s[..|s| - 1]
  }

  /** The sum of `f` over the elements of `s`. */
  function Project<T, U>(f: T -> multiset<U>, s: seq<T>): multiset<U> {
    if s == [] then multiset{}
    else Project(f, s[..|s| - 1]) + f(s[|s| - 1])
  }

  lemma {:induction false} ProjectAppend<T, U>(f: T -> multiset<U>, a: seq<T>, b: seq<T>)
    ensures Project(f, a + b) == Project(f, a) + Project(f, b)
  {
    if b == [] {
      assert a + b == a;
    } else {
      var n := |b| - 1;
      assert (a + b)[..|a + b| - 1] == a + b[..n];
      ProjectAppend(f, a, b[..n]);
    }
  }

  lemma ProjectNone<T, U>(f: T -> multiset<U>)
    ensures Project(f, []) == multiset{}
  {
  }

  lemma ProjectOne<T, U>(f: T -> multiset<U>, x: T)
    ensures Project(f, [x]) == f(x)
  {
    assert [x][..0] == [];
  }

  /** Removing the element at `k` removes its share. */
  lemma ProjectSplit<T, U>(f: T -> multiset<U>, s: seq<T>, k: nat)
    requires k < |s|
    ensures Project(f, s) == Project(f, s[..k] + s[k + 1..]) + f(s[k])
    ensures multiset(s) == multiset(s[..k] + s[k + 1..]) + multiset{s[k]}
  {
    hide Project;
    var a, x, b := s[..k], [s[k]], s[k + 1..];
    assert s == a + x + b;
    ProjectAppend(f, a + x, b);
    ProjectAppend(f, a, x);
    ProjectOne(f, s[k]);
    ProjectAppend(f, a, b);
  }

  /** A projection sees only which elements there are, not their order. */
  lemma {:induction false} ProjectPermutation<T, U>(f: T -> multiset<U>, a: seq<T>, b: seq<T>)
    requires multiset(a) == multiset(b)
    ensures Project(f, a) == Project(f, b)
    decreases |a|
  {
    if a == [] {
      assert |multiset(b)| == 0;
    } else {
      var n := |a| - 1;
      assert a[n] in multiset(b);
      var k :| 0 <= k < |b| && b[k] == a[n];
      ProjectSplit(f, a, n);
      ProjectSplit(f, b, k);
      assert a[..n] + a[n + 1..] == a[..n];
      var rest := b[..k] + b[k + 1..];
      assert multiset(a[..n]) == multiset(a) - multiset{a[n]} == multiset(rest);
      ProjectPermutation(f, a[..n], rest);
    }
  }

  /** An element's own share is part of the whole. */
  lemma ProjectMember<T, U>(f: T -> multiset<U>, s: seq<T>, x: T)
    requires x in s
    ensures f(x) <= Project(f, s)
  {
    var k :| 0 <= k < |s| && s[k] == x;
    ProjectSplit(f, s, k);
  }

  /** What a projection holds comes from some element. */
  lemma {:induction false} ProjectWitness<T, U>(f: T -> multiset<U>, s: seq<T>, u: U) returns (k: nat)
    requires u in Project(f, s)
    ensures k < |s| && u in f(s[k])
  {
    var n := |s| - 1;
    if u in f(s[n]) {
      k := n;
    } else {
      k := ProjectWitness(f, s[..n], u);
    }
  }

  /** The distinct elements of a multiset. */
  function Distinct<U>(m: multiset<U>): set<U> {
    set u | u in m
  }

  lemma DistinctAdd<U>(bag: multiset<U>, u: U)
    ensures Distinct(bag + multiset{u}) == Distinct(bag) + {u}
    ensures |Distinct(bag + multiset{u})| == |Distinct(bag)| + if u in bag then 0 else 1
  {
    assert Distinct(bag + multiset{u}) == Distinct(bag) + {u};
    if u in bag {
      assert Distinct(bag) + {u} == Distinct(bag);
    } else {
      assert u !in Distinct(bag);
    }
  }

  lemma {:induction false} SubsetSize<U>(a: set<U>, b: set<U>)
    requires a <= b
    ensures |a| <= |b|
    ensures |a| == |b| ==> a == b
  {
    var rest := b - a;
    assert b == a + rest;
  }

  lemma AddChained<U>(a: multiset<U>, g: multiset<U>, b: multiset<U>, l: multiset<U>,
                      g': multiset<U>, c: multiset<U>, l': multiset<U>)
    requires a + g == b + l && b + g' == c + l'
    ensures a + (g + g') == c + (l + l')
  {
    forall u ensures (a + (g + g'))[u] == (c + (l + l'))[u] {
      assert (a + g)[u] == (b + l)[u] && (b + g')[u] == (c + l')[u];
    }
  }

  lemma AddBeside<U>(a: multiset<U>, g: multiset<U>, b: multiset<U>, l: multiset<U>,
                     a': multiset<U>, g': multiset<U>, b': multiset<U>, l': multiset<U>)
    requires a + g == b + l && a' + g' == b' + l'
    ensures (a + a') + (g + g') == (b + b') + (l + l')
  {
    forall u ensures ((a + a') + (g + g'))[u] == ((b + b') + (l + l'))[u] {
      assert (a + g)[u] == (b + l)[u] && (a' + g')[u] == (b' + l')[u];
    }
  }
}
