/** Facts about sequences that the topology and the aggregation share. */
module Sequences {

  ghost predicate Distinct<T>(s: seq<T>) {
    forall i, j | 0 <= i < j < |s| :: s[i] != s[j]
  }

  function SetOf<T>(s: seq<T>): set<T> {
    set x | x in s
  }

  function Swap<T>(s: seq<T>, i: nat, j: nat): (r: seq<T>)
    requires i < |s| && j < |s|
    ensures |r| == |s|
  {
    s[i := s[j]][j := s[i]]
  }

  /** The sum of f over the first n elements of s. */
  function SumTo<T>(s: seq<T>, n: nat, f: T -> int): int
    requires n <= |s|
  {
    if n == 0 then 0 else SumTo(s, n - 1, f) + f(s[n - 1])
  }

  /** The sum of f over the elements of s, counted with multiplicity. */
  function Sum<T>(s: seq<T>, f: T -> int): int {
    SumTo(s, |s|, f)
  }

  lemma {:induction false} SumToAgrees<T>(a: seq<T>, b: seq<T>, n: nat, f: T -> int)
    requires n <= |a| && n <= |b| && forall i | 0 <= i < n :: a[i] == b[i]
    ensures SumTo(a, n, f) == SumTo(b, n, f)
  {
    if n > 0 {
      SumToAgrees(a, b, n - 1, f);
    }
  }

  lemma {:induction false} SumToConcat<T>(a: seq<T>, b: seq<T>, n: nat, f: T -> int)
    requires n <= |b|
    ensures SumTo(a + b, |a| + n, f) == Sum(a, f) + SumTo(b, n, f)
  {
    if n == 0 {
      SumToAgrees(a, a + b, |a|, f);
    } else {
      SumToConcat(a, b, n - 1, f);
    }
  }

  lemma SumConcat<T>(a: seq<T>, b: seq<T>, f: T -> int)
    ensures Sum(a + b, f) == Sum(a, f) + Sum(b, f)
  {
    SumToConcat(a, b, |b|, f);
  }

  lemma SumHead<T>(s: seq<T>, f: T -> int)
    requires s != []
    ensures Sum(s, f) == f(s[0]) + Sum(s[1..], f)
  {
    assert s == [s[0]] + s[1..];
    SumConcat([s[0]], s[1..], f);
    assert SumTo([s[0]], 1, f) == SumTo([s[0]], 0, f) + f(s[0]);
  }

  lemma CancelElement<T>(a: multiset<T>, b: multiset<T>, x: T)
    requires a + multiset{x} == b + multiset{x}
    ensures a == b
  {
    assert a == (a + multiset{x}) - multiset{x};
    assert b == (b + multiset{x}) - multiset{x};
  }

  lemma HeadMultiset<T>(s: seq<T>)
    requires s != []
    ensures multiset(s) == multiset(s[1..]) + multiset{s[0]}
  {
    assert s == [s[0]] + s[1..];
  }

  function RemoveAt<T>(s: seq<T>, k: nat): seq<T>
    requires k < |s|
  {
    s[..k] + s[k + 1..]
  }

  lemma RemoveAtSum<T>(s: seq<T>, k: nat, f: T -> int)
    requires k < |s|
    ensures multiset(s) == multiset(RemoveAt(s, k)) + multiset{s[k]}
    ensures Sum(s, f) == Sum(RemoveAt(s, k), f) + f(s[k])
  {
    assert s == s[..k] + s[k..] && s[k..] == [s[k]] + s[k + 1..];
    SumConcat(s[..k], s[k..], f);
    SumHead(s[k..], f);
    SumConcat(s[..k], s[k + 1..], f);
  }

  /** A sum does not depend on the order of its terms. */
  lemma {:induction false} SumPermutation<T>(a: seq<T>, b: seq<T>, f: T -> int)
    requires multiset(a) == multiset(b)
    ensures Sum(a, f) == Sum(b, f)
    decreases |a|
  {
    assert |multiset(a)| == |a| && |multiset(b)| == |b|;
    if a != [] {
      assert a[0] in multiset(b);
      var k :| 0 <= k < |b| && b[k] == a[0];
      HeadMultiset(a);
      RemoveAtSum(b, k, f);
      CancelElement(multiset(a[1..]), multiset(RemoveAt(b, k)), a[0]);
      SumPermutation(a[1..], RemoveAt(b, k), f);
      SumHead(a, f);
    }
  }

  lemma {:induction false} SumPointwise<T>(s: seq<T>, n: nat, f: T -> int, g: T -> int, h: T -> int)
    requires n <= |s| && forall i | 0 <= i < n :: h(s[i]) == f(s[i]) + g(s[i])
    ensures SumTo(s, n, h) == SumTo(s, n, f) + SumTo(s, n, g)
  {
    if n > 0 {
      SumPointwise(s, n - 1, f, g, h);
    }
  }

  /** The first n parts joined. */
  function JoinTo<T>(parts: seq<seq<T>>, n: nat): seq<T>
    requires n <= |parts|
  {
    if n == 0 then [] else JoinTo(parts, n - 1) + parts[n - 1]
  }

  function Join<T>(parts: seq<seq<T>>): seq<T> {
    JoinTo(parts, |parts|)
  }

  /** A subset as large as the whole set is the whole set. */
  lemma FullSubset<T>(part: set<T>, whole: set<T>)
    requires part <= whole
    ensures |part| <= |whole|
    ensures |part| == |whole| <==> part == whole
  {
    assert whole == part + (whole - part);
  }

  /** A list names as many things as it is long exactly when nothing repeats. */
  lemma {:induction false} DistinctIffFullSet<T>(s: seq<T>)
    ensures |SetOf(s)| <= |s|
    ensures |SetOf(s)| == |s| <==> Distinct(s)
  {
    if s != [] {
      var rest := s[..|s| - 1];
      DistinctIffFullSet(rest);
      assert s == rest + [s[|s| - 1]];
      assert SetOf(s) == SetOf(rest) + {s[|s| - 1]};
    }
  }
}
