/** Client identifiers, their canonical order, and decimal rendering. */
module Names {
  import opened Sequences

  type ClientId = string

  /** Lexicographic order by code point, the order of `sorted` on strings. */
  predicate Before(a: string, b: string) {
    if b == "" then false
    else if a == "" then true
    else if a[0] == b[0] then Before(a[1..], b[1..])
    else a[0] < b[0]
  }

  lemma {:induction false} BeforeIrreflexive(a: string)
    ensures !Before(a, a)
  {
    if a != "" {
      BeforeIrreflexive(a[1..]);
    }
  }

  /** Exactly one of a == b, a before b and b before a holds. */
  lemma {:induction false} BeforeTotal(a: string, b: string)
    ensures a == b || Before(a, b) || Before(b, a)
    ensures Before(a, b) ==> a != b && !Before(b, a)
  {
    BeforeIrreflexive(a);
    if a != "" && b != "" && a[0] == b[0] {
      BeforeTotal(a[1..], b[1..]);
      assert a == [a[0]] + a[1..] && b == [b[0]] + b[1..];
    }
  }

  lemma {:induction false} BeforeTransitive(a: string, b: string, c: string)
    requires Before(a, b) && Before(b, c)
    ensures Before(a, c)
  {
    if a != "" && a[0] == b[0] == c[0] {
      BeforeTransitive(a[1..], b[1..], c[1..]);
    }
  }

  ghost predicate Ordered(s: seq<string>) {
    forall i, j | 0 <= i < j < |s| :: !Before(s[j], s[i])
  }

  function Insert(x: string, s: seq<string>): seq<string> {
    if s == [] || !Before(s[0], x) then [x] + s else [s[0]] + Insert(x, s[1..])
  }

  lemma {:induction false} InsertMultiset(x: string, s: seq<string>)
    ensures multiset(Insert(x, s)) == multiset(s) + multiset{x}
  {
    if s != [] && Before(s[0], x) {
      InsertMultiset(x, s[1..]);
      HeadMultiset(s);
      HeadMultiset(Insert(x, s));
    }
  }

  /** x comes no later than any element of s. */
  ghost predicate Leads(x: string, s: seq<string>) {
    forall y | y in s :: !Before(y, x)
  }

  lemma LeadsOrdered(x: string, s: seq<string>)
    requires Ordered(s) && Leads(x, s)
    ensures Ordered([x] + s)
  {
  }

  lemma {:induction false} InsertOrdered(x: string, s: seq<string>)
    requires Ordered(s)
    ensures Ordered(Insert(x, s))
  {
    if s == [] {
    } else if Before(s[0], x) {
      InsertOrdered(x, s[1..]);
      InsertMultiset(x, s[1..]);
      BeforeTotal(s[0], x);
      forall y | y in Insert(x, s[1..]) ensures !Before(y, s[0]) {
        assert y in multiset(Insert(x, s[1..]));
      }
      LeadsOrdered(s[0], Insert(x, s[1..]));
    } else {
      forall y | y in s ensures !Before(y, x) {
        LeastFirst(x, s, y);
      }
      LeadsOrdered(x, s);
    }
  }

  lemma LeastFirst(x: string, s: seq<string>, y: string)
    requires Ordered(s) && s != [] && !Before(s[0], x) && y in s
    ensures !Before(y, x)
  {
    BeforeTotal(s[0], x);
    BeforeTotal(s[0], y);
    if Before(y, x) && s[0] != x {
      BeforeTransitive(y, x, s[0]);
    }
  }

  /** The sorted arrangement of a list. */
  function Sorted(s: seq<string>): (r: seq<string>)
    ensures multiset(r) == multiset(s)
    ensures Ordered(r)
    ensures |r| == |s|
  {
    if s == [] then []
    else
      var rest := Sorted(s[1..]);
      var r := Insert(s[0], rest);
      assert multiset(r) == multiset(s) && Ordered(r) by {
        InsertMultiset(s[0], rest);
        InsertOrdered(s[0], rest);
        HeadMultiset(s);
      }
      assert |multiset(r)| == |multiset(s)|;
      r
  }

  lemma {:induction false} OrderedUnique(a: seq<string>, b: seq<string>)
    requires Ordered(a) && Ordered(b) && multiset(a) == multiset(b)
    ensures a == b
    decreases |a|
  {
    assert |multiset(a)| == |a| && |multiset(b)| == |b|;
    if a != [] {
      SameFirst(a, b);
      HeadMultiset(a);
      HeadMultiset(b);
      CancelElement(multiset(a[1..]), multiset(b[1..]), a[0]);
      OrderedUnique(a[1..], b[1..]);
      assert a == [a[0]] + a[1..] && b == [b[0]] + b[1..];
    }
  }

  lemma SameFirst(a: seq<string>, b: seq<string>)
    requires Ordered(a) && Ordered(b) && multiset(a) == multiset(b) && a != [] && b != []
    ensures a[0] == b[0]
  {
    assert a[0] in multiset(b) && b[0] in multiset(a);
    BeforeTotal(a[0], b[0]);
  }

  /** Sorting forgets the order in which the names were listed. */
  lemma SortedIgnoresInputOrder(a: seq<string>, b: seq<string>)
    requires multiset(a) == multiset(b)
    ensures Sorted(a) == Sorted(b)
  {
    OrderedUnique(Sorted(a), Sorted(b));
  }

  function Digit(d: nat): (c: char)
    requires d < 10
    ensures c != '-'
  {
    "0123456789"[d]
  }

  /** Decimal rendering of a number, as an f-string does it. */
  function Decimal(n: nat): (s: string)
    ensures s != "" && '-' !in s
    ensures |s| == 1 <==> n < 10
  {
    if n < 10 then [Digit(n)] else Decimal(n / 10) + [Digit(n % 10)]
  }

  lemma {:induction false} DecimalInjective(a: nat, b: nat)
    requires Decimal(a) == Decimal(b)
    ensures a == b
  {
    if a >= 10 && b >= 10 {
      var x, y := Decimal(a / 10), Decimal(b / 10);
      assert x == (x + [Digit(a % 10)])[..|x|] && y == (y + [Digit(b % 10)])[..|y|];
      assert Decimal(a)[|x|] == Decimal(b)[|y|];
      DecimalInjective(a / 10, b / 10);
    }
  }

  /** A dash-free prefix ends at the first dash. */
  lemma {:induction false} DashSplit(a: string, b: string, x: string, y: string)
    requires '-' !in a && '-' !in b
    requires a + "-" + x == b + "-" + y
    ensures a == b && x == y
  {
    var whole := a + "-" + x;
    assert whole[|a|] == '-' && (b + "-" + y)[|b|] == '-';
    assert forall i | 0 <= i < |a| :: whole[i] == a[i];
    assert forall i | 0 <= i < |b| :: whole[i] == b[i];
    assert whole[..|a|] == a && (b + "-" + y)[..|b|] == b;
    assert whole[|a| + 1..] == x && (b + "-" + y)[|b| + 1..] == y;
  }
}
