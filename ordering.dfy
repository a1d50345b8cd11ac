// The row orders the queries ask for: `ORDER BY` a numeric key with a
// numeric tie-break (ties beyond both are in no particular order), with an
// optional `LIMIT`, and the code-point order of strings.

module Ordering {

  /** `a` may come before `b` under `ORDER BY key, tie`. */
  predicate Before<T>(key: T -> real, tie: T -> int, a: T, b: T) {
    key(a) < key(b) || (key(a) == key(b) && tie(a) <= tie(b))
  }

  predicate SortedBy<T>(xs: seq<T>, key: T -> real, tie: T -> int) {
    forall i, j :: 0 <= i < j < |xs| ==> Before(key, tie, xs[i], xs[j])
  }

  predicate Distinct<T(==)>(xs: seq<T>) {
    forall i, j :: 0 <= i < j < |xs| ==> xs[i] != xs[j]
  }

  function Min(a: nat, b: nat): nat {
    if a <= b then a else b
  }

  /** A first row of `s` under the order. */
  method First<T(==)>(s: set<T>, key: T -> real, tie: T -> int) returns (m: T)
    requires s != {}
    ensures m in s && forall x :: x in s ==> Before(key, tie, m, x)
  {
    m :| m in s;
    var rest := s - {m};
    while rest != {}
      invariant m in s && rest <= s
      invariant forall x :: x in s - rest ==> Before(key, tie, m, x)
      decreases |rest|
    {
      var y :| y in rest;
      if !Before(key, tie, m, y) {
        forall x | x in s - rest
          ensures Before(key, tie, y, x)
        {
          assert Before(key, tie, m, x);
        }
        m := y;
      }
      rest := rest - {y};
    }
  }

  /** `ORDER BY key, tie LIMIT limit` over the rows `s`: the first `limit`
      rows (all when there are fewer), in order, none of those left out
      coming before one kept. */
  method TopBy<T(==)>(s: set<T>, key: T -> real, tie: T -> int, limit: nat) returns (r: seq<T>)
    ensures |r| == Min(limit, |s|)
    ensures Distinct(r) && (forall i :: 0 <= i < |r| ==> r[i] in s)
    ensures SortedBy(r, key, tie)
    ensures forall x, i :: x in s && x !in r && 0 <= i < |r| ==> Before(key, tie, r[i], x)
    ensures |s| <= limit ==> forall x :: x in s <==> x in r
  {
    r := [];
    var rest := s;
    while |r| < limit && rest != {}
      invariant rest <= s && |rest| + |r| == |s| && |r| <= limit
      invariant forall x :: x in s ==> (x in rest <==> x !in r)
      invariant Distinct(r) && (forall i :: 0 <= i < |r| ==> r[i] in s)
      invariant SortedBy(r, key, tie)
      invariant forall x, i :: x in rest && 0 <= i < |r| ==> Before(key, tie, r[i], x)
      decreases |rest|
    {
      var m := First(rest, key, tie);
      r := r + [m];
      rest := rest - {m};
    }
    if |s| <= limit {
      assert rest == {};
    }
  }

  // ---------------------------------------------------------------- strings

  /** Code-point order of strings: a proper prefix comes first. */
  predicate StrLess(a: string, b: string) {
    if a == [] then b != []
    else if b == [] then false
    else a[0] < b[0] || (a[0] == b[0] && StrLess(a[1..], b[1..]))
  }

  lemma {:induction false} StrLessTotal(a: string, b: string)
    ensures a == b || StrLess(a, b) || StrLess(b, a)
  {
    if a != [] && b != [] && a[0] == b[0] {
      StrLessTotal(a[1..], b[1..]);
      if a[1..] == b[1..] {
        assert a == [a[0]] + a[1..] && b == [b[0]] + b[1..];
      }
    }
  }

  lemma {:induction false} StrLessIrreflexive(a: string)
    ensures !StrLess(a, a)
  {
    if a != [] {
      StrLessIrreflexive(a[1..]);
    }
  }

  lemma {:induction false} StrLessTransitive(a: string, b: string, c: string)
    requires StrLess(a, b) && StrLess(b, c)
    ensures StrLess(a, c)
  {
    if a != [] && a[0] == b[0] && b[0] == c[0] {
      StrLessTransitive(a[1..], b[1..], c[1..]);
    }
  }

  lemma {:induction false} StrLessAsymmetric(a: string, b: string)
    ensures !(StrLess(a, b) && StrLess(b, a))
  {
    if a != [] && b != [] && a[0] == b[0] {
      StrLessAsymmetric(a[1..], b[1..]);
    }
  }

  /** `m` comes before every other string of `s`. */
  predicate IsLeast(s: set<string>, m: string) {
    m in s && forall x :: x in s && x != m ==> StrLess(m, x)
  }

  /** Every non-empty finite set of strings has a least element. */
  lemma {:induction false} LeastExists(s: set<string>)
    requires s != {}
    ensures exists m :: IsLeast(s, m)
    decreases |s|
  {
    var y :| y in s;
    if s == {y} {
      assert IsLeast(s, y);
    } else {
      LeastExists(s - {y});
      var m :| IsLeast(s - {y}, m);
      StrLessTotal(m, y);
      if StrLess(y, m) {
        forall x | x in s && x != y
          ensures StrLess(y, x)
        {
          if x != m {
            StrLessTransitive(y, m, x);
          }
        }
        assert IsLeast(s, y);
      } else {
        assert IsLeast(s, m);
      }
    }
  }

  /** Two least elements of one set are the same string. */
  lemma LeastUnique(s: set<string>)
    ensures forall a, b :: IsLeast(s, a) && IsLeast(s, b) ==> a == b
  {
    forall a, b | IsLeast(s, a) && IsLeast(s, b)
      ensures a == b
    {
      StrLessAsymmetric(a, b);
    }
  }

  /** The least string of a non-empty set. */
  function LeastString(s: set<string>): (m: string)
    requires s != {}
    ensures IsLeast(s, m)
  {
    LeastExists(s);
    LeastUnique(s);
    var m :| m in s && IsLeast(s, m); m
  }

  /** The strings of `s`, each once, in increasing code-point order, as
      `SELECT DISTINCT … ORDER BY` gives them. */
  function SortedStrings(s: set<string>): (r: seq<string>)
    ensures forall x :: x in s <==> x in r
    ensures forall i, j :: 0 <= i < j < |r| ==> StrLess(r[i], r[j])
    decreases |s|
  {
    if s == {} then []
    else
      var m := LeastString(s);
      [m] + SortedStrings(s - {m})
  }

  /** Strings in strictly increasing order are pairwise different. */
  lemma IncreasingDistinct(xs: seq<string>)
    requires forall i, j :: 0 <= i < j < |xs| ==> StrLess(xs[i], xs[j])
    ensures Distinct(xs)
  {
    forall i, j | 0 <= i < j < |xs|
      ensures xs[i] != xs[j]
    {
      StrLessIrreflexive(xs[i]);
    }
  }
}
