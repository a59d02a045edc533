/** Orders on keys and the sorted listings that the scan and the store hand out. */
module Listing {

  /** Go's < on strings: byte by byte, a proper prefix first. */
  predicate Less(a: string, b: string) {
    b != "" && (a == "" || a[0] < b[0] || (a[0] == b[0] && Less(a[1..], b[1..])))
  }

  lemma {:induction false} LessTrichotomy(a: string, b: string)
    ensures Less(a, b) || Less(b, a) || a == b
    ensures !(Less(a, b) && Less(b, a))
    ensures !Less(a, a)
  {
    if a != "" {
      LessTrichotomy(a[1..], a[1..]);
      if b != "" {
        LessTrichotomy(a[1..], b[1..]);
        if a[0] == b[0] && a[1..] == b[1..] {
          assert a == [a[0]] + a[1..] && b == [b[0]] + b[1..];
        }
      }
    }
  }

  lemma {:induction false} LessTransitive(a: string, b: string, c: string)
    requires Less(a, b) && Less(b, c)
    ensures Less(a, c)
  {
    if a != "" && a[0] == b[0] && b[0] == c[0] {
      LessTransitive(a[1..], b[1..], c[1..]);
    }
  }

  ghost predicate Ascending(xs: seq<string>) {
    forall i, j :: 0 <= i < j < |xs| ==> Less(xs[i], xs[j])
  }

  ghost predicate Descending(xs: seq<int>) {
    forall i, j :: 0 <= i < j < |xs| ==> xs[i] > xs[j]
  }

  ghost predicate ListsExactly<T>(xs: seq<T>, s: set<T>) {
    && (forall i :: 0 <= i < |xs| ==> xs[i] in s)
    && (forall x :: x in s ==> x in xs)
  }

  // ----- names in ascending order -----

  predicate IsLeast(m: string, s: set<string>) {
    m in s && forall x :: x in s ==> x == m || Less(m, x)
  }

  lemma {:induction false} LeastExists(s: set<string>) returns (m: string)
    requires s != {}
    ensures IsLeast(m, s)
  {
    m :| m in s;
    if s != {m} {
      var rest := s - {m};
      assert rest == {} ==> s == {m};
      var k := LeastExists(rest);
      LessTrichotomy(k, m);
      if Less(k, m) {
        m := k;
      } else {
        forall x | x in s && x != m ensures Less(m, x) {
          if x != k { LessTransitive(m, k, x); }
        }
      }
    }
  }

  lemma LeastUnique(s: set<string>)
    ensures forall m, n :: IsLeast(m, s) && IsLeast(n, s) ==> m == n
  {
    forall m, n | IsLeast(m, s) && IsLeast(n, s) ensures m == n {
      LessTrichotomy(m, n);
    }
  }

  function Least(s: set<string>): (m: string)
    requires s != {}
    ensures IsLeast(m, s)
  {
    LeastWitness(s);
    LeastUnique(s);
    var m :| IsLeast(m, s);
    m
  }

  /** The elements of a set of names in ascending order: SQL's ORDER BY symbol. */
  function Sorted(s: set<string>): (xs: seq<string>)
    ensures Ascending(xs) && ListsExactly(xs, s) && |xs| == |s|
  {
    if s == {} then []
    else
      var m := Least(s);
      var rest := Sorted(s - {m});
      LeastFirst(m, rest, s);
      [m] + rest
  }

  lemma LeastFirst(m: string, rest: seq<string>, s: set<string>)
    requires IsLeast(m, s) && Ascending(rest) && ListsExactly(rest, s - {m}) && |rest| == |s - {m}|
    ensures Ascending([m] + rest) && ListsExactly([m] + rest, s) && |[m] + rest| == |s|
  {}

  lemma LeastWitness(s: set<string>)
    requires s != {}
    ensures exists m :: IsLeast(m, s)
  {
    var m := LeastExists(s);
  }

  // ----- dates, newest first -----

  lemma Member<T>(s: set<T>) returns (m: T)
    requires s != {}
    ensures m in s
  {
    m :| m in s;
  }

  predicate IsGreatest(m: int, s: set<int>) {
    m in s && forall x :: x in s ==> x <= m
  }

  lemma {:induction false} GreatestExists(s: set<int>) returns (m: int)
    requires s != {}
    ensures IsGreatest(m, s)
  {
    m := Member(s);
    var rest := s - {m};
    if rest != {} {
      var k := GreatestExists(rest);
      assert forall x :: x in s ==> x == m || x in rest;
      m := if k < m then m else k;
    } else {
      assert s == {m};
    }
  }

  lemma GreatestWitness(s: set<int>)
    requires s != {}
    ensures exists m :: IsGreatest(m, s)
  {
    var m := GreatestExists(s);
  }

  function Greatest(s: set<int>): (m: int)
    requires s != {}
    ensures IsGreatest(m, s)
  {
    GreatestWitness(s);
    var m :| IsGreatest(m, s);
    m
  }

  /** SQL's ORDER BY ... DESC over distinct dates. */
  function NewestFirst(s: set<int>): (xs: seq<int>)
    ensures Descending(xs) && ListsExactly(xs, s) && |xs| == |s|
  {
    if s == {} then []
    else
      var m := Greatest(s);
      var rest := NewestFirst(s - {m});
      GreatestFirst(m, rest, s);
      [m] + rest
  }

  lemma GreatestFirst(m: int, rest: seq<int>, s: set<int>)
    requires IsGreatest(m, s) && Descending(rest) && ListsExactly(rest, s - {m}) && |rest| == |s - {m}|
    ensures Descending([m] + rest) && ListsExactly([m] + rest, s) && |[m] + rest| == |s|
  {}

  // ----- times, oldest first -----

  ghost predicate Increasing(xs: seq<int>) {
    forall i, j :: 0 <= i < j < |xs| ==> xs[i] < xs[j]
  }

  /** SQL's ORDER BY ... ASC over distinct times. */
  function OldestFirst(s: set<int>): (xs: seq<int>)
    ensures Increasing(xs) && ListsExactly(xs, s) && |xs| == |s|
  {
    if s == {} then []
    else
      var m := Greatest(s);
      var rest := OldestFirst(s - {m});
      GreatestLast(m, rest, s);
      rest + [m]
  }

  lemma GreatestLast(m: int, rest: seq<int>, s: set<int>)
    requires IsGreatest(m, s) && Increasing(rest) && ListsExactly(rest, s - {m}) && |rest| == |s - {m}|
    ensures Increasing(rest + [m]) && ListsExactly(rest + [m], s) && |rest + [m]| == |s|
  {}

  /** Two increasing listings of the same numbers are the same listing. */
  lemma {:induction false} IncreasingUnique(xs: seq<int>, ys: seq<int>)
    requires Increasing(xs) && Increasing(ys) && forall x :: x in xs <==> x in ys
    ensures xs == ys
  {
    if xs == [] {
      forall y ensures y !in multiset(ys) {
        assert y in ys <==> y in xs;
      }
      assert multiset(ys) == multiset{};
      assert |ys| == |multiset(ys)|;
    } else {
      assert xs[0] in xs && xs[0] in ys;
      assert ys[0] in ys && ys[0] in xs;
      assert xs[0] == ys[0];
      forall x ensures x in xs[1..] <==> x in ys[1..] {
        assert x in xs <==> x == xs[0] || x in xs[1..];
        assert x in ys <==> x == ys[0] || x in ys[1..];
      }
      IncreasingUnique(xs[1..], ys[1..]);
      assert xs == [xs[0]] + xs[1..] && ys == [ys[0]] + ys[1..];
    }
  }
}
