/** Finite sets of integers in ascending order: the model of Python's `sorted`. */
module Ordered {

  ghost function Pick<T>(s: set<T>): (e: T)
    requires s != {}
    ensures e in s
  {
    var e :| e in s;
    e
  }

  ghost function Min(s: set<int>): (m: int)
    requires s != {}
    ensures m in s && forall x :: x in s ==> m <= x
  {
    var e := Pick(s);
    var rest := s - {e};
    assert s == rest + {e};
    if rest == {} then e
    else var m := Min(rest); if e < m then e else m
  }

  ghost predicate Ascending(q: seq<int>) {
    forall i, j :: 0 <= i < j < |q| ==> q[i] < q[j]
  }

  ghost function Sorted(s: set<int>): (q: seq<int>)
    ensures |q| == |s|
    ensures forall x :: x in q <==> x in s
  {
    if s == {} then []
    else
      var m := Min(s);
      var q := Sorted(s - {m});
      [m] + q
  }

  lemma ConsAscending(m: int, q: seq<int>)
    requires Ascending(q) && forall x :: x in q ==> m < x
    ensures Ascending([m] + q)
  {
    assert forall k :: 0 <= k < |q| ==> q[k] in q;
  }

  lemma {:induction false} SortedIsAscending(s: set<int>)
    ensures Ascending(Sorted(s))
  {
    if s != {} {
      var m := Min(s);
      SortedIsAscending(s - {m});
      ConsAscending(m, Sorted(s - {m}));
    }
  }

  /** At most one element of s lies above n. */
  ghost predicate AtMostOneAbove(s: set<int>, n: int) {
    !exists x, y :: x in s && y in s && n < x < y
  }

  /** The last two entries of `sorted(s)`, or all of them when there are fewer. */
  ghost function LastTwo(s: set<int>): (last: set<int>)
    ensures last <= s
  {
    var q := Sorted(s);
    if |q| <= 2 then s else {q[|q| - 2], q[|q| - 1]}
  }

  lemma TopOfAscending(q: seq<int>, i: nat)
    requires Ascending(q) && i < |q|
    ensures i + 2 < |q| ==> q[i] < q[|q| - 2] < q[|q| - 1]
    ensures i + 2 >= |q| ==> forall x, y :: x in q && y in q && q[i] < x ==> y <= x
  {
    if i + 2 >= |q| {
      forall x, y | x in q && y in q && q[i] < x ensures y <= x {
        var j :| 0 <= j < |q| && q[j] == x;
        assert j == |q| - 1;
      }
    }
  }

  lemma LastTwoExact(s: set<int>, n: int)
    ensures n in LastTwo(s) <==> n in s && AtMostOneAbove(s, n)
  {
    if n in s {
      var q := Sorted(s);
      SortedIsAscending(s);
      var i :| 0 <= i < |q| && q[i] == n;
      TopOfAscending(q, i);
      if i + 2 < |q| {
        assert q[|q| - 2] in s && q[|q| - 1] in s;
      } else {
        assert AtMostOneAbove(s, n);
      }
    }
  }

  /** A set that holds the last two of a larger one has the same last two. */
  lemma LastTwoOfSubset(whole: set<int>, part: set<int>, n: int)
    requires part <= whole
    requires forall m :: m in whole && AtMostOneAbove(whole, m) ==> m in part
    ensures n in part && AtMostOneAbove(part, n) <==> n in whole && AtMostOneAbove(whole, n)
  {
    if n in part && !AtMostOneAbove(whole, n) {
      var q := Sorted(whole);
      SortedIsAscending(whole);
      LastTwoExact(whole, n);
      var i :| 0 <= i < |q| && q[i] == n;
      TopOfAscending(q, i);
      var x, y := q[|q| - 2], q[|q| - 1];
      LastTwoExact(whole, x);
      LastTwoExact(whole, y);
      assert x in part && y in part;
    }
  }

  lemma MinIsUnique(s: set<int>, m: int)
    requires m in s && forall x :: x in s ==> m <= x
    ensures m == Min(s)
  {
  }

  /** The smallest element, found by one pass. */
  method Smallest(s: set<int>) returns (m: int)
    requires s != {}
    ensures m == Min(s)
  {
    assert Min(s) in s;
    m :| m in s;
    var rest := s - {m};
    while rest != {}
      invariant m in s && rest <= s
      invariant forall x :: x in s ==> x in rest || m <= x
      decreases rest
    {
      assert Min(rest) in rest;
      var e :| e in rest;
      if e < m { m := e; }
      rest := rest - {e};
    }
    MinIsUnique(s, m);
  }

  lemma TakeSmallest(q: seq<int>, rest: set<int>, m: int)
    requires rest != {} && m == Min(rest)
    ensures q + Sorted(rest) == (q + [m]) + Sorted(rest - {m})
  {
    assert Sorted(rest) == [m] + Sorted(rest - {m});
  }

  method Sort(s: set<int>) returns (q: seq<int>)
    ensures q == Sorted(s)
  {
    q := [];
    var rest := s;
    ghost var whole := Sorted(s);
    while rest != {}
      invariant q + Sorted(rest) == whole
      decreases rest
    {
      var m := Smallest(rest);
      TakeSmallest(q, rest, m);
      q, rest := q + [m], rest - {m};
    }
  }
}
