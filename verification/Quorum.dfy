/** Counting arguments over replica ids, and ordered iteration over maps with integer keys. */
module Quorum {
  import opened Messages

  function Ids(n: nat): (s: set<int>)
    ensures forall i :: i in s <==> 0 <= i < n
    ensures |s| == n
  {
    if n == 0 then {} else Ids(n - 1) + {n - 1}
  }

  lemma SubsetSize<T>(a: set<T>, b: set<T>)
    requires a <= b
    ensures |a| <= |b|
  {
    assert b == a + (b - a);
  }

  /** Two sets of ids that together outnumber all ids by more than the faulty ones share a correct id. */
  lemma SharedCorrect(n: nat, a: set<int>, b: set<int>, correct: set<int>) returns (p: int)
    requires a <= Ids(n) && b <= Ids(n)
    requires |a| + |b| > n + |Ids(n) - correct|
    ensures p in a && p in b && p in correct
  {
    SubsetSize(a + b, Ids(n));
    assert |a| + |b| == |a + b| + |a * b|;
    if a * b <= Ids(n) - correct {
      SubsetSize(a * b, Ids(n) - correct);
      assert false;
    }
    p :| p in a * b && p !in Ids(n) - correct;
  }

  lemma Pick<T>(s: set<T>) returns (x: T)
    requires s != {}
    ensures x in s
  {
    x :| x in s;
  }

  /** Extensionality for sets of ids; the comprehensions name each member as an integer. */
  lemma SameSet(a: set<int>, b: set<int>)
    requires forall x :: x in a <==> x in b
    ensures a == b
  {
    assert a == set x | x in a && Max(x, 0) >= x;
    assert b == set x | x in b && Max(x, 0) >= x;
  }

  predicate IsLeast(x: int, s: set<int>) {
    x in s && forall y | y in s :: x <= y
  }

  lemma {:induction false} MinExists(s: set<int>)
    requires s != {}
    ensures exists x :: IsLeast(x, s)
  {
    var x := Pick(s);
    if s == {x} {
      assert IsLeast(x, s);
    } else {
      var rest := s - {x};
      MinExists(rest);
      var m :| IsLeast(m, rest);
      assert forall y | y in s :: y == x || y in rest;
      assert IsLeast(if x < m then x else m, s);
    }
  }

  function MinOf(s: set<int>): (x: int)
    requires s != {}
    ensures IsLeast(x, s)
  {
    MinExists(s);
    var x :| x in s && IsLeast(x, s);
    x
  }

  /** The values of a map in ascending key order, as iteration over a std::map yields them. */
  function SortedValues<T>(m: map<int, T>): (r: seq<T>)
    ensures |r| == |m|
    ensures forall k | k in m :: m[k] in r
    ensures forall v | v in r :: exists k :: k in m && m[k] == v
    decreases |m|
  {
    if m.Keys == {} then
      assert |m| == |m.Keys|; []
    else
      var k := MinOf(m.Keys);
      var rest := m - {k};
      assert m.Keys == rest.Keys + {k};
      assert |m| == |m.Keys| && |rest| == |rest.Keys|;
      assert forall v | v in SortedValues(rest) :: exists j :: j in m && m[j] == v;
      [m[k]] + SortedValues(rest)
  }
}
