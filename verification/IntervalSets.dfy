/** The integer sets that Batsim uses for allocations, seen as their elements in increasing order
    (indexing an allocation by i gives its i-th smallest machine). */
module IntervalSets {

  ghost predicate Increasing(s: seq<int>) {
    forall i, j :: 0 <= i < j < |s| ==> s[i] < s[j]
  }

  type IntervalSet = s: seq<int> | Increasing(s) witness []

  /** x put in front of larger elements. */
  function Prepend(x: int, s: IntervalSet): (r: IntervalSet)
    requires forall y :: y in s ==> x < y
    ensures r == [x] + s
    ensures forall y :: y in r <==> y == x || y in s
  {
    assert forall k :: 0 <= k < |s| ==> s[k] in s;
    [x] + s
  }

  function Union(a: IntervalSet, b: IntervalSet): (r: IntervalSet)
    ensures forall x :: x in r <==> x in a || x in b
    decreases |a| + |b|
  {
    if a == [] then b
    else if b == [] then a
    else
      assert a == [a[0]] + a[1..] && b == [b[0]] + b[1..];
      if a[0] < b[0] then Prepend(a[0], Union(a[1..], b))
      else if b[0] < a[0] then Prepend(b[0], Union(a, b[1..]))
      else Prepend(a[0], Union(a[1..], b[1..]))
  }

  function Difference(a: IntervalSet, b: IntervalSet): (r: IntervalSet)
    ensures forall x :: x in r <==> x in a && x !in b
  {
    if a == [] then []
    else
      assert a == [a[0]] + a[1..];
      if a[0] in b then Difference(a[1..], b) else Prepend(a[0], Difference(a[1..], b))
  }

  function Intersection(a: IntervalSet, b: IntervalSet): (r: IntervalSet)
    ensures forall x :: x in r <==> x in a && x in b
  {
    if a == [] then []
    else
      assert a == [a[0]] + a[1..];
      if a[0] in b then Prepend(a[0], Intersection(a[1..], b)) else Intersection(a[1..], b)
  }

  /** How many of the first k elements of u belong to a. */
  function Count(u: seq<int>, a: seq<int>, k: nat): (n: nat)
    requires k <= |u|
    ensures n <= k
  {
    if k == 0 then 0 else Count(u, a, k - 1) + if u[k - 1] in a then 1 else 0
  }

  /** The position of x among the elements of a: how many of them are smaller. */
  function Rank(a: seq<int>, x: int): (n: nat)
    ensures n <= |a|
  {
    if a == [] then 0
    else Rank(a[..|a| - 1], x) + if a[|a| - 1] < x then 1 else 0
  }

  lemma {:induction false} RankOfElement(a: IntervalSet, i: nat)
    requires i < |a|
    ensures Rank(a, a[i]) == i
    decreases |a|
  {
    var b := a[..|a| - 1];
    if i < |b| {
      assert b[i] == a[i];
      RankOfElement(b, i);
    } else {
      RankAboveAll(b, a[i]);
    }
  }

  lemma {:induction false} RankAboveAll(a: IntervalSet, x: int)
    requires forall y :: y in a ==> y < x
    ensures Rank(a, x) == |a|
  {
    if a != [] {
      assert a[|a| - 1] in a;
      RankAboveAll(a[..|a| - 1], x);
    }
  }

  /** Counting the members of a among the elements of u below u[k] finds a's own rank of u[k]:
      the running cursor over a points at the right place. */
  lemma {:induction false} CountIsRank(u: IntervalSet, a: IntervalSet, k: nat)
    requires k <= |u|
    requires forall x :: x in a ==> x in u
    ensures Count(u, a, k) <= |a|
    ensures forall i :: 0 <= i < Count(u, a, k) ==> a[i] in u[..k]
    ensures forall i :: Count(u, a, k) <= i < |a| ==> a[i] !in u[..k]
    ensures k < |u| && u[k] in a ==> Count(u, a, k) < |a| && a[Count(u, a, k)] == u[k]
    ensures k < |u| && u[k] in a ==> Count(u, a, k) == Rank(a, u[k])
    ensures k == |u| ==> Count(u, a, k) == |a|
  {
    if k > 0 {
      CountIsRank(u, a, k - 1);
      assert u[..k] == u[..k - 1] + [u[k - 1]];
    }
    var n := Count(u, a, k);
    if k < |u| && u[k] in a {
      var i :| 0 <= i < |a| && a[i] == u[k];
      assert u[k] !in u[..k];
      assert n <= i;
      assert a[n] in u;
      assert n == i;
      RankOfElement(a, i);
    }
    if k == |u| {
      assert u[..k] == u;
    }
  }
}
