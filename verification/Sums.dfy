/** Sums of amounts, as exact reals. */
module Sums {

  function Sum(s: seq<real>): real {
    if s == [] then 0.0 else Sum(s[..|s| - 1]) + s[|s| - 1]
  }

  lemma {:induction false} SumConcat(a: seq<real>, b: seq<real>)
    ensures Sum(a + b) == Sum(a) + Sum(b)
  {
    if b == [] {
      assert a + b == a;
    } else {
      SumConcat(a, b[..|b| - 1]);
      assert (a + b)[..|a + b| - 1] == a + b[..|b| - 1];
    }
  }

  lemma {:induction false} SumPointwise(a: seq<real>, b: seq<real>, c: seq<real>)
    requires |a| == |b| == |c|
    requires forall i :: 0 <= i < |a| ==> a[i] == b[i] + c[i]
    ensures Sum(a) == Sum(b) + Sum(c)
  {
    if a != [] {
      var n := |a| - 1;
      SumPointwise(a[..n], b[..n], c[..n]);
    }
  }

  lemma {:induction false} SumZero(a: seq<real>)
    requires forall i :: 0 <= i < |a| ==> a[i] == 0.0
    ensures Sum(a) == 0.0
  {
    if a != [] { SumZero(a[..|a| - 1]); }
  }

  /** n times x, added up. */
  function Scaled(n: nat, x: real): real {
    if n == 0 then 0.0 else Scaled(n - 1, x) + x
  }

  lemma {:induction false} ScaledIsProduct(n: nat, x: real)
    ensures Scaled(n, x) == n as real * x
  {
    if n > 0 {
      ScaledIsProduct(n - 1, x);
      var k := (n - 1) as real;
      assert n as real == k + 1.0;
      assert (k + 1.0) * x == k * x + x;
    }
  }

  lemma {:induction false} ScaledDistributes(n: nat, x: real, y: real)
    ensures Scaled(n, x + y) == Scaled(n, x) + Scaled(n, y)
  {
    if n > 0 { ScaledDistributes(n - 1, x, y); }
  }

  lemma {:induction false} SumConstant(a: seq<real>, x: real)
    requires forall i :: 0 <= i < |a| ==> a[i] == x
    ensures Sum(a) == Scaled(|a|, x)
  {
    if a != [] { SumConstant(a[..|a| - 1], x); }
  }

  /** All entries are x, except the one at position p. */
  lemma {:induction false} SumConstantBut(a: seq<real>, x: real, p: nat)
    requires p < |a|
    requires forall i :: 0 <= i < |a| && i != p ==> a[i] == x
    ensures Sum(a) == Scaled(|a| - 1, x) + a[p]
  {
    if p == |a| - 1 {
      SumConstant(a[..p], x);
    } else {
      SumConstantBut(a[..|a| - 1], x, p);
    }
  }
}
