/** What the merged matrices mean, machine by machine and in total. */
module MergeTheorems {
  import opened IntervalSets
  import opened JobIoMerge
  import opened RowMajor
  import opened Sums

  ghost predicate IsUnion(u: IntervalSet, j: IntervalSet, i: IntervalSet) {
    forall x :: x in u <==> x in j || x in i
  }

  /** For every ordered pair of machines whatsoever, the merged task moves exactly the bytes the two
      tasks move between them, each read from its own allocation's row-major matrix. */
  lemma MergedTraffic(u: IntervalSet, j: IntervalSet, i: IntervalSet, jm: seq<real>, im: seq<real>, p: int, q: int)
    requires IsUnion(u, j, i) && IsMatrix(j, jm) && IsMatrix(i, im)
    ensures IsMatrix(u, Rows(u, j, i, jm, im, |u|))
    ensures Traffic(u, Rows(u, j, i, jm, im, |u|), p, q) == Traffic(j, jm, p, q) + Traffic(i, im, p, q)
  {
    if p in u && q in u {
      var c :| 0 <= c < |u| && u[c] == p;
      var r :| 0 <= r < |u| && u[r] == q;
      RankOfElement(u, c);
      RankOfElement(u, r);
      RowsCell(u, j, i, jm, im, |u|, c, r);
    }
  }

  lemma MergedLoad(u: IntervalSet, j: IntervalSet, i: IntervalSet, jv: seq<real>, iv: seq<real>, p: int)
    requires IsUnion(u, j, i) && |jv| == |j| && |iv| == |i|
    ensures Load(u, Loads(u, j, i, jv, iv), p) == Load(j, jv, p) + Load(i, iv, p)
  {
    if p in u {
      var c :| 0 <= c < |u| && u[c] == p;
      RankOfElement(u, c);
    }
  }

  /** The same, entry by entry: the position of (c, r) in the merged matrix is c * n + r, and the
      positions read are rank * |alloc| + rank. */
  lemma MergedEntry(u: IntervalSet, j: IntervalSet, i: IntervalSet, jm: seq<real>, im: seq<real>, c: nat, r: nat)
    requires IsUnion(u, j, i)
    requires (jm == [] || |jm| == |j| * |j|) && |im| == |i| * |i|
    requires c < |u| && r < |u|
    ensures IsMatrix(j, jm) && IsMatrix(i, im)
    ensures var merged := Rows(u, j, i, jm, im, |u|);
            |merged| == |u| * |u| && 0 <= c * |u| + r < |merged|
    ensures u[c] in j && u[r] in j && jm != [] ==> 0 <= Rank(j, u[c]) * |j| + Rank(j, u[r]) < |jm|
    ensures u[c] in i && u[r] in i ==> 0 <= Rank(i, u[c]) * |i| + Rank(i, u[r]) < |im|
    ensures Rows(u, j, i, jm, im, |u|)[c * |u| + r]
         == (if u[c] in j && u[r] in j && jm != [] then jm[Rank(j, u[c]) * |j| + Rank(j, u[r])] else 0.0)
          + (if u[c] in i && u[r] in i then im[Rank(i, u[c]) * |i| + Rank(i, u[r])] else 0.0)
  {
    TimesIsProduct(|j|, |j|);
    TimesIsProduct(|i|, |i|);
    TimesIsProduct(|u|, |u|);
    TimesIsProduct(c, |u|);
    RowsCell(u, j, i, jm, im, |u|, c, r);
    EntryPosition(j, jm, u[c], u[r]);
    EntryPosition(i, im, u[c], u[r]);
    assert im == [] ==> i == [] by {
      if i != [] { TimesGrows(0, |i|, |i|); }
    }
  }

  lemma EntryPosition(a: IntervalSet, m: seq<real>, p: int, q: int)
    requires IsMatrix(a, m)
    ensures p in a && q in a && m != [] ==>
              0 <= Rank(a, p) * |a| + Rank(a, q) < |m| && Traffic(a, m, p, q) == m[Rank(a, p) * |a| + Rank(a, q)]
  {
    if p in a && q in a && m != [] {
      RankInside(a, p);
      RankInside(a, q);
      TimesGrows(Rank(a, p), |a|, |a|);
      TimesIsProduct(Rank(a, p), |a|);
    }
  }

  // ----- totals -----

  /** The vector v of allocation a, laid out over the machines u. */
  function Spread(u: seq<int>, a: seq<int>, v: seq<real>): seq<real>
    requires |v| == |a|
  {
    seq(|u|, c requires 0 <= c < |u| => Load(a, v, u[c]))
  }

  lemma {:induction false} SpreadSum(u: IntervalSet, a: IntervalSet, v: seq<real>, k: nat)
    requires k <= |u| && |v| == |a|
    requires forall x :: x in a ==> x in u
    ensures Count(u, a, k) <= |v|
    ensures Sum(Spread(u, a, v)[..k]) == Sum(v[..Count(u, a, k)])
  {
    CountIsRank(u, a, k);
    if k > 0 {
      var n := Count(u, a, k - 1);
      SpreadSum(u, a, v, k - 1);
      CountIsRank(u, a, k - 1);
      assert Spread(u, a, v)[..k][..k - 1] == Spread(u, a, v)[..k - 1];
      if u[k - 1] in a {
        assert v[..n + 1][..n] == v[..n];
      }
    }
  }

  /** The merged task computes as much, in all, as the two tasks do. */
  lemma ComputationConserved(u: IntervalSet, j: IntervalSet, i: IntervalSet, jv: seq<real>, iv: seq<real>)
    requires IsUnion(u, j, i) && |jv| == |j| && |iv| == |i|
    ensures Sum(Loads(u, j, i, jv, iv)) == Sum(jv) + Sum(iv)
  {
    SumPointwise(Loads(u, j, i, jv, iv), Spread(u, j, jv), Spread(u, i, iv));
    WholeSpread(u, j, jv);
    WholeSpread(u, i, iv);
  }

  lemma WholeSpread(u: IntervalSet, a: IntervalSet, v: seq<real>)
    requires |v| == |a|
    requires forall x :: x in a ==> x in u
    ensures Sum(Spread(u, a, v)) == Sum(v)
  {
    SpreadSum(u, a, v, |u|);
    CountIsRank(u, a, |u|);
    assert Spread(u, a, v)[..|u|] == Spread(u, a, v);
    assert v[..|a|] == v;
  }

  /** Row c of what the task of matrix m on a contributes to the merged matrix. */
  function Share(u: seq<int>, a: seq<int>, m: seq<real>, c: nat): seq<real>
    requires c < |u| && IsMatrix(a, m)
  {
    seq(|u|, r requires 0 <= r < |u| => Traffic(a, m, u[c], u[r]))
  }

  function ShareTotal(u: seq<int>, a: seq<int>, m: seq<real>, c: nat): real
    requires c <= |u| && IsMatrix(a, m)
  {
    if c == 0 then 0.0 else ShareTotal(u, a, m, c - 1) + Sum(Share(u, a, m, c - 1))
  }

  lemma {:induction false} RowsTotal(u: seq<int>, j: seq<int>, i: seq<int>, jm: seq<real>, im: seq<real>, c: nat)
    requires c <= |u| && IsMatrix(j, jm) && IsMatrix(i, im)
    ensures Sum(Rows(u, j, i, jm, im, c)) == ShareTotal(u, j, jm, c) + ShareTotal(u, i, im, c)
  {
    if c == 0 {
      assert Rows(u, j, i, jm, im, 0) == [];
    } else {
      hide *;
      RowsTotal(u, j, i, jm, im, c - 1);
      RowShares(u, j, i, jm, im, c - 1);
      RowsNext(u, j, i, jm, im, c - 1);
      SumConcat(Rows(u, j, i, jm, im, c - 1), Row(u, j, i, jm, im, c - 1));
    }
  }

  lemma RowsNext(u: seq<int>, j: seq<int>, i: seq<int>, jm: seq<real>, im: seq<real>, c: nat)
    requires c < |u| && IsMatrix(j, jm) && IsMatrix(i, im)
    ensures Rows(u, j, i, jm, im, c + 1) == Rows(u, j, i, jm, im, c) + Row(u, j, i, jm, im, c)
    ensures ShareTotal(u, j, jm, c + 1) == ShareTotal(u, j, jm, c) + Sum(Share(u, j, jm, c))
    ensures ShareTotal(u, i, im, c + 1) == ShareTotal(u, i, im, c) + Sum(Share(u, i, im, c))
  {
  }

  lemma RowShares(u: seq<int>, j: seq<int>, i: seq<int>, jm: seq<real>, im: seq<real>, c: nat)
    requires c < |u| && IsMatrix(j, jm) && IsMatrix(i, im)
    ensures Sum(Row(u, j, i, jm, im, c)) == Sum(Share(u, j, jm, c)) + Sum(Share(u, i, im, c))
  {
    SumPointwise(Row(u, j, i, jm, im, c), Share(u, j, jm, c), Share(u, i, im, c));
  }

  /** Each task's share of the merged matrix adds up to its own matrix. */
  lemma {:induction false} SharesRead(u: IntervalSet, a: IntervalSet, m: seq<real>, c: nat)
    requires c <= |u| && IsMatrix(a, m)
    requires forall x :: x in a ==> x in u
    ensures RowStart(u, a, m, c) <= |m|
    ensures ShareTotal(u, a, m, c) == Sum(m[..RowStart(u, a, m, c)])
  {
    if c > 0 {
      SharesRead(u, a, m, c - 1);
      ShareSum(u, a, m, c - 1);
    }
  }

  lemma ShareSum(u: IntervalSet, a: IntervalSet, m: seq<real>, c: nat)
    requires c < |u| && IsMatrix(a, m)
    requires forall x :: x in a ==> x in u
    ensures RowStart(u, a, m, c) <= RowStart(u, a, m, c + 1) <= |m|
    ensures Sum(m[..RowStart(u, a, m, c)]) + Sum(Share(u, a, m, c)) == Sum(m[..RowStart(u, a, m, c + 1)])
  {
    var start, end := RowStart(u, a, m, c), RowStart(u, a, m, c + 1);
    RowsInside(u, a, m, c);
    if m != [] && u[c] in a {
      var slice := m[start..end];
      ShareIsSpread(u, a, m, c, slice);
      WholeSpread(u, a, slice);
      SumConcat(m[..start], slice);
      assert m[..start] + slice == m[..end];
    } else {
      SumZero(Share(u, a, m, c));
    }
  }

  lemma RowsInside(u: IntervalSet, a: IntervalSet, m: seq<real>, c: nat)
    requires c < |u| && IsMatrix(a, m)
    requires forall x :: x in a ==> x in u
    ensures RowStart(u, a, m, c + 1) == RowStart(u, a, m, c) + (if m != [] && u[c] in a then |a| else 0)
    ensures RowStart(u, a, m, c + 1) <= |m|
  {
    CountIsRank(u, a, c + 1);
    if Count(u, a, c + 1) < |a| { TimesGrows(Count(u, a, c + 1), |a|, |a|); }
  }

  lemma ShareIsSpread(u: IntervalSet, a: IntervalSet, m: seq<real>, c: nat, slice: seq<real>)
    requires c < |u| && IsMatrix(a, m) && m != [] && u[c] in a
    requires forall x :: x in a ==> x in u
    requires RowStart(u, a, m, c) + |a| <= |m|
    requires slice == m[RowStart(u, a, m, c)..RowStart(u, a, m, c) + |a|]
    ensures Share(u, a, m, c) == Spread(u, a, slice)
  {
    LoadAdvances(u, a, slice, c);
    CountIsRank(u, a, c);
  }

  /** The merged task moves as many bytes, in all, as the two tasks do. */
  lemma CommunicationConserved(u: IntervalSet, j: IntervalSet, i: IntervalSet, jm: seq<real>, im: seq<real>)
    requires IsUnion(u, j, i) && IsMatrix(j, jm) && IsMatrix(i, im)
    ensures Sum(Rows(u, j, i, jm, im, |u|)) == Sum(jm) + Sum(im)
  {
    RowsTotal(u, j, i, jm, im, |u|);
    SharesRead(u, j, jm, |u|);
    SharesRead(u, i, im, |u|);
    AllRead(u, j, jm);
    AllRead(u, i, im);
    assert jm[..|jm|] == jm && im[..|im|] == im;
  }
}
