/** The merge of a job's parallel task with the additional IO task that runs beside it
    (execute_parallel_task). Each task has an allocation, a computation vector with one amount per
    machine, and a communication matrix stored row by row (empty when it carries no traffic). */
module JobIoMerge {
  import opened IntervalSets
  import opened RowMajor

  // ----- what the merged task must be -----

  /** The bytes that a task of matrix m on allocation a exchanges for the ordered pair (p, q). */
  function Traffic(a: seq<int>, m: seq<real>, p: int, q: int): real
    requires IsMatrix(a, m)
  {
    if p in a && q in a && m != [] then
      RankInside(a, p);
      RankInside(a, q);
      TimesGrows(Rank(a, p), |a|, |a|);
      m[Times(Rank(a, p), |a|) + Rank(a, q)]
    else 0.0
  }

  predicate IsMatrix(a: seq<int>, m: seq<real>) {
    m == [] || |m| == Times(|a|, |a|)
  }

  function Load(a: seq<int>, v: seq<real>, p: int): real
    requires |v| == |a|
  {
    if p in a then
      RankInside(a, p);
      v[Rank(a, p)]
    else 0.0
  }

  lemma {:induction false} RankInside(a: seq<int>, x: int)
    requires x in a
    ensures Rank(a, x) < |a|
  {
    if x in a[..|a| - 1] { RankInside(a[..|a| - 1], x); }
  }

  /** Entry (c, r) of the merged matrix over the machines u, as rows of u are filled in order. */
  function Cell(u: seq<int>, j: seq<int>, i: seq<int>, jm: seq<real>, im: seq<real>, c: nat, r: nat): real
    requires c < |u| && r < |u|
    requires IsMatrix(j, jm) && IsMatrix(i, im)
  {
    Traffic(j, jm, u[c], u[r]) + Traffic(i, im, u[c], u[r])
  }

  function Row(u: seq<int>, j: seq<int>, i: seq<int>, jm: seq<real>, im: seq<real>, c: nat): (row: seq<real>)
    requires c < |u|
    requires IsMatrix(j, jm) && IsMatrix(i, im)
    ensures |row| == |u|
  {
    seq(|u|, r requires 0 <= r < |u| => Cell(u, j, i, jm, im, c, r))
  }

  function Rows(u: seq<int>, j: seq<int>, i: seq<int>, jm: seq<real>, im: seq<real>, c: nat): (m: seq<real>)
    requires c <= |u|
    requires IsMatrix(j, jm) && IsMatrix(i, im)
    ensures |m| == Times(c, |u|)
  {
    if c == 0 then [] else Rows(u, j, i, jm, im, c - 1) + Row(u, j, i, jm, im, c - 1)
  }

  lemma {:induction false} RowsCell(u: seq<int>, j: seq<int>, i: seq<int>, jm: seq<real>, im: seq<real>,
                                    n: nat, c: nat, r: nat)
    requires c < n <= |u| && r < |u|
    requires IsMatrix(j, jm) && IsMatrix(i, im)
    ensures Times(c, |u|) + r < Times(n, |u|)
    ensures Rows(u, j, i, jm, im, n)[Times(c, |u|) + r] == Cell(u, j, i, jm, im, c, r)
    decreases n
  {
    TimesGrows(c, n, |u|);
    if c < n - 1 {
      TimesGrows(c, n - 1, |u|);
      RowsCell(u, j, i, jm, im, n - 1, c, r);
    }
  }

  function Loads(u: seq<int>, j: seq<int>, i: seq<int>, jv: seq<real>, iv: seq<real>): seq<real>
    requires |jv| == |j| && |iv| == |i|
  {
    seq(|u|, c requires 0 <= c < |u| => Load(j, jv, u[c]) + Load(i, iv, u[c]))
  }

  /** Where the cursor over matrix m of allocation a stands before row c of the merged matrix. */
  function RowStart(u: seq<int>, a: seq<int>, m: seq<real>, c: nat): nat
    requires c <= |u|
  {
    if m == [] then 0 else Times(Count(u, a, c), |a|)
  }

  /** ... and before entry (c, r). */
  function Cursor(u: seq<int>, a: seq<int>, m: seq<real>, c: nat, r: nat): nat
    requires c < |u| && r <= |u|
  {
    RowStart(u, a, m, c) + if m != [] && u[c] in a then Count(u, a, r) else 0
  }

  lemma LoadAdvances(u: IntervalSet, a: IntervalSet, v: seq<real>, c: nat)
    requires c < |u| && |v| == |a|
    requires forall x :: x in a ==> x in u
    ensures u[c] in a ==> Count(u, a, c) < |v|
    ensures Load(a, v, u[c]) == if u[c] in a then v[Count(u, a, c)] else 0.0
    ensures Count(u, a, c + 1) == Count(u, a, c) + if u[c] in a then 1 else 0
  {
    CountIsRank(u, a, c);
  }

  lemma CursorAdvances(u: IntervalSet, a: IntervalSet, m: seq<real>, c: nat, r: nat)
    requires c < |u| && r < |u|
    requires forall x :: x in a ==> x in u
    requires IsMatrix(a, m)
    ensures m != [] && u[c] in a && u[r] in a ==> Cursor(u, a, m, c, r) < |m|
    ensures Traffic(a, m, u[c], u[r])
         == if m != [] && u[c] in a && u[r] in a then m[Cursor(u, a, m, c, r)] else 0.0
    ensures Cursor(u, a, m, c, r + 1)
         == Cursor(u, a, m, c, r) + if m != [] && u[c] in a && u[r] in a then 1 else 0
  {
    CountIsRank(u, a, c);
    CountIsRank(u, a, r);
    if m != [] && u[c] in a && u[r] in a {
      TimesGrows(Count(u, a, c), |a|, |a|);
    }
  }

  lemma RowEnds(u: IntervalSet, a: IntervalSet, m: seq<real>, c: nat)
    requires c < |u|
    requires forall x :: x in a ==> x in u
    ensures Cursor(u, a, m, c, 0) == RowStart(u, a, m, c)
    ensures Cursor(u, a, m, c, |u|) == RowStart(u, a, m, c + 1)
  {
    CountIsRank(u, a, |u|);
  }

  lemma AllRead(u: IntervalSet, a: IntervalSet, m: seq<real>)
    requires forall x :: x in a ==> x in u
    requires IsMatrix(a, m)
    ensures RowStart(u, a, m, |u|) == |m|
  {
    CountIsRank(u, a, |u|);
  }

  // ----- the merge loops -----

  /** The head of the outer loop's body: the amount for one machine, the two column cursors after
      it, and whether the machine belongs to one task only. */
  method NextLoad(jobAlloc: IntervalSet, ioAlloc: IntervalSet, machine: int,
                  computation: seq<real>, ioComputation: seq<real>, colJob0: nat, colIo0: nat)
    returns (load: real, colJobHostIndex: nat, colIoHostIndex: nat, colOnlyInJob: bool, colOnlyInIo: bool)
    requires machine in jobAlloc || machine in ioAlloc
    requires machine in jobAlloc ==> colJob0 < |computation|
    requires machine in ioAlloc ==> colIo0 < |ioComputation|
    ensures colOnlyInJob <==> machine !in ioAlloc
    ensures colOnlyInIo <==> machine !in jobAlloc
    ensures colJobHostIndex == colJob0 + if colOnlyInIo then 0 else 1
    ensures colIoHostIndex == colIo0 + if colOnlyInJob then 0 else 1
    ensures load == (if colOnlyInIo then 0.0 else computation[colJob0])
                  + (if colOnlyInJob then 0.0 else ioComputation[colIo0])
  {
    var immutJobAlloc := Difference(jobAlloc, ioAlloc);
    var immutIoAlloc := Difference(ioAlloc, jobAlloc);
    var toMergeAlloc := Intersection(jobAlloc, ioAlloc);
    colJobHostIndex, colIoHostIndex, colOnlyInJob, colOnlyInIo := colJob0, colIo0, false, false;
    if machine in toMergeAlloc {
      load := computation[colJobHostIndex] + ioComputation[colIoHostIndex];
      colJobHostIndex, colIoHostIndex := colJobHostIndex + 1, colIoHostIndex + 1;
    } else if machine in immutJobAlloc {
      load := computation[colJobHostIndex];
      colJobHostIndex := colJobHostIndex + 1;
      colOnlyInJob := true;
    } else if machine in immutIoAlloc {
      load := ioComputation[colIoHostIndex];
      colIoHostIndex := colIoHostIndex + 1;
      colOnlyInIo := true;
    } else {
      assert false;
    }
  }

  /** The body of the inner loop: the entry of the current column's row for one machine, and the
      two row cursors after it. The IO matrix is read whatever it holds. */
  method NextEntry(jobAlloc: IntervalSet, ioAlloc: IntervalSet, machine: int,
                   communication: seq<real>, ioCommunication: seq<real>,
                   colOnlyInJob: bool, colOnlyInIo: bool, rowJob0: nat, rowIo0: nat)
    returns (inBounds: bool, entry: real, rowJobHostIndex: nat, rowIoHostIndex: nat)
    requires machine in jobAlloc || machine in ioAlloc
    requires !(colOnlyInJob && colOnlyInIo)
    requires machine in jobAlloc && !colOnlyInIo && communication != [] ==> rowJob0 < |communication|
    ensures inBounds <==> (machine in ioAlloc && !colOnlyInJob ==> rowIo0 < |ioCommunication|)
    ensures inBounds ==>
              && rowJobHostIndex == rowJob0
                 + (if machine in jobAlloc && !colOnlyInIo && communication != [] then 1 else 0)
              && rowIoHostIndex == rowIo0 + (if machine in ioAlloc && !colOnlyInJob then 1 else 0)
              && entry == (if rowJobHostIndex == rowJob0 then 0.0 else communication[rowJob0])
                        + (if rowIoHostIndex == rowIo0 then 0.0 else ioCommunication[rowIo0])
  {
    var immutJobAlloc := Difference(jobAlloc, ioAlloc);
    var immutIoAlloc := Difference(ioAlloc, jobAlloc);
    var toMergeAlloc := Intersection(jobAlloc, ioAlloc);
    inBounds, entry, rowJobHostIndex, rowIoHostIndex := true, 0.0, rowJob0, rowIo0;
    if machine in toMergeAlloc {
      if colOnlyInJob {
        if communication != [] {
          entry := communication[rowJobHostIndex];
          rowJobHostIndex := rowJobHostIndex + 1;
        }
      } else if rowIoHostIndex >= |ioCommunication| {
        inBounds := false;
      } else if colOnlyInIo || communication == [] {
        entry := ioCommunication[rowIoHostIndex];
        rowIoHostIndex := rowIoHostIndex + 1;
      } else {
        entry := communication[rowJobHostIndex] + ioCommunication[rowIoHostIndex];
        rowJobHostIndex, rowIoHostIndex := rowJobHostIndex + 1, rowIoHostIndex + 1;
      }
    } else if machine in immutJobAlloc {
      if !colOnlyInIo && communication != [] {
        entry := communication[rowJobHostIndex];
        rowJobHostIndex := rowJobHostIndex + 1;
      }
    } else if machine in immutIoAlloc {
      if !colOnlyInJob {
        if rowIoHostIndex >= |ioCommunication| {
          inBounds := false;
        } else {
          entry := ioCommunication[rowIoHostIndex];
          rowIoHostIndex := rowIoHostIndex + 1;
        }
      }
    } else {
      assert false;
    }
  }

  /** The inner loop: one row of the merged matrix, for the machine newAlloc[col]. */
  method FillRow(jobAlloc: IntervalSet, ioAlloc: IntervalSet, newAlloc: IntervalSet,
                 communication: seq<real>, ioCommunication: seq<real>,
                 col: nat, colOnlyInJob: bool, colOnlyInIo: bool,
                 k0: nat, rowJob0: nat, rowIo0: nat, newCommunication: array<real>)
    returns (inBounds: bool, k: nat, rowJobHostIndex: nat, rowIoHostIndex: nat)
    requires col < |newAlloc| && forall x :: x in newAlloc <==> x in jobAlloc || x in ioAlloc
    requires colOnlyInJob <==> newAlloc[col] !in ioAlloc
    requires colOnlyInIo <==> newAlloc[col] !in jobAlloc
    requires IsMatrix(jobAlloc, communication) && IsMatrix(ioAlloc, ioCommunication)
    requires rowJob0 == RowStart(newAlloc, jobAlloc, communication, col)
    requires rowIo0 == RowStart(newAlloc, ioAlloc, ioCommunication, col)
    requires k0 + |newAlloc| <= newCommunication.Length
    modifies newCommunication
    ensures inBounds <==> (newAlloc[col] in ioAlloc ==> ioCommunication != [])
    ensures inBounds ==>
              && k == k0 + |newAlloc|
              && rowJobHostIndex == RowStart(newAlloc, jobAlloc, communication, col + 1)
              && rowIoHostIndex == RowStart(newAlloc, ioAlloc, ioCommunication, col + 1)
              && newCommunication[..k]
                 == old(newCommunication[..k0]) + Row(newAlloc, jobAlloc, ioAlloc, communication, ioCommunication, col)
  {
    var nbRes := |newAlloc|;
    inBounds, k, rowJobHostIndex, rowIoHostIndex := true, k0, rowJob0, rowIo0;
    ghost var target := Row(newAlloc, jobAlloc, ioAlloc, communication, ioCommunication, col);
    var row := 0;
    while row < nbRes
      invariant 0 <= row <= nbRes && k == k0 + row && inBounds
      invariant ioCommunication == [] && !colOnlyInJob ==> forall r :: 0 <= r < row ==> newAlloc[r] !in ioAlloc
      invariant rowJobHostIndex == Cursor(newAlloc, jobAlloc, communication, col, row)
      invariant rowIoHostIndex == Cursor(newAlloc, ioAlloc, ioCommunication, col, row)
      invariant newCommunication[..k] == old(newCommunication[..k0]) + target[..row]
    {
      CursorAdvances(newAlloc, jobAlloc, communication, col, row);
      CursorAdvances(newAlloc, ioAlloc, ioCommunication, col, row);
      var entry;
      inBounds, entry, rowJobHostIndex, rowIoHostIndex :=
        NextEntry(jobAlloc, ioAlloc, newAlloc[row], communication, ioCommunication,
                  colOnlyInJob, colOnlyInIo, rowJobHostIndex, rowIoHostIndex);
      if !inBounds {
        return;
      }
      newCommunication[k] := entry;
      assert entry == target[row];
      assert newCommunication[..k + 1] == newCommunication[..k] + [entry];
      k := k + 1;
      row := row + 1;
    }
    RowEnds(newAlloc, jobAlloc, communication, col);
    RowEnds(newAlloc, ioAlloc, ioCommunication, col);
    assert target[..nbRes] == target;
  }

  /** The outer loop: one machine of the merged allocation after the other. */
  method FillAll(jobAlloc: IntervalSet, ioAlloc: IntervalSet, newAlloc: IntervalSet,
                 computation: seq<real>, communication: seq<real>,
                 ioComputation: seq<real>, ioCommunication: seq<real>,
                 newComputation: array<real>, newCommunication: array<real>)
    returns (inBounds: bool, colJobHostIndex: nat, colIoHostIndex: nat, rowJobHostIndex: nat, rowIoHostIndex: nat)
    requires forall x :: x in newAlloc <==> x in jobAlloc || x in ioAlloc
    requires |computation| == |jobAlloc| && |ioComputation| == |ioAlloc|
    requires IsMatrix(jobAlloc, communication) && IsMatrix(ioAlloc, ioCommunication)
    requires newComputation.Length == |newAlloc| && newComputation != newCommunication
    requires newCommunication.Length == Times(|newAlloc|, |newAlloc|)
    modifies newComputation, newCommunication
    ensures inBounds <==> ioAlloc == [] || ioCommunication != []
    ensures inBounds ==>
              && newComputation[..] == Loads(newAlloc, jobAlloc, ioAlloc, computation, ioComputation)
              && newCommunication[..] == Rows(newAlloc, jobAlloc, ioAlloc, communication, ioCommunication, |newAlloc|)
              && colJobHostIndex == |jobAlloc| && colIoHostIndex == |ioAlloc|
              && rowJobHostIndex == |communication| && rowIoHostIndex == |ioCommunication|
  {
    var nbRes := |newAlloc|;
    ghost var loads := Loads(newAlloc, jobAlloc, ioAlloc, computation, ioComputation);
    var k := 0;
    inBounds, colJobHostIndex, colIoHostIndex, rowJobHostIndex, rowIoHostIndex := true, 0, 0, 0, 0;
    var col := 0;
    while col < nbRes
      invariant 0 <= col <= nbRes && k == Times(col, nbRes) && inBounds
      invariant ioCommunication == [] ==> forall c :: 0 <= c < col ==> newAlloc[c] !in ioAlloc
      invariant colJobHostIndex == Count(newAlloc, jobAlloc, col)
      invariant colIoHostIndex == Count(newAlloc, ioAlloc, col)
      invariant rowJobHostIndex == RowStart(newAlloc, jobAlloc, communication, col)
      invariant rowIoHostIndex == RowStart(newAlloc, ioAlloc, ioCommunication, col)
      invariant forall c :: 0 <= c < col ==> newComputation[c] == loads[c]
      invariant k <= newCommunication.Length
      invariant newCommunication[..k] == Rows(newAlloc, jobAlloc, ioAlloc, communication, ioCommunication, col)
    {
      var colOnlyInJob, colOnlyInIo;
      var currMachine := newAlloc[col];
      LoadAdvances(newAlloc, jobAlloc, computation, col);
      LoadAdvances(newAlloc, ioAlloc, ioComputation, col);
      var load;
      load, colJobHostIndex, colIoHostIndex, colOnlyInJob, colOnlyInIo :=
        NextLoad(jobAlloc, ioAlloc, currMachine, computation, ioComputation, colJobHostIndex, colIoHostIndex);
      newComputation[col] := load;
      assert load == loads[col];
      TimesGrows(col, nbRes, nbRes);
      inBounds, k, rowJobHostIndex, rowIoHostIndex :=
        FillRow(jobAlloc, ioAlloc, newAlloc, communication, ioCommunication, col, colOnlyInJob, colOnlyInIo,
                k, rowJobHostIndex, rowIoHostIndex, newCommunication);
      if !inBounds {
        assert currMachine in ioAlloc;
        return;
      }
      col := col + 1;
    }
    assert ioAlloc != [] ==> ioAlloc[0] in ioAlloc && ioAlloc[0] in newAlloc;
    assert newComputation[..] == loads;
    assert newCommunication[..] == newCommunication[..k];
    CountIsRank(newAlloc, jobAlloc, nbRes);
    CountIsRank(newAlloc, ioAlloc, nbRes);
    AllRead(newAlloc, jobAlloc, communication);
    AllRead(newAlloc, ioAlloc, ioCommunication);
  }

  /** The merge of the two tasks. An empty job matrix stands for zeros, but an empty IO matrix is read beyond
      its end as soon as there is an IO machine: then inBounds is false and the results mean nothing. */
  method Merge(jobAlloc: IntervalSet, ioAlloc: IntervalSet,
               computation: seq<real>, communication: seq<real>,
               ioComputation: seq<real>, ioCommunication: seq<real>)
    returns (inBounds: bool, newAlloc: IntervalSet, newComputation: array<real>, newCommunication: array<real>,
             colJobHostIndex: nat, colIoHostIndex: nat, rowJobHostIndex: nat, rowIoHostIndex: nat)
    requires |computation| == |jobAlloc| && |ioComputation| == |ioAlloc|
    requires IsMatrix(jobAlloc, communication) && IsMatrix(ioAlloc, ioCommunication)
    ensures inBounds <==> ioAlloc == [] || ioCommunication != []
    ensures forall x :: x in newAlloc <==> x in jobAlloc || x in ioAlloc
    ensures inBounds ==>
              && newComputation[..] == Loads(newAlloc, jobAlloc, ioAlloc, computation, ioComputation)
              && newCommunication[..] == Rows(newAlloc, jobAlloc, ioAlloc, communication, ioCommunication, |newAlloc|)
              // all cursors end exactly at the end of what they read
              && colJobHostIndex == |computation| && colIoHostIndex == |ioComputation|
              && rowJobHostIndex == |communication| && rowIoHostIndex == |ioCommunication|
  {
    newAlloc := Union(jobAlloc, ioAlloc);
    var nbRes := |newAlloc|;
    newComputation := new real[nbRes](_ => 0.0);
    newCommunication := new real[Times(nbRes, nbRes)](_ => 0.0);
    inBounds, colJobHostIndex, colIoHostIndex, rowJobHostIndex, rowIoHostIndex :=
      FillAll(jobAlloc, ioAlloc, newAlloc, computation, communication, ioComputation, ioCommunication,
              newComputation, newCommunication);
  }
}
