/** The computation vectors and communication matrices generated from the parallel profiles
    (generate_parallel_task and its siblings), and how much work they stand for. */
module TaskMatrices {
  import opened Options
  import opened Sums
  import opened JobIoMerge
  import opened RowMajor

  /** Who talks to whom. In the last two, the storage host is the last one. */
  datatype Pattern =
    | AllPairs(com: real)
    | WithStorage(bytesToRead: real, bytesToWrite: real)
    | ToStorage(nbBytes: real)

  function Entry(p: Pattern, n: nat, row: nat, col: nat): real {
    match p
    case AllPairs(com) => if row == col then 0.0 else com
    case WithStorage(bytesToRead, bytesToWrite) =>
      if col == row || (col != n - 1 && row != n - 1) then 0.0
      else if col == n - 1 then bytesToWrite
      else bytesToRead
    case ToStorage(nbBytes) => if col == row || col != n - 1 then 0.0 else nbBytes
  }

  function EntryRow(p: Pattern, n: nat, row: nat): (r: seq<real>)
    ensures |r| == n
  {
    seq(n, col requires 0 <= col < n => Entry(p, n, row, col))
  }

  function Flat(p: Pattern, n: nat, rows: nat): (m: seq<real>)
    ensures |m| == Times(rows, n)
  {
    if rows == 0 then [] else Flat(p, n, rows - 1) + EntryRow(p, n, rows - 1)
  }

  // ----- the generators -----

  /** The inner loop of all generators: append row `row` of the pattern. */
  method PushRow(communication: seq<real>, p: Pattern, n: nat, row: nat) returns (r: seq<real>)
    ensures r == communication + EntryRow(p, n, row)
  {
    r := communication;
    for col := 0 to n
      invariant r == communication + EntryRow(p, n, row)[..col]
    {
      assert EntryRow(p, n, row)[..col + 1] == EntryRow(p, n, row)[..col] + [Entry(p, n, row, col)];
      match p
      case AllPairs(com) =>
        if col == row { r := r + [0.0]; } else { r := r + [com]; }
      case WithStorage(bytesToRead, bytesToWrite) =>
        if col == row || (col != n - 1 && row != n - 1) {
          r := r + [0.0];
        } else if col == n - 1 {
          r := r + [bytesToWrite];
        } else if row == n - 1 {
          r := r + [bytesToRead];
        }
      case ToStorage(nbBytes) =>
        if col == row || col != n - 1 { r := r + [0.0]; } else { r := r + [nbBytes]; }
    }
  }

  /** The outer loop: the same amount cpu for every host and, if doComm, the pattern's rows. */
  method Generate(p: Pattern, n: nat, cpu: real, doComm: bool)
    returns (computation: seq<real>, communication: seq<real>)
    ensures |computation| == n && forall i :: 0 <= i < n ==> computation[i] == cpu
    ensures communication == if doComm then Flat(p, n, n) else []
  {
    computation, communication := [], [];
    for y := 0 to n
      invariant |computation| == y && forall i :: 0 <= i < y ==> computation[i] == cpu
      invariant communication == if doComm then Flat(p, n, y) else []
    {
      computation := computation + [cpu];
      if doComm {
        communication := PushRow(communication, p, n, y);
      }
    }
  }

  /** PARALLEL: the matrices are copied; None when the allocation has another size. */
  method GenerateParallelTask(nbRes: nat, profileNbRes: nat, cpu: seq<real>, com: seq<real>)
    returns (r: Option<(seq<real>, seq<real>)>)
    requires |cpu| == profileNbRes && |com| == Times(profileNbRes, profileNbRes)
    ensures r.Some? <==> nbRes == profileNbRes
    ensures r.Some? ==> r.value == (cpu, com)
  {
    if nbRes != profileNbRes { return None; }
    return Some((cpu, com));
  }

  method GenerateParallelHomogeneous(nbRes: nat, cpu: real, com: real)
    returns (computation: seq<real>, communication: seq<real>)
    ensures |computation| == nbRes && forall i :: 0 <= i < nbRes ==> computation[i] == cpu
    ensures communication == if com > 0.0 then Flat(AllPairs(com), nbRes, nbRes) else []
  {
    computation, communication := Generate(AllPairs(com), nbRes, cpu, com > 0.0);
  }

  /** PARALLEL_HOMOGENEOUS_TOTAL_AMOUNT. Without hosts nothing is generated, whatever the quotient. */
  method GenerateParallelHomogeneousTotalAmount(nbRes: nat, cpu: real, com: real)
    returns (computation: seq<real>, communication: seq<real>)
    ensures |computation| == nbRes
    ensures forall i :: 0 <= i < nbRes ==> computation[i] == cpu / nbRes as real
    ensures nbRes > 0 ==> Sum(computation) == cpu
    ensures nbRes > 0 && com > 0.0 ==> communication == Flat(AllPairs(com / nbRes as real), nbRes, nbRes)
    ensures nbRes == 0 || com <= 0.0 ==> communication == []
  {
    if nbRes == 0 {
      computation, communication := [], [];
      return;
    }
    var spreadCpu := cpu / nbRes as real;
    var spreadCom := com / nbRes as real;
    computation, communication := Generate(AllPairs(spreadCom), nbRes, spreadCpu, spreadCom > 0.0);
    SumConstant(computation, spreadCpu);
    ScaledIsProduct(nbRes, spreadCpu);
    SharesAddUp(nbRes as real, cpu);
    ShareSign(nbRes as real, com);
  }

  /** The storage machine that a label stands for; the code insists on machines that are storage only. */
  function Labelled(mapping: map<string, int>, name: string, storageOnly: set<int>): (r: Option<int>)
    ensures r.Some? <==> name in mapping && mapping[name] in storageOnly
    ensures r.Some? ==> r.value == mapping[name]
  {
    if name in mapping && mapping[name] in storageOnly then Some(mapping[name]) else None
  }

  /** PARALLEL_HOMOGENEOUS_PFS: the storage machine is added after the hosts of the job. Without any label
      in the mapping it is the only storage machine there is. */
  method GenerateParallelHomogeneousWithPfs(hosts: seq<int>, mapping: Option<map<string, int>>, storageLabel: string,
                                            storageMachines: seq<int>, storageOnly: set<int>,
                                            bytesToRead: real, bytesToWrite: real)
    returns (ok: bool, hostsToUse: seq<int>, computation: seq<real>, communication: seq<real>)
    ensures ok <==> mapping.Some? && if mapping.value == map[] then |storageMachines| == 1
                                     else storageLabel in mapping.value && mapping.value[storageLabel] in storageOnly
    ensures ok ==>
              && hostsToUse == hosts
                 + [if mapping.value == map[] then storageMachines[0] else mapping.value[storageLabel]]
              && |computation| == |hostsToUse| && (forall i :: 0 <= i < |computation| ==> computation[i] == 0.0)
              && Sum(computation) == 0.0
              && communication == if bytesToRead > 0.0 || bytesToWrite > 0.0
                                  then Flat(WithStorage(bytesToRead, bytesToWrite), |hostsToUse|, |hostsToUse|) else []
  {
    ok, hostsToUse, computation, communication := false, hosts, [], [];
    if mapping.None? {
      return;
    }
    var pfsMachine: Option<int>;
    if mapping.value == map[] {
      pfsMachine := if |storageMachines| == 1 then Some(storageMachines[0]) else None;
    } else {
      pfsMachine := Labelled(mapping.value, storageLabel, storageOnly);
    }
    if pfsMachine.None? {
      return;
    }
    ok, hostsToUse := true, hosts + [pfsMachine.value];
    var doComm := bytesToRead > 0.0 || bytesToWrite > 0.0;
    computation, communication := Generate(WithStorage(bytesToRead, bytesToWrite), |hostsToUse|, 0.0, doComm);
    SumZero(computation);
  }

  /** DATA_STAGING: only the two storage machines take part, whatever the job's allocation. */
  method GenerateDataStagingTask(mapping: Option<map<string, int>>, fromLabel: string, toLabel: string,
                                 storageOnly: set<int>, nbBytes: real)
    returns (ok: bool, hostsToUse: seq<int>, computation: seq<real>, communication: seq<real>)
    ensures ok <==> mapping.Some? && fromLabel in mapping.value && mapping.value[fromLabel] in storageOnly
                    && toLabel in mapping.value && mapping.value[toLabel] in storageOnly
    ensures ok ==>
              && hostsToUse == [mapping.value[fromLabel], mapping.value[toLabel]]
              && computation == [0.0, 0.0] && Sum(computation) == 0.0
              && communication == if nbBytes > 0.0 then Flat(ToStorage(nbBytes), 2, 2) else []
  {
    ok, hostsToUse, computation, communication := false, [], [], [];
    if mapping.None? {
      return;
    }
    var from := Labelled(mapping.value, fromLabel, storageOnly);
    var to := Labelled(mapping.value, toLabel, storageOnly);
    if from.None? || to.None? {
      return;
    }
    ok, hostsToUse := true, [from.value, to.value];
    computation, communication := Generate(ToStorage(nbBytes), 2, 0.0, nbBytes > 0.0);
    SumZero(computation);
  }

  lemma SharesAddUp(n: real, x: real)
    requires n > 0.0
    ensures n * (x / n) == x
  {
  }

  lemma ShareSign(n: real, x: real)
    requires n > 0.0
    ensures x / n > 0.0 <==> x > 0.0
  {
    SharesAddUp(n, x);
    ProductSign(n, x / n);
  }

  lemma ProductSign(n: real, y: real)
    requires n > 0.0
    ensures n * y > 0.0 <==> y > 0.0
    ensures n * y == 0.0 <==> y == 0.0
  {
    if y < 0.0 { assert n * (-y) > 0.0; }
  }

  // ----- what the matrices stand for -----

  lemma {:induction false} FlatEntry(p: Pattern, n: nat, rows: nat, row: nat, col: nat)
    requires row < rows <= n && col < n
    ensures Times(row, n) + col < Times(rows, n)
    ensures Flat(p, n, rows)[Times(row, n) + col] == Entry(p, n, row, col)
  {
    TimesGrows(row, rows, n);
    if row < rows - 1 {
      TimesGrows(row, rows - 1, n);
      FlatEntry(p, n, rows - 1, row, col);
    }
  }

  lemma {:induction false} EqualRowsTotal(p: Pattern, n: nat, rows: nat, x: real)
    requires forall row :: 0 <= row < rows ==> Sum(EntryRow(p, n, row)) == x
    ensures Sum(Flat(p, n, rows)) == Scaled(rows, x)
  {
    if rows > 0 {
      EqualRowsTotal(p, n, rows - 1, x);
      SumConcat(Flat(p, n, rows - 1), EntryRow(p, n, rows - 1));
    }
  }

  lemma AllPairsEntries(n: nat, com: real, row: nat, col: nat)
    requires row < n && col < n
    ensures Times(row, n) + col < Times(n, n)
    ensures Flat(AllPairs(com), n, n)[Times(row, n) + col] == if row == col then 0.0 else com
  {
    FlatEntry(AllPairs(com), n, n, row, col);
  }

  /** A homogeneous task exchanges com bytes on each of its n * (n - 1) ordered pairs. */
  lemma AllPairsTotal(n: nat, com: real)
    requires n > 0
    ensures Sum(Flat(AllPairs(com), n, n)) == Scaled(n, Scaled(n - 1, com))
    ensures Sum(Flat(AllPairs(com), n, n)) == n as real * ((n - 1) as real * com)
  {
    var p := AllPairs(com);
    forall row | 0 <= row < n ensures Sum(EntryRow(p, n, row)) == Scaled(n - 1, com) {
      SumConstantBut(EntryRow(p, n, row), com, row);
    }
    EqualRowsTotal(p, n, n, Scaled(n - 1, com));
    ScaledIsProduct(n - 1, com);
    ScaledIsProduct(n, Scaled(n - 1, com));
  }

  /** The total-amount profile keeps the computation amount for any number of hosts, but not the
      communication amount: n hosts exchange (n - 1) * com bytes, which is com for two hosts only. */
  lemma TotalAmountTraffic(n: nat, com: real)
    requires n > 0 && com > 0.0
    ensures Sum(Flat(AllPairs(com / n as real), n, n)) == (n - 1) as real * com
    ensures Sum(Flat(AllPairs(com / n as real), n, n)) == com <==> n == 2
  {
    var r, others, share := n as real, (n - 1) as real, com / n as real;
    AllPairsTotal(n, share);
    SharesAddUp(r, com);
    assert r * (others * share) == others * (r * share);
    assert others * com == com * (others - 1.0) + com;
    ProductSign(com, others - 1.0);
  }

  /** Only the storage host sends or receives, and h compute hosts move h * (read + write) bytes. */
  lemma StorageTraffic(h: nat, bytesToRead: real, bytesToWrite: real)
    ensures Sum(Flat(WithStorage(bytesToRead, bytesToWrite), h + 1, h + 1))
         == h as real * (bytesToRead + bytesToWrite)
  {
    var p, n := WithStorage(bytesToRead, bytesToWrite), h + 1;
    assert Flat(p, n, n) == Flat(p, n, h) + EntryRow(p, n, h);
    StorageRows(h, bytesToRead, bytesToWrite);
    hide Sum, EntryRow, Flat, Scaled;
    EqualRowsTotal(p, n, h, bytesToWrite);
    SumConcat(Flat(p, n, h), EntryRow(p, n, h));
    ScaledDistributes(h, bytesToRead, bytesToWrite);
    ScaledIsProduct(h, bytesToRead + bytesToWrite);
  }

  lemma StorageRows(h: nat, bytesToRead: real, bytesToWrite: real)
    ensures var p, n := WithStorage(bytesToRead, bytesToWrite), h + 1;
            && (forall row :: 0 <= row < h ==> Sum(EntryRow(p, n, row)) == bytesToWrite)
            && Sum(EntryRow(p, n, h)) == Scaled(h, bytesToRead)
  {
    var p, n := WithStorage(bytesToRead, bytesToWrite), h + 1;
    hide Sum, Scaled;
    forall row | 0 <= row < h ensures Sum(EntryRow(p, n, row)) == bytesToWrite {
      SumConstantBut(EntryRow(p, n, row), 0.0, h);
      ScaledIsProduct(h, 0.0);
    }
    SumConstantBut(EntryRow(p, n, h), bytesToRead, h);
  }

  lemma StorageEndpoints(h: nat, bytesToRead: real, bytesToWrite: real, row: nat, col: nat)
    requires row <= h && col <= h
    ensures Times(row, h + 1) + col < Times(h + 1, h + 1)
    ensures Flat(WithStorage(bytesToRead, bytesToWrite), h + 1, h + 1)[Times(row, h + 1) + col]
         == if row < h && col == h then bytesToWrite
            else if row == h && col < h then bytesToRead
            else 0.0
  {
    FlatEntry(WithStorage(bytesToRead, bytesToWrite), h + 1, h + 1, row, col);
  }

  lemma StagingEntries(nbBytes: real, row: nat, col: nat)
    requires row < 2 && col < 2
    ensures Times(row, 2) + col < Times(2, 2)
    ensures Flat(ToStorage(nbBytes), 2, 2)[Times(row, 2) + col] == if row == 0 && col == 1 then nbBytes else 0.0
  {
    FlatEntry(ToStorage(nbBytes), 2, 2, row, col);
  }

  /** Staging moves its bytes once, from the first host to the last. */
  lemma StagingTraffic(nbBytes: real)
    ensures Entry(ToStorage(nbBytes), 2, 0, 1) == nbBytes
    ensures Sum(Flat(ToStorage(nbBytes), 2, 2)) == nbBytes
  {
    var p := ToStorage(nbBytes);
    SumConstantBut(EntryRow(p, 2, 0), 0.0, 1);
    SumZero(EntryRow(p, 2, 1));
    SumConcat(Flat(p, 2, 1), EntryRow(p, 2, 1));
    SumConcat(Flat(p, 2, 0), EntryRow(p, 2, 0));
  }
}
