/** From the parallel profiles to the merged task: generate_matrices_from_profile, and the amounts of work
    that it and the merge keep. */
module TaskProfiles {
  import opened IntervalSets
  import opened JobIoMerge
  import opened MergeTheorems
  import opened Options
  import opened RowMajor
  import opened Sums
  import opened TaskMatrices

  datatype TaskProfile =
    | Parallel(nbRes: nat, cpu: seq<real>, com: seq<real>)
    | Homogeneous(cpuPerHost: real, comPerPair: real)
    | TotalAmount(totalCpu: real, totalCom: real)
    | Pfs(bytesToRead: real, bytesToWrite: real, storageLabel: string)
    | Staging(nbBytes: real, fromLabel: string, toLabel: string)

  /** What the profiles with storage look up: the mapping of the allocation, if there is one, and the machines. */
  datatype Storage = Storage(mapping: Option<map<string, int>>, machines: seq<int>, storageOnly: set<int>)

  datatype Task = Task(hosts: seq<int>, computation: seq<real>, communication: seq<real>)

  /** What the loader of the profiles checks. */
  predicate Loaded(p: TaskProfile) {
    p.Parallel? ==> p.nbRes > 0 && |p.cpu| == p.nbRes && |p.com| == Times(p.nbRes, p.nbRes)
  }

  /** A parallel profile is made for a number of hosts. */
  predicate RightSize(p: TaskProfile, n: nat) {
    p.Parallel? ==> p.nbRes == n
  }

  /** The profile's work is done by the hosts of the allocation alone. */
  predicate KeepsHosts(p: TaskProfile) {
    !p.Pfs? && !p.Staging?
  }

  predicate IsStorage(storage: Storage, name: string) {
    storage.mapping.Some? && name in storage.mapping.value && storage.mapping.value[name] in storage.storageOnly
  }

  /** Whether a task can be generated for n hosts. */
  predicate Accepts(p: TaskProfile, n: nat, storage: Storage) {
    match p
    case Parallel(_, _, _) => RightSize(p, n)
    case Homogeneous(_, _) => true
    case TotalAmount(_, _) => true
    case Pfs(_, _, name) =>
      if storage.mapping == Some(map[]) then |storage.machines| == 1 else IsStorage(storage, name)
    case Staging(_, from, to) => IsStorage(storage, from) && IsStorage(storage, to)
  }

  /** The hosts that take part. */
  ghost function TaskHosts(p: TaskProfile, hosts: seq<int>, storage: Storage): seq<int>
    requires Accepts(p, |hosts|, storage)
  {
    match p
    case Pfs(_, _, name) =>
      hosts + [if storage.mapping == Some(map[]) then storage.machines[0] else storage.mapping.value[name]]
    case Staging(_, from, to) => [storage.mapping.value[from], storage.mapping.value[to]]
    case _ => hosts
  }

  /** What the i-th of n hosts computes. */
  ghost function LoadAt(p: TaskProfile, n: nat, i: nat): real
    requires Loaded(p) && RightSize(p, n) && i < n
  {
    match p
    case Parallel(_, cpu, _) => cpu[i]
    case Homogeneous(cpuPerHost, _) => cpuPerHost
    case TotalAmount(totalCpu, _) => totalCpu / n as real
    case _ => 0.0
  }

  /** The amount of computation that the profile stands for on n hosts. */
  ghost function Computation(p: TaskProfile, n: nat): real {
    match p
    case Parallel(_, cpu, _) => Sum(cpu)
    case Homogeneous(cpuPerHost, _) => n as real * cpuPerHost
    case TotalAmount(totalCpu, _) => if n == 0 then 0.0 else totalCpu
    case _ => 0.0
  }

  /** The number of bytes; each of the n * (n - 1) pairs of hosts counts, or each host for the storage. */
  ghost function Communication(p: TaskProfile, n: nat): real {
    match p
    case Parallel(_, _, com) => Sum(com)
    case Homogeneous(_, comPerPair) =>
      if comPerPair > 0.0 && n > 0 then n as real * ((n - 1) as real * comPerPair) else 0.0
    case TotalAmount(_, totalCom) => if totalCom > 0.0 && n > 0 then (n - 1) as real * totalCom else 0.0
    case Pfs(read, write, _) => if read > 0.0 || write > 0.0 then n as real * (read + write) else 0.0
    case Staging(nbBytes, _, _) => if nbBytes > 0.0 then nbBytes else 0.0
  }

  /** Whether the profile has a matrix at all. */
  predicate HasMatrix(p: TaskProfile, n: nat) {
    match p
    case Parallel(_, _, _) => n > 0
    case Homogeneous(_, comPerPair) => n > 0 && comPerPair > 0.0
    case TotalAmount(_, totalCom) => n > 0 && totalCom > 0.0
    case Pfs(read, write, _) => read > 0.0 || write > 0.0
    case Staging(nbBytes, _, _) => nbBytes > 0.0
  }

  /** The bytes that the row-th host of the task sends to the col-th one. With storage, the storage host comes
      after the n hosts of the allocation: what is read comes from it, what is written goes to it. */
  ghost function BytesAt(p: TaskProfile, n: nat, row: nat, col: nat): real
    requires p.Parallel? ==> Times(row, n) + col < |p.com|
    requires n > 0 || !p.TotalAmount?
  {
    match p
    case Parallel(_, _, com) => com[Times(row, n) + col]
    case Homogeneous(_, comPerPair) => if row == col then 0.0 else comPerPair
    case TotalAmount(_, totalCom) => if row == col then 0.0 else totalCom / n as real
    case Pfs(read, write, _) =>
      if row < n && col == n then write else if row == n && col < n then read else 0.0
    case Staging(nbBytes, _, _) => if row == 0 && col == 1 then nbBytes else 0.0
  }

  /** com is the m * m matrix of the profile on n hosts, stored row by row. */
  ghost predicate MatrixOf(p: TaskProfile, n: nat, m: nat, com: seq<real>) {
    com != [] ==> forall row: nat, col: nat {:trigger EntryOf(p, n, m, com, row, col)} ::
                    row < m && col < m ==> EntryOf(p, n, m, com, row, col)
  }

  ghost predicate EntryOf(p: TaskProfile, n: nat, m: nat, com: seq<real>, row: nat, col: nat) {
    && Times(row, m) + col < |com| && (p.Parallel? ==> Times(row, n) + col < |p.com|) && (n > 0 || !p.TotalAmount?)
    && com[Times(row, m) + col] == BytesAt(p, n, row, col)
  }

  /** The task is what the profile stands for. */
  ghost predicate Generated(p: TaskProfile, hosts: seq<int>, storage: Storage, task: Task)
    requires Loaded(p) && Accepts(p, |hosts|, storage)
  {
    var n := |task.hosts|;
    && task.hosts == TaskHosts(p, hosts, storage) && |task.computation| == n
    && (forall i :: 0 <= i < |hosts| && i < n ==> task.computation[i] == LoadAt(p, |hosts|, i))
    && (task.communication != [] <==> HasMatrix(p, |hosts|))
    && (task.communication == [] || |task.communication| == Times(n, n))
    && MatrixOf(p, |hosts|, n, task.communication)
    && Sum(task.computation) == Computation(p, |hosts|)
    && Sum(task.communication) == Communication(p, |hosts|)
  }

  lemma SomeEntries(n: nat)
    ensures Times(n, n) > 0 <==> n > 0
  {
    if n > 0 { TimesGrows(0, n, n); }
  }

  lemma ForParallel(p: TaskProfile, hosts: seq<int>, storage: Storage)
    requires Loaded(p) && p.Parallel? && p.nbRes == |hosts|
    ensures Generated(p, hosts, storage, Task(hosts, p.cpu, p.com))
  {
    SomeEntries(|hosts|);
    forall row: nat, col: nat | row < |hosts| && col < |hosts| ensures EntryOf(p, |hosts|, |hosts|, p.com, row, col) {
      TimesGrows(row, |hosts|, |hosts|);
    }
    hide Sum, Times, EntryOf;
  }

  lemma ForHomogeneous(p: TaskProfile, hosts: seq<int>, storage: Storage, cpu: seq<real>, com: seq<real>)
    requires p.Homogeneous? && |cpu| == |hosts| && forall i :: 0 <= i < |cpu| ==> cpu[i] == p.cpuPerHost
    requires com == if p.comPerPair > 0.0 then Flat(AllPairs(p.comPerPair), |hosts|, |hosts|) else []
    ensures Generated(p, hosts, storage, Task(hosts, cpu, com))
  {
    PairTraffic(p, |hosts|, com);
    SumConstant(cpu, p.cpuPerHost);
    ScaledIsProduct(|hosts|, p.cpuPerHost);
    hide Sum, Times, Flat, Scaled, HasMatrix, Communication, MatrixOf;
  }

  lemma PairTraffic(p: TaskProfile, n: nat, com: seq<real>)
    requires p.Homogeneous?
    requires com == if p.comPerPair > 0.0 then Flat(AllPairs(p.comPerPair), n, n) else []
    ensures (com != [] <==> HasMatrix(p, n)) && (com == [] || |com| == Times(n, n))
    ensures Sum(com) == Communication(p, n) && MatrixOf(p, n, n, com)
  {
    hide Sum, Times, Flat;
    SomeEntries(n);
    SumNone(com);
    if n > 0 { AllPairsTotal(n, p.comPerPair); }
    forall row: nat, col: nat | com != [] && row < n && col < n ensures EntryOf(p, n, n, com, row, col) {
      AllPairsEntries(n, p.comPerPair, row, col);
    }
  }

  lemma ForTotalAmount(p: TaskProfile, hosts: seq<int>, storage: Storage, cpu: seq<real>, com: seq<real>)
    requires p.TotalAmount? && |cpu| == |hosts| && (|hosts| > 0 ==> Sum(cpu) == p.totalCpu)
    requires forall i :: 0 <= i < |cpu| ==> cpu[i] == p.totalCpu / |hosts| as real
    requires |hosts| > 0 && p.totalCom > 0.0 ==>
               com == Flat(AllPairs(p.totalCom / |hosts| as real), |hosts|, |hosts|)
    requires |hosts| == 0 || p.totalCom <= 0.0 ==> com == []
    ensures Generated(p, hosts, storage, Task(hosts, cpu, com))
  {
    TotalTraffic(p, |hosts|, com);
    SumNone(cpu);
    hide Sum, Times, Flat, HasMatrix, Communication, MatrixOf;
  }

  lemma TotalTraffic(p: TaskProfile, n: nat, com: seq<real>)
    requires p.TotalAmount?
    requires n > 0 && p.totalCom > 0.0 ==> com == Flat(AllPairs(p.totalCom / n as real), n, n)
    requires n == 0 || p.totalCom <= 0.0 ==> com == []
    ensures (com != [] <==> HasMatrix(p, n)) && (com == [] || |com| == Times(n, n))
    ensures Sum(com) == Communication(p, n) && MatrixOf(p, n, n, com)
  {
    hide Sum, Times, Flat;
    SomeEntries(n);
    SumNone(com);
    if n > 0 && p.totalCom > 0.0 { TotalAmountTraffic(n, p.totalCom); }
    forall row: nat, col: nat | com != [] && row < n && col < n ensures EntryOf(p, n, n, com, row, col) {
      AllPairsEntries(n, p.totalCom / n as real, row, col);
    }
  }

  lemma ForStorage(p: TaskProfile, hosts: seq<int>, storage: Storage, cpu: seq<real>, com: seq<real>)
    requires p.Pfs? && Accepts(p, |hosts|, storage) && |cpu| == |hosts| + 1 && Sum(cpu) == 0.0
    requires forall i :: 0 <= i < |cpu| ==> cpu[i] == 0.0
    requires com == if p.bytesToRead > 0.0 || p.bytesToWrite > 0.0
                    then Flat(WithStorage(p.bytesToRead, p.bytesToWrite), |cpu|, |cpu|) else []
    ensures Generated(p, hosts, storage, Task(TaskHosts(p, hosts, storage), cpu, com))
  {
    StorageBytes(p, |hosts|, com);
    hide Sum, Times, Flat, HasMatrix, Communication, MatrixOf;
  }

  lemma StorageBytes(p: TaskProfile, n: nat, com: seq<real>)
    requires p.Pfs?
    requires com == if p.bytesToRead > 0.0 || p.bytesToWrite > 0.0
                    then Flat(WithStorage(p.bytesToRead, p.bytesToWrite), n + 1, n + 1) else []
    ensures (com != [] <==> HasMatrix(p, n)) && (com == [] || |com| == Times(n + 1, n + 1))
    ensures Sum(com) == Communication(p, n) && MatrixOf(p, n, n + 1, com)
  {
    hide Sum, Times, Flat;
    SomeEntries(n + 1);
    SumNone(com);
    StorageTraffic(n, p.bytesToRead, p.bytesToWrite);
    var m := n + 1;
    forall row: nat, col: nat | com != [] && row < m && col < m ensures EntryOf(p, n, m, com, row, col) {
      StorageEndpoints(n, p.bytesToRead, p.bytesToWrite, row, col);
    }
  }

  lemma ForStaging(p: TaskProfile, hosts: seq<int>, storage: Storage, com: seq<real>)
    requires p.Staging? && Accepts(p, |hosts|, storage) && Sum([0.0, 0.0]) == 0.0
    requires com == if p.nbBytes > 0.0 then Flat(ToStorage(p.nbBytes), 2, 2) else []
    ensures Generated(p, hosts, storage, Task(TaskHosts(p, hosts, storage), [0.0, 0.0], com))
  {
    SomeEntries(2);
    StagingTraffic(p.nbBytes);
    SumNone(com);
    forall row: nat, col: nat | com != [] && row < 2 && col < 2 ensures EntryOf(p, |hosts|, 2, com, row, col) {
      StagingEntries(p.nbBytes, row, col);
    }
    hide Sum, Times, Flat, EntryOf;
  }

  lemma SumNone(s: seq<real>)
    ensures s == [] ==> Sum(s) == 0.0
  {
  }

  /** generate_matrices_from_profile: None if a parallel profile is used on another number of hosts, or a
      storage machine is not found. */
  method GenerateMatrices(p: TaskProfile, hosts: seq<int>, storage: Storage) returns (r: Option<Task>)
    requires Loaded(p)
    ensures r.Some? <==> Accepts(p, |hosts|, storage)
    ensures r.Some? ==> Generated(p, hosts, storage, r.value)
  {
    hide Generated, Flat, Sum;
    var cpu, com, ok, hostsToUse;
    match p {
      case Parallel(nbRes, vector, matrix) =>
        var copied := GenerateParallelTask(|hosts|, nbRes, vector, matrix);
        if copied.None? { return None; }
        ForParallel(p, hosts, storage);
        r := Some(Task(hosts, copied.value.0, copied.value.1));
      case Homogeneous(cpuPerHost, comPerPair) =>
        cpu, com := GenerateParallelHomogeneous(|hosts|, cpuPerHost, comPerPair);
        ForHomogeneous(p, hosts, storage, cpu, com);
        r := Some(Task(hosts, cpu, com));
      case TotalAmount(totalCpu, totalCom) =>
        cpu, com := GenerateParallelHomogeneousTotalAmount(|hosts|, totalCpu, totalCom);
        ForTotalAmount(p, hosts, storage, cpu, com);
        r := Some(Task(hosts, cpu, com));
      case Pfs(read, write, name) =>
        ok, hostsToUse, cpu, com := GenerateParallelHomogeneousWithPfs(hosts, storage.mapping, name, storage.machines,
                                                                       storage.storageOnly, read, write);
        if !ok { return None; }
        ForStorage(p, hosts, storage, cpu, com);
        r := Some(Task(hostsToUse, cpu, com));
      case Staging(nbBytes, from, to) =>
        ok, hostsToUse, cpu, com := GenerateDataStagingTask(storage.mapping, from, to, storage.storageOnly, nbBytes);
        if !ok { return None; }
        ForStaging(p, hosts, storage, com);
        r := Some(Task(hostsToUse, cpu, com));
    }
  }

  // ----- who may compute -----

  predicate Heavy(load: real) {
    load > 0.0000000001 || load < -0.0000000001
  }

  datatype Outcome = Refused | Forbidden | OutOfBounds | Done

  /** The first `|computation|` machines that compute are compute nodes. */
  ghost predicate MayCompute(alloc: seq<int>, computation: seq<real>, computeNodes: set<int>) {
    forall i :: 0 <= i < |alloc| && i < |computation| && Heavy(computation[i]) ==> alloc[i] in computeNodes
  }

  /** check_ptask_execution_permission: it looks at as many entries as there are machines in the allocation. */
  method CheckPermission(alloc: seq<int>, computation: seq<real>, computeNodes: set<int>) returns (r: Outcome)
    ensures r == Forbidden <==> !MayCompute(alloc, computation, computeNodes)
    ensures r == Forbidden <==>
            exists i :: 0 <= i < |alloc| && i < |computation| && alloc[i] !in computeNodes
                        && (computation[i] > 0.0000000001 || computation[i] < -0.0000000001)
    ensures r == OutOfBounds <==> MayCompute(alloc, computation, computeNodes) && |alloc| > |computation|
    ensures r != Refused
  {
    for i := 0 to |alloc|
      invariant i <= |computation|
      invariant forall k :: 0 <= k < i && Heavy(computation[k]) ==> alloc[k] in computeNodes
    {
      if i == |computation| {
        return OutOfBounds;
      }
      if Heavy(computation[i]) && alloc[i] !in computeNodes {
        return Forbidden;
      }
    }
    return Done;
  }

  // ----- execute_parallel_task, up to the start of the task -----

  /** What machine x computes for the profile. */
  ghost function LoadOn(p: TaskProfile, alloc: IntervalSet, x: int): real
    requires Loaded(p) && KeepsHosts(p) && RightSize(p, |alloc|)
  {
    if x in alloc then
      RankInside(alloc, x);
      LoadAt(p, |alloc|, Rank(alloc, x))
    else 0.0
  }

  /** Every machine with something to compute is a compute node. */
  ghost predicate Permitted(p: TaskProfile, alloc: IntervalSet, computeNodes: set<int>)
    requires Loaded(p) && KeepsHosts(p) && RightSize(p, |alloc|)
  {
    forall x :: x in alloc && Heavy(LoadOn(p, alloc, x)) ==> x in computeNodes
  }

  ghost predicate BothPermitted(job: TaskProfile, jobAlloc: IntervalSet, io: TaskProfile, ioAlloc: IntervalSet,
                                computeNodes: set<int>)
    requires Loaded(job) && KeepsHosts(job) && RightSize(job, |jobAlloc|)
    requires Loaded(io) && KeepsHosts(io) && RightSize(io, |ioAlloc|)
  {
    forall x :: (x in jobAlloc || x in ioAlloc) && Heavy(LoadOn(job, jobAlloc, x) + LoadOn(io, ioAlloc, x))
                ==> x in computeNodes
  }

  /** Without an IO profile. A staging task has two entries, whatever the allocation, so the check reads beyond
      them if the allocation has more machines. */
  method PrepareTask(job: TaskProfile, alloc: IntervalSet, hosts: seq<int>, storage: Storage, computeNodes: set<int>)
    returns (outcome: Outcome, task: Task)
    requires Loaded(job) && |hosts| == |alloc|
    ensures outcome == Refused <==> !Accepts(job, |alloc|, storage)
    ensures outcome == Forbidden <==>
            Accepts(job, |alloc|, storage) && KeepsHosts(job) && !Permitted(job, alloc, computeNodes)
    ensures outcome == OutOfBounds <==> Accepts(job, |alloc|, storage) && job.Staging? && |alloc| > 2
    ensures outcome == Done ==> Generated(job, hosts, storage, task)
  {
    outcome, task := Refused, Task(hosts, [], []);
    var r := GenerateMatrices(job, hosts, storage);
    if r.None? {
      return;
    }
    task := r.value;
    outcome := CheckPermission(alloc, task.computation, computeNodes);
    CheckMeans(job, alloc, hosts, storage, task, computeNodes);
  }

  /** What the check of the permissions finds. */
  lemma CheckMeans(job: TaskProfile, alloc: IntervalSet, hosts: seq<int>, storage: Storage, task: Task,
                   computeNodes: set<int>)
    requires Loaded(job) && |hosts| == |alloc| && Accepts(job, |alloc|, storage)
    requires Generated(job, hosts, storage, task)
    ensures MayCompute(alloc, task.computation, computeNodes) <==>
            (KeepsHosts(job) ==> Permitted(job, alloc, computeNodes))
    ensures |alloc| > |task.computation| <==> job.Staging? && |alloc| > 2
  {
    hide Sum, Communication, HasMatrix, Computation;
    forall i | 0 <= i < |alloc| ensures Rank(alloc, alloc[i]) == i { RankOfElement(alloc, i); }
  }

  /** How the first half of execute_parallel_task ends for a job with an IO profile. */
  ghost function Verdict(job: TaskProfile, jobAlloc: IntervalSet, io: TaskProfile, ioAlloc: IntervalSet,
                         computeNodes: set<int>): Outcome
    requires Loaded(job) && KeepsHosts(job) && Loaded(io)
  {
    if !RightSize(job, |jobAlloc|) then Refused
    else if !Permitted(job, jobAlloc, computeNodes) then Forbidden
    else if !KeepsHosts(io) || !RightSize(io, |ioAlloc|) then Refused
    else if ioAlloc != [] && !HasMatrix(io, |ioAlloc|) then OutOfBounds
    else if !BothPermitted(job, jobAlloc, io, ioAlloc, computeNodes) then Forbidden
    else Done
  }

  /** The bytes that machine x sends to machine y for the profile. */
  ghost function BytesOn(p: TaskProfile, alloc: IntervalSet, x: int, y: int): real
    requires Loaded(p) && KeepsHosts(p) && RightSize(p, |alloc|)
  {
    if x in alloc && y in alloc && HasMatrix(p, |alloc|) then
      RankInside(alloc, x);
      RankInside(alloc, y);
      TimesGrows(Rank(alloc, x), |alloc|, |alloc|);
      BytesAt(p, |alloc|, Rank(alloc, x), Rank(alloc, y))
    else 0.0
  }

  /** The merged task does the work of both profiles. */
  ghost predicate Merged(job: TaskProfile, jobAlloc: IntervalSet, io: TaskProfile, ioAlloc: IntervalSet,
                         newAlloc: IntervalSet, computation: seq<real>, communication: seq<real>)
    requires Loaded(job) && KeepsHosts(job) && RightSize(job, |jobAlloc|)
    requires Loaded(io) && KeepsHosts(io) && RightSize(io, |ioAlloc|)
  {
    && IsUnion(newAlloc, jobAlloc, ioAlloc)
    && |computation| == |newAlloc| && |communication| == Times(|newAlloc|, |newAlloc|)
    && (forall x :: x in newAlloc ==>
          Load(newAlloc, computation, x) == LoadOn(job, jobAlloc, x) + LoadOn(io, ioAlloc, x))
    && (forall x, y :: Traffic(newAlloc, communication, x, y)
                       == BytesOn(job, jobAlloc, x, y) + BytesOn(io, ioAlloc, x, y))
    && Sum(computation) == Computation(job, |jobAlloc|) + Computation(io, |ioAlloc|)
    && Sum(communication) == Communication(job, |jobAlloc|) + Communication(io, |ioAlloc|)
  }

  /** One of the two tasks to merge, generated from its profile. */
  datatype Side = Side(profile: TaskProfile, alloc: IntervalSet, hosts: seq<int>, storage: Storage, task: Task)

  ghost predicate Ready(s: Side) {
    && Loaded(s.profile) && KeepsHosts(s.profile) && |s.hosts| == |s.alloc|
    && Accepts(s.profile, |s.alloc|, s.storage) && Generated(s.profile, s.hosts, s.storage, s.task)
  }

  lemma ReadyShape(s: Side)
    requires Ready(s)
    ensures RightSize(s.profile, |s.alloc|) && |s.task.computation| == |s.alloc|
    ensures IsMatrix(s.alloc, s.task.communication) && (s.task.communication != [] <==> HasMatrix(s.profile, |s.alloc|))
    ensures Sum(s.task.computation) == Computation(s.profile, |s.alloc|)
    ensures Sum(s.task.communication) == Communication(s.profile, |s.alloc|)
  {
    hide Sum, Communication, HasMatrix, Computation, Times;
  }

  lemma ReadyLoad(s: Side, x: int)
    requires Ready(s)
    ensures RightSize(s.profile, |s.alloc|) && |s.task.computation| == |s.alloc|
    ensures Load(s.alloc, s.task.computation, x) == LoadOn(s.profile, s.alloc, x)
  {
    hide Sum, Communication, HasMatrix, Computation, Times;
    if x in s.alloc { RankInside(s.alloc, x); }
  }

  lemma ReadyTraffic(s: Side, x: int, y: int)
    requires Ready(s)
    ensures RightSize(s.profile, |s.alloc|) && IsMatrix(s.alloc, s.task.communication)
    ensures Traffic(s.alloc, s.task.communication, x, y) == BytesOn(s.profile, s.alloc, x, y)
  {
    hide Sum, Communication, HasMatrix, Computation, Times;
    if x in s.alloc && y in s.alloc && s.task.communication != [] {
      RankInside(s.alloc, x);
      RankInside(s.alloc, y);
      assert EntryOf(s.profile, |s.alloc|, |s.alloc|, s.task.communication, Rank(s.alloc, x), Rank(s.alloc, y));
    }
  }

  ghost predicate MergeOf(job: Side, io: Side, newAlloc: IntervalSet, computation: seq<real>, communication: seq<real>)
    requires |job.task.computation| == |job.alloc| && |io.task.computation| == |io.alloc|
    requires IsMatrix(job.alloc, job.task.communication) && IsMatrix(io.alloc, io.task.communication)
  {
    && IsUnion(newAlloc, job.alloc, io.alloc)
    && computation == Loads(newAlloc, job.alloc, io.alloc, job.task.computation, io.task.computation)
    && communication
       == Rows(newAlloc, job.alloc, io.alloc, job.task.communication, io.task.communication, |newAlloc|)
  }

  lemma MergedTotals(job: Side, io: Side, newAlloc: IntervalSet, computation: seq<real>, communication: seq<real>)
    requires |job.task.computation| == |job.alloc| && |io.task.computation| == |io.alloc|
    requires IsMatrix(job.alloc, job.task.communication) && IsMatrix(io.alloc, io.task.communication)
    requires MergeOf(job, io, newAlloc, computation, communication)
    ensures |computation| == |newAlloc| && |communication| == Times(|newAlloc|, |newAlloc|)
    ensures Sum(computation) == Sum(job.task.computation) + Sum(io.task.computation)
    ensures Sum(communication) == Sum(job.task.communication) + Sum(io.task.communication)
  {
    ComputationConserved(newAlloc, job.alloc, io.alloc, job.task.computation, io.task.computation);
    CommunicationConserved(newAlloc, job.alloc, io.alloc, job.task.communication, io.task.communication);
    hide Sum, Times;
  }

  lemma MergedEachLoad(job: Side, io: Side, newAlloc: IntervalSet, computation: seq<real>, communication: seq<real>,
                       x: int)
    requires |job.task.computation| == |job.alloc| && |io.task.computation| == |io.alloc|
    requires IsMatrix(job.alloc, job.task.communication) && IsMatrix(io.alloc, io.task.communication)
    requires MergeOf(job, io, newAlloc, computation, communication) && |computation| == |newAlloc|
    ensures Load(newAlloc, computation, x)
         == Load(job.alloc, job.task.computation, x) + Load(io.alloc, io.task.computation, x)
  {
    hide Load, Times;
    MergedLoad(newAlloc, job.alloc, io.alloc, job.task.computation, io.task.computation, x);
  }

  lemma MergedEachTraffic(job: Side, io: Side, newAlloc: IntervalSet, computation: seq<real>,
                          communication: seq<real>, x: int, y: int)
    requires |job.task.computation| == |job.alloc| && |io.task.computation| == |io.alloc|
    requires IsMatrix(job.alloc, job.task.communication) && IsMatrix(io.alloc, io.task.communication)
    requires MergeOf(job, io, newAlloc, computation, communication) && IsMatrix(newAlloc, communication)
    ensures Traffic(newAlloc, communication, x, y)
         == Traffic(job.alloc, job.task.communication, x, y) + Traffic(io.alloc, io.task.communication, x, y)
  {
    hide Traffic, Times;
    MergedTraffic(newAlloc, job.alloc, io.alloc, job.task.communication, io.task.communication, x, y);
  }

  lemma MergedMeans(job: Side, io: Side, newAlloc: IntervalSet, computation: seq<real>, communication: seq<real>)
    requires Ready(job) && Ready(io)
    requires |job.task.computation| == |job.alloc| && |io.task.computation| == |io.alloc|
    requires IsMatrix(job.alloc, job.task.communication) && IsMatrix(io.alloc, io.task.communication)
    requires MergeOf(job, io, newAlloc, computation, communication)
    ensures RightSize(job.profile, |job.alloc|) && RightSize(io.profile, |io.alloc|)
    ensures Loaded(job.profile) && KeepsHosts(job.profile) && Loaded(io.profile) && KeepsHosts(io.profile)
    ensures Merged(job.profile, job.alloc, io.profile, io.alloc, newAlloc, computation, communication)
  {
    assert IsUnion(newAlloc, job.alloc, io.alloc);
    hide Ready, MergeOf, Sum, Communication, Computation, HasMatrix, Load, LoadOn, Rows, Loads, Times, Generated,
         Accepts, Traffic, BytesOn;
    ReadyShape(job);
    ReadyShape(io);
    MergedTotals(job, io, newAlloc, computation, communication);
    forall x | x in newAlloc
      ensures Load(newAlloc, computation, x) == LoadOn(job.profile, job.alloc, x) + LoadOn(io.profile, io.alloc, x)
    {
      MergedEachLoad(job, io, newAlloc, computation, communication, x);
      ReadyLoad(job, x);
      ReadyLoad(io, x);
    }
    forall x, y ensures Traffic(newAlloc, communication, x, y)
                        == BytesOn(job.profile, job.alloc, x, y) + BytesOn(io.profile, io.alloc, x, y)
    {
      MergedEachTraffic(job, io, newAlloc, computation, communication, x, y);
      ReadyTraffic(job, x, y);
      ReadyTraffic(io, x, y);
    }
  }

  lemma MergedCheck(job: TaskProfile, jobAlloc: IntervalSet, io: TaskProfile, ioAlloc: IntervalSet,
                    newAlloc: IntervalSet, computation: seq<real>, communication: seq<real>, computeNodes: set<int>)
    requires Loaded(job) && KeepsHosts(job) && RightSize(job, |jobAlloc|)
    requires Loaded(io) && KeepsHosts(io) && RightSize(io, |ioAlloc|)
    requires Merged(job, jobAlloc, io, ioAlloc, newAlloc, computation, communication)
    ensures MayCompute(newAlloc, computation, computeNodes) <==>
            BothPermitted(job, jobAlloc, io, ioAlloc, computeNodes)
  {
    MergedEach(job, jobAlloc, io, ioAlloc, newAlloc, computation, communication);
    hide Sum, Communication, HasMatrix, Computation, LoadOn, Heavy, Load, Times, Merged, Loaded;
    if MayCompute(newAlloc, computation, computeNodes) {
      forall x | (x in jobAlloc || x in ioAlloc) && Heavy(LoadOn(job, jobAlloc, x) + LoadOn(io, ioAlloc, x))
        ensures x in computeNodes
      {
        var i :| 0 <= i < |newAlloc| && newAlloc[i] == x;
        assert Heavy(computation[i]);
      }
    }
    if BothPermitted(job, jobAlloc, io, ioAlloc, computeNodes) {
      MergedPermitted(job, jobAlloc, io, ioAlloc, newAlloc, computation, computeNodes);
    }
  }

  lemma MergedPermitted(job: TaskProfile, jobAlloc: IntervalSet, io: TaskProfile, ioAlloc: IntervalSet,
                        newAlloc: IntervalSet, computation: seq<real>, computeNodes: set<int>)
    requires Loaded(job) && KeepsHosts(job) && RightSize(job, |jobAlloc|)
    requires Loaded(io) && KeepsHosts(io) && RightSize(io, |ioAlloc|)
    requires IsUnion(newAlloc, jobAlloc, ioAlloc) && |computation| == |newAlloc|
    requires forall i :: 0 <= i < |newAlloc| ==>
               computation[i] == LoadOn(job, jobAlloc, newAlloc[i]) + LoadOn(io, ioAlloc, newAlloc[i])
    requires BothPermitted(job, jobAlloc, io, ioAlloc, computeNodes)
    ensures MayCompute(newAlloc, computation, computeNodes)
  {
    hide LoadOn, Heavy, Loaded;
    forall i | 0 <= i < |newAlloc| && Heavy(computation[i]) ensures newAlloc[i] in computeNodes {
      assert newAlloc[i] in newAlloc;
    }
  }

  lemma MergedEach(job: TaskProfile, jobAlloc: IntervalSet, io: TaskProfile, ioAlloc: IntervalSet,
                   newAlloc: IntervalSet, computation: seq<real>, communication: seq<real>)
    requires Loaded(job) && KeepsHosts(job) && RightSize(job, |jobAlloc|)
    requires Loaded(io) && KeepsHosts(io) && RightSize(io, |ioAlloc|)
    requires Merged(job, jobAlloc, io, ioAlloc, newAlloc, computation, communication)
    ensures IsUnion(newAlloc, jobAlloc, ioAlloc) && |computation| == |newAlloc|
    ensures forall i :: 0 <= i < |newAlloc| ==>
              computation[i] == LoadOn(job, jobAlloc, newAlloc[i]) + LoadOn(io, ioAlloc, newAlloc[i])
  {
    hide Sum, Communication, HasMatrix, Computation, LoadOn, Times, Loaded;
    forall i | 0 <= i < |newAlloc|
      ensures computation[i] == LoadOn(job, jobAlloc, newAlloc[i]) + LoadOn(io, ioAlloc, newAlloc[i])
    {
      RankOfElement(newAlloc, i);
      assert newAlloc[i] in newAlloc;
    }
  }

  /** The first half of execute_parallel_task, for a job with an IO profile: no work is lost and none is
      made up on the way from the two profiles to the merged task. */
  method MergeProfiles(job: TaskProfile, jobAlloc: IntervalSet, jobHosts: seq<int>, storage: Storage,
                       io: TaskProfile, ioAlloc: IntervalSet, ioHosts: seq<int>, computeNodes: set<int>)
    returns (outcome: Outcome, newAlloc: IntervalSet, computation: array<real>, communication: array<real>)
    requires Loaded(job) && KeepsHosts(job) && |jobHosts| == |jobAlloc| && Loaded(io) && |ioHosts| == |ioAlloc|
    ensures outcome == Verdict(job, jobAlloc, io, ioAlloc, computeNodes)
    ensures outcome == Done ==> Merged(job, jobAlloc, io, ioAlloc, newAlloc, computation[..], communication[..])
  {
    hide Generated, Merged, Permitted, BothPermitted, MayCompute, Loads, Rows;
    newAlloc, computation, communication := [], new real[0], new real[0];
    var jobTask, inBounds, c1, c2, c3, c4;
    outcome, jobTask := PrepareTask(job, jobAlloc, jobHosts, storage, computeNodes);
    if outcome != Done {
      return;
    }
    var ioStorage := Storage(None, storage.machines, storage.storageOnly);
    var ioTask := GenerateMatrices(io, ioHosts, ioStorage);
    if ioTask.None? {
      outcome := Refused;
      return;
    }
    ghost var jobSide := Side(job, jobAlloc, jobHosts, storage, jobTask);
    ghost var ioSide := Side(io, ioAlloc, ioHosts, ioStorage, ioTask.value);
    ReadyShape(jobSide);
    ReadyShape(ioSide);
    inBounds, newAlloc, computation, communication, c1, c2, c3, c4 :=
      Merge(jobAlloc, ioAlloc, jobTask.computation, jobTask.communication,
            ioTask.value.computation, ioTask.value.communication);
    if !inBounds {
      outcome := OutOfBounds;
      return;
    }
    MergedMeans(jobSide, ioSide, newAlloc, computation[..], communication[..]);
    MergedCheck(job, jobAlloc, io, ioAlloc, newAlloc, computation[..], communication[..], computeNodes);
    outcome := CheckPermission(newAlloc, computation[..], computeNodes);
    MergedEach(job, jobAlloc, io, ioAlloc, newAlloc, computation[..], communication[..]);
  }

  // ----- inputs that are read out of bounds -----

  /** An IO task that neither computes nor communicates. */
  method QuietIo() returns (outcome: Outcome)
    ensures outcome == OutOfBounds
  {
    var job, io := Homogeneous(1.0, 1.0), Homogeneous(0.0, 0.0);
    var newAlloc, computation, communication;
    assert [0][0] == 0 && [1][0] == 1;
    outcome, newAlloc, computation, communication :=
      MergeProfiles(job, [0], [0], Storage(None, [], {}), io, [1], [1], {0});
  }

  /** A staging task on three machines. */
  method WideStaging() returns (outcome: Outcome)
    ensures outcome == OutOfBounds
  {
    var storage := Storage(Some(map["from" := 3, "to" := 4]), [3, 4], {3, 4});
    var task;
    outcome, task := PrepareTask(Staging(1.0, "from", "to"), [0, 1, 2], [0, 1, 2], storage, {0, 1, 2});
  }
}
