/** Requests to change power states, from the request to its acknowledgement: which machines switch at once,
    which start a process, and which are passed over, so that somebody waits for their report for ever. */
module PstateRequests {
  import opened Switches

  datatype Kind = Computation | Sleep | Transition

  /** Between: the host is in one of the virtual power states of a switch. */
  datatype Pstate = At(number: int) | Between

  datatype Report = Report(machine: int, pstate: int)

  type Kinds = (int, int) -> Kind

  function KindNow(kinds: Kinds, m: int, pstate: Pstate): Kind {
    match pstate
    case At(p) => kinds(m, p)
    case Between => Transition
  }

  /** The machine is not changed, and an error is logged. */
  predicate PassedOver(kinds: Kinds, m: int, now: Pstate, p: int) {
    KindNow(kinds, m, now) == Transition || (KindNow(kinds, m, now) == Computation && kinds(m, p) == Transition)
  }

  predicate SwitchesAtOnce(kinds: Kinds, m: int, now: Pstate, p: int) {
    KindNow(kinds, m, now) == Computation && kinds(m, p) == Computation
  }

  /** What the machine is left in: a process starts if it neither stays nor switches at once. */
  function NextPstate(kinds: Kinds, m: int, now: Pstate, p: int): Pstate {
    if PassedOver(kinds, m, now, p) then now
    else if SwitchesAtOnce(kinds, m, now, p) then At(p)
    else Between
  }

  predicate StartsProcess(kinds: Kinds, m: int, now: Pstate, p: int) {
    !PassedOver(kinds, m, now, p) && !SwitchesAtOnce(kinds, m, now, p)
  }

  /** A sleeping machine may only be asked to compute. */
  predicate Allowed(kinds: Kinds, m: int, now: Pstate, p: int) {
    KindNow(kinds, m, now) == Sleep ==> kinds(m, p) == Computation
  }

  /** How often a machine was asked for p, and how often it reported, will report, or was passed over; pending
      are the machines of a request that is being handled. */
  ghost predicate BalancedFor(requests: seq<set<int>>, reports: multiset<int>, processes: map<int, int>,
                              mailbox: seq<Report>, passed: multiset<int>, pending: multiset<Report>, p: int, m: int)
  {
    Asked(requests, m, |requests|)
    == reports[m] + Underway(processes, mailbox, p, m) + passed[m] + pending[Report(m, p)]
  }

  ghost predicate Balanced(requests: map<int, seq<set<int>>>, reports: map<int, multiset<int>>,
                           processes: map<int, int>, mailbox: seq<Report>, passed: map<int, multiset<int>>,
                           pending: multiset<Report>)
  {
    forall p, m :: BalancedFor(Requests(requests, p), Reports(reports, p), processes, mailbox, Reports(passed, p),
                               pending, p, m)
  }

  ghost function Underway(processes: map<int, int>, mailbox: seq<Report>, p: int, m: int): nat {
    multiset(mailbox)[Report(m, p)] + if m in processes && processes[m] == p then 1 else 0
  }

  ghost function Pending(machines: seq<int>, p: int): multiset<Report> {
    if machines == [] then multiset{} else multiset{Report(machines[0], p)} + Pending(machines[1..], p)
  }

  ghost function OneMore(passed: map<int, multiset<int>>, p: int, m: int): map<int, multiset<int>> {
    passed[p := Reports(passed, p) + multiset{m}]
  }

  // ----- what one change does to the balance -----

  lemma ProcessReports(processes: map<int, int>, mailbox: seq<Report>, m: int, p: int, x: int)
    requires m in processes
    ensures Underway(processes - {m}, mailbox + [Report(m, processes[m])], p, x) == Underway(processes, mailbox, p, x)
  {
  }

  lemma HeadTaken(processes: map<int, int>, mailbox: seq<Report>, p: int, x: int)
    requires mailbox != []
    ensures Underway(processes, mailbox, p, x)
         == Underway(processes, mailbox[1..], p, x) + if mailbox[0] == Report(x, p) then 1 else 0
  {
    assert mailbox == [mailbox[0]] + mailbox[1..];
  }

  lemma ProcessStarts(processes: map<int, int>, mailbox: seq<Report>, m: int, to: int, p: int, x: int)
    requires m !in processes
    ensures Underway(processes[m := to], mailbox, p, x)
         == Underway(processes, mailbox, p, x) + if x == m && p == to then 1 else 0
  {
  }

  lemma AskedMore(requests: map<int, seq<set<int>>>, p: int, x: set<int>, q: int, m: int)
    ensures var requests' := requests[p := Requests(requests, p) + [x]];
            Asked(Requests(requests', q), m, |Requests(requests', q)|)
            == Asked(Requests(requests, q), m, |Requests(requests, q)|) + if q == p && m in x then 1 else 0
  {
    if q == p { AskedPrefix(Requests(requests, p), x, m, |Requests(requests, p)|); }
  }

  lemma {:induction false} PendingCounts(machines: seq<int>, p: int, m: int, q: int)
    requires forall i, j :: 0 <= i < j < |machines| ==> machines[i] != machines[j]
    ensures Pending(machines, p)[Report(m, q)] == if q == p && m in machines then 1 else 0
  {
    if machines != [] {
      PendingCounts(machines[1..], p, m, q);
      assert machines == [machines[0]] + machines[1..];
    }
  }

  /** The request is filed: all its machines are pending. */
  lemma Filed(requests: map<int, seq<set<int>>>, reports: map<int, multiset<int>>, processes: map<int, int>,
              mailbox: seq<Report>, passed: map<int, multiset<int>>, machines: seq<int>, p: int)
    requires Balanced(requests, reports, processes, mailbox, passed, multiset{})
    requires forall i, j :: 0 <= i < j < |machines| ==> machines[i] != machines[j]
    ensures Balanced(requests[p := Requests(requests, p) + [SetOf(machines)]], reports, processes, mailbox, passed,
                     Pending(machines, p))
  {
    hide Balanced, Asked, Pending, Requests;
    var requests' := requests[p := Requests(requests, p) + [SetOf(machines)]];
    forall q, m ensures BalancedFor(Requests(requests', q), Reports(reports, q), processes, mailbox, Reports(passed, q),
                                    Pending(machines, p), q, m)
    {
      AtOne(requests, reports, processes, mailbox, passed, multiset{}, q, m);
      AskedMore(requests, p, SetOf(machines), q, m);
      PendingCounts(machines, p, m, q);
    }
    FromEach(requests', reports, processes, mailbox, passed, Pending(machines, p));
  }

  lemma AtOne(requests: map<int, seq<set<int>>>, reports: map<int, multiset<int>>, processes: map<int, int>,
              mailbox: seq<Report>, passed: map<int, multiset<int>>, pending: multiset<Report>, p: int, m: int)
    requires Balanced(requests, reports, processes, mailbox, passed, pending)
    ensures BalancedFor(Requests(requests, p), Reports(reports, p), processes, mailbox, Reports(passed, p),
                        pending, p, m)
  {
    hide BalancedFor;
  }

  lemma FromEach(requests: map<int, seq<set<int>>>, reports: map<int, multiset<int>>, processes: map<int, int>,
                 mailbox: seq<Report>, passed: map<int, multiset<int>>, pending: multiset<Report>)
    requires forall p, m :: BalancedFor(Requests(requests, p), Reports(reports, p), processes, mailbox,
                                        Reports(passed, p), pending, p, m)
    ensures Balanced(requests, reports, processes, mailbox, passed, pending)
  {
    hide BalancedFor;
  }

  lemma OneMoreCounts(passed: map<int, multiset<int>>, p: int, m: int, q: int, x: int)
    ensures Reports(OneMore(passed, p, m), q)[x] == Reports(passed, q)[x] + if q == p && x == m then 1 else 0
  {
  }

  lemma PendingLess(rest: multiset<Report>, m: int, p: int, x: int, q: int)
    ensures (rest + multiset{Report(m, p)})[Report(x, q)] == rest[Report(x, q)] + if q == p && x == m then 1 else 0
  {
  }

  /** A machine that is passed over. */
  lemma Passed(requests: map<int, seq<set<int>>>, reports: map<int, multiset<int>>, processes: map<int, int>,
               mailbox: seq<Report>, passed: map<int, multiset<int>>, rest: multiset<Report>, m: int, p: int)
    requires Balanced(requests, reports, processes, mailbox, passed, rest + multiset{Report(m, p)})
    ensures Balanced(requests, reports, processes, mailbox, OneMore(passed, p, m), rest)
  {
    hide Balanced, Asked, Requests, Underway, Reports, OneMore;
    forall q, x ensures BalancedFor(Requests(requests, q), Reports(reports, q), processes, mailbox,
                                    Reports(OneMore(passed, p, m), q), rest, q, x)
    {
      AtOne(requests, reports, processes, mailbox, passed, rest + multiset{Report(m, p)}, q, x);
      OneMoreCounts(passed, p, m, q, x);
      PendingLess(rest, m, p, x, q);
    }
    FromEach(requests, reports, processes, mailbox, OneMore(passed, p, m), rest);
  }

  /** A machine that reports at once. */
  lemma Reported(requests: map<int, seq<set<int>>>, reports: map<int, multiset<int>>, processes: map<int, int>,
                 mailbox: seq<Report>, passed: map<int, multiset<int>>, rest: multiset<Report>, m: int, p: int)
    requires Balanced(requests, reports, processes, mailbox, passed, rest + multiset{Report(m, p)})
    ensures Balanced(requests, OneMore(reports, p, m), processes, mailbox, passed, rest)
  {
    hide Balanced, Asked, Requests, Underway, Reports, OneMore;
    forall q, x ensures BalancedFor(Requests(requests, q), Reports(OneMore(reports, p, m), q), processes, mailbox,
                                    Reports(passed, q), rest, q, x)
    {
      AtOne(requests, reports, processes, mailbox, passed, rest + multiset{Report(m, p)}, q, x);
      OneMoreCounts(reports, p, m, q, x);
      PendingLess(rest, m, p, x, q);
    }
    FromEach(requests, OneMore(reports, p, m), processes, mailbox, passed, rest);
  }

  /** Somebody waits for a pending machine. */
  lemma Awaited(requests: map<int, seq<set<int>>>, reports: map<int, multiset<int>>, processes: map<int, int>,
                mailbox: seq<Report>, passed: map<int, multiset<int>>, rest: multiset<Report>, m: int, p: int)
    requires Balanced(requests, reports, processes, mailbox, passed, rest + multiset{Report(m, p)})
    ensures Reports(reports, p)[m] < Asked(Requests(requests, p), m, |Requests(requests, p)|)
  {
    hide Balanced, Asked, Requests, Underway, Reports;
    AtOne(requests, reports, processes, mailbox, passed, rest + multiset{Report(m, p)}, p, m);
    PendingLess(rest, m, p, m, p);
  }

  /** A machine for which a process starts. */
  lemma Started(requests: map<int, seq<set<int>>>, reports: map<int, multiset<int>>, processes: map<int, int>,
                mailbox: seq<Report>, passed: map<int, multiset<int>>, rest: multiset<Report>, m: int, p: int)
    requires Balanced(requests, reports, processes, mailbox, passed, rest + multiset{Report(m, p)}) && m !in processes
    ensures Balanced(requests, reports, processes[m := p], mailbox, passed, rest)
  {
    hide Balanced, Asked, Requests, Underway, Reports;
    var processes' := processes[m := p];
    forall q, x ensures BalancedFor(Requests(requests, q), Reports(reports, q), processes', mailbox, Reports(passed, q),
                                    rest, q, x)
    {
      AtOne(requests, reports, processes, mailbox, passed, rest + multiset{Report(m, p)}, q, x);
      ProcessStarts(processes, mailbox, m, p, q, x);
      PendingLess(rest, m, p, x, q);
    }
    FromEach(requests, reports, processes', mailbox, passed, rest);
  }

  /** A process that ends. */
  lemma Posted(requests: map<int, seq<set<int>>>, reports: map<int, multiset<int>>, processes: map<int, int>,
               mailbox: seq<Report>, passed: map<int, multiset<int>>, pending: multiset<Report>, m: int)
    requires Balanced(requests, reports, processes, mailbox, passed, pending) && m in processes
    ensures Balanced(requests, reports, processes - {m}, mailbox + [Report(m, processes[m])], passed, pending)
  {
    hide Balanced, Asked, Requests, Underway;
    var mailbox' := mailbox + [Report(m, processes[m])];
    forall q, x ensures BalancedFor(Requests(requests, q), Reports(reports, q), processes - {m}, mailbox',
                                    Reports(passed, q), pending, q, x)
    {
      AtOne(requests, reports, processes, mailbox, passed, pending, q, x);
      ProcessReports(processes, mailbox, m, q, x);
    }
    FromEach(requests, reports, processes - {m}, mailbox', passed, pending);
  }

  /** The first report is taken out of the mailbox: its machine is pending. */
  lemma Received(requests: map<int, seq<set<int>>>, reports: map<int, multiset<int>>, processes: map<int, int>,
                 mailbox: seq<Report>, passed: map<int, multiset<int>>, pending: multiset<Report>)
    requires Balanced(requests, reports, processes, mailbox, passed, pending) && mailbox != []
    ensures Balanced(requests, reports, processes, mailbox[1..], passed, pending + multiset{mailbox[0]})
  {
    hide Balanced, Asked, Requests, Underway;
    forall q, x ensures BalancedFor(Requests(requests, q), Reports(reports, q), processes, mailbox[1..],
                                    Reports(passed, q), pending + multiset{mailbox[0]}, q, x)
    {
      AtOne(requests, reports, processes, mailbox, passed, pending, q, x);
      HeadTaken(processes, mailbox, q, x);
    }
    FromEach(requests, reports, processes, mailbox[1..], passed, pending + multiset{mailbox[0]});
  }

  ghost predicate Distinct(machines: seq<int>) {
    forall i, j :: 0 <= i < j < |machines| ==> machines[i] != machines[j]
  }

  lemma PendingNext(machines: seq<int>, i: nat, p: int)
    requires i < |machines|
    ensures Pending(machines[i..], p) == Pending(machines[i + 1..], p) + multiset{Report(machines[i], p)}
    ensures machines[..i + 1] == machines[..i] + [machines[i]]
  {
    assert machines[i..][1..] == machines[i + 1..];
  }

  // ----- the server's part -----

  class PowerStates {
    const kinds: Kinds
    const current: CurrentSwitches
    var pstates: map<int, Pstate>
    var processes: map<int, int>                 // where the switch process of a machine leads to
    var mailbox: seq<Report>                     // what ended processes reported and the server has not handled
    ghost var passed: map<int, multiset<int>>    // for each power state, the machines that were passed over

    constructor (kinds: Kinds, pstates: map<int, Pstate>)
      ensures Valid() && this.kinds == kinds && this.pstates == pstates && Quiet() && passed == map[] && fresh(current)
      ensures current.requests == map[] && current.acks == []
    {
      this.kinds, this.pstates := kinds, pstates;
      this.processes, this.mailbox, this.passed := map[], [], map[];
      this.current := new CurrentSwitches();
    }

    /** A machine with a process is in transition. */
    ghost predicate InTransition()
      reads this
    {
      forall m :: m in processes ==> m in pstates && pstates[m] == Between
    }

    ghost predicate Counted(pending: multiset<Report>)
      reads this, current
    {
      Balanced(current.requests, current.reports, processes, mailbox, passed, pending)
    }

    ghost predicate Valid()
      reads this, current
    {
      current.Valid() && InTransition() && Counted(multiset{})
    }

    /** All processes ended, and their reports were handled. */
    ghost predicate Quiet()
      reads this
    {
      processes == map[] && mailbox == []
    }

    /** switch_on_machine_process and switch_off_machine_process, at their end. */
    method ProcessEnds(m: int)
      requires Valid() && m in processes
      modifies this
      ensures Valid() && mailbox == old(mailbox) + [Report(m, old(processes)[m])] && processes == old(processes) - {m}
      ensures pstates == old(pstates)[m := At(old(processes)[m])] && passed == old(passed)
    {
      hide Balanced, CurrentSwitches.Valid;
      Posted(current.requests, current.reports, processes, mailbox, passed, multiset{}, m);
      var p := processes[m];
      pstates := pstates[m := At(p)];
      processes := processes - {m};
      mailbox := mailbox + [Report(m, p)];
    }

    /** server_on_switched: ok is false where it insists that the machine still is in the state that was
        reported. Somebody always waits for the report. */
    method SwitchedTaken() returns (ok: bool, found: bool)
      requires Valid() && mailbox != []
      modifies this, current
      ensures var report := old(mailbox)[0];
              ok <==> report.machine in old(pstates) && old(pstates)[report.machine] == At(report.pstate)
      ensures ok ==> found && Valid() && mailbox == old(mailbox)[1..]
      ensures pstates == old(pstates) && processes == old(processes) && passed == old(passed)
      ensures current.requests == old(current.requests)
    {
      hide Balanced, CurrentSwitches.Valid, Asked, AnswersNext, Unanswered;
      var report := mailbox[0];
      ok := report.machine in pstates && pstates[report.machine] == At(report.pstate);
      if !ok {
        return false, false;
      }
      Received(current.requests, current.reports, processes, mailbox, passed, multiset{});
      mailbox := mailbox[1..];
      found := Answer(report.machine, report.pstate, multiset{});
    }

    /** A pending machine is marked in the request that waits for it. */
    method Answer(m: int, p: int, ghost rest: multiset<Report>) returns (found: bool)
      requires current.Valid() && Counted(rest + multiset{Report(m, p)})
      modifies current
      ensures found && current.Valid() && Counted(rest) && current.requests == old(current.requests)
    {
      hide Balanced, CurrentSwitches.Valid, Asked, AnswersNext, Unanswered;
      Awaited(current.requests, current.reports, processes, mailbox, passed, rest, m, p);
      Reported(current.requests, current.reports, processes, mailbox, passed, rest, m, p);
      var done, allMachines;
      ghost var r;
      found, done, allMachines, r := current.MarkSwitchAsDone(m, p);
    }

    /** One turn of the loop over the machines of a request. */
    method TakeMachine(m: int, p: int, ghost rest: multiset<Report>)
      requires current.Valid() && InTransition() && Counted(rest + multiset{Report(m, p)})
      requires m in pstates && Allowed(kinds, m, pstates[m], p)
      modifies this`pstates, this`processes, this`passed, current
      ensures current.Valid() && InTransition() && Counted(rest) && current.requests == old(current.requests)
      ensures TookOne(kinds, old(Shot()), Shot(), m, p)
    {
      hide Balanced, CurrentSwitches.Valid, Asked, OneMore;
      if KindNow(kinds, m, pstates[m]) == Computation && kinds(m, p) == Computation {
        pstates := pstates[m := At(p)];
        var found := Answer(m, p, rest);
      } else if KindNow(kinds, m, pstates[m]) == Transition || kinds(m, p) == Transition {
        Passed(current.requests, current.reports, processes, mailbox, passed, rest, m, p);
        passed := OneMore(passed, p, m);
      } else {
        Started(current.requests, current.reports, processes, mailbox, passed, rest, m, p);
        pstates := pstates[m := Between];
        processes := processes[m := p];
      }
    }

    ghost function Shot(): Snapshot
      reads this
    {
      Snapshot(pstates, processes, passed)
    }

    /** server_on_pstate_modification: ok is false where it insists that a sleeping machine is asked to compute. */
    method PstateModificationTaken(machines: seq<int>, p: int) returns (ok: bool)
      requires Valid() && machines != [] && Distinct(machines) && forall m :: m in machines ==> m in pstates
      modifies this, current
      ensures ok <==> forall m :: m in machines ==> Allowed(kinds, m, old(pstates)[m], p)
      ensures ok ==> Valid() && mailbox == old(mailbox) && After(kinds, old(Shot()), Shot(), SetOf(machines), p)
      ensures ok ==> current.requests
                     == old(current.requests)[p := Requests(old(current.requests), p) + [SetOf(machines)]]
    {
      ghost var before, mailbox0 := Shot(), mailbox;
      hide Balanced, CurrentSwitches.Valid, Asked, Requests, Pending, After, Allowed;
      Filed(current.requests, current.reports, processes, mailbox, passed, machines, p);
      assert machines[0] in SetOf(machines);
      current.AddSwitch(SetOf(machines), p);
      assert machines[0..] == machines;
      NothingTaken(kinds, before, p);
      for i := 0 to |machines|
        invariant current.Valid() && InTransition() && Counted(Pending(machines[i..], p)) && mailbox == mailbox0
        invariant current.requests
               == old(current.requests)[p := Requests(old(current.requests), p) + [SetOf(machines)]]
        invariant After(kinds, before, Shot(), SetOf(machines[..i]), p)
        invariant forall k :: 0 <= k < i ==> Allowed(kinds, machines[k], before.pstates[machines[k]], p)
      {
        PendingNext(machines, i, p);
        TakenNext(machines, i);
        Untaken(kinds, before, Shot(), SetOf(machines[..i]), machines[i], p);
        if !Allowed(kinds, machines[i], pstates[machines[i]], p) {
          return false;
        }
        ghost var shot := Shot();
        TakeMachine(machines[i], p, Pending(machines[i + 1..], p));
        OneTaken(kinds, before, shot, Shot(), SetOf(machines[..i]), machines[i], p);
      }
      assert machines[..|machines|] == machines;
      NothingPending(machines, p);
      return true;
    }
  }

  function SetOf(machines: seq<int>): set<int> {
    set m | m in machines
  }

  lemma NothingPending(machines: seq<int>, p: int)
    ensures Pending(machines[|machines|..], p) == multiset{}
  {
  }

  /** The machines, the processes, and who was passed over. */
  datatype Snapshot = Snapshot(pstates: map<int, Pstate>, processes: map<int, int>, passed: map<int, multiset<int>>)

  /** What the request did to the machines taken so far, and to no others. */
  ghost predicate After(kinds: Kinds, a: Snapshot, b: Snapshot, taken: set<int>, p: int) {
    && taken <= b.pstates.Keys == a.pstates.Keys
    && (forall m :: m in a.pstates ==>
          b.pstates[m] == if m in taken then NextPstate(kinds, m, a.pstates[m], p) else a.pstates[m])
    && ProcessesAfter(kinds, a, b.processes, taken, p) && PassedAfter(kinds, a, b.passed, taken, p)
  }

  ghost predicate ProcessesAfter(kinds: Kinds, a: Snapshot, processes: map<int, int>, taken: set<int>, p: int)
    requires taken <= a.pstates.Keys
  {
    && (forall m :: m in processes <==> m in a.processes || (m in taken && StartsProcess(kinds, m, a.pstates[m], p)))
    && (forall m :: m in processes ==>
          processes[m] == if m in a.processes && !(m in taken && StartsProcess(kinds, m, a.pstates[m], p))
                          then a.processes[m] else p)
  }

  ghost predicate PassedAfter(kinds: Kinds, a: Snapshot, passed: map<int, multiset<int>>, taken: set<int>, p: int)
    requires taken <= a.pstates.Keys
  {
    forall q, m {:trigger Reports(passed, q)[m]} ::
      Reports(passed, q)[m] == Reports(a.passed, q)[m]
      + if q == p && m in taken && PassedOver(kinds, m, a.pstates[m], p) then 1 else 0
  }

  /** What one turn of the loop does. */
  ghost predicate TookOne(kinds: Kinds, a: Snapshot, b: Snapshot, m: int, p: int)
    requires m in a.pstates
  {
    var now := a.pstates[m];
    && b.pstates == a.pstates[m := NextPstate(kinds, m, now, p)]
    && b.processes == (if StartsProcess(kinds, m, now, p) then a.processes[m := p] else a.processes)
    && b.passed == (if PassedOver(kinds, m, now, p) then OneMore(a.passed, p, m) else a.passed)
  }

  lemma NothingTaken(kinds: Kinds, a: Snapshot, p: int)
    ensures After(kinds, a, a, {}, p)
    ensures forall machines: seq<int> :: SetOf(machines[..0]) == {}
  {
  }

  lemma TakenNext(machines: seq<int>, i: nat)
    requires i < |machines| && Distinct(machines)
    ensures SetOf(machines[..i + 1]) == SetOf(machines[..i]) + {machines[i]} && machines[i] !in SetOf(machines[..i])
    ensures machines[i] in machines
  {
    assert machines[..i + 1] == machines[..i] + [machines[i]];
    forall k | 0 <= k < i ensures machines[..i][k] != machines[i] {}
  }

  lemma Untaken(kinds: Kinds, a: Snapshot, b: Snapshot, taken: set<int>, m: int, p: int)
    requires After(kinds, a, b, taken, p) && m in a.pstates && m !in taken
    ensures m in b.pstates && b.pstates[m] == a.pstates[m]
  {
    hide ProcessesAfter, PassedAfter, NextPstate;
  }

  lemma OneTaken(kinds: Kinds, a: Snapshot, b: Snapshot, c: Snapshot, taken: set<int>, m: int, p: int)
    requires After(kinds, a, b, taken, p) && m in a.pstates && m in b.pstates && m !in taken
    requires b.pstates[m] == a.pstates[m] && TookOne(kinds, b, c, m, p)
    ensures After(kinds, a, c, taken + {m}, p)
  {
    hide PassedOver, StartsProcess, NextPstate, OneMore, PassedAfter;
    OnePassed(kinds, a, b, c, taken, m, p);
  }

  lemma OnePassed(kinds: Kinds, a: Snapshot, b: Snapshot, c: Snapshot, taken: set<int>, m: int, p: int)
    requires taken <= a.pstates.Keys && m in a.pstates && m !in taken && PassedAfter(kinds, a, b.passed, taken, p)
    requires c.passed == if PassedOver(kinds, m, a.pstates[m], p) then OneMore(b.passed, p, m) else b.passed
    ensures PassedAfter(kinds, a, c.passed, taken + {m}, p)
  {
    hide PassedOver, OneMore, Reports;
    forall q, x ensures Reports(c.passed, q)[x] == Reports(b.passed, q)[x]
                        + if q == p && x == m && PassedOver(kinds, m, a.pstates[m], p) then 1 else 0
    {
      OneMoreCounts(b.passed, p, m, q, x);
    }
  }

  /** What becomes of a machine of the request, by the kinds of its old and its new power state: a switch between
      computing and sleeping takes a process, one between two computation states is made at once, and whoever is in
      transition, or asked to be, is passed over. */
  lemma WhatBecomes(kinds: Kinds, a: Snapshot, b: Snapshot, taken: set<int>, p: int, m: int, q: int)
    requires After(kinds, a, b, taken, p) && m in taken && Allowed(kinds, m, a.pstates[m], p)
    ensures m in a.pstates && m in b.pstates
    ensures a.pstates[m] == At(q) && ((kinds(m, q) == Sleep && kinds(m, p) == Computation)
                                      || (kinds(m, q) == Computation && kinds(m, p) == Sleep)) ==>
              && b.pstates[m] == Between && m in b.processes && b.processes[m] == p
              && Reports(b.passed, p)[m] == Reports(a.passed, p)[m]
    ensures a.pstates[m] == At(q) && kinds(m, q) == Computation && kinds(m, p) == Computation ==>
              && b.pstates[m] == At(p) && (m in b.processes <==> m in a.processes)
              && Reports(b.passed, p)[m] == Reports(a.passed, p)[m]
    ensures a.pstates[m] == Between || (a.pstates[m] == At(q) && kinds(m, q) == Transition)
            || (a.pstates[m] == At(q) && kinds(m, q) == Computation && kinds(m, p) == Transition) ==>
              && b.pstates[m] == a.pstates[m] && (m in b.processes <==> m in a.processes)
              && (m in a.processes ==> b.processes[m] == a.processes[m])
              && Reports(b.passed, p)[m] == Reports(a.passed, p)[m] + 1
  {
    assert PassedAfter(kinds, a, b.passed, taken, p) && ProcessesAfter(kinds, a, b.processes, taken, p);
    hide Reports, After;
  }

  /** Only the machines of the request change, and only their counts for the state asked for. */
  lemma OthersStay(kinds: Kinds, a: Snapshot, b: Snapshot, taken: set<int>, p: int, m: int, q: int)
    requires After(kinds, a, b, taken, p)
    ensures m !in taken ==>
              && (m in b.pstates <==> m in a.pstates) && (m in a.pstates ==> b.pstates[m] == a.pstates[m])
              && (m in b.processes <==> m in a.processes) && (m in a.processes ==> b.processes[m] == a.processes[m])
    ensures m !in taken || q != p ==> Reports(b.passed, q)[m] == Reports(a.passed, q)[m]
  {
    assert PassedAfter(kinds, a, b.passed, taken, p) && ProcessesAfter(kinds, a, b.processes, taken, p);
    hide Reports;
  }

  // ----- acknowledgements -----

  lemma AckedIffAnswered(w: CurrentSwitches, p: int, r: nat)
    requires w.Valid() && r < |Requests(w.requests, p)|
    ensures var reqs, reps := Requests(w.requests, p), Reports(w.reports, p);
            Ack(p, r, reqs[r]) in w.acks <==> forall m :: m in reqs[r] ==> reps[m] >= Asked(reqs, m, r + 1)
  {
    assert CorrectFor(w.switches, w.requests, w.reports, w.acks, p);
    hide CorrectFor, ListsFor, Asked;
    var reqs, reps := Requests(w.requests, p), Reports(w.reports, p);
    AcksOf(w, p);
    var waiting := Unanswered(reqs, reps, r);
    assert forall m :: m in waiting <==> m in reqs[r] && reps[m] < Asked(reqs, m, r + 1);
    if waiting == {} {
      forall m | m in reqs[r] ensures reps[m] >= Asked(reqs, m, r + 1) { assert m !in waiting; }
    } else {
      var m :| m in waiting;
    }
  }

  lemma AcksOf(w: CurrentSwitches, p: int)
    requires CorrectFor(w.switches, w.requests, w.reports, w.acks, p)
    ensures AcksFor(w.acks, p, Requests(w.requests, p), Reports(w.reports, p))
  {
  }

  lemma QuietCounts(w: PowerStates, p: int, m: int)
    requires w.Valid() && w.Quiet()
    ensures var reqs := Requests(w.current.requests, p);
            Asked(reqs, m, |reqs|) == Reports(w.current.reports, p)[m] + Reports(w.passed, p)[m]
  {
    hide Asked, CurrentSwitches.Valid, Balanced;
    AtOne(w.current.requests, w.current.reports, w.processes, w.mailbox, w.passed, multiset{}, p, m);
  }

  /** Once all processes ended and their reports were handled, a request is acknowledged if and only if for each
      of its machines there were at least as many later requests for the same state as the machine was passed
      over: a machine's later reports make up for those that never come. */
  lemma AcknowledgedWhenQuiet(w: PowerStates, p: int, r: nat)
    requires w.Valid() && w.Quiet() && r < |Requests(w.current.requests, p)|
    ensures var reqs := Requests(w.current.requests, p);
            Ack(p, r, reqs[r]) in w.current.acks <==>
            forall m :: m in reqs[r] ==> Asked(reqs, m, r + 1) + Reports(w.passed, p)[m] <= Asked(reqs, m, |reqs|)
  {
    AckedIffAnswered(w.current, p, r);
    forall m { QuietCounts(w, p, m); }
    hide Asked, Requests, Reports, CurrentSwitches.Valid, PowerStates.Valid;
  }

  /** So a request whose machines were not passed over before, and are not asked for this state again, is
      acknowledged if and only if none of its machines was passed over when it was taken. */
  lemma RequestAcknowledged(w: PowerStates, machines: seq<int>, p: int, r: nat, a: Snapshot, b: Snapshot)
    requires w.Valid() && w.Quiet() && r < |Requests(w.current.requests, p)|
    requires Requests(w.current.requests, p)[r] == SetOf(machines) && After(w.kinds, a, b, SetOf(machines), p)
    requires forall m :: m in machines ==>
               && Reports(a.passed, p)[m] == 0 && Reports(w.passed, p)[m] == Reports(b.passed, p)[m]
               && Asked(Requests(w.current.requests, p), m, |Requests(w.current.requests, p)|)
                  == Asked(Requests(w.current.requests, p), m, r + 1)
    ensures Ack(p, r, SetOf(machines)) in w.current.acks <==>
            forall m :: m in machines ==> m in a.pstates && !PassedOver(w.kinds, m, a.pstates[m], p)
  {
    AcknowledgedWhenQuiet(w, p, r);
    hide Asked, Requests, Reports, CurrentSwitches.Valid, PowerStates.Valid, ProcessesAfter, PassedOver, NextPstate;
    forall m | m in machines ensures m in a.pstates
      && (Reports(w.passed, p)[m] == 0 <==> !PassedOver(w.kinds, m, a.pstates[m], p))
    {
      assert m in SetOf(machines);
    }
  }

  /** A request for one machine. */
  lemma AfterOne(kinds: Kinds, a: Snapshot, b: Snapshot, m: int, p: int)
    requires After(kinds, a, b, SetOf([m]), p)
    ensures m in a.pstates && b.pstates == a.pstates[m := NextPstate(kinds, m, a.pstates[m], p)]
    ensures b.processes == if StartsProcess(kinds, m, a.pstates[m], p) then a.processes[m := p] else a.processes
    ensures Reports(b.passed, p)[m] == Reports(a.passed, p)[m] + if PassedOver(kinds, m, a.pstates[m], p) then 1 else 0
  {
    hide Reports;
    assert SetOf([m]) == {m} && m in {m};
    var pstates := a.pstates[m := NextPstate(kinds, m, a.pstates[m], p)];
    assert b.pstates == pstates by {
      forall x | x in pstates ensures x in b.pstates && b.pstates[x] == pstates[x] { assert x in a.pstates; }
    }
    var processes := if StartsProcess(kinds, m, a.pstates[m], p) then a.processes[m := p] else a.processes;
    assert b.processes == processes by {
      forall x ensures x in b.processes <==> x in processes { assert x in {m} <==> x == m; }
      forall x | x in processes ensures b.processes[x] == processes[x] { assert x in b.processes; }
    }
    assert PassedAfter(kinds, a, b.passed, {m}, p);
  }

  /** Machine 0 is asked to sleep ... */
  method AskedToSleep() returns (w: PowerStates)
    ensures fresh(w) && fresh(w.current) && w.Valid() && w.mailbox == [] && w.processes == map[0 := 1]
    ensures w.pstates == map[0 := Between] && w.kinds(0, 0) == Computation && Reports(w.passed, 0)[0] == 0
    ensures Requests(w.current.requests, 0) == []
  {
    w := new PowerStates((m, p) => if p == 1 then Sleep else Computation, map[0 := At(0)]);
    hide PowerStates.Valid, CurrentSwitches.Valid, Asked, After;
    ghost var before := w.Shot();
    assert [0][0] == 0;
    var ok := w.PstateModificationTaken([0], 1);
    AfterOne(w.kinds, before, w.Shot(), 0, 1);
    PassedElsewhere(w.kinds, before, w.Shot(), 0, 1, 0);
  }

  lemma PassedElsewhere(kinds: Kinds, a: Snapshot, b: Snapshot, m: int, p: int, q: int)
    requires After(kinds, a, b, SetOf([m]), p) && q != p
    ensures Reports(b.passed, q)[m] == Reports(a.passed, q)[m]
  {
    assert PassedAfter(kinds, a, b.passed, SetOf([m]), p);
  }

  /** ... and to compute again before it sleeps: this request is never acknowledged, though all is quiet. */
  method PassedOverForEver() returns (w: PowerStates)
    ensures w.Valid() && w.Quiet() && Requests(w.current.requests, 0) == [{0}]
    ensures Ack(0, 0, {0}) !in w.current.acks
  {
    w := AskedToSleep();
    hide PowerStates.Valid, CurrentSwitches.Valid, Asked, After;
    ghost var before := w.Shot();
    assert [0][0] == 0 && SetOf([0]) == {0};
    var ok := w.PstateModificationTaken([0], 0);
    AfterOne(w.kinds, before, w.Shot(), 0, 0);
    w.ProcessEnds(0);
    var found;
    ok, found := w.SwitchedTaken();
    AskedOnce(Requests(w.current.requests, 0));
    AcknowledgedWhenQuiet(w, 0, 0);
  }

  lemma AskedOnce(requests: seq<set<int>>)
    requires requests == [{0}]
    ensures Asked(requests, 0, 1) == 1
  {
    assert Asked(requests, 0, 0) == 0;
  }

  /** Machine 0 sleeps and is asked to compute: when its process ended, the request is acknowledged. */
  method WokenUp() returns (w: PowerStates)
    ensures w.Valid() && w.Quiet() && Requests(w.current.requests, 0) == [{0}] && w.pstates == map[0 := At(0)]
    ensures Ack(0, 0, {0}) in w.current.acks
  {
    w := new PowerStates((m, p) => if p == 1 then Sleep else Computation, map[0 := At(1)]);
    hide PowerStates.Valid, CurrentSwitches.Valid, Asked, After;
    ghost var before := w.Shot();
    assert [0][0] == 0 && SetOf([0]) == {0};
    var ok := w.PstateModificationTaken([0], 0);
    AfterOne(w.kinds, before, w.Shot(), 0, 0);
    w.ProcessEnds(0);
    var found;
    ok, found := w.SwitchedTaken();
    AskedOnce(Requests(w.current.requests, 0));
    AcknowledgedWhenQuiet(w, 0, 0);
  }
}
