/** Requested power-state switches. The k-th report that a machine reached a power state answers the k-th
    request that asked it to; a request is acknowledged when all its machines have answered it. */
module Switches {

  datatype Switch = Switch(targetPstate: int, allMachines: set<int>, switchingMachines: set<int>)

  // ----- requests and reports for one power state -----

  /** How many of the first n requests ask machine m. */
  ghost function Asked(requests: seq<set<int>>, m: int, n: nat): nat
    requires n <= |requests|
  {
    if n == 0 then 0 else Asked(requests, m, n - 1) + if m in requests[n - 1] then 1 else 0
  }

  /** The machines that have not answered request r. */
  ghost function Unanswered(requests: seq<set<int>>, reports: multiset<int>, r: nat): set<int>
    requires r < |requests|
  {
    set m | m in requests[r] && reports[m] < Asked(requests, m, r + 1)
  }

  /** The requests among the first n that are not answered by all their machines. */
  ghost function Open(p: int, requests: seq<set<int>>, reports: multiset<int>, n: nat): seq<Switch>
    requires n <= |requests|
  {
    if n == 0 then []
    else
      var waiting := Unanswered(requests, reports, n - 1);
      Open(p, requests, reports, n - 1) + if waiting == {} then [] else [Switch(p, requests[n - 1], waiting)]
  }

  /** The request that machine m reports for next. */
  ghost predicate AnswersNext(requests: seq<set<int>>, reports: multiset<int>, m: int, r: nat) {
    r < |requests| && m in requests[r] && Asked(requests, m, r + 1) == reports[m] + 1
  }

  /** No machine reported more often than it was asked. */
  ghost predicate Expected(requests: seq<set<int>>, reports: multiset<int>) {
    forall m :: reports[m] <= Asked(requests, m, |requests|)
  }

  lemma {:induction false} AskedGrows(requests: seq<set<int>>, m: int, i: nat, n: nat)
    requires i <= n <= |requests|
    ensures Asked(requests, m, i) <= Asked(requests, m, n)
  {
    if i < n { AskedGrows(requests, m, i, n - 1); }
  }

  lemma {:induction false} AskedPrefix(requests: seq<set<int>>, x: set<int>, m: int, n: nat)
    requires n <= |requests|
    ensures Asked(requests + [x], m, n) == Asked(requests, m, n)
  {
    if n > 0 { AskedPrefix(requests, x, m, n - 1); }
  }

  lemma {:induction false} OpenPrefix(p: int, requests: seq<set<int>>, x: set<int>, reports: multiset<int>, n: nat)
    requires n <= |requests|
    ensures Open(p, requests + [x], reports, n) == Open(p, requests, reports, n)
  {
    if n > 0 {
      OpenPrefix(p, requests, x, reports, n - 1);
      forall m { AskedPrefix(requests, x, m, n); }
      assert Unanswered(requests + [x], reports, n - 1) == Unanswered(requests, reports, n - 1);
    }
  }

  /** A new request is open for all its machines. */
  lemma OpenNew(p: int, requests: seq<set<int>>, x: set<int>, reports: multiset<int>)
    requires Expected(requests, reports) && x != {}
    ensures Expected(requests + [x], reports)
    ensures Unanswered(requests + [x], reports, |requests|) == x
    ensures Open(p, requests + [x], reports, |requests| + 1)
            == Open(p, requests, reports, |requests|) + [Switch(p, x, x)]
  {
    OpenPrefix(p, requests, x, reports, |requests|);
    forall m ensures Asked(requests + [x], m, |requests|) == Asked(requests, m, |requests|) {
      AskedPrefix(requests, x, m, |requests|);
    }
  }

  // ----- a report -----

  /** The position of the first switch that still waits for machine m. */
  function FirstWaiting(list: seq<Switch>, m: int): (i: nat)
    ensures i <= |list| && (forall k :: 0 <= k < i ==> m !in list[k].switchingMachines)
    ensures i < |list| ==> m in list[i].switchingMachines
  {
    if list == [] || m in list[0].switchingMachines then 0 else 1 + FirstWaiting(list[1..], m)
  }

  lemma FirstIs(list: seq<Switch>, m: int, i: nat)
    requires i <= |list| && (forall k :: 0 <= k < i ==> m !in list[k].switchingMachines)
    requires i < |list| ==> m in list[i].switchingMachines
    ensures FirstWaiting(list, m) == i
  {
  }

  /** The switch without machine m, gone if it waits for nobody else. */
  function Without(s: Switch, m: int): seq<Switch> {
    if s.switchingMachines - {m} == {} then [] else [s.(switchingMachines := s.switchingMachines - {m})]
  }

  function Marked(list: seq<Switch>, m: int): seq<Switch> {
    var i := FirstWaiting(list, m);
    if i == |list| then list else list[..i] + Without(list[i], m) + list[i + 1..]
  }

  lemma MarkedLast(list: seq<Switch>, x: seq<Switch>, m: int)
    requires |x| <= 1
    ensures Marked(list + x, m) == if FirstWaiting(list, m) < |list| then Marked(list, m) + x
                                   else if |x| == 1 && m in x[0].switchingMachines then list + Without(x[0], m)
                                   else list + x
  {
    hide FirstWaiting;
    var i := FirstWaiting(list, m);
    var all := list + x;
    if i < |list| {
      FirstIs(all, m, i);
      assert all[..i] == list[..i] && all[i + 1..] == list[i + 1..] + x;
    } else if |x| == 1 && m in x[0].switchingMachines {
      FirstIs(all, m, |list|);
      assert all[..|list|] == list && all[|list| + 1..] == [];
    } else {
      FirstIs(all, m, |all|);
    }
  }

  /** Whom a report takes from the unanswered ones. */
  lemma ReportTakes(requests: seq<set<int>>, reports: multiset<int>, m: int, r: nat)
    requires r < |requests|
    ensures Unanswered(requests, reports + multiset{m}, r)
         == Unanswered(requests, reports, r) - if AnswersNext(requests, reports, m, r) then {m} else {}
    ensures AnswersNext(requests, reports, m, r) ==> m in Unanswered(requests, reports, r)
  {
  }

  lemma LastAnswers(requests: seq<set<int>>, reports: multiset<int>, m: int, r: nat)
    requires r < |requests|
    ensures AnswersNext(requests, reports, m, r) <==>
            m in Unanswered(requests, reports, r) && reports[m] >= Asked(requests, m, r)
    ensures reports[m] < Asked(requests, m, r + 1) <==>
            reports[m] < Asked(requests, m, r) || m in Unanswered(requests, reports, r)
  {
  }

  /** Marking the first waiting switch is what a report means for the open requests. */
  lemma {:induction false} MarkedOpen(p: int, requests: seq<set<int>>, reports: multiset<int>, m: int, n: nat)
    requires n <= |requests|
    ensures var list := Open(p, requests, reports, n);
            && Marked(list, m) == Open(p, requests, reports + multiset{m}, n)
            && (FirstWaiting(list, m) < |list| <==> reports[m] < Asked(requests, m, n))
  {
    var list := Open(p, requests, reports, n);
    if n == 0 {
      assert list == [];
    } else {
      hide Marked, FirstWaiting, Unanswered, AnswersNext;
      MarkedOpen(p, requests, reports, m, n - 1);
      LastAnswers(requests, reports, m, n - 1);
      var waiting := Unanswered(requests, reports, n - 1);
      var last := if waiting == {} then [] else [Switch(p, requests[n - 1], waiting)];
      var before, reports' := Open(p, requests, reports, n - 1), reports + multiset{m};
      var waiting' := Unanswered(requests, reports', n - 1);
      var last' := if waiting' == {} then [] else [Switch(p, requests[n - 1], waiting')];
      assert list == before + last && Open(p, requests, reports', n) == Open(p, requests, reports', n - 1) + last';
      ReportTakes(requests, reports, m, n - 1);
      MarkedLast(before, last, m);
      WaitingLast(before, last, m);
      if FirstWaiting(before, m) < |before| || m !in waiting {
        assert waiting' == waiting;
      } else {
        assert last' == Without(last[0], m);
      }
    }
  }

  lemma WaitingLast(list: seq<Switch>, x: seq<Switch>, m: int)
    requires |x| <= 1
    ensures FirstWaiting(list + x, m) < |list + x|
       <==> FirstWaiting(list, m) < |list| || (|x| == 1 && m in x[0].switchingMachines)
  {
    var i := FirstWaiting(list + x, m);
    if FirstWaiting(list, m) < |list| {
      FirstIs(list + x, m, FirstWaiting(list, m));
    } else if |x| == 1 && m in x[0].switchingMachines {
      FirstIs(list + x, m, |list|);
    } else {
      FirstIs(list + x, m, |list + x|);
    }
  }

  /** The first waiting switch is the request the machine answers. */
  lemma {:induction false} FirstIsNext(p: int, requests: seq<set<int>>, reports: multiset<int>, m: int, n: nat)
      returns (r: nat)
    requires n <= |requests| && reports[m] < Asked(requests, m, n)
    ensures r < n && AnswersNext(requests, reports, m, r)
    ensures var list := Open(p, requests, reports, n); var i := FirstWaiting(list, m);
            i < |list| && list[i] == Switch(p, requests[r], Unanswered(requests, reports, r))
  {
    var before := Open(p, requests, reports, n - 1);
    var waiting := Unanswered(requests, reports, n - 1);
    var last := if waiting == {} then [] else [Switch(p, requests[n - 1], waiting)];
    assert Open(p, requests, reports, n) == before + last;
    MarkedOpen(p, requests, reports, m, n - 1);
    hide Open, FirstWaiting;
    if reports[m] < Asked(requests, m, n - 1) {
      r := FirstIsNext(p, requests, reports, m, n - 1);
      FirstIs(before + last, m, FirstWaiting(before, m));
    } else {
      r := n - 1;
      assert m in waiting;
      FirstIs(before + last, m, |before|);
    }
  }

  lemma {:induction false} NextIsUnique(requests: seq<set<int>>, reports: multiset<int>, m: int, r: nat, r': nat)
    requires AnswersNext(requests, reports, m, r) && AnswersNext(requests, reports, m, r')
    ensures r == r'
  {
    if r < r' {
      AskedGrows(requests, m, r + 1, r');
    } else if r' < r {
      AskedGrows(requests, m, r' + 1, r);
    }
  }

  /** If every machine reported as often as it was asked, nothing is open. */
  lemma {:induction false} NothingOpen(p: int, requests: seq<set<int>>, reports: multiset<int>, n: nat)
    requires n <= |requests| && forall m :: reports[m] == Asked(requests, m, |requests|)
    ensures Open(p, requests, reports, n) == []
  {
    if n > 0 {
      NothingOpen(p, requests, reports, n - 1);
      forall m { AskedGrows(requests, m, n, |requests|); }
    }
  }

  // ----- CurrentSwitches -----

  /** The acknowledgement of the r-th request for a power state. */
  datatype Ack = Ack(pstate: int, request: nat, machines: set<int>)

  class CurrentSwitches {
    var switches: map<int, seq<Switch>>
    // history: the requests and the reports for each power state, and what was acknowledged
    ghost var requests: map<int, seq<set<int>>>
    ghost var reports: map<int, multiset<int>>
    ghost var acks: seq<Ack>

    constructor ()
      ensures Valid() && switches == map[] && requests == map[] && reports == map[] && acks == []
    {
      switches, requests, reports, acks := map[], map[], map[], [];
    }

    ghost predicate Valid()
      reads this
    {
      Correct(switches, requests, reports, acks)
    }

    method AddSwitch(machines: set<int>, targetPstate: int)
      requires Valid() && machines != {}
      modifies this
      ensures Valid() && acks == old(acks) && reports == old(reports)
      ensures requests == old(requests)[targetPstate := Requests(old(requests), targetPstate) + [machines]]
    {
      Added(switches, requests, reports, acks, targetPstate, machines);
      var s := Switch(targetPstate, machines, machines);
      if targetPstate in switches {
        switches := switches[targetPstate := switches[targetPstate] + [s]];
      } else {
        switches := switches[targetPstate := [s]];
      }
      requests := requests[targetPstate := Requests(requests, targetPstate) + [machines]];
    }

    /** found is false where the source's last check fails: nobody waits for this report. */
    method MarkSwitchAsDone(machine: int, targetPstate: int)
      returns (found: bool, done: bool, allMachines: set<int>, ghost r: nat)
      requires Valid()
      modifies this
      ensures Valid() && requests == old(requests)
      ensures var reqs, reps := Requests(requests, targetPstate), Reports(old(reports), targetPstate);
              && (found <==> reps[machine] < Asked(reqs, machine, |reqs|))
              && (found ==>
                    && AnswersNext(reqs, reps, machine, r)
                    && (done <==> Unanswered(reqs, reps, r) == {machine})
                    && reports == old(reports)[targetPstate := reps + multiset{machine}]
                    && acks == old(acks) + (if done then [Ack(targetPstate, r, allMachines)] else []))
              && (!found ==> !done && switches == old(switches) && reports == old(reports) && acks == old(acks))
    {
      hide Correct;
      found, done, allMachines, r := false, false, {}, 0;
      Waited(switches, requests, reports, acks, targetPstate, machine);
      if targetPstate !in switches {
        return;
      }
      var list := switches[targetPstate];
      var it := 0;
      while it < |list| && machine !in list[it].switchingMachines
        invariant 0 <= it <= |list| && forall k :: 0 <= k < it ==> machine !in list[k].switchingMachines
      {
        it := it + 1;
      }
      FirstIs(list, machine, it);
      if it == |list| {
        return;
      }
      r := Answered(switches, requests, reports, acks, targetPstate, machine);
      hide Asked, AnswersNext, Unanswered, FirstWaiting;
      found := true;
      var s := list[it];
      var rest := s.switchingMachines - {machine};
      done := rest == {};
      if done {
        list := list[..it] + list[it + 1..];
        if |list| == 0 {
          switches := switches - {targetPstate};
        } else {
          switches := switches[targetPstate := list];
        }
        allMachines := s.allMachines;
        acks := acks + [Ack(targetPstate, r, allMachines)];
      } else {
        list := list[..it] + [s.(switchingMachines := rest)] + list[it + 1..];
        switches := switches[targetPstate := list];
      }
      assert list == Marked(old(switches)[targetPstate], machine);
      assert acks == old(acks) + if done then [Ack(targetPstate, r, allMachines)] else [];
      assert switches == if list == [] then old(switches) - {targetPstate} else old(switches)[targetPstate := list];
      reports := reports[targetPstate := Reports(reports, targetPstate) + multiset{machine}];
    }
  }

  ghost function Requests(requests: map<int, seq<set<int>>>, p: int): seq<set<int>> {
    if p in requests then requests[p] else []
  }

  ghost function Reports(reports: map<int, multiset<int>>, p: int): multiset<int> {
    if p in reports then reports[p] else multiset{}
  }

  ghost predicate CorrectFor(switches: map<int, seq<Switch>>, requests: map<int, seq<set<int>>>,
                             reports: map<int, multiset<int>>, acks: seq<Ack>, p: int)
  {
    && ListsFor(switches, p, Requests(requests, p), Reports(reports, p))
    && AcksFor(acks, p, Requests(requests, p), Reports(reports, p))
  }

  /** The map holds the open requests and nothing else; the others were acknowledged, once each and with
      all their machines. */
  ghost predicate Correct(switches: map<int, seq<Switch>>, requests: map<int, seq<set<int>>>,
                          reports: map<int, multiset<int>>, acks: seq<Ack>)
  {
    && AcksApart(acks) && (forall a :: a in acks ==> AckOf(a, Requests(requests, a.pstate)))
    && forall p :: CorrectFor(switches, requests, reports, acks, p)
  }

  lemma Added(switches: map<int, seq<Switch>>, requests: map<int, seq<set<int>>>, reports: map<int, multiset<int>>,
              acks: seq<Ack>, p: int, x: set<int>)
    requires Correct(switches, requests, reports, acks) && x != {}
    ensures var list := (if p in switches then switches[p] else []) + [Switch(p, x, x)];
            Correct(switches[p := list], requests[p := Requests(requests, p) + [x]], reports, acks)
    ensures [] + [Switch(p, x, x)] == [Switch(p, x, x)]
  {
    var before := Requests(requests, p);
    var switches' := switches[p := (if p in switches then switches[p] else []) + [Switch(p, x, x)]];
    var requests' := requests[p := before + [x]];
    hide Open, Unanswered, Expected, ListsFor, AcksFor;
    assert CorrectFor(switches, requests, reports, acks, p);
    AddedLists(switches, p, before, Reports(reports, p), x);
    AddedAcks(acks, p, before, x, Reports(reports, p));
    forall q ensures CorrectFor(switches', requests', reports, acks, q) {
      assert CorrectFor(switches, requests, reports, acks, q);
      if q != p { SameLists(switches, switches', q, Requests(requests, q), Reports(reports, q)); }
    }
  }

  lemma Waited(switches: map<int, seq<Switch>>, requests: map<int, seq<set<int>>>, reports: map<int, multiset<int>>,
               acks: seq<Ack>, p: int, m: int)
    requires Correct(switches, requests, reports, acks)
    ensures var reqs, reps := Requests(requests, p), Reports(reports, p);
            reps[m] < Asked(reqs, m, |reqs|) <==> p in switches && FirstWaiting(switches[p], m) < |switches[p]|
  {
    assert CorrectFor(switches, requests, reports, acks, p);
    WaitsInList(switches, p, Requests(requests, p), Reports(reports, p), m);
  }

  /** What a report that somebody waits for means. */
  lemma Answered(switches: map<int, seq<Switch>>, requests: map<int, seq<set<int>>>, reports: map<int, multiset<int>>,
                 acks: seq<Ack>, p: int, m: int) returns (r: nat)
    requires Correct(switches, requests, reports, acks)
    requires p in switches && FirstWaiting(switches[p], m) < |switches[p]|
    ensures var reqs, reps := Requests(requests, p), Reports(reports, p);
            && AnswersNext(reqs, reps, m, r)
            && switches[p][FirstWaiting(switches[p], m)] == Switch(p, reqs[r], Unanswered(reqs, reps, r))
            && m in Unanswered(reqs, reps, r)
            && var list := Marked(switches[p], m);
               Correct(if list == [] then switches - {p} else switches[p := list], requests,
                       reports[p := reps + multiset{m}],
                       acks + if Unanswered(reqs, reps, r) - {m} == {} then [Ack(p, r, reqs[r])] else [])
  {
    hide Open, Unanswered, Expected, ListsFor, AcksFor, Marked, FirstWaiting, Asked;
    var reqs, reps := Requests(requests, p), Reports(reports, p);
    assert CorrectFor(switches, requests, reports, acks, p);
    r := MarkedLists(switches, p, reqs, reps, m);
    ReportedAcks(acks, p, reqs, reps, m, r);
    var list := Marked(switches[p], m);
    var switches' := if list == [] then switches - {p} else switches[p := list];
    var reports' := reports[p := reps + multiset{m}];
    assert Unanswered(reqs, reps, r) - {m} == {} <==> Unanswered(reqs, reps, r) == {m};
    var acks' := acks + if Unanswered(reqs, reps, r) - {m} == {} then [Ack(p, r, reqs[r])] else [];
    assert AcksApart(acks') by { ApartMore(acks, p, r, reqs); }
    forall q ensures CorrectFor(switches', requests, reports', acks', q) {
      assert CorrectFor(switches, requests, reports, acks, q);
      if q != p {
        SameLists(switches, switches', q, Requests(requests, q), Reports(reports, q));
        SameAcks(acks, acks', q, Requests(requests, q), Reports(reports, q));
      }
    }
  }

  lemma ApartMore(acks: seq<Ack>, p: int, r: nat, requests: seq<set<int>>)
    requires AcksApart(acks) && r < |requests| && Ack(p, r, requests[r]) !in acks
    requires forall a :: a in acks && a.pstate == p ==> AckOf(a, requests)
    ensures AcksApart(acks + [Ack(p, r, requests[r])])
  {
  }

  /** When every machine has reported each power state as often as it was asked, the map is empty. */
  lemma AllArrived(switches: map<int, seq<Switch>>, requests: map<int, seq<set<int>>>, reports: map<int, multiset<int>>,
                   acks: seq<Ack>)
    requires Correct(switches, requests, reports, acks)
    requires forall p, m :: Reports(reports, p)[m] == Asked(Requests(requests, p), m, |Requests(requests, p)|)
    ensures switches == map[]
    ensures forall p, r: nat :: r < |Requests(requests, p)| ==> Ack(p, r, Requests(requests, p)[r]) in acks
  {
    forall p ensures p !in switches {
      assert CorrectFor(switches, requests, reports, acks, p);
      NothingOpen(p, Requests(requests, p), Reports(reports, p), |Requests(requests, p)|);
    }
    forall p, r: nat | r < |Requests(requests, p)| ensures Ack(p, r, Requests(requests, p)[r]) in acks {
      assert CorrectFor(switches, requests, reports, acks, p);
      AllAnswered(Requests(requests, p), Reports(reports, p), r);
    }
  }

  lemma AllAnswered(requests: seq<set<int>>, reports: multiset<int>, r: nat)
    requires r < |requests| && forall m :: reports[m] == Asked(requests, m, |requests|)
    ensures Unanswered(requests, reports, r) == {}
  {
    var n := r + 1;
    forall m ensures m !in Unanswered(requests, reports, r) { AskedGrows(requests, m, n, |requests|); }
  }

  /** The list for p holds exactly the open requests; there is no empty list. */
  ghost predicate ListsFor(switches: map<int, seq<Switch>>, p: int, requests: seq<set<int>>, reports: multiset<int>) {
    var open := Open(p, requests, reports, |requests|);
    && Expected(requests, reports) && (forall x :: x in requests ==> x != {})
    && (p in switches <==> open != []) && (p in switches ==> switches[p] == open)
  }

  lemma SameLists(switches: map<int, seq<Switch>>, switches': map<int, seq<Switch>>, p: int, requests: seq<set<int>>,
                  reports: multiset<int>)
    requires ListsFor(switches, p, requests, reports)
    requires p in switches' <==> p in switches
    requires p in switches ==> switches'[p] == switches[p]
    ensures ListsFor(switches', p, requests, reports)
  {
  }

  lemma AddedLists(switches: map<int, seq<Switch>>, p: int, requests: seq<set<int>>, reports: multiset<int>,
      x: set<int>)
    requires ListsFor(switches, p, requests, reports) && x != {}
    ensures ListsFor(switches[p := (if p in switches then switches[p] else []) + [Switch(p, x, x)]], p,
                     requests + [x], reports)
    ensures p !in switches ==> ListsFor(switches[p := [Switch(p, x, x)]], p, requests + [x], reports)
    ensures Expected(requests, reports)
  {
    OpenNew(p, requests, x, reports);
    assert [] + [Switch(p, x, x)] == [Switch(p, x, x)];
  }

  lemma WaitsInList(switches: map<int, seq<Switch>>, p: int, requests: seq<set<int>>, reports: multiset<int>, m: int)
    requires ListsFor(switches, p, requests, reports)
    ensures reports[m] < Asked(requests, m, |requests|)
       <==> p in switches && FirstWaiting(switches[p], m) < |switches[p]|
  {
    MarkedOpen(p, requests, reports, m, |requests|);
  }

  lemma MarkedLists(switches: map<int, seq<Switch>>, p: int, requests: seq<set<int>>, reports: multiset<int>, m: int)
    returns (r: nat)
    requires ListsFor(switches, p, requests, reports) && p in switches
    requires FirstWaiting(switches[p], m) < |switches[p]|
    ensures var list := Marked(switches[p], m);
            ListsFor(if list == [] then switches - {p} else switches[p := list], p, requests, reports + multiset{m})
    ensures AnswersNext(requests, reports, m, r)
    ensures r < |requests|
            && switches[p][FirstWaiting(switches[p], m)] == Switch(p, requests[r], Unanswered(requests, reports, r))
    ensures m in Unanswered(requests, reports, r)
  {
    MarkedOpen(p, requests, reports, m, |requests|);
    r := FirstIsNext(p, requests, reports, m, |requests|);
  }

  ghost predicate AcksApart(acks: seq<Ack>) {
    forall i, j :: 0 <= i < j < |acks| ==> acks[i].pstate != acks[j].pstate || acks[i].request != acks[j].request
  }

  ghost predicate AckOf(a: Ack, requests: seq<set<int>>) {
    a.request < |requests| && a.machines == requests[a.request]
  }

  ghost predicate AcksFor(acks: seq<Ack>, p: int, requests: seq<set<int>>, reports: multiset<int>) {
    forall r: nat :: r < |requests| ==> (Unanswered(requests, reports, r) == {} <==> Ack(p, r, requests[r]) in acks)
  }

  lemma SameAcks(acks: seq<Ack>, acks': seq<Ack>, p: int, requests: seq<set<int>>, reports: multiset<int>)
    requires AcksFor(acks, p, requests, reports) && forall a: Ack :: a.pstate == p ==> (a in acks' <==> a in acks)
    ensures AcksFor(acks', p, requests, reports)
  {
  }

  lemma ReportedAcks(acks: seq<Ack>, p: int, requests: seq<set<int>>, reports: multiset<int>, m: int, r: nat)
    requires AcksFor(acks, p, requests, reports) && AnswersNext(requests, reports, m, r)
    ensures m in Unanswered(requests, reports, r) && Ack(p, r, requests[r]) !in acks
    ensures AcksFor(acks + (if Unanswered(requests, reports, r) == {m} then [Ack(p, r, requests[r])] else []),
                    p, requests, reports + multiset{m})
  {
    ReportTakes(requests, reports, m, r);
    var acks' := acks + if Unanswered(requests, reports, r) == {m} then [Ack(p, r, requests[r])] else [];
    forall x: nat | x < |requests|
      ensures Unanswered(requests, reports + multiset{m}, x) == {} <==> Ack(p, x, requests[x]) in acks'
    {
      ReportTakes(requests, reports, m, x);
      if AnswersNext(requests, reports, m, x) {
        NextIsUnique(requests, reports, m, x, r);
      }
    }
  }

  lemma AddedAcks(acks: seq<Ack>, p: int, requests: seq<set<int>>, x: set<int>, reports: multiset<int>)
    requires Expected(requests, reports) && x != {} && AcksFor(acks, p, requests, reports)
    requires forall a :: a in acks && a.pstate == p ==> AckOf(a, requests)
    ensures AcksFor(acks, p, requests + [x], reports)
  {
    OpenNew(p, requests, x, reports);
    forall r: nat | r < |requests| ensures Unanswered(requests + [x], reports, r) == Unanswered(requests, reports, r) {
      var n := r + 1;
      forall m ensures Asked(requests + [x], m, n) == Asked(requests, m, n) { AskedPrefix(requests, x, m, n); }
    }
  }
}
