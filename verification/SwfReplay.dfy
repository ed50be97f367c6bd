/** The replay that gives resources to the jobs of a workload trace: events in order of date, finishes
    before starts, and the first free resources for each starting job. */
module SwfReplay {
  import opened IntervalSets

  datatype Job = Job(nbRes: nat, start: real, finish: real)

  datatype Event = Event(date: real, starts: bool, id: int)

  /** The order of the tuples (date, '0:finish' or '1:start', id). */
  predicate Before(a: Event, b: Event) {
    || a.date < b.date
    || (a.date == b.date && !a.starts && b.starts)
    || (a.date == b.date && a.starts == b.starts && a.id < b.id)
  }

  ghost predicate Started(jobs: map<int, Job>, events: seq<Event>, id: int) {
    id in jobs && Event(jobs[id].start, true, id) in events
  }

  ghost predicate Finished(jobs: map<int, Job>, events: seq<Event>, id: int) {
    id in jobs && Event(jobs[id].finish, false, id) in events
  }

  /** The sorted list of all starts and finishes. */
  ghost predicate AllEvents(jobs: map<int, Job>, events: seq<Event>) {
    && (forall i, k :: 0 <= i < k < |events| ==> Before(events[i], events[k]))
    && (forall e :: e in events ==> e.id in jobs && e.date == if e.starts then jobs[e.id].start else jobs[e.id].finish)
    && (forall id :: id in jobs ==> Started(jobs, events, id) && Finished(jobs, events, id))
  }

  /** The jobs that were started and not finished by the first events. */
  ghost function Running(jobs: map<int, Job>, events: seq<Event>): set<int> {
    set id | id in jobs && Started(jobs, events, id) && !Finished(jobs, events, id)
  }

  ghost function RunningAt(jobs: map<int, Job>, date: real): set<int> {
    set id | id in jobs && jobs[id].start <= date < jobs[id].finish
  }

  /** How many resources the jobs in s need; ids lists all jobs. */
  ghost function Demand(jobs: map<int, Job>, ids: seq<int>, s: set<int>): nat {
    if ids == [] then 0
    else Demand(jobs, ids[..|ids| - 1], s)
         + if ids[|ids| - 1] in s && ids[|ids| - 1] in jobs then jobs[ids[|ids| - 1]].nbRes else 0
  }

  ghost predicate Lists(jobs: map<int, Job>, ids: seq<int>) {
    && (forall i, k :: 0 <= i < k < |ids| ==> ids[i] != ids[k])
    && forall id :: id in ids <==> id in jobs
  }

  ghost predicate Durations(jobs: map<int, Job>) {
    forall id :: id in jobs ==> jobs[id].start < jobs[id].finish
  }

  lemma {:induction false} DemandWith(jobs: map<int, Job>, ids: seq<int>, s: set<int>, id: int)
    requires (forall i, k :: 0 <= i < k < |ids| ==> ids[i] != ids[k]) && id in jobs && id !in s
    ensures Demand(jobs, ids, s + {id}) == Demand(jobs, ids, s) + if id in ids then jobs[id].nbRes else 0
  {
    if ids != [] {
      var n := |ids| - 1;
      DemandWith(jobs, ids[..n], s, id);
      assert ids == ids[..n] + [ids[n]];
    }
  }

  lemma {:induction false} DemandGrows(jobs: map<int, Job>, ids: seq<int>, s: set<int>, t: set<int>)
    requires s <= t
    ensures Demand(jobs, ids, s) <= Demand(jobs, ids, t)
  {
    if ids != [] {
      DemandGrows(jobs, ids[..|ids| - 1], s, t);
    }
  }

  lemma {:induction false} DemandOfNone(jobs: map<int, Job>, ids: seq<int>)
    ensures Demand(jobs, ids, {}) == 0
  {
    if ids != [] {
      DemandOfNone(jobs, ids[..|ids| - 1]);
    }
  }

  // ----- events and dates -----

  lemma EventsOnce(jobs: map<int, Job>, events: seq<Event>, i: nat, k: nat)
    requires AllEvents(jobs, events) && i < |events| && k < |events| && events[i] == events[k]
    ensures i == k
  {
  }

  lemma EventAt(jobs: map<int, Job>, events: seq<Event>, e: Event, i: nat)
    requires AllEvents(jobs, events) && e in events && i < |events|
    ensures e in events[..i] <==> Before(e, events[i])
  {
    var k :| 0 <= k < |events| && events[k] == e;
    if k < i {
      assert events[..i][k] == e;
      assert Before(events[k], events[i]);
    } else if i < k {
      assert Before(events[i], events[k]);
    }
    if e in events[..i] {
      var x :| 0 <= x < i && events[x] == e;
      EventsOnce(jobs, events, x, k);
    }
  }

  /** Taking a start makes its job run, taking a finish ends it. */
  lemma NextRunning(jobs: map<int, Job>, events: seq<Event>, i: nat)
    requires AllEvents(jobs, events) && Durations(jobs) && i < |events|
    ensures var e, before := events[i], Running(jobs, events[..i]);
            && (if e.starts then e.id !in before && !Started(jobs, events[..i], e.id) else e.id in before)
            && Running(jobs, events[..i + 1]) == if e.starts then before + {e.id} else before - {e.id}
  {
    var e, j := events[i], jobs[events[i].id];
    assert events[..i + 1] == events[..i] + [e];
    EventAt(jobs, events, e, i);
    assert Started(jobs, events, e.id) && Finished(jobs, events, e.id);
    EventAt(jobs, events, Event(j.start, true, e.id), i);
    EventAt(jobs, events, Event(j.finish, false, e.id), i);
  }

  /** After a start, the running jobs are among those running at its date. */
  lemma StartsWithinDate(jobs: map<int, Job>, events: seq<Event>, i: nat)
    requires AllEvents(jobs, events) && i < |events| && events[i].starts && Durations(jobs)
    ensures Running(jobs, events[..i + 1]) <= RunningAt(jobs, events[i].date)
  {
    var e := events[i];
    assert events[..i + 1] == events[..i] + [e];
    forall id | id in Running(jobs, events[..i + 1]) ensures jobs[id].start <= e.date < jobs[id].finish {
      assert Started(jobs, events, id) && Finished(jobs, events, id);
      EventAt(jobs, events, Event(jobs[id].start, true, id), i);
      EventAt(jobs, events, Event(jobs[id].finish, false, id), i);
    }
  }

  /** The number of events up to a date. */
  ghost function UpTo(events: seq<Event>, date: real): (n: nat)
    ensures n <= |events|
    ensures n < |events| ==> events[n].date > date
    ensures forall i :: 0 <= i < n ==> events[i].date <= date
  {
    if events == [] || events[0].date > date then 0 else 1 + UpTo(events[1..], date)
  }

  /** After all events up to a date, exactly the jobs of that date run. */
  lemma RunningAtDate(jobs: map<int, Job>, events: seq<Event>, date: real)
    requires AllEvents(jobs, events)
    ensures Running(jobs, events[..UpTo(events, date)]) == RunningAt(jobs, date)
  {
    var n := UpTo(events, date);
    forall id | id in jobs
      ensures Started(jobs, events[..n], id) <==> jobs[id].start <= date
      ensures Finished(jobs, events[..n], id) <==> jobs[id].finish <= date
    {
      assert Started(jobs, events, id) && Finished(jobs, events, id);
      UpToDate(jobs, events, date, Event(jobs[id].start, true, id));
      UpToDate(jobs, events, date, Event(jobs[id].finish, false, id));
    }
  }

  lemma UpToDate(jobs: map<int, Job>, events: seq<Event>, date: real, e: Event)
    requires AllEvents(jobs, events) && e in events
    ensures e in events[..UpTo(events, date)] <==> e.date <= date
  {
    var n := UpTo(events, date);
    var k :| 0 <= k < |events| && events[k] == e;
    if k < n {
      assert events[..n][k] == e;
    } else {
      assert n == k || Before(events[n], events[k]);
    }
  }

  // ----- resources -----

  ghost predicate Apart(a: IntervalSet, b: IntervalSet) {
    forall x :: x in a ==> x !in b
  }

  /** The free resources and those of the running jobs are a partition of 0 .. nbRes - 1. */
  ghost predicate Partition(nbRes: nat, available: IntervalSet, resources: map<int, IntervalSet>, running: set<int>) {
    && running <= resources.Keys
    && (forall id :: id in running ==> Apart(available, resources[id]))
    && (forall a, b :: a in running && b in running && a != b ==> Apart(resources[a], resources[b]))
    && forall x :: 0 <= x < nbRes <==> x in available || exists id :: id in running && x in resources[id]
  }

  ghost predicate Overlap(a: Job, b: Job) {
    a.start < b.finish && b.start < a.finish
  }

  /** Of the jobs started so far: the size of what they got, and that overlapping jobs share nothing. */
  ghost predicate Given(jobs: map<int, Job>, events: seq<Event>, resources: map<int, IntervalSet>) {
    && (forall id :: Started(jobs, events, id) ==> id in resources && |resources[id]| == jobs[id].nbRes)
    && forall a, b :: a != b && Started(jobs, events, a) && Started(jobs, events, b) && Overlap(jobs[a], jobs[b])
                      ==> a in resources && b in resources && Apart(resources[a], resources[b])
  }

  function Front(a: IntervalSet, n: nat): (r: IntervalSet)
    requires n <= |a|
    ensures |r| == n
  {
    a[..n]
  }

  function Back(a: IntervalSet, n: nat): (r: IntervalSet)
    requires n <= |a|
    ensures |r| == |a| - n
  {
    a[n..]
  }

  /** take_first_resources */
  method TakeFirstResources(availableRes: IntervalSet, nbResToTake: nat)
    returns (ok: bool, rest: IntervalSet, allocation: IntervalSet)
    ensures ok <==> nbResToTake <= |availableRes|
    ensures ok ==> allocation == Front(availableRes, nbResToTake) && rest == Back(availableRes, nbResToTake)
  {
    ok, rest, allocation := nbResToTake <= |availableRes|, availableRes, [];
    if !ok {
      return;
    }
    for i := 0 to nbResToTake
      invariant allocation == availableRes[..i]
    {
      allocation := Union(allocation, [availableRes[i]]);
      UnionAppends(availableRes[..i], availableRes[i]);
    }
    rest := Difference(availableRes, allocation);
    DifferencePrefix(availableRes, nbResToTake);
    if |rest| > 0 {
      // the source's check of the order never fails
      assert forall res :: res in allocation ==> res < rest[0];
    }
  }

  lemma {:induction false} UnionAppends(a: IntervalSet, x: int)
    requires forall y :: y in a ==> y < x
    ensures Union(a, [x]) == a + [x]
  {
    if a != [] {
      assert a[0] in a;
      assert forall y :: y in a[1..] ==> y in a;
      UnionAppends(a[1..], x);
      assert a + [x] == [a[0]] + (a[1..] + [x]);
    }
  }

  lemma {:induction false} SameElements(a: IntervalSet, b: IntervalSet)
    requires forall x :: x in a <==> x in b
    ensures a == b
  {
    assert (a != [] ==> a[0] in a) && (b != [] ==> b[0] in b);
    if a != [] && b != [] {
      assert a == [a[0]] + a[1..] && b == [b[0]] + b[1..];
      assert forall x :: x in a[1..] ==> a[0] < x;
      assert forall x :: x in b[1..] ==> b[0] < x;
      assert a[0] == b[0];
      forall x ensures x in a[1..] <==> x in b[1..] {
        assert x in a <==> x in b;
      }
      SameElements(a[1..], b[1..]);
    }
  }

  lemma DifferencePrefix(a: IntervalSet, n: nat)
    requires n <= |a|
    ensures Difference(a, a[..n]) == a[n..]
  {
    assert a == a[..n] + a[n..];
    forall x | x in a[n..] ensures x !in a[..n] {}
    SameElements(Difference(a, a[..n]), a[n..]);
  }

  // ----- the replay -----

  datatype Snapshot = Snapshot(available: IntervalSet, resources: map<int, IntervalSet>)

  /** The state after some events. */
  ghost predicate Balanced(jobs: map<int, Job>, ids: seq<int>, nbRes: nat, events: seq<Event>, now: Snapshot) {
    && Partition(nbRes, now.available, now.resources, Running(jobs, events))
    && |now.available| + Demand(jobs, ids, Running(jobs, events)) == nbRes
    && Given(jobs, events, now.resources)
  }

  lemma {:induction false} RangeIsPartition(jobs: map<int, Job>, ids: seq<int>, nbRes: nat, all: IntervalSet)
    requires |all| == nbRes && forall i :: 0 <= i < nbRes ==> all[i] == i
    ensures Balanced(jobs, ids, nbRes, [], Snapshot(all, map[]))
  {
    assert Running(jobs, []) == {};
    DemandOfNone(jobs, ids);
    forall x ensures 0 <= x < nbRes <==> x in all {
      if 0 <= x < nbRes { assert all[x] == x; }
    }
  }

  lemma StartPartition(nbRes: nat, now: Snapshot, running: set<int>, id: int, n: nat)
    requires Partition(nbRes, now.available, now.resources, running) && id !in running && n <= |now.available|
    ensures Partition(nbRes, Back(now.available, n), now.resources[id := Front(now.available, n)], running + {id})
  {
    var free, mine := Back(now.available, n), Front(now.available, n);
    var resources := now.resources[id := mine];
    assert now.available == mine + free;
    forall x | x in free ensures x in now.available && x !in mine {}
    forall x | x in mine ensures x in now.available && x !in free {}
    forall x ensures 0 <= x < nbRes <==> x in free || exists a :: a in running + {id} && x in resources[a] {
      if x in mine {
        assert id in running + {id} && x in resources[id];
      }
      if 0 <= x < nbRes && x !in now.available {
        var a :| a in running && x in now.resources[a];
        assert a in running + {id} && x in resources[a];
      }
      if a :| a in running + {id} && x in resources[a] {
        assert a == id || x in now.resources[a];
      }
    }
  }

  lemma FinishPartition(nbRes: nat, now: Snapshot, running: set<int>, id: int)
    requires Partition(nbRes, now.available, now.resources, running) && id in running
    ensures Partition(nbRes, Union(now.available, now.resources[id]), now.resources, running - {id})
  {
    var free := Union(now.available, now.resources[id]);
    forall x ensures 0 <= x < nbRes <==> x in free || exists a :: a in running - {id} && x in now.resources[a] {
      if 0 <= x < nbRes && x !in free {
        var a :| a in running && x in now.resources[a];
        assert a in running - {id} && x in now.resources[a];
      }
      if a :| a in running - {id} && x in now.resources[a] {
        assert a in running;
      }
    }
  }

  lemma {:induction false} UnionSize(a: IntervalSet, b: IntervalSet)
    requires Apart(a, b)
    ensures |Union(a, b)| == |a| + |b|
    decreases |a| + |b|
  {
    if a != [] && b != [] {
      assert a[0] in a && b[0] in b && a == [a[0]] + a[1..] && b == [b[0]] + b[1..];
      if a[0] < b[0] { UnionSize(a[1..], b); } else { UnionSize(a, b[1..]); }
    }
  }

  /** A job that overlaps the starting one, and was started before, still runs. */
  lemma OverlapRuns(jobs: map<int, Job>, events: seq<Event>, i: nat, a: int)
    requires AllEvents(jobs, events) && i < |events| && events[i].starts && Started(jobs, events[..i], a)
    requires Overlap(jobs[a], jobs[events[i].id])
    ensures a in Running(jobs, events[..i])
  {
    assert Started(jobs, events, a) && Finished(jobs, events, a);
    EventAt(jobs, events, Event(jobs[a].finish, false, a), i);
  }

  lemma StartGiven(jobs: map<int, Job>, events: seq<Event>, i: nat, resources: map<int, IntervalSet>, mine: IntervalSet)
    requires AllEvents(jobs, events) && Durations(jobs) && i < |events| && events[i].starts
    requires Given(jobs, events[..i], resources) && |mine| == jobs[events[i].id].nbRes
    requires forall a :: a in Running(jobs, events[..i]) ==> a in resources && Apart(resources[a], mine)
    ensures Given(jobs, events[..i + 1], resources[events[i].id := mine])
  {
    var id, resources' := events[i].id, resources[events[i].id := mine];
    NextRunning(jobs, events, i);
    assert events[..i + 1] == events[..i] + [events[i]];
    forall a | Started(jobs, events[..i + 1], a) ensures a == id || Started(jobs, events[..i], a) {}
    forall a, b | a != b && Started(jobs, events[..i + 1], a) && Started(jobs, events[..i + 1], b)
        && Overlap(jobs[a], jobs[b])
      ensures a in resources' && b in resources' && Apart(resources'[a], resources'[b])
    {
      if a == id {
        OverlapRuns(jobs, events, i, b);
      } else if b == id {
        OverlapRuns(jobs, events, i, a);
      }
    }
  }

  lemma StartBalanced(jobs: map<int, Job>, ids: seq<int>, nbRes: nat, events: seq<Event>, i: nat, now: Snapshot)
    requires AllEvents(jobs, events) && Durations(jobs) && Lists(jobs, ids) && i < |events| && events[i].starts
    requires Balanced(jobs, ids, nbRes, events[..i], now) && jobs[events[i].id].nbRes <= |now.available|
    ensures var n := jobs[events[i].id].nbRes;
            Balanced(jobs, ids, nbRes, events[..i + 1],
                     Snapshot(Back(now.available, n), now.resources[events[i].id := Front(now.available, n)]))
  {
    var id, before := events[i].id, Running(jobs, events[..i]);
    var n := jobs[id].nbRes;
    NextRunning(jobs, events, i);
    DemandWith(jobs, ids, before, id);
    StartPartition(nbRes, now, before, id, n);
    forall a | a in before ensures a in now.resources && Apart(now.resources[a], Front(now.available, n)) {
      assert Apart(now.available, now.resources[a]);
      assert forall x :: x in Front(now.available, n) ==> x in now.available;
    }
    hide Partition, Running;
    StartGiven(jobs, events, i, now.resources, Front(now.available, n));
  }

  lemma FinishBalanced(jobs: map<int, Job>, ids: seq<int>, nbRes: nat, events: seq<Event>, i: nat, now: Snapshot)
    requires AllEvents(jobs, events) && Durations(jobs) && Lists(jobs, ids) && i < |events| && !events[i].starts
    requires Balanced(jobs, ids, nbRes, events[..i], now)
    ensures events[i].id in now.resources
    ensures Balanced(jobs, ids, nbRes, events[..i + 1],
                     now.(available := Union(now.available, now.resources[events[i].id])))
  {
    var id, before := events[i].id, Running(jobs, events[..i]);
    NextRunning(jobs, events, i);
    DemandWith(jobs, ids, before - {id}, id);
    assert before - {id} + {id} == before;
    FinishPartition(nbRes, now, before, id);
    assert Started(jobs, events[..i], id);
    UnionSize(now.available, now.resources[id]);
    hide Partition, Running;
    FinishGiven(jobs, events, i, now.resources);
  }

  lemma FinishGiven(jobs: map<int, Job>, events: seq<Event>, i: nat, resources: map<int, IntervalSet>)
    requires i < |events| && !events[i].starts && Given(jobs, events[..i], resources)
    ensures Given(jobs, events[..i + 1], resources)
  {
    assert events[..i + 1] == events[..i] + [events[i]];
    forall a ensures Started(jobs, events[..i + 1], a) <==> Started(jobs, events[..i], a) {}
  }

  /** The traversal of the events: it fails at the first start that asks for more than is free. */
  method Replay(jobs: map<int, Job>, events: seq<Event>, nbRes: nat, ghost ids: seq<int>)
    returns (ok: bool, resources: map<int, IntervalSet>, ghost trace: seq<Snapshot>)
    requires AllEvents(jobs, events) && Durations(jobs) && Lists(jobs, ids)
    ensures ok <==> forall date :: Demand(jobs, ids, RunningAt(jobs, date)) <= nbRes
    ensures ok ==> |trace| == |events| + 1
    ensures ok ==> forall id :: id in jobs ==> id in resources && |resources[id]| == jobs[id].nbRes
    ensures ok ==> forall a, b :: a in jobs && b in jobs && a != b && Overlap(jobs[a], jobs[b])
                                  ==> a in resources && b in resources && Apart(resources[a], resources[b])
    ensures 0 < |trace| <= |events| + 1
    ensures forall k :: 0 <= k < |trace| ==>
              && Partition(nbRes, trace[k].available, trace[k].resources, Running(jobs, events[..k]))
              && |trace[k].available| + Demand(jobs, ids, Running(jobs, events[..k])) == nbRes
  {
    hide Running, RunningAt, Partition, Given, Demand, AllEvents, Durations, Lists;
    var availableRes: IntervalSet := [];
    for i := 0 to nbRes
      invariant |availableRes| == i && forall k :: 0 <= k < i ==> availableRes[k] == k
    {
      availableRes := availableRes + [i];
    }
    resources := map[];
    RangeIsPartition(jobs, ids, nbRes, availableRes);
    trace := [Snapshot(availableRes, resources)];
    assert events[..0] == [];
    for i := 0 to |events|
      invariant |trace| == i + 1 && trace[i] == Snapshot(availableRes, resources)
      invariant forall k :: 0 <= k <= i ==> Balanced(jobs, ids, nbRes, events[..k], trace[k])
    {
      var event := events[i];
      assert event.id in jobs by { EventKnown(jobs, events, i); }
      var job := jobs[event.id];
      if event.starts {
        var enough, rest, alloc := TakeFirstResources(availableRes, job.nbRes);
        if !enough {
          TooMuch(jobs, ids, nbRes, events, i, trace[i]);
          return false, resources, trace;
        }
        StartBalanced(jobs, ids, nbRes, events, i, trace[i]);
        availableRes := rest;
        resources := resources[event.id := alloc];
        assert |alloc| == job.nbRes && |rest| == |trace[i].available| - job.nbRes;
      } else {
        FinishBalanced(jobs, ids, nbRes, events, i, trace[i]);
        availableRes := Union(availableRes, resources[event.id]);
      }
      trace := trace + [Snapshot(availableRes, resources)];
    }
    ok := true;
    assert events[..|events|] == events;
    AllGiven(jobs, events, resources) by { assert Balanced(jobs, ids, nbRes, events[..|events|], trace[|events|]); }
    forall date ensures Demand(jobs, ids, RunningAt(jobs, date)) <= nbRes {
      RunningAtDate(jobs, events, date);
      assert Balanced(jobs, ids, nbRes, events[..UpTo(events, date)], trace[UpTo(events, date)]);
    }
  }

  lemma AllGiven(jobs: map<int, Job>, events: seq<Event>, resources: map<int, IntervalSet>)
    requires AllEvents(jobs, events) && Given(jobs, events, resources)
    ensures forall id :: id in jobs ==> id in resources && |resources[id]| == jobs[id].nbRes
    ensures forall a, b :: a in jobs && b in jobs && a != b && Overlap(jobs[a], jobs[b])
                           ==> a in resources && b in resources && Apart(resources[a], resources[b])
  {
    forall id | id in jobs ensures Started(jobs, events, id) {}
  }

  lemma EventKnown(jobs: map<int, Job>, events: seq<Event>, i: nat)
    requires AllEvents(jobs, events) && i < |events|
    ensures events[i].id in jobs
  {
    assert events[i] in events;
  }

  /** When the resources do not suffice, the jobs of that date need more than there are. */
  lemma TooMuch(jobs: map<int, Job>, ids: seq<int>, nbRes: nat, events: seq<Event>, i: nat, now: Snapshot)
    requires AllEvents(jobs, events) && Durations(jobs) && Lists(jobs, ids) && i < |events| && events[i].starts
    requires Balanced(jobs, ids, nbRes, events[..i], now) && events[i].id in jobs
    requires jobs[events[i].id].nbRes > |now.available|
    ensures Demand(jobs, ids, RunningAt(jobs, events[i].date)) > nbRes
  {
    NextRunning(jobs, events, i);
    DemandWith(jobs, ids, Running(jobs, events[..i]), events[i].id);
    StartsWithinDate(jobs, events, i);
    DemandGrows(jobs, ids, Running(jobs, events[..i + 1]), RunningAt(jobs, events[i].date));
  }
}
