/** The states of machines: what a machine computes, how long it was in each state, and how many machines
    are in each state. */
module MachineStates {

  type JobId(==, !new)

  datatype MachineState = Idle | Computing | Sleeping | ToSleeping | ToComputing | Unavailable

  datatype Pstate = ComputationPstate | SleepPstate | TransitionPstate

  const AllStates: set<MachineState> := {Idle, Computing, Sleeping, ToSleeping, ToComputing, Unavailable}

  type Times = map<MachineState, real>

  function TotalTime(t: Times): real
    requires t.Keys == AllStates
  {
    t[Idle] + t[Computing] + t[Sleeping] + t[ToSleeping] + t[ToComputing] + t[Unavailable]
  }

  datatype View = View(state: MachineState, jobs: set<JobId>, pstate: Pstate, times: Times, lastChange: real)

  // ----- what one machine promises -----

  /** A machine computes exactly when it has jobs, unless it is unavailable, and then in a computation
      power state; in such a state it is idle exactly when it has none. The times spent in the states add up
      to the date of the last change. */
  ghost predicate Sound(v: View, clock: real) {
    && (v.jobs != {} ==> (v.state == Computing || v.state == Unavailable) && v.pstate == ComputationPstate)
    && (v.state == Computing ==> v.jobs != {})
    && (v.pstate == ComputationPstate && v.state != Unavailable ==> (v.state == Idle <==> v.jobs == {}))
    && v.times.Keys == AllStates && TotalTime(v.times) == v.lastChange && v.lastChange <= clock
  }

  /** update_machine_state, for the machine itself */
  function Changed(v: View, state: MachineState, now: real): View {
    var spent := if v.state in v.times then v.times[v.state] else 0.0;
    v.(state := state, times := v.times[v.state := spent + (now - v.lastChange)], lastChange := now)
  }

  lemma EveryState(s: MachineState)
    ensures s in AllStates
  {
    match s
    case Idle =>
    case Computing =>
    case Sleeping =>
    case ToSleeping =>
    case ToComputing =>
    case Unavailable =>
  }

  lemma ChangedTimes(v: View, state: MachineState, now: real)
    requires v.times.Keys == AllStates && TotalTime(v.times) == v.lastChange
    ensures v.state in v.times && Changed(v, state, now).times.Keys == AllStates
    ensures TotalTime(Changed(v, state, now).times) == now
  {
    EveryState(v.state);
  }

  // ----- counting -----

  ghost function Recount(views: seq<View>, state: MachineState): nat {
    if views == [] then 0 else Recount(views[..|views| - 1], state) + if views[|views| - 1].state == state then 1 else 0
  }

  lemma {:induction false} RecountChanged(views: seq<View>, i: nat, v: View, state: MachineState)
    requires i < |views|
    ensures Recount(views[i := v], state) == Recount(views, state) - (if views[i].state == state then 1 else 0)
                                             + (if v.state == state then 1 else 0)
  {
    var n := |views| - 1;
    if i < n {
      assert views[i := v][..n] == views[..n][i := v];
      RecountChanged(views[..n], i, v, state);
    } else {
      assert views[i := v][..n] == views[..n];
    }
  }

  /** The counters, which leave out the storage machines among the idle ones from the start. */
  ghost predicate Counts(nb: map<MachineState, int>, views: seq<View>, nbStorage: nat) {
    nb.Keys == AllStates
    && forall s :: s in AllStates ==> nb[s] == Recount(views, s) - if s == Idle then nbStorage else 0
  }

  /** update_nb_machines_in_each_state */
  function Moved(nb: map<MachineState, int>, from: MachineState, to: MachineState): map<MachineState, int>
    requires nb.Keys == AllStates
  {
    EveryState(from);
    EveryState(to);
    var less := nb[from := nb[from] - 1];
    less[to := less[to] + 1]
  }

  lemma CountsChanged(nb: map<MachineState, int>, views: seq<View>, nbStorage: nat, i: nat, v: View)
    requires Counts(nb, views, nbStorage) && i < |views|
    ensures Counts(Moved(nb, views[i].state, v.state), views[i := v], nbStorage)
  {
    var nb' := Moved(nb, views[i].state, v.state);
    EveryState(views[i].state);
    EveryState(v.state);
    hide Recount;
    forall s | s in AllStates ensures nb'[s] == Recount(views[i := v], s) - if s == Idle then nbStorage else 0 {
      RecountChanged(views, i, v, s);
    }
  }

  lemma CountsSame(nb: map<MachineState, int>, views: seq<View>, nbStorage: nat, i: nat, v: View)
    requires Counts(nb, views, nbStorage) && i < |views| && v.state == views[i].state
    ensures Counts(nb, views[i := v], nbStorage)
  {
    forall s | s in AllStates ensures Recount(views[i := v], s) == Recount(views, s) {
      RecountChanged(views, i, v, s);
    }
  }

  lemma {:induction false} AllIdle(views: seq<View>, s: MachineState)
    requires forall i :: 0 <= i < |views| ==> views[i].state == Idle
    ensures Recount(views, s) == if s == Idle then |views| else 0
  {
    if views != [] { AllIdle(views[..|views| - 1], s); }
  }

  // ----- jobs on machines -----

  /** The jobs that run, each with the machines allocated to it, and the jobs on each machine agree. */
  ghost predicate Agree(views: seq<View>, running: map<JobId, set<nat>>) {
    && (forall i, j :: 0 <= i < |views| ==> (j in views[i].jobs <==> j in running && i in running[j]))
    && forall j, i :: j in running && i in running[j] ==> i < |views|
  }

  ghost predicate AllSound(views: seq<View>, clock: real) {
    forall i :: 0 <= i < |views| ==> Sound(views[i], clock)
  }

  /** Without time-sharing, at most one job on a machine of the kind. */
  ghost predicate Exclusive(views: seq<View>, shared: seq<bool>) {
    && |shared| == |views|
    && forall i, j, k :: 0 <= i < |views| && !shared[i] && j in views[i].jobs && k in views[i].jobs ==> j == k
  }

  // ----- what happens to machines -----

  /** update_machines_on_job_run, for one machine */
  function Started(v: View, job: JobId, now: real): View {
    Changed(v, Computing, now).(jobs := v.jobs + {job})
  }

  /** update_machines_on_job_end, for one machine */
  function Ended(v: View, job: JobId, now: real): View {
    var rest := v.(jobs := v.jobs - {job});
    if rest.jobs == {} && v.state != Unavailable then Changed(rest, Idle, now) else rest
  }

  function Lost(v: View, now: real): View {
    Changed(v, Unavailable, now)
  }

  function Regained(v: View, now: real): View {
    Changed(v, if v.jobs == {} then Idle else Computing, now)
  }

  datatype Effect = Starts(job: JobId) | Ends(job: JobId) | GetsLost | GetsBack

  function After(e: Effect, v: View, now: real): View {
    match e
    case Starts(job) => Started(v, job, now)
    case Ends(job) => Ended(v, job, now)
    case GetsLost => Lost(v, now)
    case GetsBack => Regained(v, now)
  }

  ghost predicate InRange(ids: seq<nat>, n: nat) {
    forall k :: 0 <= k < |ids| ==> ids[k] < n
  }

  /** The effect on the machines ids, one after the other. */
  function Each(e: Effect, views: seq<View>, ids: seq<nat>, now: real): (r: seq<View>)
    requires InRange(ids, |views|)
    ensures |r| == |views|
  {
    if ids == [] then views
    else
      var n := |ids| - 1;
      var w := Each(e, views, ids[..n], now);
      w[ids[n] := After(e, w[ids[n]], now)]
  }

  ghost predicate Distinct(ids: seq<nat>) {
    forall i, k :: 0 <= i < k < |ids| ==> ids[i] != ids[k]
  }

  lemma {:induction false} EachAt(e: Effect, views: seq<View>, ids: seq<nat>, now: real, i: nat)
    requires InRange(ids, |views|) && Distinct(ids) && i < |views|
    ensures Each(e, views, ids, now)[i] == if i in ids then After(e, views[i], now) else views[i]
  {
    if ids != [] {
      var n := |ids| - 1;
      assert ids == ids[..n] + [ids[n]];
      EachAt(e, views, ids[..n], now, i);
      EachAt(e, views, ids[..n], now, ids[n]);
    }
  }

  /** When the source's checks allow the effect. */
  ghost predicate Allowed(e: Effect, v: View, shared: bool, now: real) {
    v.lastChange <= now &&
    match e
    case Starts(job) =>
      (v.state == Idle || v.state == Computing) && v.pstate == ComputationPstate && (shared || v.jobs == {})
    case Ends(job) => job in v.jobs
    case GetsLost => v.state != Unavailable
    case GetsBack => v.state == Unavailable
  }

  lemma AfterSound(e: Effect, v: View, shared: bool, clock: real, now: real)
    requires Sound(v, clock) && Allowed(e, v, shared, now) && clock <= now
    ensures Sound(After(e, v, now), now)
  {
    ChangedTimes(v, Computing, now);
    ChangedTimes(v, Idle, now);
    ChangedTimes(v, Unavailable, now);
    if e.Ends? { ChangedTimes(v.(jobs := v.jobs - {e.job}), Idle, now); }
  }

  function Runs(e: Effect, running: map<JobId, set<nat>>, ids: seq<nat>): map<JobId, set<nat>> {
    match e
    case Starts(job) => running[job := set i | i in ids]
    case Ends(job) => running - {job}
    case _ => running
  }

  /** Every machine of ids passes the source's check for the effect. */
  ghost predicate Ready(e: Effect, views: seq<View>, ids: seq<nat>, shared: seq<bool>, clock: real, now: real) {
    && InRange(ids, |views|) && Distinct(ids) && clock <= now && |shared| == |views| && AllSound(views, clock)
    && forall k :: 0 <= k < |ids| ==> Allowed(e, views[ids[k]], shared[ids[k]], now)
  }

  lemma EachSound(e: Effect, views: seq<View>, ids: seq<nat>, shared: seq<bool>, clock: real, now: real)
    requires Ready(e, views, ids, shared, clock, now)
    ensures InRange(ids, |views|) && AllSound(Each(e, views, ids, now), now)
  {
    forall i: nat | i < |views| ensures Sound(Each(e, views, ids, now)[i], now) {
      EachAt(e, views, ids, now, i);
      if i in ids { AfterSound(e, views[i], shared[i], clock, now); }
    }
  }

  function JobsAfter(e: Effect, jobs: set<JobId>): set<JobId> {
    match e
    case Starts(job) => jobs + {job}
    case Ends(job) => jobs - {job}
    case _ => jobs
  }

  lemma EachJobs(e: Effect, views: seq<View>, ids: seq<nat>, now: real, i: nat)
    requires InRange(ids, |views|) && Distinct(ids) && i < |views|
    ensures Each(e, views, ids, now)[i].jobs == if i in ids then JobsAfter(e, views[i].jobs) else views[i].jobs
  {
    EachAt(e, views, ids, now, i);
  }

  lemma EachAgree(e: Effect, views: seq<View>, ids: seq<nat>, running: map<JobId, set<nat>>, now: real)
    requires InRange(ids, |views|) && Distinct(ids) && Agree(views, running)
    requires e.Starts? ==> e.job !in running
    requires e.Ends? ==> e.job in running && running[e.job] == set i | i in ids
    ensures Agree(Each(e, views, ids, now), Runs(e, running, ids))
  {
    hide Each;
    var views', running' := Each(e, views, ids, now), Runs(e, running, ids);
    forall i: nat, j | i < |views| ensures j in views'[i].jobs <==> j in running' && i in running'[j] {
      EachJobs(e, views, ids, now, i);
    }
  }

  lemma EachExclusive(e: Effect, views: seq<View>, ids: seq<nat>, shared: seq<bool>, clock: real, now: real)
    requires Ready(e, views, ids, shared, clock, now) && Exclusive(views, shared)
    ensures InRange(ids, |views|) && Exclusive(Each(e, views, ids, now), shared)
  {
    hide Each;
    var views' := Each(e, views, ids, now);
    forall i: nat, j, k | i < |views'| && !shared[i] && j in views'[i].jobs && k in views'[i].jobs ensures j == k {
      EachJobs(e, views, ids, now, i);
    }
  }

  lemma EachKeeps(e: Effect, views: seq<View>, ids: seq<nat>, shared: seq<bool>, running: map<JobId, set<nat>>,
                  clock: real, now: real)
    requires Ready(e, views, ids, shared, clock, now) && Agree(views, running) && Exclusive(views, shared)
    requires e.Starts? ==> e.job !in running
    requires e.Ends? ==> e.job in running && running[e.job] == set i | i in ids
    ensures InRange(ids, |views|)
    ensures var views' := Each(e, views, ids, now);
            AllSound(views', now) && Agree(views', Runs(e, running, ids)) && Exclusive(views', shared)
  {
    assert InRange(ids, |views|) && Distinct(ids);
    hide *;
    EachSound(e, views, ids, shared, clock, now);
    EachAgree(e, views, ids, running, now);
    EachExclusive(e, views, ids, shared, clock, now);
  }

  /** The next machine of the loop is as before it, and may change. */
  lemma EachMore(e: Effect, views: seq<View>, ids: seq<nat>, k: nat, shared: seq<bool>, clock: real, now: real)
    requires k < |ids| && Ready(e, views, ids, shared, clock, now)
    ensures InRange(ids[..k], |views|) && InRange(ids[..k + 1], |views|) && ids[k] < |views|
    ensures var w := Each(e, views, ids[..k], now);
            && w[ids[k]] == views[ids[k]]
            && w[ids[k]].times.Keys == AllStates && w[ids[k]].lastChange <= now
            && Each(e, views, ids[..k + 1], now) == w[ids[k] := After(e, w[ids[k]], now)]
  {
    assert ids[..k + 1][..k] == ids[..k];
    EachAt(e, views, ids[..k], now, ids[k]);
    assert Sound(views[ids[k]], clock);
  }

  // ----- power-state switches -----

  /** A machine without jobs may take any state but Computing, in a computation power state only Idle. */
  lemma SwitchedKeeps(views: seq<View>, i: nat, state: MachineState, pstate: Pstate, shared: seq<bool>,
                      running: map<JobId, set<nat>>, clock: real, now: real)
    requires i < |views| && AllSound(views, clock) && Agree(views, running) && Exclusive(views, shared)
    requires views[i].jobs == {} && state != Computing && clock <= now
    requires pstate == ComputationPstate ==> state == Idle
    ensures var views' := views[i := Changed(views[i], state, now).(pstate := pstate)];
            AllSound(views', now) && Agree(views', running) && Exclusive(views', shared)
  {
    assert Sound(views[i], clock);
    ChangedTimes(views[i], state, now);
  }

  lemma EndIsReady(views: seq<View>, job: JobId, ids: seq<nat>, shared: seq<bool>, running: map<JobId, set<nat>>,
                   clock: real, now: real)
    requires AllSound(views, clock) && Agree(views, running) && |shared| == |views| && clock <= now && Distinct(ids)
    requires job in running && running[job] == set i | i in ids
    ensures Ready(Ends(job), views, ids, shared, clock, now)
  {
    forall k | 0 <= k < |ids| ensures ids[k] < |views| && Allowed(Ends(job), views[ids[k]], shared[ids[k]], now) {
      assert ids[k] in running[job];
      assert Sound(views[ids[k]], clock);
    }
  }

  // ----- availability events -----

  /** The check that an availability event makes of a machine. */
  predicate Expected(e: Effect, state: MachineState) {
    (e.GetsLost? ==> state != Unavailable) && (e.GetsBack? ==> state == Unavailable)
  }

  lemma ReadyMore(e: Effect, views: seq<View>, ids: seq<nat>, k: nat, shared: seq<bool>, clock: real, now: real)
    requires k < |ids| && InRange(ids, |views|) && Distinct(ids) && Ready(e, views, ids[..k], shared, clock, now)
    requires e.GetsLost? || e.GetsBack?
    ensures Each(e, views, ids[..k], now)[ids[k]] == views[ids[k]]
    ensures Expected(e, views[ids[k]].state) ==> Ready(e, views, ids[..k + 1], shared, clock, now)
  {
    assert ids[..k + 1] == ids[..k] + [ids[k]];
    EachAt(e, views, ids[..k], now, ids[k]);
    assert Sound(views[ids[k]], clock);
  }

  // ----- what the effects are, machine by machine -----

  /** Each machine of ids has got the job and computes; its time so far is credited to its old state. */
  lemma WhatStarts(views: seq<View>, job: JobId, ids: seq<nat>, now: real, clock: real, i: nat)
    requires InRange(ids, |views|) && Distinct(ids) && i < |views| && AllSound(views, clock)
    ensures var v, w := views[i], Each(Starts(job), views, ids, now)[i];
            && w.jobs == (if i in ids then v.jobs + {job} else v.jobs) && w.pstate == v.pstate
            && w.state == (if i in ids then Computing else v.state)
            && w.lastChange == (if i in ids then now else v.lastChange)
            && v.times.Keys == w.times.Keys == AllStates
            && forall s :: s in AllStates ==>
                 w.times[s] == v.times[s] + if i in ids && s == v.state then now - v.lastChange else 0.0
  {
    EachAt(Starts(job), views, ids, now, i);
    assert Sound(views[i], clock);
    EveryState(views[i].state);
  }

  /** A machine that lost its last job is idle, unless it is unavailable; all others stay in their state. */
  lemma WhatEnds(views: seq<View>, job: JobId, ids: seq<nat>, now: real, clock: real, i: nat)
    requires InRange(ids, |views|) && Distinct(ids) && i < |views| && AllSound(views, clock)
    ensures var v, w := views[i], Each(Ends(job), views, ids, now)[i];
            var freed := i in ids && v.jobs - {job} == {} && v.state != Unavailable;
            && w.jobs == (if i in ids then v.jobs - {job} else v.jobs) && w.pstate == v.pstate
            && w.state == (if freed then Idle else v.state)
            && w.lastChange == (if freed then now else v.lastChange)
            && v.times.Keys == w.times.Keys == AllStates
            && forall s :: s in AllStates ==>
                 w.times[s] == v.times[s] + if freed && s == v.state then now - v.lastChange else 0.0
  {
    EachAt(Ends(job), views, ids, now, i);
    assert Sound(views[i], clock);
    EveryState(views[i].state);
  }

  /** Unavailable machines keep their jobs, and come back computing exactly if they have any. */
  lemma WhatEvents(views: seq<View>, ids: seq<nat>, now: real, clock: real, i: nat)
    requires InRange(ids, |views|) && Distinct(ids) && i < |views| && AllSound(views, clock)
    ensures var v, lost, back := views[i], Each(GetsLost, views, ids, now)[i], Each(GetsBack, views, ids, now)[i];
            && lost.jobs == back.jobs == v.jobs && lost.pstate == back.pstate == v.pstate
            && lost.state == (if i in ids then Unavailable else v.state)
            && back.state == (if i !in ids then v.state else if v.jobs == {} then Idle else Computing)
            && lost.lastChange == back.lastChange == (if i in ids then now else v.lastChange)
            && v.times.Keys == lost.times.Keys == AllStates && back.times == lost.times
            && forall s :: s in AllStates ==>
                 lost.times[s] == v.times[s] + if i in ids && s == v.state then now - v.lastChange else 0.0
  {
    EachAt(GetsLost, views, ids, now, i);
    EachAt(GetsBack, views, ids, now, i);
    assert Sound(views[i], clock);
    EveryState(views[i].state);
  }
}
