/** The machines as objects, and what starts and ends of jobs, switches and availability events do to them. */
module Machines {
  import opened MachineStates

  class Machine {
    var state: MachineState
    var jobsBeingComputed: set<JobId>
    var pstate: Pstate
    var timeSpentInEachState: Times
    var lastStateChangeDate: real

    constructor ()
      ensures See() == View(Idle, {}, ComputationPstate, map s | s in AllStates :: 0.0, 0.0)
    {
      state, jobsBeingComputed, pstate := Idle, {}, ComputationPstate;
      timeSpentInEachState, lastStateChangeDate := map s | s in AllStates :: 0.0, 0.0;
    }

    function See(): View
      reads this
    {
      View(state, jobsBeingComputed, pstate, timeSpentInEachState, lastStateChangeDate)
    }
  }

  class Machines {
    const machines: seq<Machine>
    const shared: seq<bool>     // whether the machine may compute several jobs at once
    const nbStorage: nat
    var nbMachinesInEachState: map<MachineState, int>
    ghost var views: seq<View>
    ghost var clock: real
    ghost var running: map<JobId, set<nat>>  // the jobs that run, with their machines

    ghost predicate Shown()
      reads this, machines
    {
      && |shared| == |machines| == |views|
      && (forall i, k :: 0 <= i < k < |machines| ==> machines[i] != machines[k])
      && forall i :: 0 <= i < |machines| ==> machines[i].See() == views[i]
    }

    ghost predicate Valid()
      reads this, machines
    {
      && Shown() && AllSound(views, clock) && Agree(views, running) && Exclusive(views, shared)
      && Counts(nbMachinesInEachState, views, nbStorage)
    }

    /** All machines are new. Only the compute machines are counted as idle. */
    constructor (machines: seq<Machine>, shared: seq<bool>, nbStorage: nat)
      requires |shared| == |machines| >= nbStorage
      requires forall i, k :: 0 <= i < k < |machines| ==> machines[i] != machines[k]
      requires forall i :: 0 <= i < |machines| ==>
                 machines[i].See() == View(Idle, {}, ComputationPstate, map s | s in AllStates :: 0.0, 0.0)
      ensures Valid() && this.machines == machines && this.shared == shared && this.nbStorage == nbStorage
      ensures running == map[]
    {
      this.machines, this.shared, this.nbStorage := machines, shared, nbStorage;
      clock, running := 0.0, map[];
      nbMachinesInEachState := map s | s in AllStates :: if s == Idle then |machines| - nbStorage else 0;
      var v := View(Idle, {}, ComputationPstate, map s | s in AllStates :: 0.0, 0.0);
      views := seq(|machines|, _ => v);
      new;
      forall s | s in AllStates ensures Recount(views, s) == if s == Idle then |machines| else 0 { AllIdle(views, s); }
    }

    method UpdateNbMachinesInEachState(from: MachineState, to: MachineState)
      requires nbMachinesInEachState.Keys == AllStates
      modifies this`nbMachinesInEachState
      ensures nbMachinesInEachState == Moved(old(nbMachinesInEachState), from, to)
    {
      EveryState(from);
      EveryState(to);
      nbMachinesInEachState := nbMachinesInEachState[from := nbMachinesInEachState[from] - 1];
      nbMachinesInEachState := nbMachinesInEachState[to := nbMachinesInEachState[to] + 1];
    }

    /** update_machine_state */
    method UpdateMachineState(i: nat, state: MachineState, now: real)
      requires Shown() && i < |machines|
      requires Counts(nbMachinesInEachState, views, nbStorage)
      requires views[i].times.Keys == AllStates && views[i].lastChange <= now
      modifies machines[i], this`nbMachinesInEachState, this`views
      ensures Shown() && views == old(views)[i := Changed(old(views)[i], state, now)]
      ensures Counts(nbMachinesInEachState, views, nbStorage)
      ensures machines[i].state == state && machines[i].lastStateChangeDate == now
      ensures forall s :: s in AllStates ==>
                && s in machines[i].timeSpentInEachState && s in old(machines[i].timeSpentInEachState)
                && machines[i].timeSpentInEachState[s] == old(machines[i].timeSpentInEachState[s])
                   + if s == old(machines[i].state) then now - old(machines[i].lastStateChangeDate) else 0.0
    {
      var m := machines[i];
      assert m.See() == views[i];
      EveryState(m.state);
      CountsChanged(nbMachinesInEachState, views, nbStorage, i, Changed(views[i], state, now));
      assert nbMachinesInEachState.Keys == AllStates;
      hide Counts, Moved;
      var deltaTime := now - m.lastStateChangeDate;
      assert deltaTime >= 0.0;
      m.timeSpentInEachState := m.timeSpentInEachState[m.state := m.timeSpentInEachState[m.state] + deltaTime];
      UpdateNbMachinesInEachState(m.state, state);
      m.state := state;
      m.lastStateChangeDate := now;
      views := views[i := Changed(views[i], state, now)];
    }

    method ChangeJobs(i: nat, jobs: set<JobId>)
      requires Shown() && i < |machines| && Counts(nbMachinesInEachState, views, nbStorage)
      modifies machines[i], this`views
      ensures Shown() && views == old(views)[i := old(views)[i].(jobs := jobs)]
      ensures Counts(nbMachinesInEachState, views, nbStorage)
    {
      CountsSame(nbMachinesInEachState, views, nbStorage, i, views[i].(jobs := jobs));
      hide Counts;
      assert machines[i].See() == views[i];
      machines[i].jobsBeingComputed := jobs;
      views := views[i := views[i].(jobs := jobs)];
    }

    method ChangePstate(i: nat, pstate: Pstate)
      requires Shown() && i < |machines| && Counts(nbMachinesInEachState, views, nbStorage)
      modifies machines[i], this`views
      ensures Shown() && views == old(views)[i := old(views)[i].(pstate := pstate)]
      ensures Counts(nbMachinesInEachState, views, nbStorage)
    {
      CountsSame(nbMachinesInEachState, views, nbStorage, i, views[i].(pstate := pstate));
      hide Counts;
      assert machines[i].See() == views[i];
      machines[i].pstate := pstate;
      views := views[i := views[i].(pstate := pstate)];
    }

    method OneMachine(e: Effect, i: nat, now: real)
      requires Shown() && i < |machines| && Counts(nbMachinesInEachState, views, nbStorage)
      requires views[i].times.Keys == AllStates && views[i].lastChange <= now
      requires e.Ends? ==> e.job in views[i].jobs
      modifies machines[i], this`nbMachinesInEachState, this`views
      ensures Shown() && views == old(views)[i := After(e, old(views)[i], now)]
      ensures Counts(nbMachinesInEachState, views, nbStorage)
    {
      hide Counts;
      var m := machines[i];
      assert m.See() == views[i];
      match e {
        case Starts(job) =>
          UpdateMachineState(i, Computing, now);
          assert m.See() == views[i];
          ChangeJobs(i, m.jobsBeingComputed + {job});
        case Ends(job) =>
          assert m.jobsBeingComputed != {} && job in m.jobsBeingComputed;
          ChangeJobs(i, m.jobsBeingComputed - {job});
          assert m.See() == views[i];
          if m.jobsBeingComputed == {} && m.state != Unavailable {
            UpdateMachineState(i, Idle, now);
          }
        case GetsLost =>
          UpdateMachineState(i, Unavailable, now);
        case GetsBack =>
          UpdateMachineState(i, if m.jobsBeingComputed == {} then Idle else Computing, now);
      }
    }

    method Loop(e: Effect, ids: seq<nat>, now: real)
      requires Shown() && Counts(nbMachinesInEachState, views, nbStorage) && Ready(e, views, ids, shared, clock, now)
      modifies machines, this`nbMachinesInEachState, this`views
      ensures Shown() && Counts(nbMachinesInEachState, views, nbStorage)
      ensures InRange(ids, |old(views)|) && views == Each(e, old(views), ids, now)
    {
      ghost var before := views;
      assert ids[..0] == [] && Each(e, before, ids[..0], now) == before;
      hide Each, AllSound, Counts, After, Ready;
      for k := 0 to |ids|
        invariant InRange(ids[..k], |before|) && Shown() && views == Each(e, before, ids[..k], now)
        invariant Counts(nbMachinesInEachState, views, nbStorage)
      {
        EachMore(e, before, ids, k, shared, clock, now);
        OneMachine(e, ids[k], now);
      }
      assert ids[..|ids|] == ids;
    }

    /** The loop over the machines of a job or an event, when the source's checks pass. */
    method EachMachine(e: Effect, ids: seq<nat>, now: real)
      requires Valid() && Ready(e, views, ids, shared, clock, now)
      requires e.Starts? ==> e.job !in running
      requires e.Ends? ==> e.job in running && running[e.job] == set i | i in ids
      modifies this, machines
      ensures Valid() && clock == now && running == Runs(e, old(running), ids)
      ensures InRange(ids, |old(views)|) && views == Each(e, old(views), ids, now)
    {
      hide Each, AllSound, Agree, Exclusive, Counts, Ready;
      EachKeeps(e, views, ids, shared, running, clock, now);
      Loop(e, ids, now);
      clock := now;
      running := Runs(e, running, ids);
    }

    // ----- what can happen -----

    /** Whether a job may be executed on these machines now. */
    ghost predicate CanExecute(ids: seq<nat>)
      requires |shared| == |views| && InRange(ids, |views|)
      reads this
    {
      forall k :: 0 <= k < |ids| ==>
        && (shared[ids[k]] || views[ids[k]].jobs == {})
        && (views[ids[k]].state == Computing || views[ids[k]].state == Idle)
        && views[ids[k]].pstate == ComputationPstate
    }

    /** The checks of server_on_execute_job. */
    method CheckMachines(ids: seq<nat>) returns (ok: bool)
      requires Shown() && InRange(ids, |machines|)
      ensures ok <==> CanExecute(ids)
    {
      for k := 0 to |ids|
        invariant forall x :: 0 <= x < k ==> shared[ids[x]] || views[ids[x]].jobs == {}
      {
        assert machines[ids[k]].See() == views[ids[k]];
        if !shared[ids[k]] && machines[ids[k]].jobsBeingComputed != {} {
          return false;
        }
      }
      for k := 0 to |ids|
        invariant forall x :: 0 <= x < k ==> (views[ids[x]].state == Computing || views[ids[x]].state == Idle)
                                             && views[ids[x]].pstate == ComputationPstate
      {
        var m := machines[ids[k]];
        assert m.See() == views[ids[k]];
        if !(m.state == Computing || m.state == Idle) || m.pstate != ComputationPstate {
          return false;
        }
      }
      return true;
    }

    /** server_on_execute_job, and the job's start on its machines. */
    method ExecuteJob(job: JobId, ids: seq<nat>, now: real) returns (ok: bool)
      requires Valid() && InRange(ids, |machines|) && Distinct(ids) && clock <= now && job !in running
      modifies this, machines
      ensures ok <==> old(CanExecute(ids))
      ensures Valid() && running == (if ok then old(running)[job := set i | i in ids] else old(running))
      ensures forall i :: 0 <= i < |machines| ==>
                && machines[i].jobsBeingComputed
                   == old(machines[i].jobsBeingComputed) + (if ok && i in ids then {job} else {})
                && machines[i].state == (if ok && i in ids then Computing else old(machines[i].state))
                && machines[i].pstate == old(machines[i].pstate)
                && machines[i].lastStateChangeDate
                   == if ok && i in ids then now else old(machines[i].lastStateChangeDate)
    {
      hide AllSound, Agree, Exclusive, Counts;
      ok := CheckMachines(ids);
      if !ok {
        return;
      }
      assert Ready(Starts(job), views, ids, shared, clock, now) by { DatesPassed(views, clock); }
      ghost var before, clock0 := views, clock;
      EachMachine(Starts(job), ids, now);
      forall i: nat | i < |before| { WhatStarts(before, job, ids, now, clock0, i); }
    }

    /** update_machines_on_job_end: its checks never fail for a running job. */
    method EndJob(job: JobId, ids: seq<nat>, now: real)
      requires Valid() && Distinct(ids) && clock <= now && job in running && running[job] == set i | i in ids
      modifies this, machines
      ensures Valid() && running == old(running) - {job}
      ensures forall i :: 0 <= i < |machines| ==>
                var freed := i in ids && old(machines[i].jobsBeingComputed) == {job}
                             && old(machines[i].state) != Unavailable;
                && machines[i].jobsBeingComputed
                   == old(machines[i].jobsBeingComputed) - (if i in ids then {job} else {})
                && machines[i].state == (if freed then Idle else old(machines[i].state))
                && machines[i].pstate == old(machines[i].pstate)
                && machines[i].lastStateChangeDate == if freed then now else old(machines[i].lastStateChangeDate)
    {
      EndIsReady(views, job, ids, shared, running, clock, now);
      ghost var before, clock0, running0 := views, clock, running;
      hide Ready, AllSound, Agree, Exclusive, Counts, Each;
      EachMachine(Ends(job), ids, now);
      forall i: nat | i < |before| { EndsThere(before, running0, job, ids, now, clock0, i); }
    }

    /** One machine of an availability event: it is checked, then changed. */
    method NextMachine(e: Effect, ids: seq<nat>, k: nat, now: real, ghost before: seq<View>) returns (ok: bool)
      requires k < |ids| && InRange(ids, |before|) && Distinct(ids) && (e.GetsLost? || e.GetsBack?)
      requires Ready(e, before, ids[..k], shared, clock, now) && InRange(ids[..k], |before|)
      requires Shown() && Counts(nbMachinesInEachState, views, nbStorage) && views == Each(e, before, ids[..k], now)
      modifies machines, this`nbMachinesInEachState, this`views
      ensures ok <==> Expected(e, before[ids[k]].state)
      ensures Shown() && Counts(nbMachinesInEachState, views, nbStorage) && InRange(ids[..k + 1], |before|)
      ensures if ok then Ready(e, before, ids[..k + 1], shared, clock, now)
              && views == Each(e, before, ids[..k + 1], now)
              else views == old(views)
    {
      hide Each, AllSound, Counts, Ready, After, Distinct;
      ReadyMore(e, before, ids, k, shared, clock, now);
      assert machines[ids[k]].See() == views[ids[k]];
      ok := Expected(e, machines[ids[k]].state);
      if ok {
        NextExpected(e, before, ids, k, shared, clock, now);
        OneMachine(e, ids[k], now);
      }
    }

    /** The loop of an availability event. At a failing check the simulation stops, with the machines before
        it changed. */
    method LoopExpected(e: Effect, ids: seq<nat>, now: real) returns (ok: bool, done: nat)
      requires Shown() && Counts(nbMachinesInEachState, views, nbStorage) && AllSound(views, clock)
      requires InRange(ids, |views|) && Distinct(ids) && clock <= now && (e.GetsLost? || e.GetsBack?)
      modifies machines, this`nbMachinesInEachState, this`views
      ensures done <= |ids| && (ok <==> done == |ids|) && Ready(e, old(views), ids[..done], shared, clock, now)
      ensures forall k :: 0 <= k < done ==> Expected(e, old(views)[ids[k]].state)
      ensures !ok ==> !Expected(e, old(views)[ids[done]].state)
      ensures Shown() && Counts(nbMachinesInEachState, views, nbStorage)
      ensures InRange(ids[..done], |old(views)|) && views == Each(e, old(views), ids[..done], now)
    {
      ghost var before := views;
      NothingDone(e, before, ids, shared, clock, now);
      hide Each, AllSound, Counts, Ready, After, Distinct, Expected;
      ok, done := true, 0;
      while done < |ids|
        invariant done <= |ids| && InRange(ids[..done], |before|) && Ready(e, before, ids[..done], shared, clock, now)
        invariant forall k :: 0 <= k < done ==> Expected(e, before[ids[k]].state)
        invariant Shown() && Counts(nbMachinesInEachState, views, nbStorage)
                  && views == Each(e, before, ids[..done], now)
      {
        ok := NextMachine(e, ids, done, now, before);
        if !ok {
          return;
        }
        done := done + 1;
      }
      ok := true;
    }

    method EachExpected(e: Effect, ids: seq<nat>, now: real) returns (ok: bool, done: nat)
      requires Valid() && InRange(ids, |views|) && Distinct(ids) && clock <= now && (e.GetsLost? || e.GetsBack?)
      modifies this, machines
      ensures done <= |ids| && (ok <==> done == |ids|) && InRange(ids[..done], |old(views)|)
      ensures forall k :: 0 <= k < done ==> Expected(e, old(views)[ids[k]].state)
      ensures !ok ==> !Expected(e, old(views)[ids[done]].state)
      ensures Valid() && running == old(running) && views == Each(e, old(views), ids[..done], now)
    {
      hide Each, AllSound, Agree, Exclusive, Counts, Ready;
      ok, done := LoopExpected(e, ids, now);
      EachKeeps(e, old(views), ids[..done], shared, running, clock, now);
      clock := now;
    }

    /** server_on_event_machine_unavailable */
    method LoseMachines(ids: seq<nat>, now: real) returns (ok: bool, done: nat)
      requires Valid() && InRange(ids, |machines|) && Distinct(ids) && clock <= now
      modifies this, machines
      ensures ok <==> forall k :: 0 <= k < |ids| ==> old(views)[ids[k]].state != Unavailable
      ensures done <= |ids| && (ok <==> done == |ids|) && InRange(ids[..done], |old(views)|)
      ensures Valid() && running == old(running) && views == Each(GetsLost, old(views), ids[..done], now)
      ensures forall i :: 0 <= i < |machines| ==>
                && machines[i].jobsBeingComputed == old(machines[i].jobsBeingComputed)
                && machines[i].pstate == old(machines[i].pstate)
                && machines[i].state == (if i in ids[..done] then Unavailable else old(machines[i].state))
                && machines[i].lastStateChangeDate
                   == if i in ids[..done] then now else old(machines[i].lastStateChangeDate)
    {
      ghost var before, clock0 := views, clock;
      hide AllSound, Agree, Exclusive, Counts, Each;
      ok, done := EachExpected(GetsLost, ids, now);
      forall i: nat | i < |before| { WhatEvents(before, ids[..done], now, clock0, i); }
    }

    /** server_on_event_machine_available */
    method RegainMachines(ids: seq<nat>, now: real) returns (ok: bool, done: nat)
      requires Valid() && InRange(ids, |machines|) && Distinct(ids) && clock <= now
      modifies this, machines
      ensures ok <==> forall k :: 0 <= k < |ids| ==> old(views)[ids[k]].state == Unavailable
      ensures done <= |ids| && (ok <==> done == |ids|) && InRange(ids[..done], |old(views)|)
      ensures Valid() && running == old(running) && views == Each(GetsBack, old(views), ids[..done], now)
      ensures forall i :: 0 <= i < |machines| ==>
                && machines[i].jobsBeingComputed == old(machines[i].jobsBeingComputed)
                && machines[i].pstate == old(machines[i].pstate)
                && machines[i].state == (if i !in ids[..done] then old(machines[i].state)
                                         else if old(machines[i].jobsBeingComputed) == {} then Idle else Computing)
                && machines[i].lastStateChangeDate
                   == if i in ids[..done] then now else old(machines[i].lastStateChangeDate)
    {
      ghost var before, clock0 := views, clock;
      hide AllSound, Agree, Exclusive, Counts, Each;
      ok, done := EachExpected(GetsBack, ids, now);
      forall i: nat | i < |before| { WhatEvents(before, ids[..done], now, clock0, i); }
    }

    method Switch(i: nat, state: MachineState, pstate: Pstate, now: real)
      requires Valid() && i < |machines| && clock <= now && views[i].jobs == {} && state != Computing
      requires pstate == ComputationPstate ==> state == Idle
      modifies this, machines[i]
      ensures Valid() && running == old(running) && clock == now
      ensures views == old(views)[i := Changed(old(views)[i], state, now).(pstate := pstate)]
    {
      hide AllSound, Agree, Exclusive, Counts, Changed;
      assert views[i].times.Keys == AllStates && views[i].lastChange <= now by { DatesPassed(views, clock); }
      SwitchedKeeps(views, i, state, pstate, shared, running, clock, now);
      UpdateMachineState(i, state, now);
      ChangePstate(i, pstate);
      assert views == old(views)[i := Changed(old(views)[i], state, now).(pstate := pstate)];
      clock := now;
    }

    /** A switch to a sleep state: its process refuses machines that have jobs. */
    method StartSwitchOff(i: nat, now: real) returns (ok: bool)
      requires Valid() && i < |machines| && clock <= now && views[i].pstate == ComputationPstate
      modifies this, machines[i]
      ensures ok <==> old(views)[i].jobs == {}
      ensures Valid() && running == old(running)
      ensures views == if ok then old(views)[i := Changed(old(views)[i], ToSleeping, now).(pstate := TransitionPstate)]
                       else old(views)
      ensures ok ==> machines[i].state == ToSleeping && machines[i].pstate == TransitionPstate
    {
      assert machines[i].See() == views[i];
      if machines[i].jobsBeingComputed != {} {
        return false;
      }
      Switch(i, ToSleeping, TransitionPstate, now);
      return true;
    }

    /** A switch to a computation state: no job can be on the machine. */
    method StartSwitchOn(i: nat, now: real)
      requires Valid() && i < |machines| && clock <= now && views[i].pstate == SleepPstate
      modifies this, machines[i]
      ensures Valid() && running == old(running)
      ensures views == old(views)[i := Changed(old(views)[i], ToComputing, now).(pstate := TransitionPstate)]
      ensures machines[i].state == ToComputing && machines[i].pstate == TransitionPstate
    {
      NoJobsWithout(views, i, clock);
      assert machines[i].See() == views[i];
      assert machines[i].jobsBeingComputed == {};
      Switch(i, ToComputing, TransitionPstate, now);
    }

    /** The ends of the switch processes. */
    method EndSwitch(i: nat, sleeping: bool, now: real)
      requires Valid() && i < |machines| && clock <= now && views[i].pstate == TransitionPstate
      modifies this, machines[i]
      ensures Valid() && running == old(running)
      ensures views == old(views)[i := Changed(old(views)[i], if sleeping then Sleeping else Idle, now)
                                       .(pstate := if sleeping then SleepPstate else ComputationPstate)]
      ensures machines[i].state == (if sleeping then Sleeping else Idle)
      ensures machines[i].pstate == if sleeping then SleepPstate else ComputationPstate
    {
      NoJobsWithout(views, i, clock);
      if sleeping {
        Switch(i, Sleeping, SleepPstate, now);
      } else {
        Switch(i, Idle, ComputationPstate, now);
      }
    }
  }

  lemma DatesPassed(views: seq<View>, clock: real)
    requires AllSound(views, clock)
    ensures forall i :: 0 <= i < |views| ==> views[i].lastChange <= clock && views[i].times.Keys == AllStates
  {
    forall i | 0 <= i < |views| ensures views[i].lastChange <= clock && views[i].times.Keys == AllStates {
      assert Sound(views[i], clock);
    }
  }

  lemma NoJobsWithout(views: seq<View>, i: nat, clock: real)
    requires AllSound(views, clock) && i < |views| && views[i].pstate != ComputationPstate
    ensures views[i].jobs == {}
  {
    assert Sound(views[i], clock);
  }

  lemma NothingDone(e: Effect, views: seq<View>, ids: seq<nat>, shared: seq<bool>, clock: real, now: real)
    requires AllSound(views, clock) && clock <= now && |shared| == |views|
    ensures InRange(ids[..0], |views|) && Each(e, views, ids[..0], now) == views
    ensures Ready(e, views, ids[..0], shared, clock, now)
  {
  }

  lemma NextExpected(e: Effect, views: seq<View>, ids: seq<nat>, k: nat, shared: seq<bool>, clock: real, now: real)
    requires k < |ids| && Ready(e, views, ids[..k + 1], shared, clock, now)
    ensures InRange(ids[..k], |views|) && InRange(ids[..k + 1], |views|) && ids[k] < |views|
    ensures var w := Each(e, views, ids[..k], now);
            && w[ids[k]].times.Keys == AllStates && w[ids[k]].lastChange <= now
            && Each(e, views, ids[..k + 1], now) == w[ids[k] := After(e, w[ids[k]], now)]
  {
    assert ids[..k + 1][..k] == ids[..k] && ids[..k + 1][..k + 1] == ids[..k + 1];
    EachMore(e, views, ids[..k + 1], k, shared, clock, now);
  }

  lemma EndsThere(views: seq<View>, running: map<JobId, set<nat>>, job: JobId, ids: seq<nat>, now: real, clock: real,
                  i: nat)
    requires Agree(views, running) && job in running && running[job] == set i | i in ids
    requires InRange(ids, |views|) && Distinct(ids) && i < |views| && AllSound(views, clock)
    ensures var v, w := views[i], Each(Ends(job), views, ids, now)[i];
            var freed := i in ids && v.jobs == {job} && v.state != Unavailable;
            && w.jobs == v.jobs - (if i in ids then {job} else {}) && w.pstate == v.pstate
            && w.state == (if freed then Idle else v.state)
            && w.lastChange == (if freed then now else v.lastChange)
  {
    hide Each, AllSound;
    WhatEnds(views, job, ids, now, clock, i);
    assert i in ids <==> job in views[i].jobs;
    assert i in ids ==> (views[i].jobs - {job} == {} <==> views[i].jobs == {job});
  }

  /** What Valid says about one machine. */
  lemma MachinePromises(m: Machines, i: nat, s: MachineState)
    requires m.Valid() && i < |m.machines| && s in AllStates
    ensures var o := m.machines[i];
            && (forall j :: j in o.jobsBeingComputed <==> j in m.running && i in m.running[j])
            && (o.jobsBeingComputed != {} ==> o.state == Computing || o.state == Unavailable)
            && (o.state == Idle ==> o.jobsBeingComputed == {})
            && (!m.shared[i] ==> forall j, k :: j in o.jobsBeingComputed && k in o.jobsBeingComputed ==> j == k)
            && o.timeSpentInEachState.Keys == AllStates
            && TotalTime(o.timeSpentInEachState) == o.lastStateChangeDate
    ensures s in m.nbMachinesInEachState
    ensures m.nbMachinesInEachState[s] == Recount(m.views, s) - if s == Idle then m.nbStorage else 0
  {
    assert m.machines[i].See() == m.views[i];
    assert Sound(m.views[i], m.clock);
  }
}
