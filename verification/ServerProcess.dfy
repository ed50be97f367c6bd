/** The server as it is written: fields that its handlers update, and the body of its loop. Each method
    does to the fields what the step system says. */
module ServerProcess {
  import opened ServerSteps

  datatype Verdict = Fine | Abort(reason: Reason)

  ghost predicate Matches(o: Outcome, v: Verdict, s: State) {
    match o
    case Next(s') => v == Fine && s == s'
    case Dies(reason) => v == Abort(reason)
  }

  class Server {
    const config: Config

    // ServerData
    var nbCompletedJobs: int
    var nbSubmittedJobs: int
    var nbRunningJobs: int
    var nbSwitchingMachines: int
    var nbWaiters: int
    var nbKillers: int
    var nbSubmittersFinished: nat
    var nbEventSubmittersFinished: nat
    var registrationFinished: bool
    var schedReady: bool
    var endOfSimulationSent: bool
    var endOfSimulationAckReceived: bool
    var jobsToBeDeleted: seq<JobId>

    // the context: jobs in memory, what the protocol writer holds, the mailbox, the other actors
    var jobs: map<JobId, Job>
    var deleted: set<JobId>
    var outgoing: seq<Event>
    var mailbox: seq<Message>
    var executing: set<JobId>
    var cancelled: set<JobId>
    var killers: map<nat, Killer>
    var crew: Crew

    // history
    ghost var counted: set<JobId>
    ghost var started: set<JobId>
    ghost var written: seq<JobId>
    ghost var queued: seq<JobId>
    ghost var calls: seq<seq<Event>>
    ghost var log: seq<Event>

    /** The start of server_process, with its first call of the scheduler. */
    constructor (config: Config, jobNames: set<JobId>, submitters: set<string>, eventSubmitters: set<string>)
      requires |submitters| == config.expectedSubmitters && |eventSubmitters| == config.expectedEventSubmitters
      ensures this.config == config && Init(config, View()) && jobs.Keys == jobNames
    {
      this.config := config;
      nbCompletedJobs, nbSubmittedJobs, nbRunningJobs, nbSwitchingMachines, nbWaiters, nbKillers := 0, 0, 0, 0, 0, 0;
      nbSubmittersFinished, nbEventSubmittersFinished, registrationFinished := 0, 0, false;
      schedReady, endOfSimulationSent, endOfSimulationAckReceived := false, false, false;
      jobsToBeDeleted, deleted := [], {};
      jobs := map j | j in jobNames :: Job(NotSubmitted, false);
      outgoing, mailbox, executing, cancelled, killers := [], [], {}, {}, map[];
      crew := Crew({}, {}, submitters, eventSubmitters, true, 0, 0, false);
      counted, started, written, queued := {}, {}, [], [];
      calls, log := [[SimulationBegins]], [SimulationBegins];
    }

    ghost function View(): State
      reads this
    {
      State(jobs, executing, cancelled, killers, mailbox, crew,
            Data(nbCompletedJobs, nbSubmittedJobs, nbRunningJobs, nbSwitchingMachines, nbWaiters, nbKillers,
                 nbSubmittersFinished, nbEventSubmittersFinished, registrationFinished, schedReady,
                 endOfSimulationSent, endOfSimulationAckReceived),
            Books(jobsToBeDeleted, deleted, counted, started, written, queued), Talk(outgoing, calls, log))
    }

    method Append(e: Event)
      modifies this`outgoing, this`log
      ensures View() == Emit(old(View()), e)
    {
      outgoing := outgoing + [e];
      log := log + [e];
    }

    method ChangeState(j: JobId, state: JobState)
      requires j in jobs
      modifies this`jobs
      ensures View() == SetState(old(View()), j, state)
    {
      jobs := jobs[j := jobs[j].(state := state)];
    }

    method WriteJob(j: JobId)
      modifies this`written, this`queued, this`jobsToBeDeleted
      ensures View() == old(View()).(books := Write(old(View()).books, j))
    {
      written := written + [j];
      jobsToBeDeleted := jobsToBeDeleted + [j];
      queued := queued + [j];
    }

    method OneJobSubmitted(j: JobId)
      requires j in jobs
      modifies this`jobs, this`nbSubmittedJobs, this`counted, this`outgoing, this`log
      ensures View() == OnOneSubmitted(old(View()), j) && jobs.Keys == old(jobs.Keys)
    {
      ChangeState(j, Submitted);
      nbSubmittedJobs := nbSubmittedJobs + 1;
      counted := counted + {j};
      Append(SubmittedEvent(j));
    }

    method OnJobSubmitted(js: seq<JobId>)
      requires forall j :: j in js ==> j in jobs
      modifies this
      ensures View() == OnSubmitted(old(View()), js)
    {
      hide OnOneSubmitted;
      for i := 0 to |js|
        invariant jobs.Keys == old(jobs.Keys)
        invariant View() == OnSubmitted(old(View()), js[..i])
      {
        assert js[..i + 1][..i] == js[..i] && js[..i + 1][i] == js[i] && js[i] in js;
        OneJobSubmitted(js[i]);
      }
      assert js[..|js|] == js;
    }

    /** The part that job_completed and killing_done share. */
    method ReportJob(j: JobId) returns (v: Verdict)
      requires j in jobs
      modifies this
      ensures Matches(Report(old(View()), j), v, View())
    {
      nbRunningJobs := nbRunningJobs - 1;
      if nbRunningJobs < 0 {
        return Abort(Inconsistent);
      }
      nbCompletedJobs := nbCompletedJobs + 1;
      if nbCompletedJobs + nbRunningJobs > nbSubmittedJobs {
        return Abort(Inconsistent);
      }
      Append(CompletedEvent(j, jobs[j].state));
      if !IsComplete(jobs[j].state) {
        return Abort(Inconsistent);
      }
      WriteJob(j);
      return Fine;
    }

    method JobCompletedTaken(j: JobId) returns (v: Verdict)
      requires j in jobs
      modifies this
      ensures Matches(OnJobCompleted(old(View()), j), v, View())
    {
      executing := executing - {j};
      v := ReportJob(j);
    }

    method ReportKilledJobs(js: seq<JobId>) returns (v: Verdict)
      requires forall j :: j in js ==> j in jobs
      modifies this
      ensures Matches(ReportKilled(old(View()), js), v, View())
    {
      var i := 0;
      while i < |js|
        invariant 0 <= i <= |js| && jobs == old(jobs)
        invariant ReportKilled(old(View()), js) == ReportKilled(View(), js[i..])
      {
        assert js[i..][1..] == js[i + 1..];
        if js[i] in deleted {
          return Abort(Inconsistent);
        }
        if jobs[js[i]].state.Killed? {
          v := ReportJob(js[i]);
          if v.Abort? {
            return;
          }
        }
        i := i + 1;
      }
      return Fine;
    }

    method KillingDoneTaken(k: nat) returns (v: Verdict)
      requires k in killers && forall j :: j in killers[k].all ==> j in jobs
      modifies this
      ensures Matches(OnKillingDone(old(View()), k), v, View())
    {
      var js := killers[k].all;
      killers := killers - {k};
      v := ReportKilledJobs(js);
      if v.Fine? {
        Append(KilledEvent(js));
        nbKillers := nbKillers - 1;
      }
    }

    method StartJob(j: JobId)
      requires j in jobs
      modifies this`jobs, this`nbRunningJobs, this`started, this`executing
      ensures View() == Start(old(View()), j)
    {
      ChangeState(j, Running);
      CountRunning(j);
    }

    method CountRunning(j: JobId)
      modifies this`nbRunningJobs, this`started, this`executing
      ensures var s := old(View());
              View() == s.(data := s.data.(nbRunning := s.data.nbRunning + 1),
                           books := s.books.(started := s.books.started + {j}), executing := s.executing + {j})
    {
      nbRunningJobs := nbRunningJobs + 1;
      started := started + {j};
      executing := executing + {j};
    }

    method ExecuteJobTaken(j: JobId) returns (v: Verdict)
      modifies this
      ensures Matches(OnExecute(old(View()), j), v, View())
    {
      hide Start;
      if j !in jobs || j in deleted || !jobs[j].state.Submitted? {
        return Abort(BadRequest);
      }
      if nbRunningJobs + 1 > nbSubmittedJobs {
        return Abort(Inconsistent);
      }
      StartJob(j);
      return Fine;
    }

    method RejectJobTaken(j: JobId) returns (v: Verdict)
      modifies this
      ensures Matches(OnReject(old(View()), j), v, View())
    {
      if j !in jobs || j in deleted || !jobs[j].state.Submitted? {
        return Abort(BadRequest);
      }
      ChangeState(j, Rejected);
      nbCompletedJobs := nbCompletedJobs + 1;
      WriteJob(j);
      return Fine;
    }

    method MarkKill(j: JobId)
      requires j in jobs
      modifies this`jobs
      ensures View() == old(View()).(jobs := old(jobs)[j := old(jobs)[j].(killRequested := true)])
    {
      jobs := jobs[j := jobs[j].(killRequested := true)];
    }

    method StartKiller(toKill: seq<JobId>)
      modifies this`killers, this`crew, this`nbKillers
      ensures View() == Spawn(old(View()), toKill)
    {
      killers := killers[crew.nextId := Killer(toKill, toKill, false)];
      crew := crew.(nextId := crew.nextId + 1);
      nbKillers := nbKillers + 1;
    }

    method CollectKills(js: seq<JobId>) returns (v: Verdict, toKill: seq<JobId>)
      modifies this`jobs
      ensures match MarkKills(old(View()), js)
              case BadKillRequest => v == Abort(BadRequest)
              case Marked(s', kills) => v == Fine && s' == View() && kills == toKill
    {
      toKill := [];
      ghost var s0 := View();
      for i := 0 to |js|
        invariant MarkKills(s0, js[..i]) == Marked(View(), toKill)
      {
        var j := js[i];
        MarkNext(s0, js, i);
        if j !in jobs || j in deleted {
          return Abort(BadRequest), [];
        }
        if !jobs[j].killRequested {
          if !(jobs[j].state.Running? || IsComplete(jobs[j].state)) {
            return Abort(BadRequest), [];
          }
          MarkKill(j);
          toKill := toKill + [j];
        }
      }
      assert js[..|js|] == js;
      v := Fine;
    }

    method KillJobsTaken(js: seq<JobId>) returns (v: Verdict)
      modifies this
      ensures Matches(OnKillJobs(old(View()), js), v, View())
    {
      hide MarkKills;
      var toKill;
      v, toKill := CollectKills(js);
      if v.Fine? && |toKill| > 0 {
        StartKiller(toKill);
      }
    }

    /** delete_jobs, one after the other */
    method DeleteQueuedJobs() returns (v: Verdict)
      modifies this`deleted, this`jobsToBeDeleted
      ensures Matches(DeleteJobs(old(View())), v, View())
    {
      var js := jobsToBeDeleted;
      for i := 0 to |js|
        invariant jobsToBeDeleted == js
        invariant NoDup(js[..i]) && forall j :: j in js[..i] ==> j !in old(deleted)
        invariant deleted == old(deleted) + set j | j in js[..i]
      {
        assert js[..i + 1] == js[..i] + [js[i]];
        if js[i] in deleted {
          DeletedTwice(js, i, old(deleted));
          return Abort(Inconsistent);
        }
        deleted := deleted + {js[i]};
      }
      assert js[..|js|] == js;
      jobsToBeDeleted := [];
      return Fine;
    }

    method GenerateMessage()
      modifies this`outgoing, this`calls
      ensures View() == old(View()).(talk := Call(old(View())).talk)
    {
      calls := calls + [outgoing];
      outgoing := [];
    }

    method StartSchedulerProcess()
      modifies this`crew, this`schedReady
      ensures View() == old(View()).(crew := Call(old(View())).crew, data := Call(old(View())).data)
    {
      crew := crew.(scheduler := true);
      schedReady := false;
    }

    method GenerateAndSendMessage()
      modifies this`outgoing, this`calls, this`crew, this`schedReady
      ensures View() == Call(old(View()))
    {
      GenerateMessage();
      StartSchedulerProcess();
    }

    method CallSchedulerIfNeeded() returns (v: Verdict)
      modifies this
      ensures Matches(MaybeCall(config, old(View())), v, View())
    {
      v := Fine;
      if schedReady && !endOfSimulationAckReceived && mailbox == [] {
        if outgoing != [] {
          GenerateAndSendMessage();
          v := DeleteQueuedJobs();
        } else if SimulationFinished() && !endOfSimulationSent {
          Append(SimulationEnds);
          GenerateAndSendMessage();
          endOfSimulationSent := true;
        }
      }
    }

    predicate SimulationFinished()
      reads this
      ensures SimulationFinished() == IsSimulationFinished(config, View().data)
    {
      && nbSubmittersFinished == config.expectedSubmitters
      && nbEventSubmittersFinished == config.expectedEventSubmitters
      && (!config.registration || registrationFinished)
      && nbCompletedJobs == nbSubmittedJobs
      && nbRunningJobs == 0 && nbSwitchingMachines == 0 && nbWaiters == 0 && nbKillers == 0
    }

    method SubmitterByeTaken(n: string)
      modifies this
      ensures var s := LetGo(old(View()), n);
              View() == if s.data.finishedSubmitters == config.expectedSubmitters then Emit(s, NoMoreJobs) else s
    {
      crew := crew.(submitters := crew.submitters - {n});
      nbSubmittersFinished := nbSubmittersFinished + 1;
      if nbSubmittersFinished == config.expectedSubmitters {
        Append(NoMoreJobs);
      }
    }

    method EventSubmitterByeTaken(n: string)
      modifies this
      ensures var s := LetEventsGo(old(View()), n);
              View() ==
                if s.data.finishedEventSubmitters == config.expectedEventSubmitters then Emit(s, NoMoreEvents) else s
    {
      crew := crew.(eventSubmitters := crew.eventSubmitters - {n});
      nbEventSubmittersFinished := nbEventSubmittersFinished + 1;
      if nbEventSubmittersFinished == config.expectedEventSubmitters {
        Append(NoMoreEvents);
      }
    }

    method WaitingDoneTaken(n: nat)
      modifies this
      ensures View() == EndWaiting(Emit(old(View()), RequestedCall(n)), n)
    {
      Append(RequestedCall(n));
      nbWaiters := nbWaiters - 1;
      crew := crew.(waiters := crew.waiters - {n});
    }

    method SwitchedTaken(n: nat)
      modifies this
      ensures View() == EndSwitching(Announce(old(View()), n !in config.silent), n)
    {
      if n !in config.silent {
        Append(StatesChanged);
      }
      nbSwitchingMachines := nbSwitchingMachines - 1;
      crew := crew.(switchers := crew.switchers - {n});
    }

    method CallMeLaterTaken(inFuture: bool) returns (v: Verdict)
      modifies this`crew, this`nbWaiters
      ensures Matches(if inFuture then Next(StartWaiting(old(View()))) else Dies(BadRequest), v, View())
    {
      if !inFuture {
        return Abort(BadRequest);
      }
      crew := crew.(waiters := crew.waiters + {crew.nextId}, nextId := crew.nextId + 1);
      nbWaiters := nbWaiters + 1;
      return Fine;
    }

    method PstateModificationTaken(n: nat, atOnce: bool)
      modifies this
      ensures View() == StartSwitching(Announce(old(View()), atOnce), n)
    {
      hide NewIds;
      if atOnce {
        Append(StatesChanged);
      }
      crew := crew.(switchers := crew.switchers + NewIds(crew.nextId, n), nextId := crew.nextId + n);
      nbSwitchingMachines := nbSwitchingMachines + n;
    }

    method DynamicRegisterTaken(finished: bool)
      modifies this`registrationFinished
      ensures View() == SetRegistration(old(View()), finished)
    {
      registrationFinished := finished;
    }

    method SchedReadyTaken()
      modifies this`crew, this`schedReady, this`endOfSimulationAckReceived
      ensures View() == TakeReady(old(View()))
    {
      crew := crew.(scheduler := false);
      schedReady := true;
      if endOfSimulationSent {
        endOfSimulationAckReceived := true;
      }
    }

    method JobRegisteredTaken(j: JobId)
      modifies this
      ensures var s := Count(old(View()), j); View() == if config.registrationAck then Emit(s, SubmittedEvent(j)) else s
    {
      nbSubmittedJobs := nbSubmittedJobs + 1;
      counted := counted + {j};
      if config.registrationAck {
        Append(SubmittedEvent(j));
      }
    }

    lemma Here(m: Message)
      requires Known(View(), m)
      ensures m.JobsSubmitted? ==> forall j :: j in m.jobs ==> j in jobs
      ensures m.JobCompleted? ==> m.job in jobs
      ensures m.KillingDone? ==> m.killer in killers && forall j :: j in killers[m.killer].all ==> j in jobs
    {
    }

    /** The handler map. */
    method HandleMessage(m: Message) returns (v: Verdict)
      requires Known(View(), m)
      modifies this
      ensures Matches(Handle(config, old(View()), m), v, View())
    {
      hide OnSubmitted, OnJobCompleted, OnKillingDone, OnExecute, OnReject, OnKillJobs, LetGo, LetEventsGo, EndWaiting,
           EndSwitching, StartWaiting, StartSwitching, SetRegistration, TakeReady, Count, Emit, Announce, Server.View;
      Here(m);
      v := Fine;
      match m {
        case JobsSubmitted(_, js) => OnJobSubmitted(js);
        case SubmitterBye(n) => SubmitterByeTaken(n);
        case EventsOccurred(e) => Append(ExternalEvents(e));
        case EventSubmitterBye(n) => EventSubmitterByeTaken(n);
        case JobCompleted(j) => v := JobCompletedTaken(j);
        case KillingDone(k) => v := KillingDoneTaken(k);
        case WaitingDone(n) => WaitingDoneTaken(n);
        case Switched(n) => SwitchedTaken(n);
        case ExecuteJob(j) => v := ExecuteJobTaken(j);
        case RejectJob(j) => v := RejectJobTaken(j);
        case KillJobs(js) => v := KillJobsTaken(js);
        case CallMeLater(inFuture) => v := CallMeLaterTaken(inFuture);
        case ChangePstate(n, atOnce) => PstateModificationTaken(n, atOnce);
        case JobRegistered(j) => JobRegisteredTaken(j);
        case EndRegistration => DynamicRegisterTaken(true);
        case ContinueRegistration => DynamicRegisterTaken(false);
        case SchedReady => SchedReadyTaken();
      }
    }

    /** The body of the simulation loop. */
    method ServeOne() returns (v: Verdict)
      requires mailbox != [] && Known(View(), mailbox[0])
      modifies this
      ensures Matches(Serve(config, old(View())), v, View())
    {
      var m := mailbox[0];
      mailbox := mailbox[1..];
      v := HandleMessage(m);
      if v.Fine? {
        v := CallSchedulerIfNeeded();
      }
    }
  }

  lemma MarkNext(s: State, js: seq<JobId>, i: nat)
    requires i < |js| && MarkKills(s, js[..i]).Marked?
    ensures var s', toKill, j := MarkKills(s, js[..i]).state, MarkKills(s, js[..i]).toKill, js[i];
            if j !in s'.jobs || j in s'.books.deleted
               || (!s'.jobs[j].killRequested && !s'.jobs[j].state.Running? && !IsComplete(s'.jobs[j].state))
            then MarkKills(s, js).BadKillRequest?
            else MarkKills(s, js[..i + 1])
                 == if s'.jobs[j].killRequested then Marked(s', toKill)
                    else Marked(s'.(jobs := s'.jobs[j := s'.jobs[j].(killRequested := true)]), toKill + [j])
  {
    assert js[..i + 1][..i] == js[..i] && js[..i + 1][i] == js[i];
    if MarkKills(s, js[..i + 1]).BadKillRequest? {
      BadMark(s, js, i + 1);
    }
  }

  /** A request that cannot be met spoils the whole list. */
  lemma {:induction false} BadMark(s: State, js: seq<JobId>, i: nat)
    requires i <= |js| && MarkKills(s, js[..i]).BadKillRequest?
    ensures MarkKills(s, js).BadKillRequest?
    decreases |js| - i
  {
    if i == |js| {
      assert js[..i] == js;
    } else {
      assert js[..i + 1][..i] == js[..i];
      BadMark(s, js, i + 1);
    }
  }

  lemma DeletedTwice(js: seq<JobId>, i: nat, deleted: set<JobId>)
    requires i < |js| && (js[i] in deleted || js[i] in js[..i])
    ensures !NoDup(js) || !forall j :: j in js ==> j !in deleted
  {
    if js[i] in js[..i] {
      var k :| 0 <= k < i && js[k] == js[i];
    } else {
      assert js[i] in js;
    }
  }
}
