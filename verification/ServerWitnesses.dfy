/** Runs that reach the states in which the server's promises fail. */
module ServerWitnesses {
  import opened ServerHandlers
  import opened ServerSteps
  import opened ServerInvariant
  import opened ServerReports
  import opened ServerTheorems

  lemma Reaches(c: Config, s: State, l: Label, s': State)
    requires Reachable(c, s) && Enabled(c, s, l) && Do(c, s, l) == Next(s')
    ensures Reachable(c, s')
  {
    var run: seq<State>, labels :| Run(c, run, labels) && s == run[|run| - 1];
    var run', labels' := run + [s'], labels + [l];
    hide Do, Enabled;
    forall i: nat | i < |labels'| ensures StepAt(c, run', labels', i) {
      if i < |labels| { assert StepAt(c, run, labels, i); }
    }
    assert Run(c, run', labels');
  }

  lemma ReachesInit(c: Config, s: State)
    requires Init(c, s)
    ensures Reachable(c, s)
  {
    assert Run(c, [s], []);
    assert [s][|[s]| - 1] == s;
  }

  /** A request is made and taken. */
  lemma RequestTaken(c: Config, s: State, m: Message, taken: State, s': State)
    requires Reachable(c, s) && s.mailbox == [] && s.crew.scheduler && !s.data.endAcked && s.killers == map[]
    requires IsFromScheduler(m) && !m.JobRegistered?
    requires Handle(c, Ask(s, s.data.endSent && !m.SchedReady?), m) == Next(taken) && MaybeCall(c, taken) == Next(s')
    ensures Reachable(c, s')
  {
    hide Handle, MaybeCall, Reachable;
    var asked := Ask(s, s.data.endSent && !m.SchedReady?);
    var posted := Post(asked, m);
    Reaches(c, s, Requests(m), posted);
    assert Popped(posted) == asked;
    Reaches(c, posted, Serves, s');
  }

  const job: JobId := JobId("w", "1")

  /** The start of a simulation of the given jobs. */
  function First(jobs: map<JobId, Job>, submitters: set<string>): State {
    State(jobs, {}, {}, map[], [], Crew({}, {}, submitters, {}, true, 0, 0, false),
          Data(0, 0, 0, 0, 0, 0, 0, 0, false, false, false, false), Books([], {}, {}, {}, [], []),
          Talk([], [[SimulationBegins]], [SimulationBegins]))
  }

  /** The scheduler answers its first call, and the server knows the job. */
  predicate Answering(s: State, state: JobState) {
    && s.mailbox == [] && s.killers == map[] && s.crew.scheduler
    && !s.data.schedReady && !s.data.endSent && !s.data.endAcked
    && s.jobs == map[job := Job(state, false)] && job !in s.books.deleted
  }

  lemma JobPostedReached(c: Config) returns (s: State)
    requires c == Config(1, 0, false, false, {})
    ensures Reachable(c, s) && s.mailbox == [JobsSubmitted("w", [job])]
    ensures Answering(Popped(s), NotSubmitted) && s.data.nbSubmitted == s.data.nbRunning == 0
  {
    var s0 := First(map[job := Job(NotSubmitted, false)], {"w"});
    ReachesInit(c, s0);
    hide Reachable, Init;
    s := Post(s0, JobsSubmitted("w", [job]));
    Reaches(c, s0, Submits("w", [job]), s);
    assert Popped(s) == s0;
  }

  lemma JobSubmittedReached(c: Config) returns (s: State)
    requires c == Config(1, 0, false, false, {})
    ensures Reachable(c, s) && Answering(s, Submitted) && s.data.nbSubmitted > s.data.nbRunning
  {
    var s1 := JobPostedReached(c);
    hide Reachable;
    assert [job][..0] == [];
    s := OnOneSubmitted(Popped(s1), job);
    assert OnSubmitted(Popped(s1), [job]) == s;
    Reaches(c, s1, Serves, s);
  }

  /** A rejected job that is still in memory, and whose kill was not requested. */
  lemma RejectedReached() returns (c: Config, s: State)
    ensures Reachable(c, s) && job in s.jobs && job !in s.books.deleted
    ensures s.jobs[job].state.Rejected? && !s.jobs[job].killRequested
  {
    c := Config(1, 0, false, false, {});
    var s1 := JobSubmittedReached(c);
    hide Reachable;
    s := OnReject(s1, job).state;
    assert Ask(s1, false) == s1;
    RequestTaken(c, s1, RejectJob(job), s, s);
  }

  lemma JobStartedReached(c: Config) returns (s: State)
    requires c == Config(1, 0, false, false, {})
    ensures Reachable(c, s) && Answering(s, Running)
  {
    var s1 := JobSubmittedReached(c);
    hide Reachable;
    s := Start(s1, job);
    assert Ask(s1, false) == s1;
    RequestTaken(c, s1, ExecuteJob(job), s, s);
  }

  /** A running job whose kill was requested. */
  lemma KillRequestedReached() returns (c: Config, s: State)
    ensures Reachable(c, s) && job in s.jobs && job !in s.books.deleted
    ensures s.jobs[job].state.Running? && s.jobs[job].killRequested
  {
    c := Config(1, 0, false, false, {});
    var s2 := JobStartedReached(c);
    hide Reachable;
    MarkOne(s2, job);
    s := Spawn(Mark(s2, job), [job]);
    assert Ask(s2, false) == s2;
    RequestTaken(c, s2, KillJobs([job]), s, s);
  }

  /** Without submitters the end is announced once the scheduler answered its first call. */
  lemma EndReached(c: Config) returns (s: State)
    requires c == Config(0, 0, false, false, {})
    ensures Reachable(c, s) && s.mailbox == [] && s.killers == map[] && s.crew.scheduler
    ensures s.data.endSent && !s.data.endAcked && !s.data.schedReady && s.data.nbWaiters == 0
  {
    var s0 := First(map[], {});
    ReachesInit(c, s0);
    hide Reachable;
    s := MaybeCall(c, TakeReady(s0)).state;
    assert Ask(s0, false) == s0;
    RequestTaken(c, s0, SchedReady, TakeReady(s0), s);
  }

  /** The loop is left with a waiter that will never be heard. */
  lemma LateWaiterReached() returns (c: Config, s: State)
    ensures Reachable(c, s) && s.data.endAcked && s.data.nbWaiters == 1
  {
    c := Config(0, 0, false, false, {});
    var s1 := EndReached(c);
    hide Reachable, Init;
    var s2 := StartWaiting(Ask(s1, true));
    RequestTaken(c, s1, CallMeLater(true), s2, s2);
    s := TakeReady(Ask(s2, false));
    RequestTaken(c, s2, SchedReady, s, s);
  }
}
