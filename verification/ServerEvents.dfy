/** What the scheduler is told about each message, and when the end may be announced. */
module ServerEvents {
  import opened ServerSteps
  import opened ServerInvariant
  import opened ServerReports
  import opened ServerHandlers
  import opened ServerLoop
  import opened ServerTheorems

  // ----- one message -----

  lemma {:induction false} SubmissionsTold(s: State, js: seq<JobId>)
    requires forall j :: j in js ==> j in s.jobs
    ensures var s' := OnSubmitted(s, js);
            && s'.talk.log == s.talk.log + seq(|js|, k requires 0 <= k < |js| => SubmittedEvent(js[k]))
            && s'.data.endSent == s.data.endSent
    decreases |js|
  {
    if js != [] {
      var n := |js| - 1;
      SubmissionsTold(s, js[..n]);
      assert seq(|js|, k requires 0 <= k < |js| => SubmittedEvent(js[k]))
          == seq(n, k requires 0 <= k < n => SubmittedEvent(js[..n][k])) + [SubmittedEvent(js[n])];
    }
  }

  /** One completion for each killed job of the list, in its order. */
  ghost function Completions(jobs: map<JobId, Job>, js: seq<JobId>): seq<Event> {
    if js == [] then []
    else (if js[0] in jobs && jobs[js[0]].state == Killed then [CompletedEvent(js[0], Killed)] else [])
         + Completions(jobs, js[1..])
  }

  lemma {:induction false} KilledTold(s: State, js: seq<JobId>)
    requires (forall j :: j in js ==> j in s.jobs) && ReportKilled(s, js).Next?
    ensures var s' := ReportKilled(s, js).state;
            && s'.talk.log == s.talk.log + Completions(s.jobs, js) && s'.jobs == s.jobs
            && s'.data.endSent == s.data.endSent
    decreases |js|
  {
    if js != [] {
      if s.jobs[js[0]].state.Killed? {
        KilledTold(Report(s, js[0]).state, js[1..]);
      } else {
        KilledTold(s, js[1..]);
      }
    }
  }

  lemma FoldsTold(c: Config, s: State)
    requires MayServe(s) && Folds(s.mailbox[0]) && Handle(c, Popped(s), s.mailbox[0]).Next?
    ensures var s' := Handle(c, Popped(s), s.mailbox[0]).state;
            && s'.data.endSent == s.data.endSent
            && s'.talk.log == s.talk.log + match s.mailbox[0]
                                           case JobsSubmitted(_, js) =>
                                             seq(|js|, k requires 0 <= k < |js| => SubmittedEvent(js[k]))
                                           case KillingDone(k) =>
                                             Completions(s.jobs, s.killers[k].all) + [KilledEvent(s.killers[k].all)]
                                           case _ => []
  {
    assert s.mailbox != [];
    match s.mailbox[0]
    case JobsSubmitted(_, js) => SubmissionsTold(Popped(s), js);
    case KillingDone(k) => KilledTold(Popped(s).(killers := s.killers - {k}), s.killers[k].all);
    case KillJobs(js) =>
      MarksCall(Popped(s), js);
      assert s.talk.log + [] == s.talk.log;
  }

  lemma JobsTold(c: Config, s: State)
    requires s.mailbox != [] && Known(Popped(s), s.mailbox[0]) && Handle(c, Popped(s), s.mailbox[0]).Next?
    requires s.mailbox[0].JobCompleted? || AboutJob(s.mailbox[0])
    ensures var s' := Handle(c, Popped(s), s.mailbox[0]).state;
            && s'.data.endSent == s.data.endSent
            && s'.talk.log == s.talk.log + match s.mailbox[0]
                                           case JobCompleted(j) => [CompletedEvent(j, s.jobs[j].state)]
                                           case _ => []
  {
  }

  lemma RequestsTold(c: Config, s: State)
    requires s.mailbox != [] && Known(Popped(s), s.mailbox[0]) && Handle(c, Popped(s), s.mailbox[0]).Next?
    requires IsFromScheduler(s.mailbox[0]) && !Folds(s.mailbox[0]) && !AboutJob(s.mailbox[0])
    ensures var s' := Handle(c, Popped(s), s.mailbox[0]).state;
            && s'.data.endSent == s.data.endSent
            && s'.talk.log
               == s.talk.log + match s.mailbox[0]
                               case ChangePstate(_, atOnce) => if atOnce then [StatesChanged] else []
                               case JobRegistered(j) => if c.registrationAck then [SubmittedEvent(j)] else []
                               case _ => []
  {
    hide NewIds;
  }

  lemma CrewTold(c: Config, s: State)
    requires s.mailbox != [] && Known(Popped(s), s.mailbox[0]) && Handle(c, Popped(s), s.mailbox[0]).Next?
    requires !IsFromScheduler(s.mailbox[0]) && !Folds(s.mailbox[0]) && !s.mailbox[0].JobCompleted?
    ensures var s' := Handle(c, Popped(s), s.mailbox[0]).state;
            && s'.data.endSent == s.data.endSent
            && s'.talk.log
               == s.talk.log + match s.mailbox[0]
                               case SubmitterBye(_) =>
                                 if s.data.finishedSubmitters + 1 == c.expectedSubmitters then [NoMoreJobs] else []
                               case EventsOccurred(e) => [ExternalEvents(e)]
                               case EventSubmitterBye(_) =>
                                 if s.data.finishedEventSubmitters + 1 == c.expectedEventSubmitters then [NoMoreEvents]
                                 else []
                               case WaitingDone(n) => [RequestedCall(n)]
                               case Switched(n) => if n in c.silent then [] else [StatesChanged]
                               case _ => []
  {
  }

  lemma MaybeCallTold(c: Config, s: State)
    requires MaybeCall(c, s).Next?
    ensures var s' := MaybeCall(c, s).state;
            && s'.talk.log == s.talk.log + (if s'.data.endSent && !s.data.endSent then [SimulationEnds] else [])
            && (s.data.endSent ==> s'.data.endSent) && s'.jobs == s.jobs
  {
    hide IsSimulationFinished, NoDup;
  }

  /** What one step of the server tells, for every message. */
  lemma HandledIsTold(c: Config, s: State, l: Label, s': State)
    requires Enabled(c, s, l) && Do(c, s, l) == Next(s') && l.Serves?
    ensures s.mailbox != [] && (s.mailbox[0].JobCompleted? ==> s.mailbox[0].job in s.jobs)
            && (s.mailbox[0].KillingDone? ==> s.mailbox[0].killer in s.killers)
    ensures s'.talk.log
         == s.talk.log
            + (match s.mailbox[0]
               case JobsSubmitted(_, js) => seq(|js|, k requires 0 <= k < |js| => SubmittedEvent(js[k]))
               case SubmitterBye(_) =>
                 if s.data.finishedSubmitters + 1 == c.expectedSubmitters then [NoMoreJobs] else []
               case EventsOccurred(e) => [ExternalEvents(e)]
               case EventSubmitterBye(_) =>
                 if s.data.finishedEventSubmitters + 1 == c.expectedEventSubmitters then [NoMoreEvents] else []
               case JobCompleted(j) => [CompletedEvent(j, s.jobs[j].state)]
               case KillingDone(k) => Completions(s.jobs, s.killers[k].all) + [KilledEvent(s.killers[k].all)]
               case WaitingDone(n) => [RequestedCall(n)]
               case Switched(n) => if n in c.silent then [] else [StatesChanged]
               case ChangePstate(_, atOnce) => if atOnce then [StatesChanged] else []
               case JobRegistered(j) => if c.registrationAck then [SubmittedEvent(j)] else []
               case _ => [])
            + (if s'.data.endSent && !s.data.endSent then [SimulationEnds] else [])
  {
    assert MayServe(s) && Serve(c, s) == Next(s') && Known(s, s.mailbox[0]);
    assert Known(Popped(s), s.mailbox[0]);
    hide Handle, MaybeCall, MayServe, Do, Enabled;
    MaybeCallTold(c, Handle(c, Popped(s), s.mailbox[0]).state);
    if Folds(s.mailbox[0]) {
      FoldsTold(c, s);
    } else if s.mailbox[0].JobCompleted? || AboutJob(s.mailbox[0]) {
      JobsTold(c, s);
    } else if IsFromScheduler(s.mailbox[0]) {
      RequestsTold(c, s);
    } else {
      CrewTold(c, s);
    }
  }

  lemma ActorsTellNothing(c: Config, s: State, l: Label, s': State)
    requires Enabled(c, s, l) && Do(c, s, l) == Next(s') && !l.Serves?
    ensures s'.talk.log == s.talk.log && s'.data == s.data
  {
    ActorsKeepData(c, s, l, s');
  }

  // ----- submissions over runs -----

  /** In this step j is submitted by a submitter, or its registration is taken and to be acknowledged. */
  ghost predicate Introduces(c: Config, s: State, l: Label, j: JobId) {
    && l.Serves? && s.mailbox != []
    && ((s.mailbox[0].JobsSubmitted? && j in s.mailbox[0].jobs)
        || (c.registrationAck && s.mailbox[0] == JobRegistered(j)))
  }

  lemma StepIntroduces(c: Config, s: State, l: Label, s': State, j: JobId)
    requires Enabled(c, s, l) && Do(c, s, l) == Next(s')
    ensures SubmittedEvent(j) in s'.talk.log <==> SubmittedEvent(j) in s.talk.log || Introduces(c, s, l, j)
  {
    if l.Serves? {
      HandledIsTold(c, s, l, s');
      hide Do, Enabled;
      match s.mailbox[0]
      case JobsSubmitted(_, js) => InList(js, j);
      case KillingDone(k) => NoSubmissions(s.jobs, s.killers[k].all, j);
      case _ =>
    } else {
      ActorsTellNothing(c, s, l, s');
    }
  }

  lemma InList(js: seq<JobId>, j: JobId)
    ensures SubmittedEvent(j) in seq(|js|, k requires 0 <= k < |js| => SubmittedEvent(js[k])) <==> j in js
  {
    var told := seq(|js|, k requires 0 <= k < |js| => SubmittedEvent(js[k]));
    if j in js {
      var k :| 0 <= k < |js| && js[k] == j;
      assert told[k] == SubmittedEvent(j);
    }
  }

  lemma {:induction false} NoSubmissions(jobs: map<JobId, Job>, js: seq<JobId>, j: JobId)
    ensures SubmittedEvent(j) !in Completions(jobs, js)
  {
    if js != [] { NoSubmissions(jobs, js[1..], j); }
  }

  /** In every run JOB_SUBMITTED is told of exactly the jobs that were submitted, or registered if registrations
      are acknowledged. */
  lemma {:induction false} SubmittedIffTold(c: Config, run: seq<State>, labels: seq<Label>, n: nat, j: JobId)
    requires Run(c, run, labels) && n < |run|
    ensures n <= |labels| && (SubmittedEvent(j) in run[n].talk.log <==>
                              exists i :: 0 <= i < n && Introduces(c, run[i], labels[i], j))
  {
    RunStarts(c, run, labels);
    if n == 0 {
      assert run[0].talk.log == [SimulationBegins];
    } else {
      RunStep(c, run, labels, n);
      hide Run, Do, Enabled, Init, Introduces;
      SubmittedIffTold(c, run, labels, n - 1, j);
      StepIntroduces(c, run[n - 1], labels[n - 1], run[n], j);
    }
  }

  // ----- completions over runs -----

  lemma {:induction false} SubmissionsKeep(s: State, js: seq<JobId>, j: JobId)
    requires (forall x :: x in js ==> x in s.jobs && s.jobs[x].state.NotSubmitted?) && j in s.jobs
    requires IsComplete(s.jobs[j].state)
    ensures OnSubmitted(s, js).jobs[j] == s.jobs[j]
    decreases |js|
  {
    if js != [] { SubmissionsKeep(s, js[..|js| - 1], j); }
  }

  lemma {:induction false} MarksKeep(s: State, js: seq<JobId>, j: JobId)
    requires MarkKills(s, js).Marked? && j in s.jobs
    ensures j in MarkKills(s, js).state.jobs && MarkKills(s, js).state.jobs[j].state == s.jobs[j].state
    decreases |js|
  {
    if js != [] { MarksKeep(s, js[..|js| - 1], j); }
  }

  lemma HandleKeepsComplete(c: Config, s: State, j: JobId)
    requires Inv(c, s) && MayServe(s) && Handle(c, Popped(s), s.mailbox[0]).Next?
    requires j in s.jobs && IsComplete(s.jobs[j].state)
    ensures var s' := Handle(c, Popped(s), s.mailbox[0]).state; j in s'.jobs && s'.jobs[j].state == s.jobs[j].state
  {
    assert s.mailbox != [] && Known(Popped(s), s.mailbox[0]);
    HeadOk(s);
    hide Inv, MayServe, Handle;
    if Folds(s.mailbox[0]) { FoldsKeepComplete(c, s, j); } else { OthersKeepComplete(c, s, j); }
  }

  lemma FoldsKeepComplete(c: Config, s: State, j: JobId)
    requires s.mailbox != [] && Known(Popped(s), s.mailbox[0]) && MessageOk(s, s.mailbox[0])
    requires Folds(s.mailbox[0]) && Handle(c, Popped(s), s.mailbox[0]).Next?
    requires j in s.jobs && IsComplete(s.jobs[j].state)
    ensures var s' := Handle(c, Popped(s), s.mailbox[0]).state; j in s'.jobs && s'.jobs[j].state == s.jobs[j].state
  {
    match s.mailbox[0]
    case JobsSubmitted(_, js) => SubmissionsKeep(Popped(s), js, j);
    case KillingDone(k) => KilledTold(Popped(s).(killers := s.killers - {k}), s.killers[k].all);
    case KillJobs(js) => MarksKeep(Popped(s), js, j);
  }

  lemma OthersKeepComplete(c: Config, s: State, j: JobId)
    requires s.mailbox != [] && Known(Popped(s), s.mailbox[0])
    requires !Folds(s.mailbox[0]) && Handle(c, Popped(s), s.mailbox[0]).Next?
    requires j in s.jobs && IsComplete(s.jobs[j].state)
    ensures var s' := Handle(c, Popped(s), s.mailbox[0]).state; j in s'.jobs && s'.jobs[j].state == s.jobs[j].state
  {
    hide NewIds;
  }

  lemma NotCancelled(c: Config, s: State, j: JobId)
    requires Inv(c, s) && j in s.jobs && IsComplete(s.jobs[j].state)
    ensures j !in s.cancelled
  {
    assert JobOk(s, j);
  }

  lemma KillerKeepsComplete(s: State, k: nat, directly: bool, j: JobId)
    requires k in s.killers && s.killers[k].todo != [] && KillNext(s, k, directly).Next?
    requires j in s.jobs && IsComplete(s.jobs[j].state)
    ensures var s' := KillNext(s, k, directly).state; j in s'.jobs && s'.jobs[j].state == s.jobs[j].state
  {
  }

  lemma ActorsKeepComplete(c: Config, s: State, l: Label, s': State, j: JobId)
    requires Enabled(c, s, l) && Do(c, s, l) == Next(s') && !l.Serves?
    requires j in s.jobs && IsComplete(s.jobs[j].state) && j !in s.cancelled
    ensures j in s'.jobs && s'.jobs[j].state == s.jobs[j].state
  {
    hide Serve, KillNext, SchedulerBusy, SubmitterBusy, EventSubmitterBusy, MaySubmit, NoDup;
    if l.KillerKills? {
      KillerKeepsComplete(s, l.killer, l.directly, j);
    }
  }

  /** What is complete stays as it is. */
  lemma CompleteStays(c: Config, s: State, l: Label, s': State, j: JobId)
    requires Inv(c, s) && Enabled(c, s, l) && Do(c, s, l) == Next(s') && j in s.jobs && IsComplete(s.jobs[j].state)
    ensures j in s'.jobs && s'.jobs[j].state == s.jobs[j].state
  {
    hide *;
    if l.Serves? {
      ServeKeepsComplete(c, s, l, s', j);
    } else {
      NotCancelled(c, s, j);
      ActorsKeepComplete(c, s, l, s', j);
    }
  }

  lemma ServeKeepsComplete(c: Config, s: State, l: Label, s': State, j: JobId)
    requires Inv(c, s) && Enabled(c, s, l) && Do(c, s, l) == Next(s') && l.Serves?
    requires j in s.jobs && IsComplete(s.jobs[j].state)
    ensures j in s'.jobs && s'.jobs[j].state == s.jobs[j].state
  {
    hide Inv, Handle, MaybeCall, IsComplete, IsSimulationFinished;
    assert MayServe(s) && Serve(c, s) == Next(s');
    HandleKeepsComplete(c, s, j);
    MaybeCallTold(c, Handle(c, Popped(s), s.mailbox[0]).state);
  }

  /** Every completion that was told names the state in which the job is. */
  ghost predicate TruthTold(s: State) {
    forall i, j :: 0 <= i < |s.talk.log| && s.talk.log[i].CompletedEvent? && s.talk.log[i].job == j ==>
      j in s.jobs && IsComplete(s.jobs[j].state) && s.jobs[j].state == s.talk.log[i].state
  }

  lemma {:induction false} KilledTruth(jobs: map<JobId, Job>, js: seq<JobId>)
    ensures forall i :: 0 <= i < |Completions(jobs, js)| ==>
              var e := Completions(jobs, js)[i];
              e.CompletedEvent? && e.job in jobs && jobs[e.job].state == Killed == e.state && IsComplete(Killed)
  {
    if js != [] { KilledTruth(jobs, js[1..]); }
  }

  lemma HeadComplete(c: Config, s: State, j: JobId)
    requires Inv(c, s) && s.mailbox != [] && s.mailbox[0] == JobCompleted(j) && j in s.jobs
    ensures IsComplete(s.jobs[j].state)
  {
    assert s.mailbox[0] in s.mailbox;
    assert JobOk(s, j);
  }

  /** A completion in the log is an old one, or names a job that is complete, in its state. */
  lemma NewTruth(c: Config, s: State, l: Label, s': State, i: nat)
    requires Inv(c, s) && Enabled(c, s, l) && Do(c, s, l) == Next(s') && i < |s'.talk.log|
    requires s'.talk.log[i].CompletedEvent?
    ensures || (i < |s.talk.log| && s'.talk.log[i] == s.talk.log[i])
            || (var e := s'.talk.log[i]; e.job in s.jobs && IsComplete(s.jobs[e.job].state)
                                         && s.jobs[e.job].state == e.state)
  {
    hide *;
    if l.Serves? {
      HandledIsTold(c, s, l, s');
      if s.mailbox[0].JobCompleted? { HeadComplete(c, s, s.mailbox[0].job); }
      if s.mailbox[0].KillingDone? { KilledTruth(s.jobs, s.killers[s.mailbox[0].killer].all); }
    } else {
      ActorsTellNothing(c, s, l, s');
    }
  }

  lemma StepTellsTruth(c: Config, s: State, l: Label, s': State)
    requires Inv(c, s) && Enabled(c, s, l) && Do(c, s, l) == Next(s') && TruthTold(s)
    ensures TruthTold(s')
  {
    hide Inv, Do, Enabled;
    forall i, j | 0 <= i < |s'.talk.log| && s'.talk.log[i].CompletedEvent? && s'.talk.log[i].job == j
      ensures j in s'.jobs && IsComplete(s'.jobs[j].state) && s'.jobs[j].state == s'.talk.log[i].state
    {
      OneTruth(c, s, l, s', i);
    }
  }

  lemma OneTruth(c: Config, s: State, l: Label, s': State, i: nat)
    requires Inv(c, s) && Enabled(c, s, l) && Do(c, s, l) == Next(s') && TruthTold(s)
    requires i < |s'.talk.log| && s'.talk.log[i].CompletedEvent?
    ensures var e := s'.talk.log[i];
            e.job in s'.jobs && IsComplete(s'.jobs[e.job].state) && s'.jobs[e.job].state == e.state
  {
    hide Inv, Do, Enabled, IsComplete;
    NewTruth(c, s, l, s', i);
    CompleteStays(c, s, l, s', s'.talk.log[i].job);
  }

  lemma {:induction false} RunTellsTruth(c: Config, run: seq<State>, labels: seq<Label>, n: nat)
    requires Run(c, run, labels) && n < |run|
    ensures TruthTold(run[n])
  {
    hide *;
    RunStarts(c, run, labels);
    if n == 0 {
      FirstTruth(c, run[0]);
    } else {
      RunTellsTruth(c, run, labels, n - 1);
      RunInv(c, run, labels, n - 1);
      RunStep(c, run, labels, n);
      StepTellsTruth(c, run[n - 1], labels[n - 1], run[n]);
    }
  }

  lemma FirstTruth(c: Config, s: State)
    requires Init(c, s)
    ensures TruthTold(s)
  {
  }

  /** In every reachable state the state that JOB_COMPLETED told of a job is the job's. */
  lemma CompletionsTellTruth(c: Config, s: State, i: nat, j: JobId, state: JobState)
    requires Reachable(c, s) && i < |s.talk.log| && s.talk.log[i] == CompletedEvent(j, state)
    ensures j in s.jobs && s.jobs[j].state == state && IsComplete(state) && state != Rejected
  {
    var run: seq<State>, labels :| Run(c, run, labels) && s == run[|run| - 1];
    RunTellsTruth(c, run, labels, |run| - 1);
    NotRejected(c, s, i, j);
  }

  lemma NotRejected(c: Config, s: State, i: nat, j: JobId)
    requires Reachable(c, s) && i < |s.talk.log| && s.talk.log[i].CompletedEvent? && s.talk.log[i].job == j
    ensures j in s.jobs && s.jobs[j].state != Rejected
  {
    SchedulerHears(c, s);
    hide Reachable;
    assert CompletedAt(s.talk.log, i, j);
    assert CompletedBefore(s.talk.log, |s.talk.log|, j);
  }

  // ----- the end -----

  /** The registration flag says which of the two messages was taken last: END_REGISTRATION, not
      CONTINUE_REGISTRATION. */
  lemma {:induction false} RegistrationFlag(c: Config, run: seq<State>, labels: seq<Label>, n: nat)
    requires Run(c, run, labels) && n < |run|
    ensures n <= |labels|
    ensures run[n].data.registrationFinished <==>
            exists i :: 0 <= i < n && TakesMessage(run[i], labels[i], EndRegistration)
                        && forall k :: i < k < n ==> !TakesMessage(run[k], labels[k], ContinueRegistration)
  {
    RunStarts(c, run, labels);
    if n > 0 {
      RunStep(c, run, labels, n);
      hide Run, Do, Enabled, Init, TakesMessage;
      RegistrationFlag(c, run, labels, n - 1);
      StepRegistration(c, run[n - 1], labels[n - 1], run[n]);
      if TakesMessage(run[n - 1], labels[n - 1], EndRegistration) {
        assert run[n].data.registrationFinished;
      }
    }
  }

  ghost predicate TakesMessage(s: State, l: Label, m: Message) {
    l.Serves? && s.mailbox != [] && s.mailbox[0] == m
  }

  lemma {:induction false} SubmissionsFlag(s: State, js: seq<JobId>)
    requires forall j :: j in js ==> j in s.jobs
    ensures OnSubmitted(s, js).data.registrationFinished == s.data.registrationFinished
    decreases |js|
  {
    if js != [] { SubmissionsFlag(s, js[..|js| - 1]); }
  }

  lemma {:induction false} ReportsFlag(s: State, js: seq<JobId>)
    requires (forall j :: j in js ==> j in s.jobs) && ReportKilled(s, js).Next?
    ensures ReportKilled(s, js).state.data.registrationFinished == s.data.registrationFinished
    decreases |js|
  {
    if js != [] {
      if s.jobs[js[0]].state.Killed? {
        ReportsFlag(Report(s, js[0]).state, js[1..]);
      } else {
        ReportsFlag(s, js[1..]);
      }
    }
  }

  lemma HandleRegistration(c: Config, s: State)
    requires MayServe(s) && Handle(c, Popped(s), s.mailbox[0]).Next?
    ensures s.mailbox != []
    ensures Handle(c, Popped(s), s.mailbox[0]).state.data.registrationFinished
         == (s.mailbox[0].EndRegistration? || (s.data.registrationFinished && !s.mailbox[0].ContinueRegistration?))
  {
    match s.mailbox[0]
    case JobsSubmitted(_, js) => SubmissionsFlag(Popped(s), js);
    case KillingDone(k) => ReportsFlag(Popped(s).(killers := s.killers - {k}), s.killers[k].all);
    case KillJobs(js) => if MarkKills(Popped(s), js).Marked? { MarksCall(Popped(s), js); }
    case JobCompleted(_) =>
    case ExecuteJob(_) =>
    case RejectJob(_) =>
    case _ =>
  }

  lemma MaybeCallRegistration(c: Config, s: State)
    requires MaybeCall(c, s).Next?
    ensures MaybeCall(c, s).state.data.registrationFinished == s.data.registrationFinished
  {
    hide IsSimulationFinished, NoDup;
  }

  lemma StepRegistration(c: Config, s: State, l: Label, s': State)
    requires Enabled(c, s, l) && Do(c, s, l) == Next(s')
    ensures s'.data.registrationFinished
         == (TakesMessage(s, l, EndRegistration)
             || (s.data.registrationFinished && !TakesMessage(s, l, ContinueRegistration)))
  {
    if l.Serves? {
      assert MayServe(s) && Serve(c, s) == Next(s');
      hide Handle, MaybeCall, MayServe;
      HandleRegistration(c, s);
      MaybeCallRegistration(c, Handle(c, Popped(s), s.mailbox[0]).state);
    } else {
      ActorsTellNothing(c, s, l, s');
    }
  }

  /** The end is announced only when all submitters have finished, the scheduler has ended the registration
      of jobs if there is one, every submitted job is complete, and nothing runs, switches, waits or kills. */
  lemma EndAfterAll(c: Config, s: State, l: Label, s': State)
    requires Reachable(c, s) && Enabled(c, s, l) && Do(c, s, l) == Next(s') && !s.data.endSent && s'.data.endSent
    ensures s'.data.finishedSubmitters == c.expectedSubmitters
    ensures s'.data.finishedEventSubmitters == c.expectedEventSubmitters
    ensures c.registration ==> s'.data.registrationFinished
    ensures s'.data.nbCompleted == s'.data.nbSubmitted && s'.data.nbRunning == 0
    ensures s'.data.nbSwitching == 0 && s'.data.nbWaiters == 0 && s'.data.nbKillers == 0
  {
    EndAnnouncedOnce(c, s, l, s');
    hide Reachable, AtRest, Do, Enabled;
  }
}
