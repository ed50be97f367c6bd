/** What the server promises, over all runs. */
module ServerTheorems {
  import opened ServerSteps
  import opened ServerInvariant
  import opened ServerActors
  import opened ServerReports
  import opened ServerHandlers
  import opened ServerLoop

  lemma RunStarts(c: Config, run: seq<State>, labels: seq<Label>)
    requires Run(c, run, labels)
    ensures |run| == |labels| + 1 && Init(c, run[0])
  {
  }

  lemma RunStep(c: Config, run: seq<State>, labels: seq<Label>, i: nat)
    requires Run(c, run, labels) && 0 < i < |run|
    ensures i <= |labels| && Enabled(c, run[i - 1], labels[i - 1]) && Do(c, run[i - 1], labels[i - 1]) == Next(run[i])
  {
    assert StepAt(c, run, labels, i - 1);
  }

  lemma {:induction false} RunInv(c: Config, run: seq<State>, labels: seq<Label>, i: nat)
    requires Run(c, run, labels) && i < |run|
    ensures Inv(c, run[i])
  {
    hide *;
    if i == 0 {
      RunStarts(c, run, labels);
      InitInv(c, run[0]);
    } else {
      RunInv(c, run, labels, i - 1);
      RunStep(c, run, labels, i);
      StepInv(c, run[i - 1], labels[i - 1]);
    }
  }

  ghost predicate Reachable(c: Config, s: State) {
    exists run: seq<State>, labels :: Run(c, run, labels) && s == run[|run| - 1]
  }

  lemma ReachableInv(c: Config, s: State)
    requires Reachable(c, s)
    ensures Inv(c, s)
  {
    var run: seq<State>, labels :| Run(c, run, labels) && s == run[|run| - 1];
    RunInv(c, run, labels, |run| - 1);
  }

  // ----- no check of the server's own data fails -----

  lemma KillerChecks(c: Config, s: State, k: nat, directly: bool)
    requires Inv(c, s) && k in s.killers && s.killers[k].todo != []
    ensures s.killers[k].todo[0] in s.jobs && KillNext(s, k, directly) != Dies(Inconsistent)
    ensures KillNext(s, k, directly) != Dies(BadRequest)
    ensures KillNext(s, k, directly) == Dies(BadKill) <==> s.jobs[s.killers[k].todo[0]].state.Rejected?
  {
    assert KillsOk(s, []) && JobsOk(s);
    hide Inv, KillsOk, JobsOk;
    NextToKill(s, k);
  }

  /** Whatever happens next: the server's consistency checks hold, only requests of the scheduler are
      refused, and a killer fails if and only if the job it looks at was rejected. */
  lemma ChecksHold(c: Config, s: State, l: Label)
    requires Reachable(c, s) && Enabled(c, s, l)
    ensures Do(c, s, l) != Dies(Inconsistent)
    ensures Do(c, s, l) == Dies(BadRequest) ==> l.Serves? && IsFromScheduler(s.mailbox[0])
    ensures Do(c, s, l) == Dies(BadKill) <==>
            l.KillerKills? && s.killers[l.killer].todo[0] in s.jobs
            && s.jobs[s.killers[l.killer].todo[0]].state.Rejected?
  {
    ReachableInv(c, s);
    hide Inv, Serve, KillNext, MayServe, Reachable;
    if l.Serves? {
      ServeInv(c, s);
    } else if l.KillerKills? {
      KillerChecks(c, s, l.killer, l.directly);
    } else {
      ActorInv(c, s, l);
    }
  }

  /** The server accepts to kill a rejected job that is still in memory; the killer then fails. */
  lemma RejectedKillAccepted(c: Config, s: State, j: JobId)
    requires Reachable(c, s) && j in s.jobs && j !in s.books.deleted
    requires s.jobs[j].state.Rejected? && !s.jobs[j].killRequested
    ensures OnKillJobs(s, [j]).Next?
    ensures var s', k := OnKillJobs(s, [j]).state, s.crew.nextId;
            && k in s'.killers && s'.killers[k].todo == [j]
            && forall directly :: KillNext(s', k, directly) == Dies(BadKill)
  {
    assert [j][..0] == [];
    assert MarkKills(s, [j]) == Marked(Mark(s, j), [j]);
  }

  // ----- counters and books -----

  ghost function RunningJobs(s: State): set<JobId> {
    set j | j in s.jobs && s.jobs[j].state.Running?
  }

  /** Finished after having run, and not yet reported. */
  ghost function UnreportedJobs(s: State): set<JobId> {
    set j | j in s.jobs && (EndedAlone(s.jobs[j].state) || s.jobs[j].state.Killed?) && j !in s.books.written
  }

  lemma JobStands(s: State, j: JobId)
    requires JobsOk(s) && j in s.jobs
    ensures JobOk(s, j)
  {
  }

  lemma RunningCount(s: State)
    requires JobsOk(s) && BooksOk(s.data, s.books)
    ensures s.data.nbRunning == |RunningJobs(s)| + |UnreportedJobs(s)|
  {
    var now, later := RunningJobs(s), UnreportedJobs(s);
    assert s.books.started - SetOf(s.books.written) == now + later by {
      forall j ensures j in s.books.started - SetOf(s.books.written) <==> j in now + later {
        hide JobsOk;
        if j in s.jobs {
          assert JobsOk(s);
          JobStands(s, j);
        } else {
          StartedKnown(s);
        }
      }
    }
    assert now !! later;
  }

  lemma StartedKnown(s: State)
    requires JobsOk(s)
    ensures s.books.started <= s.jobs.Keys
  {
  }

  /** nb_running_jobs counts the running jobs and those whose end is still to be reported; every job is
      counted completed, written to the trace and queued for deletion at most once, and in the same order. */
  lemma CountersAgree(c: Config, s: State)
    requires Reachable(c, s)
    ensures s.data.nbRunning == |RunningJobs(s)| + |UnreportedJobs(s)|
    ensures s.data.nbSubmitted == |s.books.counted|
    ensures s.data.nbCompleted == |s.books.written| && NoDup(s.books.written) && s.books.queued == s.books.written
    ensures forall j :: j in s.books.written ==> j in s.books.counted && j in s.jobs && IsComplete(s.jobs[j].state)
  {
    ReachableInv(c, s);
    hide KillsOk, EventsOk, MailboxOk, ActorsOk, EndOk;
    RunningCount(s);
    forall j | j in s.books.written ensures j in s.books.counted && j in s.jobs && IsComplete(s.jobs[j].state) {
      assert j in SetOf(s.books.written);
      assert JobOk(s, j);
    }
  }

  /** With no message and no killer under way, the trace holds exactly the submitted jobs that are complete. */
  lemma WrittenOnceWhenQuiet(c: Config, s: State, j: JobId)
    requires Reachable(c, s) && s.mailbox == [] && s.killers == map[]
    ensures j in s.books.written <==> j in s.books.counted && j in s.jobs && IsComplete(s.jobs[j].state)
  {
    CountersAgree(c, s);
    ReachableInv(c, s);
    hide EventsOk, MailboxOk, ActorsOk, EndOk, BooksOk;
    if j in s.jobs {
      assert JobOk(s, j);
      assert !Announced(s, j);
    }
  }

  // ----- calling the scheduler -----

  /** How many calls the scheduler has answered. */
  ghost function Answers(run: seq<State>, labels: seq<Label>, n: nat): nat
    requires n <= |labels| < |run|
  {
    if n == 0 then 0
    else Answers(run, labels, n - 1)
         + if labels[n - 1].Serves? && run[n - 1].mailbox != [] && run[n - 1].mailbox[0].SchedReady? then 1 else 0
  }

  /** A step calls the scheduler at most once, and only if no call is then unanswered. */
  lemma StepCalls(c: Config, s: State, l: Label, s': State)
    requires Inv(c, s) && Enabled(c, s, l) && Do(c, s, l) == Next(s')
    ensures |s'.talk.calls| == |s.talk.calls| + (if s'.crew.scheduler then 1 else 0)
                               + (if l.Serves? && s.mailbox[0].SchedReady? then 1 else 0)
                               - (if s.crew.scheduler then 1 else 0)
  {
    if l.Serves? {
      hide Inv, MaybeCall, Handle, MayServe;
      HandleCalls(c, s);
      MaybeCalls(c, Handle(c, Popped(s), s.mailbox[0]).state);
    } else {
      hide Inv;
      ActorsKeepCalls(c, s, l, s');
    }
  }

  lemma ActorsKeepCalls(c: Config, s: State, l: Label, s': State)
    requires Enabled(c, s, l) && !l.Serves? && Do(c, s, l) == Next(s')
    ensures s'.talk == s.talk && s'.crew.scheduler == s.crew.scheduler
  {
  }

  lemma {:induction false} ReportsCall(s: State, js: seq<JobId>)
    requires (forall j :: j in js ==> j in s.jobs) && ReportKilled(s, js).Next?
    ensures var s' := ReportKilled(s, js).state;
            && s'.talk.calls == s.talk.calls && s'.crew == s.crew && s'.data.schedReady == s.data.schedReady
    decreases |js|
  {
    if js != [] {
      if s.jobs[js[0]].state.Killed? {
        ReportsCall(Report(s, js[0]).state, js[1..]);
      } else {
        ReportsCall(s, js[1..]);
      }
    }
  }

  lemma {:induction false} SubmissionsCall(s: State, js: seq<JobId>)
    requires forall j :: j in js ==> j in s.jobs
    ensures var s' := OnSubmitted(s, js);
            && s'.talk.calls == s.talk.calls && s'.crew == s.crew && s'.data.schedReady == s.data.schedReady
    decreases |js|
  {
    if js != [] {
      SubmissionsCall(s, js[..|js| - 1]);
    }
  }

  lemma {:induction false} MarksCall(s: State, js: seq<JobId>)
    requires MarkKills(s, js).Marked?
    ensures MarkKills(s, js).state == s.(jobs := MarkKills(s, js).state.jobs)
    decreases |js|
  {
    if js != [] {
      MarksCall(s, js[..|js| - 1]);
    }
  }

  predicate Folds(m: Message) {
    m.JobsSubmitted? || m.KillingDone? || m.KillJobs?
  }

  lemma FoldCalls(c: Config, s: State)
    requires MayServe(s) && Folds(s.mailbox[0]) && Handle(c, Popped(s), s.mailbox[0]).Next?
    ensures var s' := Handle(c, Popped(s), s.mailbox[0]).state;
            && s'.talk.calls == s.talk.calls && s'.data.schedReady == s.data.schedReady
            && s'.crew.scheduler == s.crew.scheduler
  {
    match s.mailbox[0]
    case JobsSubmitted(_, js) => SubmissionsCall(Popped(s), js);
    case KillingDone(k) => ReportsCall(Popped(s).(killers := s.killers - {k}), s.killers[k].all);
    case KillJobs(js) => if MarkKills(Popped(s), js).Marked? { MarksCall(Popped(s), js); }
  }

  lemma OtherCalls(c: Config, s: State)
    requires MayServe(s) && !Folds(s.mailbox[0]) && Handle(c, Popped(s), s.mailbox[0]).Next?
    ensures var s' := Handle(c, Popped(s), s.mailbox[0]).state;
            && s'.talk.calls == s.talk.calls
            && (if s.mailbox[0].SchedReady? then s'.data.schedReady && !s'.crew.scheduler
                else s'.data.schedReady == s.data.schedReady && s'.crew.scheduler == s.crew.scheduler)
  {
    match s.mailbox[0]
    case JobCompleted(j) =>
    case ExecuteJob(j) =>
    case RejectJob(j) =>
    case _ =>
  }

  lemma HandleCalls(c: Config, s: State)
    requires Inv(c, s) && MayServe(s) && Handle(c, Popped(s), s.mailbox[0]).Next?
    ensures var s' := Handle(c, Popped(s), s.mailbox[0]).state;
            && s'.talk.calls == s.talk.calls
            && s'.crew.scheduler == (s.crew.scheduler && !s.mailbox[0].SchedReady?)
            && s'.data.schedReady == !s'.crew.scheduler
            && (s.mailbox[0].SchedReady? ==> s.crew.scheduler)
  {
    assert s.data.schedReady == !s.crew.scheduler;
    HeadOk(s);
    hide Inv, MayServe, Handle;
    if Folds(s.mailbox[0]) { FoldCalls(c, s); } else { OtherCalls(c, s); }
  }

  lemma MaybeCalls(c: Config, s: State)
    requires MaybeCall(c, s).Next? && s.data.schedReady == !s.crew.scheduler
    ensures var s' := MaybeCall(c, s).state;
            |s'.talk.calls| == |s.talk.calls|
                + (if s'.crew.scheduler then 1 else 0) - (if s.crew.scheduler then 1 else 0)
  {
  }

  /** The scheduler is never called while a call is unanswered: all calls but the one under way are answered. */
  lemma {:induction false} CallsAreAnswered(c: Config, run: seq<State>, labels: seq<Label>, n: nat)
    requires Run(c, run, labels) && n < |run|
    ensures |run[n].talk.calls| == Answers(run, labels, n) + if run[n].crew.scheduler then 1 else 0
    ensures run[n].data.schedReady == !run[n].crew.scheduler
  {
    hide Run, Inv, Do, Enabled, Init;
    RunInv(c, run, labels, n);
    TokenOf(c, run[n]);
    RunStarts(c, run, labels);
    if n == 0 {
      CallsAtFirst(c, run[0]);
    } else {
      CallsAreAnswered(c, run, labels, n - 1);
      RunInv(c, run, labels, n - 1);
      RunStep(c, run, labels, n);
      StepCalls(c, run[n - 1], labels[n - 1], run[n]);
      if labels[n - 1].Serves? { EnabledServe(c, run[n - 1], labels[n - 1]); }
    }
  }

  lemma TokenOf(c: Config, s: State)
    requires Inv(c, s)
    ensures s.data.schedReady == !s.crew.scheduler
  {
  }

  lemma CallsAtFirst(c: Config, s: State)
    requires Init(c, s)
    ensures |s.talk.calls| == 1 && s.crew.scheduler
  {
  }

  lemma EnabledServe(c: Config, s: State, l: Label)
    requires Enabled(c, s, l) && l.Serves?
    ensures s.mailbox != []
  {
  }

  /** Every event is told exactly once, in order, and no call is empty; a job completes once, before a kill
      of it is acknowledged, and only reported jobs do. */
  lemma SchedulerHears(c: Config, s: State)
    requires Reachable(c, s)
    ensures Flatten(s.talk.calls) + s.talk.outgoing == s.talk.log
    ensures forall call :: call in s.talk.calls ==> call != []
    ensures forall i: nat, i': nat, j :: i < i' && CompletedAt(s.talk.log, i, j) ==> !CompletedAt(s.talk.log, i', j)
    ensures forall i, j :: 0 <= i < |s.talk.log| && s.talk.log[i].KilledEvent? && j in s.talk.log[i].jobs ==>
                             CompletedBefore(s.talk.log, i, j)
    ensures forall j :: CompletedBefore(s.talk.log, |s.talk.log|, j) <==>
                        j in s.jobs && j in s.books.written && !s.jobs[j].state.Rejected?
  {
    ReachableInv(c, s);
    hide JobsOk, KillsOk, MailboxOk, ActorsOk, EndOk, BooksOk;
  }

  // ----- the end -----

  /** SIMULATION_ENDS is announced at most once, and only when everything is finished. */
  lemma EndAnnouncedOnce(c: Config, s: State, l: Label, s': State)
    requires Reachable(c, s) && Enabled(c, s, l) && Do(c, s, l) == Next(s')
    ensures Ends(s.talk.log) <= 1 && (s.data.endSent <==> Ends(s.talk.log) == 1)
    ensures s.data.endSent ==> s'.data.endSent
    ensures !s.data.endSent && s'.data.endSent ==>
              l.Serves? && IsSimulationFinished(c, s'.data) && s'.mailbox == [] && AtRest(s')
  {
    ReachableInv(c, s);
    EndsOf(c, s);
    hide Inv, Ends, Reachable, AtRest, IsSimulationFinished;
    if l.Serves? {
      ServesEnds(c, s, s');
    } else {
      ActorsKeepData(c, s, l, s');
    }
  }

  lemma EndsOf(c: Config, s: State)
    requires Inv(c, s)
    ensures Ends(s.talk.log) == if s.data.endSent then 1 else 0
  {
  }

  lemma ServesEnds(c: Config, s: State, s': State)
    requires Inv(c, s) && MayServe(s) && Serve(c, s) == Next(s')
    ensures s.data.endSent ==> s'.data.endSent
    ensures !s.data.endSent && s'.data.endSent ==>
              IsSimulationFinished(c, s'.data) && s'.mailbox == [] && AtRest(s')
  {
    assert s.mailbox != [] && Known(s, s.mailbox[0]);
    hide Inv, Handle, Polite, MayServe, AtRest, IsSimulationFinished, MaybeCall;
    HandleInv(c, s);
    HandleEnds(c, s);
    MaybeEnds(c, Handle(c, Popped(s), s.mailbox[0]).state);
  }

  /** Only the server's own steps change its data. */
  lemma ActorsKeepData(c: Config, s: State, l: Label, s': State)
    requires Enabled(c, s, l) && !l.Serves? && Do(c, s, l) == Next(s')
    ensures s'.data == s.data && s'.talk == s.talk && s'.books == s.books
  {
  }

  lemma HandleEnds(c: Config, s: State)
    requires MayServe(s) && Handle(c, Popped(s), s.mailbox[0]).Next?
    ensures var d := Handle(c, Popped(s), s.mailbox[0]).state.data;
            && d.endSent == s.data.endSent
            && d.nbWaiters == s.data.nbWaiters
                              + (if s.mailbox[0].CallMeLater? then 1 else 0)
                              - (if s.mailbox[0].WaitingDone? then 1 else 0)
  {
    match s.mailbox[0]
    case JobsSubmitted(_, js) => SubmissionsEnd(Popped(s), js);
    case KillingDone(k) => ReportsEnd(Popped(s).(killers := s.killers - {k}), s.killers[k].all);
    case KillJobs(js) => if MarkKills(Popped(s), js).Marked? { MarksCall(Popped(s), js); }
    case _ =>
  }

  lemma {:induction false} SubmissionsEnd(s: State, js: seq<JobId>)
    requires forall j :: j in js ==> j in s.jobs
    ensures var d := OnSubmitted(s, js).data; d.endSent == s.data.endSent && d.nbWaiters == s.data.nbWaiters
    decreases |js|
  {
    if js != [] { SubmissionsEnd(s, js[..|js| - 1]); }
  }

  lemma {:induction false} ReportsEnd(s: State, js: seq<JobId>)
    requires (forall j :: j in js ==> j in s.jobs) && ReportKilled(s, js).Next?
    ensures var d := ReportKilled(s, js).state.data; d.endSent == s.data.endSent && d.nbWaiters == s.data.nbWaiters
    decreases |js|
  {
    if js != [] {
      if s.jobs[js[0]].state.Killed? {
        ReportsEnd(Report(s, js[0]).state, js[1..]);
      } else {
        ReportsEnd(s, js[1..]);
      }
    }
  }

  lemma MaybeEnds(c: Config, s: State)
    requires Inv(c, s) && Polite(s) && MaybeCall(c, s).Next?
    ensures var s' := MaybeCall(c, s).state;
            && (s.data.endSent ==> s'.data.endSent)
            && (!s.data.endSent && s'.data.endSent ==>
                  IsSimulationFinished(c, s'.data) && s'.mailbox == [] && AtRest(s'))
  {
    if s.data.schedReady && !s.data.endAcked && s.mailbox == [] && s.talk.outgoing == []
       && IsSimulationFinished(c, s.data) && !s.data.endSent {
      assert KillsOk(s, []);
      hide KillsOk, Inv;
      NoKillersLeft(s);
      FinishedAtRest(c, s);
    }
  }

  /** The checks after the server's loop. */
  ghost predicate ExitChecks(s: State) {
    && s.data.endSent && s.data.endAcked && s.data.schedReady
    && s.data.nbRunning == 0 && s.data.nbSwitching == 0 && s.data.nbKillers == 0 && s.data.nbWaiters == 0
    && s.data.nbCompleted == s.data.nbSubmitted
  }

  /** If the scheduler answers SIMULATION_ENDS with no request, all of them hold. */
  lemma CleanExit(c: Config, s: State)
    requires Reachable(c, s) && s.data.endAcked && !s.crew.requestedSinceEnd
    ensures ExitChecks(s)
  {
    ReachableInv(c, s);
    hide JobsOk, KillsOk, MailboxOk, BooksOk, EventsOk;
  }

  /** How many CALL_ME_LATER were taken after the end was announced. */
  ghost function LateWaits(run: seq<State>, labels: seq<Label>, n: nat): nat
    requires n <= |labels| < |run|
  {
    if n == 0 then 0
    else LateWaits(run, labels, n - 1) + if TakesLate(run[n - 1], labels[n - 1]) then 1 else 0
  }

  ghost predicate TakesLate(s: State, l: Label) {
    s.data.endSent && l.Serves? && s.mailbox != [] && s.mailbox[0].CallMeLater?
  }

  lemma StepWaits(c: Config, s: State, l: Label, s': State)
    requires Inv(c, s) && Enabled(c, s, l) && Do(c, s, l) == Next(s') && s.data.endSent
    ensures s'.data.endSent && s'.data.nbWaiters == s.data.nbWaiters + if TakesLate(s, l) then 1 else 0
  {
    if l.Serves? {
      assert !s.mailbox[0].WaitingDone? by { HeadNotWaiting(c, s); }
      hide Inv, Handle, MayServe, IsSimulationFinished;
      assert s.mailbox != [] by { EnabledServe(c, s, l); }
      HandleEnds(c, s);
    } else {
      hide Inv;
      ActorsKeepData(c, s, l, s');
    }
  }

  lemma HeadNotWaiting(c: Config, s: State)
    requires Inv(c, s) && s.mailbox != [] && s.data.endSent
    ensures !s.mailbox[0].WaitingDone?
  {
    assert s.mailbox[0] in s.mailbox;
  }

  lemma {:induction false} WaitersAfterEnd(c: Config, run: seq<State>, labels: seq<Label>, n: nat)
    requires Run(c, run, labels) && n < |run|
    ensures n <= |labels| && if run[n].data.endSent then run[n].data.nbWaiters == LateWaits(run, labels, n)
                             else LateWaits(run, labels, n) == 0
  {
    hide Run, Inv, Do, Enabled, Init, IsSimulationFinished, AtRest, Reachable;
    RunStarts(c, run, labels);
    if n == 0 {
      assert !run[0].data.endSent by { FirstNotEnded(c, run[0]); }
    } else {
      WaitersAfterEnd(c, run, labels, n - 1);
      RunInv(c, run, labels, n - 1);
      RunStep(c, run, labels, n);
      if run[n - 1].data.endSent {
        StepWaits(c, run[n - 1], labels[n - 1], run[n]);
      } else if run[n].data.endSent {
        EndHasNoWaiter(c, run[n - 1], labels[n - 1], run[n]);
      }
    }
  }

  lemma FirstNotEnded(c: Config, s: State)
    requires Init(c, s)
    ensures !s.data.endSent
  {
  }

  lemma EndHasNoWaiter(c: Config, s: State, l: Label, s': State)
    requires Inv(c, s) && Enabled(c, s, l) && Do(c, s, l) == Next(s') && !s.data.endSent && s'.data.endSent
    ensures s'.data.nbWaiters == 0
  {
    hide Inv, Serve, AtRest;
    if l.Serves? {
      ServesEnds(c, s, s');
    } else {
      ActorsKeepData(c, s, l, s');
    }
  }

  /** After the loop, the check that no waiter is left holds if and only if no CALL_ME_LATER came after
      SIMULATION_ENDS: a waiter that ends then tells nobody. */
  lemma WaitersAtExit(c: Config, run: seq<State>, labels: seq<Label>)
    requires Run(c, run, labels) && run[|labels|].data.endAcked
    ensures run[|labels|].data.nbWaiters == 0
       <==> forall i :: 0 <= i < |labels| ==> !TakesLate(run[i], labels[i])
  {
    WaitersAfterEnd(c, run, labels, |labels|);
    RunInv(c, run, labels, |labels|);
    hide Run, Inv;
    LateWaitsNone(run, labels, |labels|);
  }

  lemma {:induction false} LateWaitsNone(run: seq<State>, labels: seq<Label>, n: nat)
    requires n <= |labels| < |run|
    ensures LateWaits(run, labels, n) == 0 <==> forall i :: 0 <= i < n ==> !TakesLate(run[i], labels[i])
  {
    if n > 0 {
      LateWaitsNone(run, labels, n - 1);
    }
  }

  // ----- what a kill request is answered with -----

  lemma {:induction false} MarkedJobs(s: State, js: seq<JobId>)
    requires MarkKills(s, js).Marked?
    ensures var s' := MarkKills(s, js).state;
            && s'.jobs.Keys == s.jobs.Keys && (forall j :: j in js ==> j in s.jobs)
            && (forall j :: j in s.jobs ==> (s'.jobs[j].killRequested <==> s.jobs[j].killRequested || j in js))
    decreases |js|
  {
    if js != [] {
      MarkedJobs(s, js[..|js| - 1]);
      assert js == js[..|js| - 1] + [js[|js| - 1]];
    }
  }

  /** Collected are, each once, the jobs of the request whose kill was not requested before. */
  lemma {:induction false} MarkedExactly(s: State, js: seq<JobId>)
    requires MarkKills(s, js).Marked?
    ensures var toKill := MarkKills(s, js).toKill;
            && NoDup(toKill)
            && (forall j :: j in toKill <==> j in js && j in s.jobs && !s.jobs[j].killRequested)
    decreases |js|
  {
    if js != [] {
      var n := |js| - 1;
      MarkedExactly(s, js[..n]);
      MarkedJobs(s, js[..n]);
      assert js == js[..n] + [js[n]];
    }
  }

  lemma {:induction false} MarkedAll(s: State, js: seq<JobId>)
    requires MarkKills(s, js).Marked?
    ensures var toKill := MarkKills(s, js).toKill; |toKill| <= |js| && (|toKill| == |js| ==> toKill == js)
    decreases |js|
  {
    if js != [] {
      MarkedAll(s, js[..|js| - 1]);
      assert js == js[..|js| - 1] + [js[|js| - 1]];
    }
  }

  ghost predicate Unasked(s: State, js: seq<JobId>) {
    exists j :: j in js && j in s.jobs && !s.jobs[j].killRequested
  }

  /** A killer is started if and only if the kill of some job was not requested before; its jobs, which the
      answer will name, are those of the request if and only if the request has no duplicate and none
      of its jobs was requested before. */
  lemma KillAnswer(s: State, js: seq<JobId>)
    requires OnKillJobs(s, js).Next?
    ensures var s', k, toKill := OnKillJobs(s, js).state, s.crew.nextId, MarkKills(s, js).toKill;
            && s'.killers == (if Unasked(s, js) then s.killers[k := Killer(toKill, toKill, false)] else s.killers)
            && (forall j :: j in toKill <==> j in js && j in s.jobs && !s.jobs[j].killRequested)
            && (toKill == js <==> NoDup(js) && forall j :: j in js ==> j in s.jobs && !s.jobs[j].killRequested)
  {
    MarkedExactly(s, js);
    MarkedAll(s, js);
    MarksCall(s, js);
    var toKill := MarkKills(s, js).toKill;
    assert toKill == [] || toKill[0] in toKill;
    if NoDup(js) && forall j :: j in js ==> j in s.jobs && !s.jobs[j].killRequested {
      SizeOfSet(js);
      SizeOfSet(toKill);
      assert SetOf(js) == SetOf(toKill);
    }
  }

  /** Ids of killers are not used again, and a killer stays the one it was started for. */
  lemma KillerKeepsJobs(c: Config, s: State, l: Label, s': State, k: nat)
    requires Enabled(c, s, l) && Do(c, s, l) == Next(s') && k < s.crew.nextId
    ensures k < s'.crew.nextId && (k in s'.killers ==> k in s.killers && s'.killers[k].all == s.killers[k].all)
  {
    hide *;
    if l.Serves? {
      ServeKeepsKiller(c, s, s', k);
    } else {
      OthersKeepKiller(c, s, l, s', k);
    }
  }

  lemma OthersKeepKiller(c: Config, s: State, l: Label, s': State, k: nat)
    requires Enabled(c, s, l) && Do(c, s, l) == Next(s') && !l.Serves?
    ensures s'.crew.nextId == s.crew.nextId
    ensures k in s'.killers ==> k in s.killers && s'.killers[k].all == s.killers[k].all
  {
    hide Serve, SchedulerBusy, SubmitterBusy, EventSubmitterBusy, MaySubmit, NoDup;
  }

  lemma ServeKeepsKiller(c: Config, s: State, s': State, k: nat)
    requires Enabled(c, s, Serves) && Do(c, s, Serves) == Next(s') && k < s.crew.nextId
    ensures k < s'.crew.nextId && (k in s'.killers ==> k in s.killers && s'.killers[k] == s.killers[k])
  {
    hide Handle, MaybeCall, IsSimulationFinished;
    HandleKeepsKiller(c, s, k);
    MaybeCallKillers(c, Handle(c, Popped(s), s.mailbox[0]).state);
  }

  lemma MaybeCallKillers(c: Config, s: State)
    requires MaybeCall(c, s).Next?
    ensures var s' := MaybeCall(c, s).state;
            s'.killers == s.killers && s'.crew.nextId == s.crew.nextId && s.talk.log <= s'.talk.log
  {
    hide IsSimulationFinished, NoDup;
  }

  lemma HandleKeepsKiller(c: Config, s: State, k: nat)
    requires MayServe(s) && Handle(c, Popped(s), s.mailbox[0]).Next? && k < s.crew.nextId
    ensures var s' := Handle(c, Popped(s), s.mailbox[0]).state;
            k < s'.crew.nextId && (k in s'.killers ==> k in s.killers && s'.killers[k] == s.killers[k])
  {
    match s.mailbox[0]
    case JobsSubmitted(_, js) => SubmissionsKill(Popped(s), js);
    case KillingDone(d) => ReportsKill(Popped(s).(killers := s.killers - {d}), s.killers[d].all);
    case KillJobs(js) => if MarkKills(Popped(s), js).Marked? { MarksCall(Popped(s), js); }
    case JobCompleted(j) =>
    case ExecuteJob(j) =>
    case RejectJob(j) =>
    case _ =>
  }

  /** In this step the server accepts the request, which starts the killer k. */
  ghost predicate TakesKill(s: State, l: Label, js: seq<JobId>, k: nat) {
    && l.Serves? && s.mailbox != [] && s.mailbox[0] == KillJobs(js)
    && MarkKills(Popped(s), js).Marked? && Unasked(s, js) && k == s.crew.nextId
  }

  lemma KillerStarts(c: Config, s: State, l: Label, s': State, js: seq<JobId>, k: nat)
    requires Enabled(c, s, l) && Do(c, s, l) == Next(s') && TakesKill(s, l, js, k)
    ensures k < s'.crew.nextId && k in s'.killers && s'.killers[k].all == MarkKills(Popped(s), js).toKill
  {
    hide MaybeCall, IsSimulationFinished, MarkKills;
    assert Unasked(Popped(s), js);
    KillAnswer(Popped(s), js);
    MarksCall(Popped(s), js);
    MaybeCallKillers(c, OnKillJobs(Popped(s), js).state);
  }

  lemma {:induction false} KillerStays(c: Config, run: seq<State>, labels: seq<Label>, js: seq<JobId>, i: nat, n: nat)
    requires Run(c, run, labels) && i < n <= |labels| && TakesKill(run[i], labels[i], js, run[i].crew.nextId)
    ensures var k := run[i].crew.nextId;
            k < run[n].crew.nextId
            && (k in run[n].killers ==> run[n].killers[k].all == MarkKills(Popped(run[i]), js).toKill)
  {
    assert StepAt(c, run, labels, n - 1);
    hide Do, Enabled, MarkKills, Unasked;
    if n == i + 1 {
      KillerStarts(c, run[i], labels[i], run[n], js, run[i].crew.nextId);
    } else {
      KillerStays(c, run, labels, js, i, n - 1);
      KillerKeepsJobs(c, run[n - 1], labels[n - 1], run[n], run[i].crew.nextId);
    }
  }

  /** When the killer that a request started is done, JOB_KILLED names the jobs of the request if and only
      if the request has no duplicate and none of its jobs was requested before. */
  lemma KillAcknowledged(c: Config, run: seq<State>, labels: seq<Label>, js: seq<JobId>, i: nat, n: nat)
    requires Run(c, run, labels) && i < n < |labels| && TakesKill(run[i], labels[i], js, run[i].crew.nextId)
    requires labels[n].Serves? && run[n].mailbox != [] && run[n].mailbox[0] == KillingDone(run[i].crew.nextId)
    ensures var told, jobs, log := MarkKills(Popped(run[i]), js).toKill, run[i].jobs, run[n].talk.log;
            && |log| <= |run[n + 1].talk.log| && KilledEvent(told) in run[n + 1].talk.log[|log|..]
            && (forall j :: j in told <==> j in js && j in jobs && !jobs[j].killRequested)
            && (told == js <==> NoDup(js) && forall j :: j in js ==> j in jobs && !jobs[j].killRequested)
  {
    KillerStays(c, run, labels, js, i, n);
    assert StepAt(c, run, labels, i) && StepAt(c, run, labels, n);
    hide Run, MaybeCall, MarkKills, NoDup;
    KillTold(c, run[n], labels[n], run[n + 1], run[i].crew.nextId);
    KillAnswer(Popped(run[i]), js);
  }

  lemma KillTold(c: Config, s: State, l: Label, s': State, k: nat)
    requires Enabled(c, s, l) && Do(c, s, l) == Next(s') && l.Serves? && s.mailbox[0] == KillingDone(k)
    ensures k in s.killers && |s.talk.log| <= |s'.talk.log|
    ensures KilledEvent(s.killers[k].all) in s'.talk.log[|s.talk.log|..]
  {
    hide MaybeCall, ReportKilled;
    var handled := Handle(c, Popped(s), s.mailbox[0]).state;
    ReportsKill(Popped(s).(killers := s.killers - {k}), s.killers[k].all);
    MaybeCallKillers(c, handled);
    var last := |handled.talk.log| - 1;
    assert s'.talk.log[last] == KilledEvent(s.killers[k].all) && last >= |s.talk.log|;
    assert s'.talk.log[|s.talk.log|..][last - |s.talk.log|] == KilledEvent(s.killers[k].all);
  }

  lemma {:induction false} SubmissionsKill(s: State, js: seq<JobId>)
    requires forall j :: j in js ==> j in s.jobs
    ensures var s' := OnSubmitted(s, js); s'.killers == s.killers && s'.crew == s.crew
    decreases |js|
  {
    if js != [] { SubmissionsKill(s, js[..|js| - 1]); }
  }

  lemma {:induction false} ReportsKill(s: State, js: seq<JobId>)
    requires (forall j :: j in js ==> j in s.jobs) && ReportKilled(s, js).Next?
    ensures var s' := ReportKilled(s, js).state;
            s'.killers == s.killers && s'.crew == s.crew && |s'.talk.log| >= |s.talk.log|
    decreases |js|
  {
    if js != [] {
      if s.jobs[js[0]].state.Killed? {
        ReportsKill(Report(s, js[0]).state, js[1..]);
      } else {
        ReportsKill(s, js[1..]);
      }
    }
  }

  lemma MarkOne(s: State, j: JobId)
    requires j in s.jobs && j !in s.books.deleted && Killable(s.jobs[j].state)
    ensures MarkKills(s, [j]) == if s.jobs[j].killRequested then Marked(s, []) else Marked(Mark(s, j), [j])
  {
    assert [j][..0] == [];
    assert MarkKills(s, []) == Marked(s, []);
  }

  /** A second request for the same job gets no answer, and a job named twice is acknowledged once. */
  lemma KillAskedAgain(s: State, j: JobId)
    requires j in s.jobs && j !in s.books.deleted && Killable(s.jobs[j].state)
    ensures s.jobs[j].killRequested ==> OnKillJobs(s, [j]) == Next(s)
    ensures !s.jobs[j].killRequested ==> OnKillJobs(s, [j, j]) == OnKillJobs(s, [j])
  {
    MarkOne(s, j);
    if !s.jobs[j].killRequested {
      assert [j, j][..1] == [j];
    }
  }

  // ----- exit -----

  /** After the loop: the first three checks always hold, and each of the others exactly if nobody of
      its kind is left. */
  lemma ExitChecksExactly(c: Config, s: State)
    requires Reachable(c, s) && s.data.endAcked
    ensures s.data.endSent && s.data.schedReady
    ensures s.data.nbRunning == 0 <==> RunningJobs(s) == {} && UnreportedJobs(s) == {}
    ensures s.data.nbSwitching == 0 <==> s.crew.switchers == {}
    ensures s.data.nbKillers == 0 <==> s.killers == map[]
    ensures s.data.nbWaiters == 0 <==> s.crew.waiters == {} && s.crew.lostWaiters == 0
    ensures s.data.nbCompleted == s.data.nbSubmitted <==>
            forall j :: j in s.books.counted ==> j in s.books.written
  {
    CountersAgree(c, s);
    ReachableInv(c, s);
    hide JobsOk, KillsOk, EventsOk, MailboxOk, EndOk;
    assert s.killers.Keys == {} <==> s.killers == map[];
    SizeOfSet(s.books.written);
    AllOrFewer(SetOf(s.books.written), s.books.counted);
  }

  lemma AllOrFewer(a: set<JobId>, b: set<JobId>)
    requires a <= b
    ensures |a| == |b| <==> b <= a
  {
    assert b == a + (b - a);
    assert b - a == {} <==> b <= a;
  }
}
