/** The server never sleeps with something to tell, and only the scheduler can leave it waiting for ever. */
module ServerProgress {
  import opened ServerSteps
  import opened ServerInvariant
  import opened ServerReports
  import opened ServerLoop
  import opened ServerTheorems
  import opened ServerExits

  /** With no message to handle and no call under way, all events were told, and the end was announced if the
      simulation is finished. */
  ghost predicate NothingUntold(c: Config, s: State) {
    s.mailbox == [] && s.data.schedReady && !s.data.endAcked ==>
      s.talk.outgoing == [] && (IsSimulationFinished(c, s.data) ==> s.data.endSent)
  }

  lemma MaybeCallTells(c: Config, s: State)
    requires MaybeCall(c, s).Next?
    ensures NothingUntold(c, MaybeCall(c, s).state)
  {
    hide IsSimulationFinished, NoDup;
  }

  /** The actors leave a message, or nothing of what the server tells. */
  lemma ActorsTell(c: Config, s: State, l: Label, s': State)
    requires Enabled(c, s, l) && !l.Serves? && Do(c, s, l) == Next(s')
    ensures s'.mailbox == [] ==> s.mailbox == [] && s'.data == s.data && s'.talk == s.talk
  {
    ActorsKeepData(c, s, l, s');
    hide Serve, SchedulerBusy, SubmitterBusy, EventSubmitterBusy, MaySubmit, NoDup;
  }

  lemma StepTells(c: Config, s: State, l: Label, s': State)
    requires Enabled(c, s, l) && Do(c, s, l) == Next(s') && NothingUntold(c, s)
    ensures NothingUntold(c, s')
  {
    if l.Serves? {
      assert MayServe(s) && Serve(c, s) == Next(s');
      hide Handle, MayServe, MaybeCall, NothingUntold;
      MaybeCallTells(c, Handle(c, Popped(s), s.mailbox[0]).state);
    } else {
      hide Do, Enabled, IsSimulationFinished;
      ActorsTell(c, s, l, s');
    }
  }

  lemma {:induction false} RunTells(c: Config, run: seq<State>, labels: seq<Label>, n: nat)
    requires Run(c, run, labels) && n < |run|
    ensures NothingUntold(c, run[n])
  {
    hide *;
    RunStarts(c, run, labels);
    if n == 0 {
      FirstTells(c, run[0]);
    } else {
      RunTells(c, run, labels, n - 1);
      RunStep(c, run, labels, n);
      StepTells(c, run[n - 1], labels[n - 1], run[n]);
    }
  }

  lemma FirstTells(c: Config, s: State)
    requires Init(c, s)
    ensures NothingUntold(c, s)
  {
  }

  /** In every reachable state the server has told what there is to tell before it waits. */
  lemma NeverSleeps(c: Config, s: State)
    requires Reachable(c, s) && s.mailbox == [] && s.data.schedReady && !s.data.endAcked
    ensures s.talk.outgoing == [] && (IsSimulationFinished(c, s.data) ==> s.data.endSent)
  {
    var run: seq<State>, labels :| Run(c, run, labels) && s == run[|run| - 1];
    hide Run, IsSimulationFinished;
    RunTells(c, run, labels, |run| - 1);
  }

  // ----- when the scheduler is called -----

  lemma MaybeCallIdle(c: Config, s: State)
    requires MaybeCall(c, s).Next?
    ensures var s' := MaybeCall(c, s).state;
            |s'.talk.calls| > |s.talk.calls| ==>
              && |s'.talk.calls| == |s.talk.calls| + 1 && s'.mailbox == [] && s'.talk.outgoing == []
              && !s'.data.schedReady && s'.crew.scheduler
              && (s'.data.endSent == s.data.endSent ==> s'.books.toDelete == [])
  {
    hide IsSimulationFinished, NoDup;
  }

  lemma AllErased(c: Config, s: State)
    requires Inv(c, s) && s.books.toDelete == []
    ensures forall j :: j in s.books.queued ==> j in s.books.deleted
  {
    hide JobsOk, KillsOk, MailboxOk, EventsOk, ActorsOk, EndOk;
    var written := s.books.written;
    assert written[..|written|] == written;
  }

  /** The scheduler is called only when no message is left, with all that was collected; then all jobs that were
      queued for it are erased from memory. */
  lemma CalledWhenIdle(c: Config, s: State, l: Label, s': State)
    requires Reachable(c, s) && Enabled(c, s, l) && Do(c, s, l) == Next(s') && |s'.talk.calls| > |s.talk.calls|
    ensures l.Serves? && s'.mailbox == [] && s'.talk.outgoing == [] && !s'.data.schedReady && s'.crew.scheduler
    ensures s'.data.endSent == s.data.endSent ==> forall j :: j in s'.books.queued ==> j in s'.books.deleted
  {
    ReachableInv(c, s);
    StepInv(c, s, l);
    hide Inv, Reachable;
    if l.Serves? {
      assert MayServe(s) && Serve(c, s) == Next(s');
      hide Handle, MaybeCall, MayServe, Do, Enabled;
      HandleCalls(c, s);
      HandleEnds(c, s);
      MaybeCallIdle(c, Handle(c, Popped(s), s.mailbox[0]).state);
      if s'.books.toDelete == [] { AllErased(c, s'); }
    } else {
      ActorsKeepData(c, s, l, s');
    }
  }

  // ----- who can leave the server waiting -----

  /** No actor can do anything; jobs are not added to the workload either. */
  ghost predicate Stuck(c: Config, s: State) {
    forall l: Label :: !l.AddsJob? ==> !Enabled(c, s, l)
  }

  lemma StuckKillers(c: Config, s: State, k: nat)
    requires Stuck(c, s) && KillsOk(s, []) && k in s.killers
    ensures s.killers[k].posted && KillingDone(k) in s.mailbox
  {
    assert KillerOk(s, k);
    assert !Enabled(c, s, KillerKills(k, true)) && !Enabled(c, s, KillerPosts(k));
  }

  lemma StuckCancelled(c: Config, s: State)
    requires Stuck(c, s) && JobsOk(s)
    ensures s.cancelled == {}
  {
    forall j ensures j !in s.cancelled { assert !Enabled(c, s, CancelledEnds(j)); }
  }

  lemma HeadKnown(c: Config, s: State)
    requires Inv(c, s) && s.mailbox != []
    ensures Known(s, s.mailbox[0])
    ensures s.mailbox[0].KillingDone? ==> s.mailbox[0].killer in s.killers
  {
    HeadOk(s);
    if s.mailbox[0].KillingDone? {
      var k := s.mailbox[0].killer;
      assert KillerOk(s, k);
      assert forall j :: j in s.killers[k].all ==> KillerJobOk(s, k, j);
    }
  }

  lemma StuckMailbox(c: Config, s: State)
    requires Stuck(c, s) && Inv(c, s) && !s.data.endAcked
    ensures s.mailbox == [] && s.killers == map[] && s.cancelled == {}
  {
    assert KillsOk(s, []) && JobsOk(s);
    StuckCancelled(c, s);
    if s.mailbox != [] { HeadKnown(c, s); }
    hide Inv, KillsOk, JobsOk, Known;
    forall k | k in s.killers ensures s.killers[k].posted && KillingDone(k) in s.mailbox { StuckKillers(c, s, k); }
    assert !Enabled(c, s, Serves);
    hide Stuck;
    assert s.killers.Keys == {};
  }

  lemma StuckCrew(c: Config, s: State)
    requires Stuck(c, s) && s.mailbox == []
    ensures s.crew.submitters == {} && s.crew.eventSubmitters == {} && s.crew.waiters == {} && s.crew.switchers == {}
    ensures !s.crew.scheduler
  {
    forall n ensures n !in s.crew.submitters { assert !Enabled(c, s, SubmitterEnds(n)); }
    forall n ensures n !in s.crew.eventSubmitters { assert !Enabled(c, s, EventSubmitterEnds(n)); }
    forall n ensures n !in s.crew.waiters { assert !Enabled(c, s, WaiterEnds(n)); }
    forall n ensures n !in s.crew.switchers { assert !Enabled(c, s, SwitchEnds(n)); }
    assert !Enabled(c, s, Requests(SchedReady));
  }

  /** Every submitted job is complete and reported, unless the scheduler never decided about it. */
  lemma StuckJob(c: Config, s: State, j: JobId)
    requires Stuck(c, s) && JobsOk(s) && KillsOk(s, []) && s.mailbox == [] && s.killers == map[] && s.cancelled == {}
    requires j in s.jobs
    ensures j in s.books.counted ==> s.jobs[j].state.Submitted? || j in s.books.written
    ensures j in s.books.started ==> j in s.books.written
  {
    assert JobOk(s, j);
    assert !Announced(s, j);
    assert !Enabled(c, s, JobEnds(j, Succeeded));
  }

  ghost predicate Undecided(s: State, j: JobId) {
    j in s.books.counted && j in s.jobs && s.jobs[j].state.Submitted?
  }

  lemma StuckBooks(c: Config, s: State)
    requires Stuck(c, s) && JobsOk(s) && KillsOk(s, []) && s.mailbox == [] && s.killers == map[] && s.cancelled == {}
    requires forall j :: !Undecided(s, j)
    ensures forall j :: j in s.books.counted ==> j in s.books.written
    ensures forall j :: j in s.books.started ==> j in s.books.written
  {
    assert s.books.counted <= s.jobs.Keys && s.books.started <= s.jobs.Keys;
    hide Stuck, JobsOk, KillsOk;
    forall j | j in s.jobs
      ensures (j in s.books.counted ==> j in s.books.written) && (j in s.books.started ==> j in s.books.written)
    {
      StuckJob(c, s, j);
      assert !Undecided(s, j);
    }
  }

  lemma StuckFinished(c: Config, s: State)
    requires Inv(c, s) && !s.data.endSent && s.killers == map[]
    requires s.crew.submitters == {} && s.crew.eventSubmitters == {} && s.crew.waiters == {} && s.crew.switchers == {}
    requires forall j :: j in s.books.counted ==> j in s.books.written
    requires forall j :: j in s.books.started ==> j in s.books.written
    requires c.registration ==> s.data.registrationFinished
    ensures IsSimulationFinished(c, s.data)
  {
    RunningCheck(c, s);
    hide JobsOk, KillsOk, MailboxOk, EventsOk, EndOk;
    assert s.killers.Keys == {};
    SizeOfSet(s.books.written);
    AllOrFewer(SetOf(s.books.written), s.books.counted);
  }

  lemma StuckReady(c: Config, s: State)
    requires Inv(c, s) && !s.data.endAcked && !s.crew.scheduler
    ensures s.data.schedReady && !s.data.endSent
  {
  }

  /** If nobody can do anything before the loop is over, the server waits with an empty mailbox, has told
      everything, and the end was not announced: the scheduler never decided about a submitted job, or never
      ended the registration of jobs. */
  lemma OnlySchedulerBlocks(c: Config, s: State)
    requires Reachable(c, s) && Stuck(c, s) && !s.data.endAcked
    ensures s.mailbox == [] && s.data.schedReady && s.talk.outgoing == [] && !s.data.endSent
    ensures (exists j :: Undecided(s, j)) || (c.registration && !s.data.registrationFinished)
  {
    ReachableInv(c, s);
    assert JobsOk(s) && KillsOk(s, []);
    hide *;
    StuckMailbox(c, s);
    StuckCrew(c, s);
    StuckReady(c, s);
    NeverSleeps(c, s);
    if forall j :: !Undecided(s, j) {
      StuckBooks(c, s);
      if c.registration ==> s.data.registrationFinished {
        StuckFinished(c, s);
      }
    }
  }
}
