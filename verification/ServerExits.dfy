/** What the checks after the server's loop come down to: which requests taken after SIMULATION_ENDS are not
    finished. */
module ServerExits {
  import opened ServerSteps
  import opened ServerInvariant
  import opened ServerReports
  import opened ServerHandlers
  import opened ServerLoop
  import opened ServerTheorems

  /** The message is handled in this step. */
  ghost predicate Takes(s: State, l: Label, m: Message) {
    l.Serves? && s.mailbox != [] && s.mailbox[0] == m
  }

  // ----- what a step does to switches, killers and books -----

  /** Ids given to switch processes, when the request for n machines is taken. */
  ghost predicate StartsSwitch(s: State, l: Label, n: nat, id: nat) {
    (Takes(s, l, ChangePstate(n, true)) || Takes(s, l, ChangePstate(n, false)))
    && s.crew.nextId <= id < s.crew.nextId + n
  }

  ghost predicate Registers(s: State, l: Label, j: JobId) {
    Takes(s, l, JobRegistered(j))
  }

  ghost predicate Submission(s: State, l: Label, j: JobId) {
    l.Serves? && s.mailbox != [] && s.mailbox[0].JobsSubmitted? && j in s.mailbox[0].jobs
  }

  /** What the books and actors owe to the step. */
  ghost predicate Accounted(s: State, l: Label, s': State) {
    && s.crew.nextId <= s'.crew.nextId && s'.crew.submitters <= s.crew.submitters
    && (forall id :: id in s'.crew.switchers && id !in s.crew.switchers ==> exists n :: StartsSwitch(s, l, n, id))
    && (forall id :: id in s.crew.switchers && id !in s'.crew.switchers ==> Takes(s, l, Switched(id)))
    && (forall k :: k in s'.killers && k !in s.killers ==> exists js :: TakesKill(s, l, js, k))
    && (forall k :: k in s.killers && k !in s'.killers ==> Takes(s, l, KillingDone(k)))
    && (forall j :: j in s'.books.started && j !in s.books.started ==> Takes(s, l, ExecuteJob(j)))
    && (forall j :: j in s'.books.counted && j !in s.books.counted ==> Registers(s, l, j) || Submission(s, l, j))
    && s.books.started <= s'.books.started && s.books.counted <= s'.books.counted
    && (forall j :: j in s.books.written ==> j in s'.books.written)
  }

  lemma {:induction false} SubmissionsCount(s: State, js: seq<JobId>)
    requires forall j :: j in js ==> j in s.jobs
    ensures var s' := OnSubmitted(s, js);
            && s'.crew == s.crew && s'.killers == s.killers && s'.books == s.books.(counted := s'.books.counted)
            && s.books.counted <= s'.books.counted
            && forall j :: j in s'.books.counted ==> j in s.books.counted || j in js
    decreases |js|
  {
    if js != [] {
      SubmissionsCount(s, js[..|js| - 1]);
      assert js[|js| - 1] in js;
    }
  }

  lemma {:induction false} ReportsWrite(s: State, js: seq<JobId>)
    requires (forall j :: j in js ==> j in s.jobs) && ReportKilled(s, js).Next?
    ensures var s' := ReportKilled(s, js).state;
            && s'.crew == s.crew && s'.killers == s.killers
            && s'.books.started == s.books.started && s'.books.counted == s.books.counted
            && forall j :: j in s.books.written ==> j in s'.books.written
    decreases |js|
  {
    if js != [] {
      if s.jobs[js[0]].state.Killed? {
        ReportsWrite(Report(s, js[0]).state, js[1..]);
      } else {
        ReportsWrite(s, js[1..]);
      }
    }
  }

  lemma FoldsAccounted(c: Config, s: State)
    requires MayServe(s) && Folds(s.mailbox[0]) && Handle(c, Popped(s), s.mailbox[0]).Next?
    ensures Accounted(s, Serves, Handle(c, Popped(s), s.mailbox[0]).state)
  {
    match s.mailbox[0]
    case JobsSubmitted(_, js) => SubmissionsCount(Popped(s), js);
    case KillingDone(k) => ReportsWrite(Popped(s).(killers := s.killers - {k}), s.killers[k].all);
    case KillJobs(js) => KillsAccounted(c, s, js);
  }

  lemma KillsAccounted(c: Config, s: State, js: seq<JobId>)
    requires MayServe(s) && s.mailbox[0] == KillJobs(js) && OnKillJobs(Popped(s), js).Next?
    ensures Accounted(s, Serves, OnKillJobs(Popped(s), js).state)
  {
    assert s.mailbox != [];
    hide MarkKills, MayServe;
    MarksCall(Popped(s), js);
    KillAnswer(Popped(s), js);
    assert Unasked(Popped(s), js) <==> Unasked(s, js);
    if Unasked(s, js) { assert TakesKill(s, Serves, js, s.crew.nextId); }
  }

  lemma OthersAccounted(c: Config, s: State)
    requires MayServe(s) && !Folds(s.mailbox[0]) && Handle(c, Popped(s), s.mailbox[0]).Next?
    ensures Accounted(s, Serves, Handle(c, Popped(s), s.mailbox[0]).state)
  {
    assert s.mailbox != [];
    hide *;
    var m := s.mailbox[0];
    if m.JobCompleted? || AboutJob(m) {
      JobAccounted(c, s, m.job);
    } else if m.ChangePstate? {
      SwitchesAccounted(c, s, m.machines, m.atOnce);
    } else {
      CrewAccounted(c, s);
    }
  }

  lemma JobAccounted(c: Config, s: State, j: JobId)
    requires MayServe(s) && (s.mailbox[0].JobCompleted? || AboutJob(s.mailbox[0])) && s.mailbox[0].job == j
    requires Handle(c, Popped(s), s.mailbox[0]).Next?
    ensures Accounted(s, Serves, Handle(c, Popped(s), s.mailbox[0]).state)
  {
    assert s.mailbox != [];
    hide MayServe;
  }

  lemma CrewAccounted(c: Config, s: State)
    requires MayServe(s) && !Folds(s.mailbox[0]) && Handle(c, Popped(s), s.mailbox[0]).Next?
    requires !s.mailbox[0].JobCompleted? && !AboutJob(s.mailbox[0]) && !s.mailbox[0].ChangePstate?
    ensures Accounted(s, Serves, Handle(c, Popped(s), s.mailbox[0]).state)
  {
    assert s.mailbox != [];
    hide MayServe, Accounted;
    if IsFromScheduler(s.mailbox[0]) { RequestAccounted(c, s); } else { LeaveAccounted(c, s); }
  }

  lemma RequestAccounted(c: Config, s: State)
    requires s.mailbox != [] && Known(Popped(s), s.mailbox[0]) && Handle(c, Popped(s), s.mailbox[0]).Next?
    requires var m := s.mailbox[0];
             m.CallMeLater? || m.JobRegistered? || m.EndRegistration? || m.ContinueRegistration? || m.SchedReady?
    ensures Accounted(s, Serves, Handle(c, Popped(s), s.mailbox[0]).state)
  {
  }

  lemma LeaveAccounted(c: Config, s: State)
    requires s.mailbox != [] && Known(Popped(s), s.mailbox[0]) && Handle(c, Popped(s), s.mailbox[0]).Next?
    requires var m := s.mailbox[0];
             m.SubmitterBye? || m.EventSubmitterBye? || m.EventsOccurred? || m.WaitingDone? || m.Switched?
    ensures Accounted(s, Serves, Handle(c, Popped(s), s.mailbox[0]).state)
  {
  }

  lemma SwitchesAccounted(c: Config, s: State, n: nat, atOnce: bool)
    requires s.mailbox != [] && s.mailbox[0] == ChangePstate(n, atOnce)
    ensures var r := Handle(c, Popped(s), s.mailbox[0]); r.Next? ==> Accounted(s, Serves, r.state)
  {
    var s' := StartSwitching(Announce(Popped(s), atOnce), n);
    forall id | id in s'.crew.switchers && id !in s.crew.switchers
      ensures exists n' :: StartsSwitch(s, Serves, n', id)
    {
      assert StartsSwitch(s, Serves, n, id);
    }
  }

  lemma MaybeCallAccounts(c: Config, s: State, l: Label, s1: State)
    requires Accounted(s, l, s1) && MaybeCall(c, s1).Next?
    ensures Accounted(s, l, MaybeCall(c, s1).state)
  {
    hide IsSimulationFinished, NoDup;
  }

  lemma StepAccounted(c: Config, s: State, l: Label, s': State)
    requires Enabled(c, s, l) && Do(c, s, l) == Next(s')
    ensures Accounted(s, l, s')
  {
    if l.Serves? {
      assert MayServe(s) && Serve(c, s) == Next(s');
      hide Handle, MayServe, MaybeCall, Accounted, Folds;
      assert Handle(c, Popped(s), s.mailbox[0]).Next?;
      if Folds(s.mailbox[0]) { FoldsAccounted(c, s); } else { OthersAccounted(c, s); }
      MaybeCallAccounts(c, s, l, Handle(c, Popped(s), s.mailbox[0]).state);
    } else {
      ActorsAccounted(c, s, l, s');
    }
  }

  lemma ActorsAccounted(c: Config, s: State, l: Label, s': State)
    requires Enabled(c, s, l) && Do(c, s, l) == Next(s') && !l.Serves?
    ensures Accounted(s, l, s')
  {
    ActorsKeepData(c, s, l, s');
    hide Serve, SchedulerBusy, SubmitterBusy, EventSubmitterBusy, MaySubmit, NoDup;
  }

  // ----- what was open when the end was announced -----

  /** Nothing runs, switches, kills, or waits for its end. */
  ghost predicate AllDone(s: State) {
    && s.crew.submitters == {} && s.crew.switchers == {} && s.killers == map[]
    && (forall j :: j in s.books.started ==> j in s.books.written)
    && (forall j :: j in s.books.counted ==> j in s.books.written)
  }

  lemma FinishedIsDone(c: Config, s: State)
    requires Inv(c, s) && IsSimulationFinished(c, s.data)
    ensures AllDone(s)
  {
    hide JobsOk, KillsOk, MailboxOk, EventsOk, EndOk;
    var written := SetOf(s.books.written);
    SizeOfSet(s.books.written);
    assert written == s.books.counted by { AllOrFewer(written, s.books.counted); }
    assert s.killers.Keys == {};
    forall j | j in s.books.started ensures j in s.books.written {
      assert j in s.books.counted;
    }
  }

  lemma EndIsDone(c: Config, s: State, l: Label, s': State)
    requires Inv(c, s) && Inv(c, s') && Enabled(c, s, l) && Do(c, s, l) == Next(s')
    requires !s.data.endSent && s'.data.endSent
    ensures AllDone(s')
  {
    assert l.Serves? ==> MayServe(s) && Serve(c, s) == Next(s');
    hide Inv, Serve, AtRest, AllDone, IsSimulationFinished, MayServe;
    if l.Serves? {
      ServesEnds(c, s, s');
      FinishedIsDone(c, s');
    } else {
      ActorsKeepData(c, s, l, s');
    }
  }

  /** Nobody submits any more once the end was announced. */
  lemma NoLateSubmission(c: Config, s: State, l: Label, j: JobId)
    requires Inv(c, s) && s.crew.submitters == {}
    ensures !Submission(s, l, j)
  {
    if s.mailbox != [] { HeadOk(s); }
  }

  // ----- what was requested since -----

  ghost predicate LateSwitch(run: seq<State>, labels: seq<Label>, i: nat, n: nat, id: nat)
    requires i < |labels| < |run|
  {
    run[i].data.endSent && StartsSwitch(run[i], labels[i], n, id)
  }

  ghost predicate LateKill(run: seq<State>, labels: seq<Label>, i: nat, js: seq<JobId>, k: nat)
    requires i < |labels| < |run|
  {
    run[i].data.endSent && TakesKill(run[i], labels[i], js, k)
  }

  ghost predicate LateMessage(run: seq<State>, labels: seq<Label>, i: nat, m: Message)
    requires i < |labels| < |run|
  {
    run[i].data.endSent && Takes(run[i], labels[i], m)
  }

  ghost predicate SwitchIsLate(run: seq<State>, labels: seq<Label>, id: nat, n: nat)
    requires n <= |labels| < |run|
  {
    exists i, m :: 0 <= i < n && LateSwitch(run, labels, i, m, id)
  }

  ghost predicate KillIsLate(run: seq<State>, labels: seq<Label>, k: nat, n: nat)
    requires n <= |labels| < |run|
  {
    exists i, js :: 0 <= i < n && LateKill(run, labels, i, js, k)
  }

  ghost predicate MessageIsLate(run: seq<State>, labels: seq<Label>, m: Message, n: nat)
    requires n <= |labels| < |run|
  {
    exists i :: 0 <= i < n && LateMessage(run, labels, i, m)
  }

  /** All that is open was requested after the end was announced. */
  ghost predicate OnlyLate(run: seq<State>, labels: seq<Label>, n: nat)
    requires n <= |labels| < |run|
  {
    var s := run[n];
    && s.crew.submitters == {}
    && (forall id :: id in s.crew.switchers ==> SwitchIsLate(run, labels, id, n))
    && (forall k :: k in s.killers ==> KillIsLate(run, labels, k, n))
    && (forall j :: j in s.books.started && j !in s.books.written ==> MessageIsLate(run, labels, ExecuteJob(j), n))
    && (forall j :: j in s.books.counted && j !in s.books.written ==> MessageIsLate(run, labels, JobRegistered(j), n))
  }

  lemma DoneIsLate(run: seq<State>, labels: seq<Label>, n: nat)
    requires n <= |labels| < |run| && AllDone(run[n])
    ensures OnlyLate(run, labels, n)
  {
  }

  lemma StillLate(run: seq<State>, labels: seq<Label>, n: nat)
    requires n < |labels| < |run|
    ensures forall id :: SwitchIsLate(run, labels, id, n) ==> SwitchIsLate(run, labels, id, n + 1)
    ensures forall k :: KillIsLate(run, labels, k, n) ==> KillIsLate(run, labels, k, n + 1)
    ensures forall m :: MessageIsLate(run, labels, m, n) ==> MessageIsLate(run, labels, m, n + 1)
  {
    hide LateSwitch, LateKill, LateMessage;
  }

  lemma NewlyLate(run: seq<State>, labels: seq<Label>, n: nat)
    requires n < |labels| < |run| && run[n].data.endSent
    ensures forall id, m :: StartsSwitch(run[n], labels[n], m, id) ==> SwitchIsLate(run, labels, id, n + 1)
    ensures forall js, k :: TakesKill(run[n], labels[n], js, k) ==> KillIsLate(run, labels, k, n + 1)
    ensures forall m :: Takes(run[n], labels[n], m) ==> MessageIsLate(run, labels, m, n + 1)
  {
    forall id, m | StartsSwitch(run[n], labels[n], m, id) ensures SwitchIsLate(run, labels, id, n + 1) {
      assert LateSwitch(run, labels, n, m, id);
    }
    forall js, k | TakesKill(run[n], labels[n], js, k) ensures KillIsLate(run, labels, k, n + 1) {
      assert LateKill(run, labels, n, js, k);
    }
    forall m | Takes(run[n], labels[n], m) ensures MessageIsLate(run, labels, m, n + 1) {
      assert LateMessage(run, labels, n, m);
    }
  }

  lemma LateStep(c: Config, run: seq<State>, labels: seq<Label>, n: nat)
    requires n < |labels| < |run| && run[n].data.endSent && Inv(c, run[n])
    requires OnlyLate(run, labels, n) && Accounted(run[n], labels[n], run[n + 1])
    ensures OnlyLate(run, labels, n + 1)
  {
    forall j ensures !Submission(run[n], labels[n], j) { NoLateSubmission(c, run[n], labels[n], j); }
    hide Inv, StartsSwitch, TakesKill, Takes, Submission, SwitchIsLate, KillIsLate, MessageIsLate;
    StillLate(run, labels, n);
    NewlyLate(run, labels, n);
  }

  lemma StepOpenIsLate(c: Config, run: seq<State>, labels: seq<Label>, n: nat)
    requires n < |labels| < |run| && Inv(c, run[n]) && Inv(c, run[n + 1])
    requires Enabled(c, run[n], labels[n]) && Do(c, run[n], labels[n]) == Next(run[n + 1])
    requires run[n].data.endSent ==> OnlyLate(run, labels, n)
    ensures run[n + 1].data.endSent ==> OnlyLate(run, labels, n + 1)
  {
    hide *;
    if run[n].data.endSent {
      StepAccounted(c, run[n], labels[n], run[n + 1]);
      LateStep(c, run, labels, n);
    } else if run[n + 1].data.endSent {
      EndIsDone(c, run[n], labels[n], run[n + 1]);
      DoneIsLate(run, labels, n + 1);
    }
  }

  lemma {:induction false} OpenIsLate(c: Config, run: seq<State>, labels: seq<Label>, n: nat)
    requires Run(c, run, labels) && n <= |labels|
    ensures |run| == |labels| + 1 && (run[n].data.endSent ==> OnlyLate(run, labels, n))
  {
    hide *;
    RunStarts(c, run, labels);
    if n == 0 {
      FirstNotEnded(c, run[0]);
    } else {
      OpenIsLate(c, run, labels, n - 1);
      RunInv(c, run, labels, n - 1);
      RunInv(c, run, labels, n);
      RunStep(c, run, labels, n);
      StepOpenIsLate(c, run, labels, n - 1);
    }
  }

  // ----- what becomes of a switch and of a killer -----

  /** The message is handled after step i. */
  ghost predicate TakenAfter(run: seq<State>, labels: seq<Label>, m: Message, i: nat, n: nat)
    requires n <= |labels| < |run|
  {
    exists k :: i < k < n && Takes(run[k], labels[k], m)
  }

  lemma TakenAfterMore(run: seq<State>, labels: seq<Label>, m: Message, i: nat, n: nat)
    requires i < n < |labels| < |run|
    ensures TakenAfter(run, labels, m, i, n + 1) <==> TakenAfter(run, labels, m, i, n) || Takes(run[n], labels[n], m)
  {
    hide Takes;
  }

  lemma TakenAfterNone(run: seq<State>, labels: seq<Label>, m: Message, i: nat)
    requires i < |labels| < |run|
    ensures !TakenAfter(run, labels, m, i, i + 1)
  {
  }

  lemma MaybeCallCrew(c: Config, s: State)
    requires MaybeCall(c, s).Next?
    ensures var s' := MaybeCall(c, s).state;
            s'.crew == s.crew.(scheduler := s'.crew.scheduler) && s'.killers == s.killers
  {
    hide IsSimulationFinished, NoDup;
  }

  lemma SwitchedGone(c: Config, s: State, l: Label, s': State, id: nat)
    requires Enabled(c, s, l) && Do(c, s, l) == Next(s') && Takes(s, l, Switched(id))
    ensures id !in s'.crew.switchers
  {
    hide MaybeCall, MayServe;
    MaybeCallCrew(c, EndSwitching(Announce(Popped(s), id !in c.silent), id));
  }

  lemma SwitchStarted(c: Config, s: State, l: Label, s': State, n: nat, id: nat)
    requires Enabled(c, s, l) && Do(c, s, l) == Next(s') && StartsSwitch(s, l, n, id)
    ensures id in s'.crew.switchers && id < s'.crew.nextId
  {
    hide MaybeCall, MayServe;
    MaybeCallCrew(c, StartSwitching(Announce(Popped(s), s.mailbox[0].atOnce), n));
  }

  lemma SwitchStep(c: Config, s: State, l: Label, s': State, id: nat)
    requires Enabled(c, s, l) && Do(c, s, l) == Next(s') && id < s.crew.nextId
    ensures id < s'.crew.nextId
    ensures id in s'.crew.switchers <==> id in s.crew.switchers && !Takes(s, l, Switched(id))
  {
    hide Do, Enabled, Takes;
    StepAccounted(c, s, l, s');
    if Takes(s, l, Switched(id)) { SwitchedGone(c, s, l, s', id); }
  }

  /** A switch process is open as long as its end was not handled. */
  lemma {:induction false} SwitchLife(c: Config, run: seq<State>, labels: seq<Label>, i: nat, m: nat, id: nat, n: nat)
    requires Run(c, run, labels) && i < n <= |labels| < |run| && StartsSwitch(run[i], labels[i], m, id)
    ensures id < run[n].crew.nextId
    ensures id in run[n].crew.switchers <==> !TakenAfter(run, labels, Switched(id), i, n)
  {
    hide *;
    RunStep(c, run, labels, n);
    if n == i + 1 {
      SwitchStarted(c, run[i], labels[i], run[n], m, id);
      TakenAfterNone(run, labels, Switched(id), i);
    } else {
      SwitchLife(c, run, labels, i, m, id, n - 1);
      SwitchStep(c, run[n - 1], labels[n - 1], run[n], id);
      TakenAfterMore(run, labels, Switched(id), i, n - 1);
    }
  }

  lemma KillingGone(c: Config, s: State, l: Label, s': State, k: nat)
    requires Enabled(c, s, l) && Do(c, s, l) == Next(s') && Takes(s, l, KillingDone(k))
    ensures k !in s'.killers
  {
    hide MaybeCall, ReportKilled;
    ReportsWrite(Popped(s).(killers := s.killers - {k}), s.killers[k].all);
    MaybeCallCrew(c, OnKillingDone(Popped(s), k).state);
  }

  lemma KillStep(c: Config, s: State, l: Label, s': State, k: nat)
    requires Enabled(c, s, l) && Do(c, s, l) == Next(s') && k < s.crew.nextId
    ensures k < s'.crew.nextId
    ensures k in s'.killers <==> k in s.killers && !Takes(s, l, KillingDone(k))
  {
    hide Do, Enabled, Takes;
    StepAccounted(c, s, l, s');
    if Takes(s, l, KillingDone(k)) { KillingGone(c, s, l, s', k); }
  }

  /** A killer is open as long as its end was not handled. */
  lemma {:induction false} KillLife(c: Config, run: seq<State>, labels: seq<Label>, i: nat, js: seq<JobId>, k: nat,
                                    n: nat)
    requires Run(c, run, labels) && i < n <= |labels| < |run| && TakesKill(run[i], labels[i], js, k)
    ensures k < run[n].crew.nextId
    ensures k in run[n].killers <==> !TakenAfter(run, labels, KillingDone(k), i, n)
  {
    hide *;
    RunStep(c, run, labels, n);
    if n == i + 1 {
      KillerStarts(c, run[i], labels[i], run[n], js, k);
      TakenAfterNone(run, labels, KillingDone(k), i);
    } else {
      KillLife(c, run, labels, i, js, k, n - 1);
      KillStep(c, run[n - 1], labels[n - 1], run[n], k);
      TakenAfterMore(run, labels, KillingDone(k), i, n - 1);
    }
  }

  // ----- what becomes of a job -----

  lemma StartBooked(c: Config, s: State, l: Label, s': State, j: JobId)
    requires Enabled(c, s, l) && Do(c, s, l) == Next(s') && Takes(s, l, ExecuteJob(j))
    ensures j in s'.books.started
  {
    hide MaybeCall, MayServe;
    MaybeCallAccounts(c, OnExecute(Popped(s), j).state, Serves, OnExecute(Popped(s), j).state);
  }

  lemma CountBooked(c: Config, s: State, l: Label, s': State, j: JobId)
    requires Enabled(c, s, l) && Do(c, s, l) == Next(s') && Registers(s, l, j)
    ensures j in s'.books.counted
  {
    hide MaybeCall, MayServe;
    var s1 := Count(Popped(s), j);
    s1 := if c.registrationAck then Emit(s1, SubmittedEvent(j)) else s1;
    MaybeCallAccounts(c, s1, Serves, s1);
  }

  lemma {:induction false} BookedStays(c: Config, run: seq<State>, labels: seq<Label>, i: nat, n: nat)
    requires Run(c, run, labels) && i <= n < |run|
    ensures run[i].books.started <= run[n].books.started && run[i].books.counted <= run[n].books.counted
  {
    if i < n {
      RunStep(c, run, labels, n);
      hide *;
      BookedStays(c, run, labels, i, n - 1);
      BookedStep(c, run[n - 1], labels[n - 1], run[n]);
    }
  }

  lemma BookedStep(c: Config, s: State, l: Label, s': State)
    requires Enabled(c, s, l) && Do(c, s, l) == Next(s')
    ensures s.books.started <= s'.books.started && s.books.counted <= s'.books.counted
  {
    StepAccounted(c, s, l, s');
    hide Enabled, Do, Takes, StartsSwitch, TakesKill, Registers, Submission;
  }

  // ----- the checks -----

  lemma RunningCheck(c: Config, s: State)
    requires Inv(c, s)
    ensures s.data.nbRunning == 0 <==> forall j :: j in s.books.started ==> j in s.books.written
  {
    var started, written := s.books.started, s.books.written;
    assert s.data.nbRunning == |started - SetOf(written)|;
    hide Inv;
    if j :| j in started && j !in written {
      assert j in started - SetOf(written);
    } else {
      assert started - SetOf(written) == {};
    }
  }

  /** No switch is left after the loop if and only if the end of each switch process that was requested after
      the end of the simulation was handled. */
  lemma SwitchesAtExit(c: Config, run: seq<State>, labels: seq<Label>)
    requires Run(c, run, labels) && run[|labels|].data.endAcked
    ensures run[|labels|].data.nbSwitching == 0 <==>
            forall i, m, id :: 0 <= i < |labels| && LateSwitch(run, labels, i, m, id) ==>
              TakenAfter(run, labels, Switched(id), i, |labels|)
  {
    var n := |labels|;
    AtExit(c, run, labels);
    hide Run, LateSwitch, TakenAfter, Reachable;
    forall i, m, id | 0 <= i < n && LateSwitch(run, labels, i, m, id)
      ensures id in run[n].crew.switchers <==> !TakenAfter(run, labels, Switched(id), i, n)
    {
      LateSwitchStarts(run, labels, i, m, id);
      SwitchLife(c, run, labels, i, m, id, n);
    }
    forall id | id in run[n].crew.switchers ensures exists i, m :: 0 <= i < n && LateSwitch(run, labels, i, m, id) {
      assert SwitchIsLate(run, labels, id, n);
    }
  }

  lemma LateSwitchStarts(run: seq<State>, labels: seq<Label>, i: nat, m: nat, id: nat)
    requires i < |labels| < |run| && LateSwitch(run, labels, i, m, id)
    ensures StartsSwitch(run[i], labels[i], m, id)
  {
  }

  /** Likewise for the killers ... */
  lemma KillersAtExit(c: Config, run: seq<State>, labels: seq<Label>)
    requires Run(c, run, labels) && run[|labels|].data.endAcked
    ensures run[|labels|].data.nbKillers == 0 <==>
            forall i, js, k :: 0 <= i < |labels| && LateKill(run, labels, i, js, k) ==>
              TakenAfter(run, labels, KillingDone(k), i, |labels|)
  {
    var n := |labels|;
    AtExit(c, run, labels);
    hide Run, LateKill, TakenAfter, Reachable;
    forall i, js, k | 0 <= i < n && LateKill(run, labels, i, js, k)
      ensures k in run[n].killers <==> !TakenAfter(run, labels, KillingDone(k), i, n)
    {
      LateKillStarts(run, labels, i, js, k);
      KillLife(c, run, labels, i, js, k, n);
    }
    forall k | k in run[n].killers ensures exists i, js :: 0 <= i < n && LateKill(run, labels, i, js, k) {
      assert KillIsLate(run, labels, k, n);
    }
    assert run[n].killers == map[] <==> forall k :: k !in run[n].killers;
  }

  lemma LateKillStarts(run: seq<State>, labels: seq<Label>, i: nat, js: seq<JobId>, k: nat)
    requires i < |labels| < |run| && LateKill(run, labels, i, js, k)
    ensures TakesKill(run[i], labels[i], js, k)
  {
  }

  /** ... no job is left running if and only if every job whose execution was requested so late is in the
      trace ... */
  lemma RunningAtExit(c: Config, run: seq<State>, labels: seq<Label>)
    requires Run(c, run, labels) && run[|labels|].data.endAcked
    ensures run[|labels|].data.nbRunning == 0 <==>
            forall i, j :: 0 <= i < |labels| && LateMessage(run, labels, i, ExecuteJob(j)) ==>
              j in run[|labels|].books.written
  {
    var n := |labels|;
    AtExit(c, run, labels);
    RunInv(c, run, labels, n);
    RunningCheck(c, run[n]);
    hide Run, Inv, LateMessage, Reachable, Takes;
    forall i, j | 0 <= i < n && LateMessage(run, labels, i, ExecuteJob(j)) ensures j in run[n].books.started {
      LateStarted(c, run, labels, i, j);
    }
    forall j | j in run[n].books.started && j !in run[n].books.written
      ensures exists i :: 0 <= i < n && LateMessage(run, labels, i, ExecuteJob(j))
    {
      assert MessageIsLate(run, labels, ExecuteJob(j), n);
    }
  }

  lemma LateStarted(c: Config, run: seq<State>, labels: seq<Label>, i: nat, j: JobId)
    requires Run(c, run, labels) && i < |labels| < |run| && LateMessage(run, labels, i, ExecuteJob(j))
    ensures j in run[|labels|].books.started
  {
    hide *;
    LateMessageTaken(run, labels, i, ExecuteJob(j));
    RunStep(c, run, labels, i + 1);
    StartBooked(c, run[i], labels[i], run[i + 1], j);
    BookedStays(c, run, labels, i + 1, |labels|);
  }

  lemma LateCounted(c: Config, run: seq<State>, labels: seq<Label>, i: nat, j: JobId)
    requires Run(c, run, labels) && i < |labels| < |run| && LateMessage(run, labels, i, JobRegistered(j))
    ensures j in run[|labels|].books.counted
  {
    hide Run, LateMessage, Do, Enabled, Takes;
    LateMessageTaken(run, labels, i, JobRegistered(j));
    RunStep(c, run, labels, i + 1);
    CountBooked(c, run[i], labels[i], run[i + 1], j);
    BookedStays(c, run, labels, i + 1, |labels|);
  }

  lemma LateMessageTaken(run: seq<State>, labels: seq<Label>, i: nat, m: Message)
    requires i < |labels| < |run| && LateMessage(run, labels, i, m)
    ensures Takes(run[i], labels[i], m)
  {
  }

  /** ... and all submitted jobs are complete if and only if every job registered so late is in the trace. */
  lemma CompletedAtExit(c: Config, run: seq<State>, labels: seq<Label>)
    requires Run(c, run, labels) && run[|labels|].data.endAcked
    ensures run[|labels|].data.nbCompleted == run[|labels|].data.nbSubmitted <==>
            forall i, j :: 0 <= i < |labels| && LateMessage(run, labels, i, JobRegistered(j)) ==>
              j in run[|labels|].books.written
  {
    var n := |labels|;
    AtExit(c, run, labels);
    hide Run, LateMessage, Reachable;
    forall i, j | 0 <= i < n && LateMessage(run, labels, i, JobRegistered(j)) ensures j in run[n].books.counted {
      LateCounted(c, run, labels, i, j);
    }
    forall j | j in run[n].books.counted && j !in run[n].books.written
      ensures exists i :: 0 <= i < n && LateMessage(run, labels, i, JobRegistered(j))
    {
      assert MessageIsLate(run, labels, JobRegistered(j), n);
    }
  }

  lemma AtExit(c: Config, run: seq<State>, labels: seq<Label>)
    requires Run(c, run, labels) && run[|labels|].data.endAcked
    ensures |run| == |labels| + 1 && OnlyLate(run, labels, |labels|)
    ensures var s := run[|labels|];
            && (s.data.nbSwitching == 0 <==> s.crew.switchers == {})
            && (s.data.nbKillers == 0 <==> s.killers == map[])
            && (s.data.nbCompleted == s.data.nbSubmitted <==>
                forall j :: j in s.books.counted ==> j in s.books.written)
  {
    OpenIsLate(c, run, labels, |labels|);
    assert Reachable(c, run[|labels|]);
    ExitChecksExactly(c, run[|labels|]);
    hide Run, OnlyLate;
  }
}
