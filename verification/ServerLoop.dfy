/** The server's loop keeps the invariant: taking any message, then calling the scheduler if it is time. */
module ServerLoop {
  import opened ServerSteps
  import opened ServerInvariant
  import opened ServerActors
  import opened ServerReports
  import opened ServerKills
  import opened ServerHandlers

  /** The scheduler may be called only after all killers have run. */
  ghost predicate Polite(s: State) {
    s.data.schedReady ==> forall k :: k in s.killers ==> s.killers[k].posted
  }

  lemma PoliteFramed(s: State, s': State)
    requires Polite(s) && s'.killers == s.killers && s'.data.schedReady == s.data.schedReady
    ensures Polite(s')
  {
  }

  // ----- Handle -----

  lemma HandlesCrew(c: Config, s: State)
    requires Inv(c, s) && MayServe(s)
    requires var m := s.mailbox[0];
             m.SubmitterBye? || m.EventsOccurred? || m.EventSubmitterBye? || m.WaitingDone? || m.Switched?
    ensures Handle(c, Popped(s), s.mailbox[0]).Next?
    ensures var s' := Handle(c, Popped(s), s.mailbox[0]).state; Inv(c, s') && Polite(s')
  {
    hide Inv, Busy;
    PopPlain(c, s);
    var s0 := Popped(s);
    match s.mailbox[0]
    case SubmitterBye(n) =>
      ByeInv(c, s0, n);
      EmitInv(c, LetGo(s0, n), NoMoreJobs);
    case EventsOccurred(n) => EmitInv(c, s0, ExternalEvents(n));
    case EventSubmitterBye(n) =>
      EventByeInv(c, s0, n);
      EmitInv(c, LetEventsGo(s0, n), NoMoreEvents);
    case WaitingDone(n) =>
      EmitInv(c, s0, RequestedCall(n));
      WaitedInv(c, Emit(s0, RequestedCall(n)), n) by { StillBusy(s0, Emit(s0, RequestedCall(n))); }
    case Switched(n) =>
      var s1 := Announce(s0, n !in c.silent);
      AnnounceInv(c, s0, n !in c.silent);
      SwitchedInv(c, s1, n) by { StillBusy(s0, s1); }
  }

  lemma HandlesSubmitted(c: Config, s: State)
    requires Inv(c, s) && MayServe(s) && s.mailbox[0].JobsSubmitted?
    ensures Handle(c, Popped(s), s.mailbox[0]).Next?
    ensures var s' := Handle(c, Popped(s), s.mailbox[0]).state; Inv(c, s') && Polite(s')
  {
    var n, js := s.mailbox[0].submitter, s.mailbox[0].jobs;
    hide Inv, Busy;
    PopPlain(c, s);
    assert Fresh(Popped(s), js) by { SubmittedFresh(c, s); }
    SubmittedInv(c, Popped(s), js);
    PoliteFramed(s, OnSubmitted(Popped(s), js));
  }

  /** Two submitters never submit the same job. */
  lemma SubmittedFresh(c: Config, s: State)
    requires Inv(c, s) && s.mailbox != [] && s.mailbox[0].JobsSubmitted?
    ensures Fresh(Popped(s), s.mailbox[0].jobs)
  {
    PopPlain(c, s);
    var s0, js := Popped(s), s.mailbox[0].jobs;
    assert MaySubmit(s0, s.mailbox[0].submitter, js);
    forall j, n, js' | j in js && JobsSubmitted(n, js') in s0.mailbox ensures j !in js' {
      assert MessageOk(s0, JobsSubmitted(n, js'));
    }
  }

  lemma HandlesCompleted(c: Config, s: State)
    requires Inv(c, s) && MayServe(s) && s.mailbox[0].JobCompleted?
    ensures Handle(c, Popped(s), s.mailbox[0]).Next?
    ensures var s' := Handle(c, Popped(s), s.mailbox[0]).state; Inv(c, s') && Polite(s')
  {
    hide Inv;
    JobDoneInv(c, s, s.mailbox[0].job);
  }

  lemma HandlesKillingDone(c: Config, s: State)
    requires Inv(c, s) && MayServe(s) && s.mailbox[0].KillingDone?
    ensures Handle(c, Popped(s), s.mailbox[0]).Next?
    ensures var s' := Handle(c, Popped(s), s.mailbox[0]).state; Inv(c, s') && Polite(s')
  {
    hide Inv, OnKillingDone;
    KillingDoneInv(c, s, s.mailbox[0].killer);
  }

  predicate AboutJob(m: Message) {
    m.ExecuteJob? || m.RejectJob?
  }

  lemma HandlesJobRequest(c: Config, s: State)
    requires Inv(c, s) && MayServe(s) && AboutJob(s.mailbox[0])
    ensures match Handle(c, Popped(s), s.mailbox[0])
            case Dies(reason) => reason == BadRequest
            case Next(s') => Inv(c, s') && Polite(s')
  {
    hide Inv, Busy, OnExecute, OnReject;
    PopPlain(c, s);
    SchedulerNotReady(c, Popped(s), s.mailbox[0]);
    JobRequestInv(c, Popped(s), s.mailbox[0].job);
  }

  lemma JobRequestInv(c: Config, s: State, j: JobId)
    requires Inv(c, s) && Busy(s) && !s.data.schedReady && JobRegistered(j) !in s.mailbox
    ensures match OnExecute(s, j)
            case Dies(reason) => reason == BadRequest
            case Next(s') => Inv(c, s') && Polite(s')
    ensures match OnReject(s, j)
            case Dies(reason) => reason == BadRequest
            case Next(s') => Inv(c, s') && Polite(s')
  {
    hide Inv, Busy;
    if j in s.jobs && j !in s.books.deleted && s.jobs[j].state.Submitted? {
      ExecuteInv(c, s, j);
      RejectInv(c, s, j);
    }
  }

  lemma SchedulerNotReady(c: Config, s: State, m: Message)
    requires Inv(c, s) && MessageOk(s, m) && IsFromScheduler(m)
    ensures s.crew.scheduler && !s.data.schedReady
  {
  }

  lemma HandlesKillJobs(c: Config, s: State)
    requires Inv(c, s) && MayServe(s) && s.mailbox[0].KillJobs?
    ensures match Handle(c, Popped(s), s.mailbox[0])
            case Dies(reason) => reason == BadRequest
            case Next(s') => Inv(c, s') && Polite(s')
  {
    hide Inv, Busy, OnKillJobs;
    PopPlain(c, s);
    SchedulerNotReady(c, Popped(s), s.mailbox[0]);
    KillJobsInv(c, Popped(s), s.mailbox[0].jobs);
  }

  lemma HandlesReady(c: Config, s: State)
    requires Inv(c, s) && MayServe(s) && s.mailbox[0].SchedReady?
    ensures Handle(c, Popped(s), s.mailbox[0]).Next?
    ensures var s' := Handle(c, Popped(s), s.mailbox[0]).state; Inv(c, s') && Polite(s')
  {
    hide Inv, Busy;
    PopPlain(c, s);
    assert !SchedulerBusy(Popped(s));
    SchedulerNotReady(c, Popped(s), SchedReady);
    ReadyInv(c, Popped(s));
  }

  lemma HandlesRequest(c: Config, s: State)
    requires Inv(c, s) && MayServe(s)
    requires var m := s.mailbox[0]; m.CallMeLater? || m.ChangePstate? || m.EndRegistration? || m.ContinueRegistration?
    ensures match Handle(c, Popped(s), s.mailbox[0])
            case Dies(reason) => reason == BadRequest
            case Next(s') => Inv(c, s') && Polite(s')
  {
    var s0, m := Popped(s), s.mailbox[0];
    hide Inv, Busy;
    PopPlain(c, s);
    SchedulerNotReady(c, s0, m);
    match m
    case CallMeLater(_) => LaterInv(c, s0);
    case ChangePstate(n, atOnce) =>
      AnnounceInv(c, s0, atOnce);
      PstateInv(c, Announce(s0, atOnce), n) by { StillBusy(s0, Announce(s0, atOnce)); }
    case EndRegistration => RegistrationInv(c, s0, true);
    case ContinueRegistration => RegistrationInv(c, s0, false);
  }

  lemma HandlesRegistered(c: Config, s: State)
    requires Inv(c, s) && MayServe(s) && s.mailbox[0].JobRegistered?
    ensures Handle(c, Popped(s), s.mailbox[0]).Next?
    ensures var s' := Handle(c, Popped(s), s.mailbox[0]).state; Inv(c, s') && Polite(s')
  {
    hide Inv;
    var j := s.mailbox[0].job;
    RegisteredCountInv(c, s, j);
    EmitInv(c, Count(Popped(s), j), SubmittedEvent(j));
  }

  /** Only the scheduler's requests can be refused, and no check of the server's own data fails. */
  lemma HandleInv(c: Config, s: State)
    requires Inv(c, s) && MayServe(s)
    ensures match Handle(c, Popped(s), s.mailbox[0])
            case Dies(reason) => reason == BadRequest && IsFromScheduler(s.mailbox[0])
            case Next(s') => Inv(c, s') && Polite(s')
  {
    var m := s.mailbox[0];
    assert Known(Popped(s), m) by { assert Known(s, m); }
    hide Inv, MayServe, Handle, Polite;
    if m.JobsSubmitted? { HandlesSubmitted(c, s); }
    else if m.JobCompleted? { HandlesCompleted(c, s); }
    else if m.KillingDone? { HandlesKillingDone(c, s); }
    else if m.JobRegistered? { HandlesRegistered(c, s); }
    else if AboutJob(m) { HandlesJobRequest(c, s); }
    else if m.KillJobs? { HandlesKillJobs(c, s); }
    else if m.SchedReady? { HandlesReady(c, s); }
    else if IsFromScheduler(m) { HandlesRequest(c, s); }
    else { HandlesCrew(c, s); }
  }

  // ----- MaybeCall -----

  lemma PostedInMailbox(s: State, k: nat)
    requires KillsOk(s, []) && k in s.killers && s.killers[k].posted
    ensures s.mailbox != []
  {
    assert KillerOk(s, k);
  }

  lemma CancelledHasKiller(s: State, j: JobId)
    requires KillsOk(s, []) && j in s.cancelled
    ensures s.killers != map[]
  {
    assert Announced(s, j);
  }

  lemma NoKillersLeft(s: State)
    requires KillsOk(s, []) && Polite(s) && s.data.schedReady && s.mailbox == []
    ensures s.killers == map[] && s.cancelled == {}
  {
    hide KillsOk;
    if k :| k in s.killers {
      PostedInMailbox(s, k);
    }
    if j :| j in s.cancelled {
      CancelledHasKiller(s, j);
    }
  }

  lemma FlattenMore(calls: seq<seq<Event>>, events: seq<Event>)
    ensures Flatten(calls + [events]) == Flatten(calls) + events
  {
    assert (calls + [events])[..|calls|] == calls;
  }

  lemma CallEvents(s: State)
    requires EventsOk(s) && s.talk.outgoing != []
    ensures EventsOk(Call(s))
  {
    FlattenMore(s.talk.calls, s.talk.outgoing);
    forall k | k in s.killers && s.killers[k].posted ensures InOrder(Call(s), k) { assert InOrder(s, k); }
  }

  lemma CallInv(c: Config, s: State)
    requires JobsOk(s) && KillsOk(s, []) && MailboxOk(s) && EventsOk(s) && BooksOk(s.data, s.books)
    requires ActorsOk(c, s.data, s.crew, s.killers.Keys) && s.talk.outgoing != [] && !s.crew.scheduler
             && !s.data.endAcked
    requires EndOk(s.(crew := s.crew.(scheduler := true)))
    ensures Inv(c, Call(s))
  {
    hide JobsOk, KillsOk, EventsOk, BooksOk, MailboxOk, ActorsOk, EndOk, Call;
    CallKeepsData(s);
    CallEvents(s);
    CallActors(c, s);
  }

  lemma CallKeepsData(s: State)
    requires JobsOk(s) && KillsOk(s, []) && MailboxOk(s) && BooksOk(s.data, s.books)
    ensures JobsOk(Call(s)) && KillsOk(Call(s), []) && MailboxOk(Call(s)) && BooksOk(Call(s).data, Call(s).books)
  {
    hide JobsOk, KillsOk, BooksOk, MailboxOk;
    var s' := Call(s);
    JobsFramed(s, s');
    assert KillsOk(s', []) by { KillsFramed(s, s'); }
    assert MailboxOk(s') by { MailboxFramed(s, s'); }
    BooksFramed(s.data, s'.data, s.books);
  }

  lemma CallActors(c: Config, s: State)
    requires ActorsOk(c, s.data, s.crew, s.killers.Keys) && !s.data.endAcked
    requires EndOk(s.(crew := s.crew.(scheduler := true)))
    ensures ActorsOk(c, Call(s).data, Call(s).crew, Call(s).killers.Keys) && EndOk(Call(s))
  {
  }

  lemma Suffix(written: seq<JobId>, n: nat, toDelete: seq<JobId>)
    requires NoDup(written) && n <= |written| && written == written[..n] + toDelete
    ensures NoDup(toDelete) && (forall j :: j in toDelete ==> j !in SetOf(written[..n]))
    ensures SetOf(written[..n]) + (set j | j in toDelete) == SetOf(written)
    ensures written[..|written|] == written && written == written[..|written|] + []
  {
    assert forall i :: 0 <= i < |toDelete| ==> toDelete[i] == written[n + i];
    assert forall j :: j in written <==> j in written[..n] || j in toDelete;
  }

  lemma DeletesNext(b: Books, d: Data)
    requires BooksOk(d, b)
    ensures NoDup(b.toDelete) && forall j :: j in b.toDelete ==> j !in b.deleted
    ensures BooksOk(d, b.(deleted := b.deleted + (set j | j in b.toDelete), toDelete := []))
  {
    var n := |b.written| - |b.toDelete|;
    assert NoDup(b.written) && b.written == b.written[..n] + b.toDelete && b.deleted == SetOf(b.written[..n]);
    Suffix(b.written, n, b.toDelete);
    hide NoDup, SetOf;
  }

  lemma DeleteInv(c: Config, s: State)
    requires Inv(c, s) && s.killers == map[]
    ensures DeleteJobs(s).Next? && Inv(c, DeleteJobs(s).state)
  {
    hide JobsOk, EventsOk, BooksOk, MailboxOk, ActorsOk, NoDup;
    DeletesNext(s.books, s.data);
    var s' := DeleteJobs(s).state;
    assert JobsOk(s') by { DeleteJobsOk(s, s'); }
    assert KillsOk(s', []) by { assert forall j :: !Announced(s, j); }
    assert MailboxOk(s') by { MailboxFramed(s, s'); }
    assert EventsOk(s') by { DeleteEvents(s, s'); }
  }

  lemma DeleteJobsOk(s: State, s': State)
    requires JobsOk(s) && s' == s.(books := s.books.(deleted := s'.books.deleted, toDelete := []))
    ensures JobsOk(s')
  {
    forall j | j in s.jobs ensures JobOk(s', j) { assert JobOk(s, j); }
  }

  lemma DeleteEvents(s: State, s': State)
    requires EventsOk(s) && s' == s.(books := s.books.(deleted := s'.books.deleted, toDelete := []))
    ensures EventsOk(s')
  {
    forall k | k in s.killers && s.killers[k].posted ensures InOrder(s', k) { assert InOrder(s, k); }
  }

  /** With nothing in the mailbox and no kill under way, a finished simulation has no actor left. */
  lemma ExecutingInBooks(s: State, j: JobId)
    requires JobsOk(s) && j in s.executing && s.mailbox == []
    ensures j in s.books.started && j !in s.books.written
  {
    assert JobOk(s, j);
  }

  lemma NothingRuns(d: Data, b: Books, j: JobId)
    requires BooksOk(d, b) && d.nbRunning == 0
    ensures j in b.started ==> j in b.written
  {
    assert j !in b.started - SetOf(b.written);
  }

  lemma FinishedAtRest(c: Config, s: State)
    requires Inv(c, s) && s.mailbox == [] && IsSimulationFinished(c, s.data) && !s.data.endSent && s.killers == map[]
    ensures AtRest(s)
  {
    hide JobsOk, KillsOk, EventsOk, BooksOk, MailboxOk;
    if j :| j in s.executing {
      ExecutingInBooks(s, j);
      NothingRuns(s.data, s.books, j);
    }
  }

  lemma EndEvents(s: State)
    requires EventsOk(s)
    ensures EventsOk(Emit(s, SimulationEnds)) && Ends(s.talk.log + [SimulationEnds]) == Ends(s.talk.log) + 1
  {
    hide EventsOk;
    EmitEvents(s, SimulationEnds);
    EndsMore(s.talk.log, SimulationEnds);
  }

  lemma EndInv(c: Config, s: State)
    requires Inv(c, s) && Polite(s) && s.data.schedReady && s.mailbox == []
    requires IsSimulationFinished(c, s.data) && !s.data.endSent
    ensures var s1 := Call(Emit(s, SimulationEnds)); Inv(c, s1.(data := s1.data.(endSent := true)))
  {
    hide JobsOk, KillsOk, EventsOk, BooksOk, MailboxOk, Polite, Ends;
    NoKillersLeft(s);
    FinishedAtRest(c, s);
    EndEvents(s);
    hide IsSimulationFinished;
    var s1 := Emit(s, SimulationEnds).(data := s.data.(endSent := true));
    JobsFramed(s, s1);
    assert KillsOk(s1, []) by { KillsFramed(s, s1); }
    assert MailboxOk(s1) by { MailboxFramed(s, s1); }
    assert EventsOk(s1) by { EndEventsFramed(Emit(s, SimulationEnds), s1); }
    BooksFramed(s.data, s1.data, s.books);
    CallInv(c, s1);
  }

  lemma EndEventsFramed(s: State, s': State)
    requires EventsOk(s) && s.killers == map[] && s' == s.(data := s'.data)
    ensures EventsOk(s')
  {
  }

  lemma MaybeCallInv(c: Config, s: State)
    requires Inv(c, s) && Polite(s)
    ensures MaybeCall(c, s).Next? && Inv(c, MaybeCall(c, s).state)
  {
    if s.data.schedReady && !s.data.endAcked && s.mailbox == [] {
      if s.talk.outgoing != [] {
        NoKillersLeft(s);
        CallInv(c, s);
        hide Inv;
        DeleteInv(c, Call(s));
      } else if IsSimulationFinished(c, s.data) && !s.data.endSent {
        hide Inv;
        EndInv(c, s);
      }
    }
  }

  lemma ServeInv(c: Config, s: State)
    requires Inv(c, s) && MayServe(s)
    ensures match Serve(c, s)
            case Dies(reason) => reason == BadRequest && IsFromScheduler(s.mailbox[0])
            case Next(s') => Inv(c, s')
  {
    assert Known(Popped(s), s.mailbox[0]) by { assert Known(s, s.mailbox[0]); }
    hide Inv, MayServe, Handle, Polite, MaybeCall;
    HandleInv(c, s);
    if Handle(c, Popped(s), s.mailbox[0]).Next? {
      MaybeCallInv(c, Handle(c, Popped(s), s.mailbox[0]).state);
    }
  }

  /** Every step keeps the invariant. */
  lemma StepInv(c: Config, s: State, l: Label)
    requires Inv(c, s) && Enabled(c, s, l)
    ensures match Do(c, s, l)
            case Dies(reason) => reason != Inconsistent
            case Next(s') => Inv(c, s')
  {
    hide Inv, MayServe, Serve, KillNext;
    if l.Serves? { ServeInv(c, s); } else { ActorInv(c, s, l); }
  }
}
