/** Every other message the server takes keeps the invariant. */
module ServerHandlers {
  import opened ServerSteps
  import opened ServerInvariant
  import opened ServerActors
  import opened ServerReports
  import opened ServerKills

  // ----- taking a message that is about no completion -----

  lemma PopPlainJobs(s: State)
    requires JobsOk(s) && s.mailbox != [] && Plain(s.mailbox[0]) && OneEach(s.mailbox)
    ensures JobsOk(Popped(s))
  {
    PopMessages(s.mailbox);
    forall j | j in s.jobs ensures JobOk(Popped(s), j) { assert JobOk(s, j); }
  }

  lemma PopPlainKills(s: State)
    requires KillsOk(s, []) && s.mailbox != [] && Plain(s.mailbox[0]) && OneEach(s.mailbox)
    ensures KillsOk(Popped(s), [])
  {
    PopMessages(s.mailbox);
    hide KillsOk;
    KillsFramed(s, Popped(s));
  }

  lemma PopPlainEvents(s: State)
    requires EventsOk(s) && s.mailbox != [] && Plain(s.mailbox[0])
    ensures EventsOk(Popped(s))
  {
    forall k | k in s.killers && s.killers[k].posted ensures InOrder(Popped(s), k) {
      assert InOrder(s, k);
      forall x | Ahead(s.mailbox, JobCompleted(x), KillingDone(k))
        ensures Ahead(s.mailbox[1..], JobCompleted(x), KillingDone(k))
      {
        PopAhead(s.mailbox, JobCompleted(x), KillingDone(k));
      }
    }
  }

  /** Something was requested, or the end is not announced. */
  ghost predicate Busy(s: State) {
    s.data.endSent ==> s.crew.requestedSinceEnd
  }

  lemma PopPlain(c: Config, s: State)
    requires Inv(c, s) && s.mailbox != [] && Plain(s.mailbox[0])
    ensures Inv(c, Popped(s)) && MessageOk(Popped(s), s.mailbox[0])
    ensures forall m :: m in s.mailbox[1..] ==> !SameSender(s.mailbox[0], m)
    ensures s.mailbox[0] != SchedReady ==> Busy(Popped(s))
  {
    hide JobsOk, KillsOk, EventsOk, BooksOk, MailboxOk, ActorsOk, OneEach;
    assert s.mailbox[0] in s.mailbox;
    HeadOk(s);
    PopMessages(s.mailbox);
    PopPlainJobs(s);
    PopPlainKills(s);
    PopMailbox(s);
    PopPlainEvents(s);
  }

  // ----- changes of the crew only -----

  lemma CrewChanged(c: Config, s: State, s': State)
    requires Inv(c, s) && s' == s.(crew := s'.crew, data := s'.data)
    requires s'.data.nbSubmitted == s.data.nbSubmitted && s'.data.nbCompleted == s.data.nbCompleted
    requires s'.data.nbRunning == s.data.nbRunning
    requires MailboxOk(s') && ActorsOk(c, s'.data, s'.crew, s'.killers.Keys) && EndOk(s')
    ensures Inv(c, s')
  {
    hide JobsOk, KillsOk, EventsOk, BooksOk, MailboxOk, ActorsOk, EndOk;
    JobsFramed(s, s');
    assert KillsOk(s', []) by { KillsFramed(s, s'); }
    assert EventsOk(s') by { EventsFramed(s, s'); }
    BooksFramed(s.data, s'.data, s.books);
  }

  lemma EmitInv(c: Config, s: State, e: Event)
    requires Inv(c, s) && !e.CompletedEvent? && !e.KilledEvent? && !e.SimulationEnds?
    ensures Inv(c, Emit(s, e))
  {
    hide JobsOk, KillsOk, EventsOk, BooksOk, MailboxOk, ActorsOk;
    var s' := Emit(s, e);
    JobsFramed(s, s');
    assert KillsOk(s', []) by { KillsFramed(s, s'); }
    assert MailboxOk(s') by { MailboxFramed(s, s'); }
    EmitEvents(s, e);
    EndsMore(s.talk.log, e);
  }

  lemma AnnounceInv(c: Config, s: State, fulfilled: bool)
    requires Inv(c, s)
    ensures Inv(c, Announce(s, fulfilled))
  {
    hide Inv;
    if fulfilled { EmitInv(c, s, StatesChanged); }
  }

  /** Whoever left has no message in the mailbox. */
  lemma CrewLeft(s: State, s': State)
    requires MailboxOk(s) && s'.mailbox == s.mailbox && s'.jobs == s.jobs && s'.killers == s.killers
    requires forall n :: n in s.crew.submitters && n !in s'.crew.submitters ==> !SubmitterBusy(s, n)
    requires forall n :: n in s.crew.eventSubmitters && n !in s'.crew.eventSubmitters ==> !EventSubmitterBusy(s, n)
    requires forall n :: n in s.crew.waiters && n !in s'.crew.waiters ==> WaitingDone(n) !in s.mailbox
    requires forall n :: n in s.crew.switchers && n !in s'.crew.switchers ==> Switched(n) !in s.mailbox
    requires s.crew.scheduler && !s'.crew.scheduler ==> !SchedulerBusy(s)
    ensures MailboxOk(s')
  {
    forall m | m in s'.mailbox ensures MessageOk(s', m) { assert MessageOk(s, m); }
  }

  lemma ByeInv(c: Config, s: State, n: string)
    requires Inv(c, s) && Busy(s) && n in s.crew.submitters && !SubmitterBusy(s, n)
    ensures Inv(c, LetGo(s, n))
  {
    var s' := LetGo(s, n);
    hide JobsOk, KillsOk, EventsOk, BooksOk, MailboxOk;
    assert MailboxOk(s') by { CrewLeft(s, s'); }
    CrewChanged(c, s, s');
  }

  lemma EventByeInv(c: Config, s: State, n: string)
    requires Inv(c, s) && Busy(s) && n in s.crew.eventSubmitters && !EventSubmitterBusy(s, n)
    ensures Inv(c, LetEventsGo(s, n))
  {
    var s' := LetEventsGo(s, n);
    hide JobsOk, KillsOk, EventsOk, BooksOk, MailboxOk;
    assert MailboxOk(s') by { CrewLeft(s, s'); }
    CrewChanged(c, s, s');
  }

  lemma WaitedInv(c: Config, s: State, n: nat)
    requires Inv(c, s) && Busy(s) && n in s.crew.waiters && WaitingDone(n) !in s.mailbox
    ensures Inv(c, EndWaiting(s, n))
  {
    var s' := EndWaiting(s, n);
    hide JobsOk, KillsOk, EventsOk, BooksOk, MailboxOk;
    assert MailboxOk(s') by { CrewLeft(s, s'); }
    CrewChanged(c, s, s');
  }

  lemma SwitchedInv(c: Config, s: State, n: nat)
    requires Inv(c, s) && Busy(s) && n in s.crew.switchers && Switched(n) !in s.mailbox
    ensures Inv(c, EndSwitching(s, n))
  {
    var s' := EndSwitching(s, n);
    hide JobsOk, KillsOk, EventsOk, BooksOk, MailboxOk;
    assert MailboxOk(s') by { CrewLeft(s, s'); }
    CrewChanged(c, s, s');
  }

  lemma LaterInv(c: Config, s: State)
    requires Inv(c, s) && Busy(s)
    ensures Inv(c, StartWaiting(s))
  {
    var s' := StartWaiting(s);
    hide JobsOk, KillsOk, EventsOk, BooksOk, MailboxOk;
    assert MailboxOk(s') by { MailboxFramed(s, s'); }
    CrewChanged(c, s, s');
  }

  lemma PstateActors(c: Config, s: State, n: nat)
    requires ActorsOk(c, s.data, s.crew, s.killers.Keys)
    ensures var s' := StartSwitching(s, n); ActorsOk(c, s'.data, s'.crew, s.killers.Keys)
  {
    assert s.crew.switchers !! NewIds(s.crew.nextId, n);
    assert |s.crew.switchers + NewIds(s.crew.nextId, n)| == |s.crew.switchers| + n;
  }

  lemma PstateInv(c: Config, s: State, n: nat)
    requires Inv(c, s) && Busy(s)
    ensures Inv(c, StartSwitching(s, n))
  {
    var s' := StartSwitching(s, n);
    hide JobsOk, KillsOk, EventsOk, BooksOk, MailboxOk, ActorsOk;
    assert MailboxOk(s') by { MailboxFramed(s, s'); }
    PstateActors(c, s, n);
    CrewChanged(c, s, s');
  }

  lemma RegistrationInv(c: Config, s: State, finished: bool)
    requires Inv(c, s)
    ensures Inv(c, SetRegistration(s, finished))
  {
    var s' := SetRegistration(s, finished);
    hide JobsOk, KillsOk, EventsOk, BooksOk, MailboxOk;
    assert MailboxOk(s') by { MailboxFramed(s, s'); }
    CrewChanged(c, s, s');
  }

  lemma ReadyInv(c: Config, s: State)
    requires Inv(c, s) && s.crew.scheduler && !SchedulerBusy(s)
    ensures Inv(c, TakeReady(s))
  {
    var s' := TakeReady(s);
    hide JobsOk, KillsOk, EventsOk, BooksOk, MailboxOk;
    assert MailboxOk(s') by { CrewLeft(s, s'); }
    CrewChanged(c, s, s');
  }

  // ----- requests about jobs -----

  lemma RequestedJobs(s: State, j: JobId, s': State)
    requires JobsOk(s) && j in s.jobs && s.jobs[j].state.Submitted? && JobRegistered(j) !in s.mailbox
    requires OnExecute(s, j) == Next(s') || OnReject(s, j) == Next(s')
    ensures JobsOk(s') && j in s.books.counted && j !in s.books.started && j !in s.books.written
  {
    assert JobOk(s, j);
    SetOfMore(s.books.written, j);
    forall x | x in s'.jobs ensures JobOk(s', x) { assert JobOk(s, x); }
  }

  lemma RequestedKills(s: State, j: JobId, s': State)
    requires KillsOk(s, []) && JobsOk(s) && j in s.jobs && s.jobs[j].state.Submitted?
    requires OnExecute(s, j) == Next(s') || OnReject(s, j) == Next(s')
    ensures KillsOk(s', [])
    ensures forall k :: k in s.killers ==> j !in s.killers[k].all
  {
    assert JobOk(s, j);
    forall k, x | k in s.killers && x in s.killers[k].all ensures x != j {
      assert KillerOk(s, k);
      assert KillerJobOk(s, k, x);
    }
    hide KillsOk, JobsOk, JobOk;
    KillsFramed(s, s');
  }

  lemma SubmittedBooks(s: State, j: JobId)
    requires JobsOk(s) && j in s.jobs && s.jobs[j].state.Submitted? && JobRegistered(j) !in s.mailbox
    ensures j in s.books.counted && j !in s.books.started && j !in s.books.written
  {
    assert JobOk(s, j);
  }

  /** What a start changes. */
  lemma StartIs(s: State, j: JobId)
    requires j in s.jobs
    ensures var s' := Start(s, j);
            && s'.jobs.Keys == s.jobs.Keys && s'.jobs == s.jobs[j := s.jobs[j].(state := Running)]
            && s'.data == s.data.(nbRunning := s.data.nbRunning + 1) && s'.crew == s.crew && s'.talk == s.talk
            && s'.books == s.books.(started := s.books.started + {j}) && s'.executing == s.executing + {j}
            && s'.cancelled == s.cancelled && s'.killers == s.killers && s'.mailbox == s.mailbox
  {
  }

  lemma MayStart(c: Config, s: State, j: JobId)
    requires Inv(c, s) && JobRegistered(j) !in s.mailbox
    requires j in s.jobs && j !in s.books.deleted && s.jobs[j].state.Submitted?
    ensures OnExecute(s, j) == Next(Start(s, j)) && BooksOk(Start(s, j).data, Start(s, j).books)
  {
    hide JobsOk, KillsOk, EventsOk, BooksOk, MailboxOk, ActorsOk, EndOk;
    SubmittedBooks(s, j);
    BooksStart(s.data, s.books, j);
  }

  lemma ExecuteInv(c: Config, s: State, j: JobId)
    requires Inv(c, s) && Busy(s) && JobRegistered(j) !in s.mailbox
    requires j in s.jobs && j !in s.books.deleted && s.jobs[j].state.Submitted?
    ensures OnExecute(s, j).Next? && Inv(c, OnExecute(s, j).state)
  {
    hide JobsOk, KillsOk, EventsOk, BooksOk, MailboxOk, ActorsOk, EndOk, OnExecute, Start;
    MayStart(c, s, j);
    StartIs(s, j);
    var s' := Start(s, j);
    RequestedJobs(s, j, s');
    RequestedKills(s, j, s');
    assert MailboxOk(s') by { MailboxFramed(s, s'); }
    assert EventsOk(s') by { ExecuteEvents(s, s'); }
    EndFramed(s, s');
    ActorsFramed(c, s.data, s'.data, s.crew, s.killers.Keys);
  }

  lemma ExecuteEvents(s: State, s': State)
    requires EventsOk(s)
    requires s'.talk == s.talk && s'.killers == s.killers && s'.mailbox == s.mailbox
             && s'.books.written == s.books.written
    requires s'.jobs.Keys == s.jobs.Keys
    requires forall x :: x in s.jobs ==>
               s'.jobs[x] == s.jobs[x] || (s.jobs[x].state.Submitted? && s'.jobs[x].state.Running?)
    ensures EventsOk(s')
  {
    forall k | k in s.killers && s.killers[k].posted ensures InOrder(s', k) { assert InOrder(s, k); }
  }

  lemma RejectEvents(s: State, s': State, j: JobId)
    requires EventsOk(s) && j in s.jobs && j !in s.books.written
    requires s'.talk == s.talk && s'.killers == s.killers && s'.mailbox == s.mailbox
    requires s'.books.written == s.books.written + [j] && s'.jobs == s.jobs[j := s.jobs[j].(state := Rejected)]
    ensures EventsOk(s')
  {
    forall k | k in s.killers && s.killers[k].posted ensures InOrder(s', k) { assert InOrder(s, k); }
  }

  lemma RejectInv(c: Config, s: State, j: JobId)
    requires Inv(c, s) && Busy(s) && JobRegistered(j) !in s.mailbox
    requires j in s.jobs && j !in s.books.deleted && s.jobs[j].state.Submitted?
    ensures Inv(c, OnReject(s, j).state)
  {
    var s' := OnReject(s, j).state;
    hide JobsOk, KillsOk, EventsOk, BooksOk, MailboxOk, ActorsOk, EndOk;
    RequestedJobs(s, j, s');
    RequestedKills(s, j, s');
    BooksReject(s.data, s.books, j);
    assert MailboxOk(s') by { MailboxFramed(s, s'); }
    assert EventsOk(s') by { RejectEvents(s, s', j); }
    EndFramed(s, s');
    ActorsFramed(c, s.data, s'.data, s.crew, s.killers.Keys);
  }

  // ----- submissions -----

  lemma CountedJobs(s: State, j: JobId)
    requires JobsOk(s) && j in s.jobs && JobRegistered(j) !in s.mailbox
    requires s.jobs[j].state.NotSubmitted?
    ensures JobsOk(Count(SetState(s, j, Submitted), j)) && j !in s.books.counted
  {
    var s' := Count(SetState(s, j, Submitted), j);
    assert JobOk(s, j);
    forall x | x in s'.jobs ensures JobOk(s', x) { assert JobOk(s, x); }
  }

  lemma NotRegistered(s: State, j: JobId)
    requires JobsOk(s) && j in s.jobs && s.jobs[j].state.NotSubmitted?
    ensures JobRegistered(j) !in s.mailbox && !s.jobs[j].killRequested && j !in s.books.written
  {
    assert JobOk(s, j);
  }

  lemma CountedMailbox(s: State, s': State, j: JobId)
    requires MailboxOk(s) && j in s.jobs && s'.jobs == s.jobs[j := s.jobs[j].(state := Submitted)]
    requires s'.mailbox == s.mailbox && s'.crew == s.crew && s'.killers == s.killers
    requires forall n, js :: JobsSubmitted(n, js) in s.mailbox ==> j !in js
    ensures MailboxOk(s')
  {
    forall m | m in s'.mailbox ensures MessageOk(s', m) { assert MessageOk(s, m); }
  }

  lemma CountedEvents(s: State, s': State, j: JobId)
    requires EventsOk(s) && j in s.jobs && j !in s.books.written
             && s'.jobs == s.jobs[j := s.jobs[j].(state := Submitted)]
    requires s'.mailbox == s.mailbox && s'.talk == s.talk && s'.killers == s.killers
             && s'.books.written == s.books.written
    ensures EventsOk(s')
  {
    forall k | k in s.killers && s.killers[k].posted ensures InOrder(s', k) { assert InOrder(s, k); }
  }

  lemma OneSubmittedInv(c: Config, s: State, j: JobId)
    requires Inv(c, s) && Busy(s) && j in s.jobs && s.jobs[j].state.NotSubmitted?
    requires forall n, js :: JobsSubmitted(n, js) in s.mailbox ==> j !in js
    ensures Inv(c, OnOneSubmitted(s, j))
  {
    var s' := Count(SetState(s, j, Submitted), j);
    assert Inv(c, s') by {
      hide JobsOk, KillsOk, EventsOk, BooksOk, MailboxOk, ActorsOk, EndOk;
      NotRegistered(s, j);
      CountedJobs(s, j);
      assert KillsOk(s', []) by { KillsFramed(s, s'); }
      CountedMailbox(s, s', j);
      CountedEvents(s, s', j);
      EndFramed(s, s');
      BooksCount(s.data, s.books, j);
      ActorsFramed(c, s.data, s'.data, s.crew, s.killers.Keys);
    }
    EmitInv(c, s', SubmittedEvent(j));
  }

  /** The jobs of js wait for being submitted. */
  ghost predicate Fresh(s: State, js: seq<JobId>) {
    && NoDup(js) && (forall j :: j in js ==> j in s.jobs && s.jobs[j].state.NotSubmitted?)
    && forall j, n, js' :: j in js && JobsSubmitted(n, js') in s.mailbox ==> j !in js'
  }

  lemma {:induction false} SubmittedInv(c: Config, s: State, js: seq<JobId>)
    requires Inv(c, s) && Busy(s) && Fresh(s, js)
    ensures var s' := OnSubmitted(s, js);
            && Inv(c, s') && s'.mailbox == s.mailbox && s'.crew == s.crew && s'.killers == s.killers
            && s'.data.endSent == s.data.endSent && s'.data.schedReady == s.data.schedReady
            && (forall j :: j in s.jobs && j !in js ==> s'.jobs[j] == s.jobs[j])
    decreases |js|
  {
    if js != [] {
      var n := |js| - 1;
      FreshPrefix(s, js);
      hide Inv, Fresh, OnOneSubmitted, Busy;
      SubmittedInv(c, s, js[..n]);
      var s1 := OnSubmitted(s, js[..n]);
      assert Busy(s1) by { StillBusy(s, s1); }
      OneSubmittedInv(c, s1, js[n]);
      OneSubmittedIs(s1, js[n]);
    }
  }

  lemma StillBusy(s: State, s': State)
    requires Busy(s) && s'.crew == s.crew && s'.data.endSent == s.data.endSent
    ensures Busy(s')
  {
  }

  lemma FreshPrefix(s: State, js: seq<JobId>)
    requires js != [] && Fresh(s, js)
    ensures var n := |js| - 1;
            && Fresh(s, js[..n]) && js[n] !in js[..n] && js[n] in s.jobs && s.jobs[js[n]].state.NotSubmitted?
            && (forall j :: j in js[..n] ==> j in js)
            && forall n', js' :: JobsSubmitted(n', js') in s.mailbox ==> js[n] !in js'
  {
  }

  lemma OneSubmittedIs(s: State, j: JobId)
    requires j in s.jobs
    ensures var s' := OnOneSubmitted(s, j);
            && s'.mailbox == s.mailbox && s'.crew == s.crew && s'.killers == s.killers
            && s'.data.endSent == s.data.endSent && s'.data.schedReady == s.data.schedReady
            && forall x :: x in s.jobs && x != j ==> s'.jobs[x] == s.jobs[x]
  {
  }

  lemma RegisteredCountInv(c: Config, s: State, j: JobId)
    requires Inv(c, s) && s.mailbox != [] && s.mailbox[0] == JobRegistered(j)
    ensures j in s.jobs && Inv(c, Count(Popped(s), j))
  {
    hide JobsOk, KillsOk, EventsOk, BooksOk, MailboxOk, ActorsOk, OneEach, EndOk;
    HeadOk(s);
    PopMessages(s.mailbox);
    var s' := Count(Popped(s), j);
    RegisteredCountJobs(s, j);
    BusyWith(s);
    EndFramed(s, s');
    assert KillsOk(s', []) by { KillsFramed(s, s'); }
    assert MailboxOk(s') by { RegisteredCountMailbox(s, j); }
    RegisteredCountEvents(s, j);
    BooksCount(s.data, s.books, j);
    ActorsFramed(c, s.data, s'.data, s.crew, s.killers.Keys);
  }

  lemma RegisteredCountJobs(s: State, j: JobId)
    requires JobsOk(s) && s.mailbox != [] && s.mailbox[0] == JobRegistered(j) && OneEach(s.mailbox) && j in s.jobs
    ensures JobsOk(Count(Popped(s), j)) && j !in s.books.counted
  {
    PopMessages(s.mailbox);
    assert JobOk(s, j);
    forall x | x in s.jobs ensures JobOk(Count(Popped(s), j), x) { assert JobOk(s, x); }
  }

  lemma RegisteredCountEvents(s: State, j: JobId)
    requires EventsOk(s) && s.mailbox != [] && s.mailbox[0] == JobRegistered(j)
    ensures EventsOk(Count(Popped(s), j))
  {
    var s' := Count(Popped(s), j);
    forall k | k in s.killers && s.killers[k].posted ensures InOrder(s', k) {
      assert InOrder(s, k);
      forall x | Ahead(s.mailbox, JobCompleted(x), KillingDone(k))
        ensures Ahead(s.mailbox[1..], JobCompleted(x), KillingDone(k))
      {
        PopAhead(s.mailbox, JobCompleted(x), KillingDone(k));
      }
    }
  }

  lemma RegisteredCountMailbox(s: State, j: JobId)
    requires MailboxOk(s) && s.mailbox != []
    ensures MailboxOk(Count(Popped(s), j))
  {
    hide MailboxOk;
    PopMailbox(s);
    MailboxFramed(Popped(s), Count(Popped(s), j));
  }

  // ----- kill requests -----

  function Mark(s: State, j: JobId): State
    requires j in s.jobs
  {
    s.(jobs := s.jobs[j := s.jobs[j].(killRequested := true)])
  }

  predicate Killable(state: JobState) {
    state.Running? || IsComplete(state)
  }

  lemma MarkInv(c: Config, s: State, j: JobId)
    requires Inv(c, s) && j in s.jobs && !s.jobs[j].killRequested && Killable(s.jobs[j].state)
    ensures Inv(c, Mark(s, j))
  {
    hide JobsOk, KillsOk, EventsOk, BooksOk, MailboxOk, ActorsOk;
    var s' := Mark(s, j);
    MarkJobs(s, j);
    assert KillsOk(s', []) by { KillsFramed(s, s'); }
    assert MailboxOk(s') by { MailboxFramed(s, s'); }
    assert EventsOk(s') by { EventsFramed(s, s'); }
  }

  lemma MarkJobs(s: State, j: JobId)
    requires JobsOk(s) && j in s.jobs && Killable(s.jobs[j].state)
    ensures JobsOk(Mark(s, j))
  {
    forall x | x in s.jobs ensures JobOk(Mark(s, j), x) { assert JobOk(s, x); }
  }

  /** The jobs in toKill got marked, and no others. */
  ghost predicate MarkedFrom(s: State, s': State, toKill: seq<JobId>) {
    && s' == s.(jobs := s'.jobs) && s'.jobs.Keys == s.jobs.Keys && NoDup(toKill)
    && (forall j :: j in toKill ==> j in s.jobs && j !in s.books.deleted && !s.jobs[j].killRequested
                                    && s'.jobs[j].killRequested && Killable(s.jobs[j].state))
    && (forall j :: j in s.jobs ==> s'.jobs[j] == s.jobs[j] || j in toKill)
    && (forall j :: j in s.jobs ==> s'.jobs[j].state == s.jobs[j].state)
  }

  lemma MarkedOneMore(s: State, s1: State, toKill: seq<JobId>, j: JobId)
    requires MarkedFrom(s, s1, toKill) && j in s1.jobs && j !in s1.books.deleted && !s1.jobs[j].killRequested
    requires Killable(s1.jobs[j].state)
    ensures MarkedFrom(s, Mark(s1, j), toKill + [j])
  {
  }

  lemma {:induction false} MarkKillsInv(c: Config, s: State, js: seq<JobId>)
    requires Inv(c, s) && MarkKills(s, js).Marked?
    ensures Inv(c, MarkKills(s, js).state) && MarkedFrom(s, MarkKills(s, js).state, MarkKills(s, js).toKill)
    decreases |js|
  {
    if js == [] {
      MarkedNone(s);
    } else {
      hide Inv, MarkedFrom;
      var n := |js| - 1;
      MarkKillsInv(c, s, js[..n]);
      var s1, toKill := MarkKills(s, js[..n]).state, MarkKills(s, js[..n]).toKill;
      if !s1.jobs[js[n]].killRequested {
        MarkInv(c, s1, js[n]);
        MarkedOneMore(s, s1, toKill, js[n]);
      }
    }
  }

  lemma MarkedNone(s: State)
    ensures MarkedFrom(s, s, [])
  {
  }

  lemma SpawnKillerJob(s0: State, s: State, toKill: seq<JobId>, j: JobId)
    requires MarkedFrom(s0, s, toKill) && JobsOk(s0) && j in toKill
    ensures KillerJobOk(Spawn(s, toKill), s.crew.nextId, j)
  {
    assert JobOk(s0, j);
  }

  lemma SpawnApart(s0: State, s: State, toKill: seq<JobId>, k: nat, j: JobId)
    requires MarkedFrom(s0, s, toKill) && KillsOk(s0, []) && k in s.killers && j in s.killers[k].all
    ensures j !in toKill
  {
    assert KillerOk(s0, k);
    assert KillerJobOk(s0, k, j);
  }

  lemma SpawnKiller(s0: State, s: State, toKill: seq<JobId>)
    requires MarkedFrom(s0, s, toKill) && JobsOk(s0) && KillsOk(s0, []) && MailboxOk(s) && s.crew.nextId !in s.killers
    ensures KillerOk(Spawn(s, toKill), s.crew.nextId)
    ensures forall k, j :: k in s.killers && j in s.killers[k].all ==> j !in toKill
  {
    var k', s' := s.crew.nextId, Spawn(s, toKill);
    assert KillingDone(k') !in s.mailbox by { assert !MessageOk(s, KillingDone(k')); }
    assert NoDup(toKill);
    hide MarkedFrom, JobsOk, KillsOk, MailboxOk, KillerJobOk, NoDup;
    forall j | j in toKill ensures KillerJobOk(s', k', j) { SpawnKillerJob(s0, s, toKill, j); }
    forall k, j | k in s.killers && j in s.killers[k].all ensures j !in toKill { SpawnApart(s0, s, toKill, k, j); }
  }

  lemma SpawnOther(s: State, toKill: seq<JobId>, k: nat)
    requires k in s.killers && KillerOk(s, k) && s.crew.nextId !in s.killers
    ensures KillerOk(Spawn(s, toKill), k)
  {
    var s' := Spawn(s, toKill);
    forall j | j in s.killers[k].all ensures KillerJobOk(s', k, j) { assert KillerJobOk(s, k, j); }
  }

  lemma SpawnAnnounced(s: State, toKill: seq<JobId>, j: JobId)
    requires Announced(s, j) && s.crew.nextId !in s.killers
    ensures Announced(Spawn(s, toKill), j)
  {
    var k :| Handled(s, k, j);
    assert Handled(Spawn(s, toKill), k, j);
  }

  lemma SpawnKills(s: State, toKill: seq<JobId>)
    requires KillsOk(s, []) && s.crew.nextId !in s.killers && KillerOk(Spawn(s, toKill), s.crew.nextId)
    requires forall k, j :: k in s.killers && j in s.killers[k].all ==> j !in toKill
    ensures KillsOk(Spawn(s, toKill), [])
  {
    hide KillerOk, Announced;
    forall k | k in s.killers ensures KillerOk(Spawn(s, toKill), k) { SpawnOther(s, toKill, k); }
    forall j | Announced(s, j) ensures Announced(Spawn(s, toKill), j) { SpawnAnnounced(s, toKill, j); }
  }

  lemma SpawnJobs(s: State, toKill: seq<JobId>)
    requires JobsOk(s)
    ensures JobsOk(Spawn(s, toKill))
  {
    hide JobsOk;
    JobsFramed(s, Spawn(s, toKill));
  }

  lemma SpawnEvents(s: State, toKill: seq<JobId>)
    requires EventsOk(s) && KillsOk(s, []) && s.crew.nextId !in s.killers
    ensures EventsOk(Spawn(s, toKill))
  {
    hide EventsOk, KillsOk;
    EventsFramed(s, Spawn(s, toKill));
  }

  lemma SpawnActors(c: Config, s: State, toKill: seq<JobId>)
    requires ActorsOk(c, s.data, s.crew, s.killers.Keys)
    ensures s.crew.nextId !in s.killers
    ensures var s' := Spawn(s, toKill); ActorsOk(c, s'.data, s'.crew, s'.killers.Keys)
  {
    assert s.crew.nextId !in s.killers.Keys;
    assert Spawn(s, toKill).killers.Keys == s.killers.Keys + {s.crew.nextId};
  }

  lemma SpawnInv(c: Config, s0: State, s: State, toKill: seq<JobId>)
    requires Inv(c, s0) && Inv(c, s) && Busy(s) && MarkedFrom(s0, s, toKill) && toKill != []
    ensures Inv(c, Spawn(s, toKill))
  {
    hide JobsOk, KillsOk, EventsOk, BooksOk, MailboxOk, ActorsOk, KillerOk, MarkedFrom;
    var s' := Spawn(s, toKill);
    SpawnActors(c, s, toKill);
    SpawnKiller(s0, s, toKill);
    SpawnKills(s, toKill);
    SpawnJobs(s, toKill);
    SpawnEvents(s, toKill);
    assert MailboxOk(s') by { MailboxFramed(s, s'); }
    BooksFramed(s.data, s'.data, s.books);
  }

  lemma MarkedBusy(s: State, s': State, toKill: seq<JobId>)
    requires MarkedFrom(s, s', toKill) && Busy(s)
    ensures Busy(s') && s'.data == s.data
  {
  }

  lemma KillJobsInv(c: Config, s: State, js: seq<JobId>)
    requires Inv(c, s) && Busy(s)
    ensures match OnKillJobs(s, js)
            case Dies(reason) => reason == BadRequest
            case Next(s') => Inv(c, s') && s'.data.schedReady == s.data.schedReady
  {
    hide Inv, MarkKills, Busy, MarkedFrom, NoDup;
    if MarkKills(s, js).Marked? {
      MarkKillsInv(c, s, js);
      var s', toKill := MarkKills(s, js).state, MarkKills(s, js).toKill;
      MarkedBusy(s, s', toKill);
      if toKill != [] {
        SpawnInv(c, s, s', toKill);
        assert OnKillJobs(s, js) == Next(Spawn(s', toKill));
      } else {
        assert OnKillJobs(s, js) == Next(s');
      }
    }
  }
}
