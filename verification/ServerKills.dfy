/** The server's part in kills: it starts killers for jobs that none was started for, and reports the jobs
    that a killer has really killed. */
module ServerKills {
  import opened ServerSteps
  import opened ServerInvariant
  import opened ServerActors
  import opened ServerReports

  // ----- server_on_killing_done -----

  /** A job of a killer that is telling the server: to be reported if killed, else reported already. */
  ghost predicate Told(s: State, j: JobId) {
    && j in s.jobs && j !in s.books.deleted
    && (if s.jobs[j].state.Killed? then j !in s.books.written
        else EndedAlone(s.jobs[j].state) && j in s.books.written)
    && forall k :: k in s.killers ==> j !in s.killers[k].all
  }

  /** The invariant while the jobs in rest are still to be told about. */
  ghost predicate Telling(c: Config, s: State, rest: seq<JobId>) {
    && JobsOk(s) && KillsOk(s, rest) && MailboxOk(s) && EventsOk(s) && BooksOk(s.data, s.books)
    && ActorsOk(c, s.data.(nbKillers := s.data.nbKillers - 1), s.crew, s.killers.Keys)
    && NoDup(rest) && (forall j :: j in rest ==> Told(s, j))
    && Ends(s.talk.log) == (if s.data.endSent then 1 else 0)
    && (s.data.endSent ==> s.crew.requestedSinceEnd) && (s.data.endSent && !s.data.endAcked ==> s.crew.scheduler)
    && (s.data.endSent ==> forall m :: m in s.mailbox ==> !m.WaitingDone?)
  }

  /** KILLING_DONE of k is at the head of the mailbox. */
  function Dismiss(s: State, k: nat): State
    requires s.mailbox != []
  {
    Popped(s).(killers := s.killers - {k})
  }

  lemma DismissJobs(s: State, k: nat)
    requires JobsOk(s) && s.mailbox != [] && s.mailbox[0] == KillingDone(k) && OneEach(s.mailbox)
    ensures JobsOk(Dismiss(s, k))
  {
    PopMessages(s.mailbox);
    forall x | x in s.jobs ensures JobOk(Dismiss(s, k), x) { assert JobOk(s, x); }
  }

  lemma DismissKills(s: State, k: nat)
    requires KillsOk(s, []) && s.mailbox != [] && s.mailbox[0] == KillingDone(k) && OneEach(s.mailbox)
    requires k in s.killers && forall j :: j in s.killers[k].all ==> j !in s.cancelled
    ensures KillsOk(Dismiss(s, k), s.killers[k].all)
  {
    PopMessages(s.mailbox);
    var s' := Dismiss(s, k);
    forall k' | k' in s'.killers ensures KillerOk(s', k') {
      assert KillerOk(s, k');
      forall x | x in s'.killers[k'].all ensures KillerJobOk(s', k', x) { assert KillerJobOk(s, k', x); }
    }
    forall x | Announced(s, x) && x !in s.killers[k].all ensures Announced(s', x) {
      var k' :| Handled(s, k', x);
      assert Handled(s', k', x);
    }
  }

  lemma DismissMailbox(s: State, k: nat)
    requires MailboxOk(s) && s.mailbox != [] && s.mailbox[0] == KillingDone(k)
    ensures MailboxOk(Dismiss(s, k))
  {
    PopMailbox(s);
    forall m | m in s.mailbox[1..] ensures MessageOk(Dismiss(s, k), m) { assert MessageOk(Popped(s), m); }
  }

  lemma DismissEvents(s: State, k: nat)
    requires EventsOk(s) && s.mailbox != [] && s.mailbox[0] == KillingDone(k)
    ensures EventsOk(Dismiss(s, k))
  {
    var s' := Dismiss(s, k);
    forall k' | k' in s'.killers && s'.killers[k'].posted ensures InOrder(s', k') {
      assert InOrder(s, k');
      forall x | Ahead(s.mailbox, JobCompleted(x), KillingDone(k'))
        ensures Ahead(s'.mailbox, JobCompleted(x), KillingDone(k'))
      {
        PopAhead(s.mailbox, JobCompleted(x), KillingDone(k'));
      }
    }
  }

  lemma DismissTold(s: State, k: nat, j: JobId)
    requires KillsOk(s, []) && EventsOk(s) && s.mailbox != [] && s.mailbox[0] == KillingDone(k) && OneEach(s.mailbox)
    requires k in s.killers && j in s.killers[k].all && j !in s.cancelled
    ensures Told(Dismiss(s, k), j)
  {
    assert KillerOk(s, k) && KillerJobOk(s, k, j);
    assert s.killers[k].posted;
    assert InOrder(s, k);
    if EndedAlone(s.jobs[j].state) && j !in s.books.written {
      NothingAheadOfFirst(s.mailbox, JobCompleted(j));
      assert false;
    }
  }

  lemma DismissTelling(c: Config, s: State, k: nat)
    requires Inv(c, s) && s.mailbox != [] && s.mailbox[0] == KillingDone(k)
    requires k in s.killers && forall j :: j in s.killers[k].all ==> j !in s.cancelled
    ensures Telling(c, Dismiss(s, k), s.killers[k].all)
  {
    hide JobsOk, KillsOk, EventsOk, BooksOk, MailboxOk, ActorsOk, OneEach, NoDup, Told, Known;
    HeadOk(s);
    EachKilledOnce(s, k);
    DismissJobs(s, k);
    DismissKills(s, k);
    DismissMailbox(s, k);
    DismissEvents(s, k);
    forall j | j in s.killers[k].all ensures Told(Dismiss(s, k), j) { DismissTold(s, k, j); }
    DismissActors(c, s, k);
  }

  lemma DismissActors(c: Config, s: State, k: nat)
    requires ActorsOk(c, s.data, s.crew, s.killers.Keys) && s.mailbox != [] && k in s.killers
    ensures var s' := Dismiss(s, k);
            ActorsOk(c, s'.data.(nbKillers := s'.data.nbKillers - 1), s'.crew, s'.killers.Keys)
  {
    assert Dismiss(s, k).killers.Keys == s.killers.Keys - {k};
  }

  lemma EachKilledOnce(s: State, k: nat)
    requires KillsOk(s, []) && k in s.killers
    ensures NoDup(s.killers[k].all)
  {
    assert KillerOk(s, k);
  }

  lemma ReportedJobs(s: State, j: JobId)
    requires JobsOk(s) && j in s.jobs && s.jobs[j].state.Killed? && j !in s.books.written
    ensures JobsOk(Reported(s, j)) && j in s.books.started
  {
    var s' := Reported(s, j);
    assert JobOk(s, j);
    SetOfMore(s.books.written, j);
    forall x | x in s'.jobs ensures JobOk(s', x) { assert JobOk(s, x); }
  }

  lemma ReportedKills(s: State, js: seq<JobId>)
    requires js != [] && KillsOk(s, js) && Told(s, js[0]) && s.jobs[js[0]].state.Killed?
    ensures KillsOk(Reported(s, js[0]), js[1..])
  {
    var s' := Reported(s, js[0]);
    assert js == [js[0]] + js[1..];
    forall k | k in s'.killers ensures KillerOk(s', k) {
      assert KillerOk(s, k);
      forall x | x in s'.killers[k].all ensures KillerJobOk(s', k, x) { assert KillerJobOk(s, k, x); }
    }
    forall x | Announced(s, x) ensures Announced(s', x) {
      var k :| Handled(s, k, x);
      assert Handled(s', k, x);
    }
  }

  lemma ReportedEvents(s: State, j: JobId)
    requires EventsOk(s) && j in s.jobs && s.jobs[j].state.Killed? && j !in s.books.written
    ensures EventsOk(Reported(s, j))
  {
    var s' := Reported(s, j);
    forall k | k in s'.killers && s'.killers[k].posted ensures InOrder(s', k) { assert InOrder(s, k); }
    hide InOrder, LogOk, Flatten;
    EventsReported(s, s', j);
  }

  lemma RestTold(s: State, js: seq<JobId>)
    requires js != [] && NoDup(js) && (forall j :: j in js ==> Told(s, j)) && js[0] in s.jobs
    ensures NoDup(js[1..]) && forall x :: x in js[1..] ==> Told(s, x) && Told(Reported(s, js[0]), x)
  {
    forall x | x in js[1..] ensures Told(s, x) && Told(Reported(s, js[0]), x) {
      assert x in js && x != js[0];
      assert Told(s, x);
    }
  }

  lemma ReportedNumbers(c: Config, s: State, j: JobId)
    requires j in s.jobs && s.jobs[j].state.Killed? && j in s.books.started && j !in s.books.written
    requires BooksOk(s.data, s.books) && ActorsOk(c, s.data.(nbKillers := s.data.nbKillers - 1), s.crew, s.killers.Keys)
    ensures Report(s, j) == Next(Reported(s, j))
    ensures var s' := Reported(s, j);
            && BooksOk(s'.data, s'.books) && Ends(s'.talk.log) == Ends(s.talk.log)
            && ActorsOk(c, s'.data.(nbKillers := s'.data.nbKillers - 1), s'.crew, s'.killers.Keys)
  {
    hide BooksOk, ActorsOk;
    var s' := Reported(s, j);
    BooksReport(s.data, s.books, j);
    ReportIs(s, j);
    EndsMore(s.talk.log, CompletedEvent(j, s.jobs[j].state));
    ActorsFramed(c, s.data.(nbKillers := s.data.nbKillers - 1), s'.data.(nbKillers := s'.data.nbKillers - 1), s.crew,
                 s.killers.Keys);
  }

  lemma ReportedMailbox(s: State, j: JobId)
    requires MailboxOk(s) && j in s.jobs
    ensures MailboxOk(Reported(s, j))
  {
    hide MailboxOk;
    MailboxFramed(s, Reported(s, j));
  }

  /** One job that was really killed. */
  lemma ReportedTelling(c: Config, s: State, js: seq<JobId>)
    requires js != [] && Telling(c, s, js) && js[0] in s.jobs && s.jobs[js[0]].state.Killed?
    ensures Report(s, js[0]) == Next(Reported(s, js[0])) && Telling(c, Reported(s, js[0]), js[1..])
  {
    hide JobsOk, KillsOk, EventsOk, BooksOk, MailboxOk, ActorsOk, NoDup, Told, Report, Ends;
    assert js[0] in js;
    ToldKilled(s, js[0]);
    RestTold(s, js);
    ReportedJobs(s, js[0]);
    ReportedKills(s, js);
    ReportedEvents(s, js[0]);
    ReportedMailbox(s, js[0]);
    ReportedNumbers(c, s, js[0]);
  }

  lemma ReportIs(s: State, j: JobId)
    requires j in s.jobs && IsComplete(s.jobs[j].state)
    requires s.data.nbRunning >= 1 && s.data.nbCompleted + s.data.nbRunning <= s.data.nbSubmitted
    ensures Report(s, j) == Next(Reported(s, j))
  {
  }

  lemma ToldKilled(s: State, j: JobId)
    requires Told(s, j) && j in s.jobs && s.jobs[j].state.Killed?
    ensures j !in s.books.written
  {
  }

  /** One job that had ended alone. */
  lemma SkippedTelling(c: Config, s: State, js: seq<JobId>)
    requires js != [] && Telling(c, s, js) && js[0] in s.jobs && !s.jobs[js[0]].state.Killed?
    ensures Telling(c, s, js[1..])
  {
    hide JobsOk, EventsOk, BooksOk, MailboxOk, ActorsOk, KillsOk, NoDup, Told;
    RestTold(s, js);
    SkippedKills(s, js);
  }

  lemma SkippedKills(s: State, js: seq<JobId>)
    requires js != [] && KillsOk(s, js) && js[0] in s.jobs && !s.jobs[js[0]].state.Killed?
    ensures KillsOk(s, js[1..])
  {
    assert js == [js[0]] + js[1..];
  }

  ghost predicate Continues(s: State, s': State) {
    && s'.jobs == s.jobs && s'.killers == s.killers && s'.mailbox == s.mailbox && s'.crew == s.crew
    && s'.data.endSent == s.data.endSent && s'.data.schedReady == s.data.schedReady
    && SetOf(s.books.written) <= SetOf(s'.books.written)
  }

  lemma ContinuesOn(s: State, s1: State, s2: State, j: JobId)
    requires Continues(s, s1) && Continues(s1, s2) && j in s1.books.written
    ensures Continues(s, s2) && j in s2.books.written
  {
    InSetOf(s1.books.written, j);
    InSetOf(s2.books.written, j);
  }

  lemma ReportedContinues(s: State, j: JobId)
    requires j in s.jobs
    ensures Continues(s, Reported(s, j)) && j in Reported(s, j).books.written
  {
    SetOfMore(s.books.written, j);
  }

  lemma HeadTold(c: Config, s: State, js: seq<JobId>)
    requires Telling(c, s, js) && js != []
    ensures js[0] in s.jobs && js[0] !in s.books.deleted
    ensures !s.jobs[js[0]].state.Killed? ==> js[0] in s.books.written
  {
    assert Told(s, js[0]);
  }

  /** All of js get told about. */
  ghost predicate TellsAll(c: Config, s: State, js: seq<JobId>) {
    && (forall j :: j in js ==> j in s.jobs) && ReportKilled(s, js).Next?
    && var s' := ReportKilled(s, js).state;
       Telling(c, s', []) && Continues(s, s') && forall j :: j in js ==> j in s'.books.written
  }

  lemma TellsNone(c: Config, s: State)
    requires Telling(c, s, [])
    ensures TellsAll(c, s, [])
  {
  }

  lemma TellsOneMore(c: Config, s: State, js: seq<JobId>)
    requires js != [] && js[0] in s.jobs && js[0] !in s.books.deleted && s.jobs[js[0]].state.Killed?
    requires Report(s, js[0]) == Next(Reported(s, js[0])) && TellsAll(c, Reported(s, js[0]), js[1..])
    ensures TellsAll(c, s, js)
  {
    hide Telling, Continues, Report, Reported;
    var s1 := Reported(s, js[0]);
    ReportedContinues(s, js[0]);
    ContinuesJobs(s, s1);
    assert js == [js[0]] + js[1..];
    ContinuesOn(s, s1, ReportKilled(s1, js[1..]).state, js[0]);
  }

  lemma TellsOneLess(c: Config, s: State, js: seq<JobId>)
    requires js != [] && js[0] in s.jobs && js[0] !in s.books.deleted && !s.jobs[js[0]].state.Killed?
    requires js[0] in s.books.written && TellsAll(c, s, js[1..])
    ensures TellsAll(c, s, js)
  {
    hide Telling, Continues, Report, Reported;
    ContinuesSame(s);
    assert js == [js[0]] + js[1..];
    ContinuesOn(s, s, ReportKilled(s, js[1..]).state, js[0]);
  }

  lemma {:induction false} KilledReported(c: Config, s: State, js: seq<JobId>)
    requires Telling(c, s, js)
    ensures TellsAll(c, s, js)
    decreases |js|
  {
    hide *;
    if js == [] {
      TellsNone(c, s);
    } else {
      HeadTold(c, s, js);
      if s.jobs[js[0]].state.Killed? {
        ReportedTelling(c, s, js);
        KilledReported(c, Reported(s, js[0]), js[1..]);
        TellsOneMore(c, s, js);
      } else {
        SkippedTelling(c, s, js);
        KilledReported(c, s, js[1..]);
        TellsOneLess(c, s, js);
      }
    }
  }

  lemma ContinuesJobs(s: State, s': State)
    requires Continues(s, s')
    ensures s'.jobs == s.jobs
  {
  }

  lemma ContinuesSame(s: State)
    ensures Continues(s, s)
  {
  }

  lemma KillingDoneInv(c: Config, s: State, k: nat)
    requires Inv(c, s) && s.mailbox != [] && s.mailbox[0] == KillingDone(k)
    requires k in s.killers && forall j :: j in s.killers[k].all ==> j !in s.cancelled && j in s.jobs
    ensures OnKillingDone(Popped(s), k).Next?
    ensures var s' := OnKillingDone(Popped(s), k).state;
            Inv(c, s') && s'.mailbox == s.mailbox[1..] && s'.killers == s.killers - {k} && s'.crew == s.crew
  {
    var s1, js := Dismiss(s, k), s.killers[k].all;
    DismissTelling(c, s, k);
    KilledReported(c, s1, js);
    var s2 := ReportKilled(s1, js).state;
    assert forall j :: j in js ==> CompletedBefore(s2.talk.log, |s2.talk.log|, j) by {
      forall j | j in js ensures j in s2.jobs && !s2.jobs[j].state.Rejected? { ToldNotRejected(s, k, j); }
    }
    KillingAcknowledged(c, s2, js);
  }

  lemma ToldNotRejected(s: State, k: nat, j: JobId)
    requires KillsOk(s, []) && EventsOk(s) && s.mailbox != [] && s.mailbox[0] == KillingDone(k) && OneEach(s.mailbox)
    requires k in s.killers && j in s.killers[k].all && j !in s.cancelled
    ensures j in s.jobs && !s.jobs[j].state.Rejected?
  {
    DismissTold(s, k, j);
  }

  lemma KillingAcknowledged(c: Config, s: State, js: seq<JobId>)
    requires Telling(c, s, []) && forall j :: j in js ==> CompletedBefore(s.talk.log, |s.talk.log|, j)
    ensures Inv(c, Emit(s, KilledEvent(js)).(data := s.data.(nbKillers := s.data.nbKillers - 1)))
  {
    hide JobsOk, KillsOk, EventsOk, BooksOk, MailboxOk, ActorsOk;
    var s' := Emit(s, KilledEvent(js)).(data := s.data.(nbKillers := s.data.nbKillers - 1));
    assert JobsOk(s') by { JobsFramed(s, s'); }
    assert KillsOk(s', []) by { KillsFramed(s, s'); }
    assert MailboxOk(s') by { MailboxFramed(s, s'); }
    assert EventsOk(s') by { AcknowledgedEvents(s, s', js); }
    assert BooksOk(s'.data, s'.books) by { BooksFramed(s.data, s'.data, s.books); }
    EndsMore(s.talk.log, KilledEvent(js));
  }

  lemma AcknowledgedEvents(s: State, s': State, js: seq<JobId>)
    requires EventsOk(s) && forall j :: j in js ==> CompletedBefore(s.talk.log, |s.talk.log|, j)
    requires s' == Emit(s, KilledEvent(js)).(data := s'.data)
    ensures EventsOk(s')
  {
    EmitEvents(s, KilledEvent(js));
    var s1 := Emit(s, KilledEvent(js));
    forall k | k in s'.killers && s'.killers[k].posted ensures InOrder(s', k) { SameOrder(s1, s', k); }
  }

  lemma BooksFramed(d: Data, d': Data, b: Books)
    requires BooksOk(d, b)
    requires d'.nbSubmitted == d.nbSubmitted && d'.nbCompleted == d.nbCompleted && d'.nbRunning == d.nbRunning
    ensures BooksOk(d', b)
  {
  }
}
