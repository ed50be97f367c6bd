/** Reporting finished jobs: the server's books, counters and events when a job completes or a killing is done. */
module ServerReports {
  import opened ServerSteps
  import opened ServerInvariant
  import opened ServerActors

  // ----- taking a message -----

  function Popped(s: State): State
    requires s.mailbox != []
  {
    s.(mailbox := s.mailbox[1..])
  }

  lemma PopMessages(mailbox: seq<Message>)
    requires mailbox != [] && OneEach(mailbox)
    ensures OneEach(mailbox[1..]) && forall m :: m in mailbox[1..] ==> !SameSender(mailbox[0], m) && m != mailbox[0]
    ensures forall m :: m in mailbox <==> m == mailbox[0] || m in mailbox[1..]
  {
    assert mailbox == [mailbox[0]] + mailbox[1..];
    forall a, b | 0 <= a < b < |mailbox[1..]| ensures !SameSender(mailbox[1..][a], mailbox[1..][b]) {
      assert mailbox[1..][a] == mailbox[a + 1] && mailbox[1..][b] == mailbox[b + 1];
    }
  }

  lemma PopAhead(mailbox: seq<Message>, m: Message, m': Message)
    requires mailbox != [] && Ahead(mailbox, m, m') && m != mailbox[0]
    ensures Ahead(mailbox[1..], m, m')
  {
    var a, b :| 0 <= a < b < |mailbox| && mailbox[a] == m && mailbox[b] == m';
    assert mailbox[1..][a - 1] == m && mailbox[1..][b - 1] == m';
  }

  lemma NothingAheadOfFirst(mailbox: seq<Message>, m: Message)
    requires mailbox != [] && OneEach(mailbox)
    ensures !Ahead(mailbox, m, mailbox[0])
  {
  }

  // ----- the books -----

  lemma BooksReport(d: Data, b: Books, j: JobId)
    requires BooksOk(d, b) && j in b.started && j !in b.written
    ensures d.nbRunning >= 1 && d.nbCompleted + d.nbRunning <= d.nbSubmitted
    ensures BooksOk(d.(nbRunning := d.nbRunning - 1, nbCompleted := d.nbCompleted + 1), Write(b, j))
  {
    hide NoDup, SetOf;
    var w := SetOf(b.written);
    SetOfMore(b.written, j);
    SizeOfSet(b.written);
    InSetOf(b.written, j);
    Sizes(b.counted, b.started, w, j);
    WriteKeeps(b, j);
  }

  lemma InSetOf(js: seq<JobId>, j: JobId)
    ensures j in SetOf(js) <==> j in js
  {
  }

  lemma Sizes(counted: set<JobId>, started: set<JobId>, written: set<JobId>, j: JobId)
    requires started + written <= counted && j in started && j !in written
    ensures |started - written| >= 1 && |written| + |started - written| <= |counted|
    ensures |started - (written + {j})| == |started - written| - 1 && started + (written + {j}) <= counted
  {
    var running := started - written;
    assert started - (written + {j}) == running - {j};
    assert written !! running;
    SizeOfPart(written + running, counted);
  }

  lemma SizeOfPart(a: set<JobId>, b: set<JobId>)
    requires a <= b
    ensures |a| <= |b|
  {
    assert b == a + (b - a);
  }

  lemma BooksReject(d: Data, b: Books, j: JobId)
    requires BooksOk(d, b) && j in b.counted && j !in b.started && j !in b.written
    ensures BooksOk(d.(nbCompleted := d.nbCompleted + 1), Write(b, j))
  {
    var before, after := SetOf(b.written), SetOf(b.written + [j]);
    SetOfMore(b.written, j);
    assert b.started - after == b.started - before;
    WriteKeeps(b, j);
  }

  lemma WriteKeeps(b: Books, j: JobId)
    requires NoDup(b.written) && j !in b.written && b.queued == b.written && |b.toDelete| <= |b.written|
    requires b.written == b.written[..|b.written| - |b.toDelete|] + b.toDelete
    requires b.deleted == SetOf(b.written[..|b.written| - |b.toDelete|])
    ensures var b' := Write(b, j);
            && NoDup(b'.written) && b'.queued == b'.written && |b'.toDelete| <= |b'.written|
            && b'.written == b'.written[..|b'.written| - |b'.toDelete|] + b'.toDelete
            && b'.deleted == SetOf(b'.written[..|b'.written| - |b'.toDelete|])
  {
    var b', n := Write(b, j), |b.written| - |b.toDelete|;
    assert b'.written[..n] == b.written[..n];
    assert b'.written == b.written[..n] + (b.toDelete + [j]);
  }

  lemma BooksStart(d: Data, b: Books, j: JobId)
    requires BooksOk(d, b) && j in b.counted && j !in b.started && j !in b.written
    ensures d.nbRunning + 1 <= d.nbSubmitted
    ensures BooksOk(d.(nbRunning := d.nbRunning + 1), b.(started := b.started + {j}))
  {
    var w := SetOf(b.written);
    assert (b.started + {j}) - w == (b.started - w) + {j};
    SizeOfPart((b.started + {j}) - w, b.counted);
  }

  lemma BooksCount(d: Data, b: Books, j: JobId)
    requires BooksOk(d, b) && j !in b.counted
    ensures BooksOk(d.(nbSubmitted := d.nbSubmitted + 1), b.(counted := b.counted + {j}))
  {
  }

  // ----- the events -----

  lemma CompletedMore(log: seq<Event>, e: Event, j: JobId)
    ensures CompletedBefore(log + [e], |log| + 1, j)
       <==> CompletedBefore(log, |log|, j) || (e.CompletedEvent? && e.job == j)
  {
    if CompletedBefore(log, |log|, j) {
      var i: nat :| i < |log| && CompletedAt(log, i, j);
      assert CompletedAt(log + [e], i, j);
    }
    if e.CompletedEvent? && e.job == j {
      assert CompletedAt(log + [e], |log|, j);
    }
    if CompletedBefore(log + [e], |log| + 1, j) {
      var i: nat :| i < |log| + 1 && CompletedAt(log + [e], i, j);
      assert i < |log| ==> CompletedAt(log, i, j);
    }
  }

  lemma LogMore(log: seq<Event>, e: Event)
    requires LogOk(log)
    requires e.CompletedEvent? ==> !CompletedBefore(log, |log|, e.job)
    requires e.KilledEvent? ==> forall j :: j in e.jobs ==> CompletedBefore(log, |log|, j)
    ensures LogOk(log + [e])
  {
    var log' := log + [e];
    forall i: nat, i': nat, j | i < i' && CompletedAt(log', i, j) ensures !CompletedAt(log', i', j) {
      if i < |log| {
        assert CompletedAt(log, i, j);
        assert i' < |log| ==> (CompletedAt(log', i', j) <==> CompletedAt(log, i', j));
      }
    }
    forall i, j | 0 <= i < |log'| && log'[i].KilledEvent? && j in log'[i].jobs ensures CompletedBefore(log', i, j) {
      assert CompletedBefore(log, i, j);
      var x: nat :| x < i && CompletedAt(log, x, j);
      assert CompletedAt(log', x, j);
    }
  }

  lemma EndsMore(log: seq<Event>, e: Event)
    ensures Ends(log + [e]) == Ends(log) + if e == SimulationEnds then 1 else 0
  {
    assert (log + [e])[..|log|] == log;
  }

  /** The history after one more event. */
  function Said(t: Talk, e: Event): Talk {
    t.(outgoing := t.outgoing + [e], log := t.log + [e])
  }

  lemma SaidMore(t: Talk, e: Event)
    requires t.log == Flatten(t.calls) + t.outgoing
    ensures Said(t, e).log == Flatten(t.calls) + Said(t, e).outgoing
  {
  }

  /** An event that is no completion changes nothing for the jobs. */
  lemma EmitEvents(s: State, e: Event)
    requires EventsOk(s) && !e.CompletedEvent?
    requires e.KilledEvent? ==> forall j :: j in e.jobs ==> CompletedBefore(s.talk.log, |s.talk.log|, j)
    ensures EventsOk(Emit(s, e))
  {
    hide LogOk, CompletedBefore, InOrder;
    LogMore(s.talk.log, e);
    SaidMore(s.talk, e);
    forall j
      ensures CompletedBefore(s.talk.log + [e], |s.talk.log| + 1, j) <==> CompletedBefore(s.talk.log, |s.talk.log|, j)
    {
      CompletedMore(s.talk.log, e, j);
    }
    forall k | k in s.killers && s.killers[k].posted ensures InOrder(Emit(s, e), k) { SameOrder(s, Emit(s, e), k); }
  }

  lemma SameOrder(s: State, s': State, k: nat)
    requires k in s.killers && InOrder(s, k)
    requires s'.killers == s.killers && s'.jobs == s.jobs && s'.mailbox == s.mailbox
             && s'.books.written == s.books.written
    ensures InOrder(s', k)
  {
  }

  lemma PopMailbox(s: State)
    requires MailboxOk(s) && s.mailbox != []
    ensures MailboxOk(Popped(s)) && MessageOk(Popped(s), s.mailbox[0])
    ensures forall m :: m in s.mailbox[1..] ==> !SameSender(s.mailbox[0], m)
  {
    PopMessages(s.mailbox);
    forall m | m in s.mailbox ensures MessageOk(Popped(s), m) { assert MessageOk(s, m); }
  }

  // ----- a completed job -----

  function Reported(s: State, j: JobId): State
    requires j in s.jobs
  {
    Emit(s, CompletedEvent(j, s.jobs[j].state)).(
      data := s.data.(nbRunning := s.data.nbRunning - 1, nbCompleted := s.data.nbCompleted + 1),
      books := Write(s.books, j))
  }

  lemma EventsReported(s: State, s': State, j: JobId)
    requires EventsOk(s) && j in s.jobs && j !in s.books.written && !s.jobs[j].state.Rejected?
    requires s'.talk == Said(s.talk, CompletedEvent(j, s.jobs[j].state)) && s'.jobs == s.jobs
    requires s'.books.written == s.books.written + [j]
    requires forall k :: k in s'.killers && s'.killers[k].posted ==> InOrder(s', k)
    ensures EventsOk(s')
  {
    hide LogOk, CompletedBefore, InOrder;
    var e := CompletedEvent(j, s.jobs[j].state);
    LogMore(s.talk.log, e);
    SaidMore(s.talk, e);
    forall x
      ensures CompletedBefore(s'.talk.log, |s'.talk.log|, x) <==>
              x in s'.jobs && x in s'.books.written && !s'.jobs[x].state.Rejected?
    {
      CompletedMore(s.talk.log, e, x);
    }
  }

  /** JOB_COMPLETED of j is at the head of the mailbox. */
  function JobDone(s: State, j: JobId): State
    requires s.mailbox != [] && j in s.jobs
  {
    Reported(Popped(s).(executing := s.executing - {j}), j)
  }

  lemma JobDoneJob(s: State, j: JobId, x: JobId)
    requires s.mailbox != [] && s.mailbox[0] == JobCompleted(j) && j in s.jobs && x in s.jobs && JobOk(s, x)
    requires forall m :: m in s.mailbox <==> m == s.mailbox[0] || m in s.mailbox[1..]
    requires s.mailbox[0] !in s.mailbox[1..]
    ensures JobOk(JobDone(s, j), x)
  {
  }

  lemma JobDoneJobs(s: State, j: JobId)
    requires JobsOk(s) && s.mailbox != [] && s.mailbox[0] == JobCompleted(j) && OneEach(s.mailbox) && j in s.jobs
    ensures JobsOk(JobDone(s, j)) && EndedAlone(s.jobs[j].state) && j !in s.books.written && j in s.books.started
  {
    PopMessages(s.mailbox);
    assert JobOk(s, j);
    hide JobOk, OneEach, SetOf;
    SetOfMore(s.books.written, j);
    forall x | x in s.jobs ensures JobOk(JobDone(s, j), x) { JobDoneJob(s, j, x); }
  }

  lemma JobDoneOrder(s: State, j: JobId, k: nat)
    requires s.mailbox != [] && s.mailbox[0] == JobCompleted(j) && j in s.jobs && k in s.killers && InOrder(s, k)
    ensures InOrder(JobDone(s, j), k)
  {
    var s' := JobDone(s, j);
    forall x | x in s.killers[k].all && x in s'.jobs && EndedAlone(s'.jobs[x].state) && x !in s'.books.written
      ensures Ahead(s'.mailbox, JobCompleted(x), KillingDone(k))
    {
      PopAhead(s.mailbox, JobCompleted(x), KillingDone(k));
    }
  }

  lemma JobDoneEvents(s: State, j: JobId)
    requires EventsOk(s) && s.mailbox != [] && s.mailbox[0] == JobCompleted(j) && j in s.jobs
    requires EndedAlone(s.jobs[j].state) && j !in s.books.written
    ensures EventsOk(JobDone(s, j))
  {
    var s' := JobDone(s, j);
    forall k | k in s'.killers && s'.killers[k].posted ensures InOrder(s', k) { JobDoneOrder(s, j, k); }
    hide InOrder, LogOk, Flatten;
    EventsReported(s, s', j);
  }

  lemma JobDoneInv(c: Config, s: State, j: JobId)
    requires Inv(c, s) && s.mailbox != [] && s.mailbox[0] == JobCompleted(j)
    ensures j in s.jobs && OnJobCompleted(Popped(s), j) == Next(JobDone(s, j)) && Inv(c, JobDone(s, j))
  {
    hide JobsOk, KillsOk, EventsOk, ActorsOk, BooksOk, MailboxOk, OneEach, EndOk;
    assert OneEach(s.mailbox) && MessageOk(s, s.mailbox[0]) by { HeadOk(s); }
    var s' := JobDone(s, j);
    JobDoneJobs(s, j);
    BooksReport(s.data, s.books, j);
    assert EventsOk(s') by { JobDoneEvents(s, j); }
    assert KillsOk(s', []) by {
      PopMessages(s.mailbox);
      KillsFramed(s, s');
    }
    assert MailboxOk(s') by {
      PopMailbox(s);
      MailboxFramed(Popped(s), s');
    }
    assert ActorsOk(c, s'.data, s'.crew, s'.killers.Keys) by {
      ActorsFramed(c, s.data, s'.data, s.crew, s.killers.Keys);
    }
    assert EndOk(s') by {
      EndsMore(s.talk.log, CompletedEvent(j, s.jobs[j].state));
      BusyWith(s);
      EndFramed(s, s') by { PopMessages(s.mailbox); }
    }
  }

  lemma EndFramed(s: State, s': State)
    requires EndOk(s) && Ends(s'.talk.log) == Ends(s.talk.log)
    requires s.data.endSent ==> s.crew.requestedSinceEnd
    requires s'.data.endSent == s.data.endSent && s'.data.endAcked == s.data.endAcked && s'.crew == s.crew
    requires forall m :: m in s'.mailbox ==> m in s.mailbox
    ensures EndOk(s')
  {
  }

  lemma BusyWith(s: State)
    requires EndOk(s) && s.mailbox != [] && s.mailbox[0] != SchedReady
    ensures s.data.endSent ==> s.crew.requestedSinceEnd
  {
    assert s.mailbox[0] in s.mailbox;
  }

  lemma HeadOk(s: State)
    requires MailboxOk(s) && s.mailbox != []
    ensures OneEach(s.mailbox) && MessageOk(s, s.mailbox[0])
  {
  }

  lemma ActorsFramed(c: Config, d: Data, d': Data, w: Crew, killers: set<nat>)
    requires ActorsOk(c, d, w, killers)
    requires d'.nbKillers == d.nbKillers && d'.nbSwitching == d.nbSwitching && d'.nbWaiters == d.nbWaiters
    requires d'.finishedSubmitters == d.finishedSubmitters && d'.finishedEventSubmitters == d.finishedEventSubmitters
    requires d'.schedReady == d.schedReady && d'.endSent == d.endSent && d'.endAcked == d.endAcked
    ensures ActorsOk(c, d', w, killers)
  {
  }
}
