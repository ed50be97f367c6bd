/** The steps of the actors keep the invariant. */
module ServerActors {
  import opened ServerSteps
  import opened ServerInvariant

  lemma InitInv(c: Config, s: State)
    requires Init(c, s)
    ensures Inv(c, s)
  {
    InitBooks(s.data, s.books);
    InitTalk(s);
    InitJobs(s);
    hide JobsOk, KillsOk, MailboxOk, EventsOk, BooksOk, Ends;
    assert s.killers.Keys == {};
  }

  lemma InitJobs(s: State)
    requires s.executing == {} && s.cancelled == {} && s.killers == map[] && s.mailbox == []
    requires s.books == Books([], {}, {}, {}, [], [])
    requires forall j :: j in s.jobs ==> s.jobs[j] == Job(NotSubmitted, false)
    ensures JobsOk(s) && KillsOk(s, []) && MailboxOk(s)
  {
    forall j | j in s.jobs ensures JobOk(s, j) {}
  }

  lemma InitTalk(s: State)
    requires s.talk == Talk([], [[SimulationBegins]], [SimulationBegins]) && s.killers == map[] && s.books.written == []
    ensures EventsOk(s) && Ends(s.talk.log) == 0
  {
    InitLog();
    hide LogOk, CompletedBefore;
    assert s.talk.calls[..0] == [] && s.talk.log[..0] == [] && s.talk.log[0] == SimulationBegins;
    assert Flatten(s.talk.calls) == s.talk.log;
  }

  lemma InitLog()
    ensures LogOk([SimulationBegins]) && forall j :: !CompletedBefore([SimulationBegins], 1, j)
  {
    forall i: nat, j ensures !CompletedAt([SimulationBegins], i, j) {}
  }

  lemma InitBooks(d: Data, b: Books)
    requires d.nbSubmitted == d.nbCompleted == d.nbRunning == 0 && b == Books([], {}, {}, {}, [], [])
    ensures BooksOk(d, b)
  {
    assert SetOf(b.written) == {} && b.started - SetOf(b.written) == {};
    assert b.written == b.written[..0];
  }

  // ----- posting -----

  lemma AheadMore(mailbox: seq<Message>, n: Message, m: Message, m': Message)
    requires Ahead(mailbox, m, m')
    ensures Ahead(mailbox + [n], m, m')
  {
    var a, b :| 0 <= a < b < |mailbox| && mailbox[a] == m && mailbox[b] == m';
    assert (mailbox + [n])[a] == m && (mailbox + [n])[b] == m';
  }

  lemma OneMore(mailbox: seq<Message>, n: Message)
    requires OneEach(mailbox) && forall m :: m in mailbox ==> !SameSender(m, n)
    ensures OneEach(mailbox + [n])
  {
    forall a, b | 0 <= a < b < |mailbox + [n]| ensures !SameSender((mailbox + [n])[a], (mailbox + [n])[b]) {
      assert (mailbox + [n])[a] in mailbox;
    }
  }

  predicate Plain(m: Message) {
    !m.JobCompleted? && !m.KillingDone? && !m.JobRegistered?
  }

  lemma PostJobs(s: State, n: Message)
    requires JobsOk(s) && Plain(n)
    ensures JobsOk(Post(s, n))
  {
    forall j | j in s.jobs ensures JobOk(Post(s, n), j) { assert JobOk(s, j); }
  }

  lemma PostKills(s: State, n: Message)
    requires KillsOk(s, []) && Plain(n)
    ensures KillsOk(Post(s, n), [])
  {
    var s' := Post(s, n);
    forall k | k in s.killers ensures KillerOk(s', k) {
      assert KillerOk(s, k);
      forall j | j in s.killers[k].all ensures KillerJobOk(s', k, j) { assert KillerJobOk(s, k, j); }
    }
    forall j | Announced(s, j) ensures Announced(s', j) {
      var k :| Handled(s, k, j);
      assert Handled(s', k, j);
    }
  }

  lemma PostMailbox(s: State, n: Message)
    requires MailboxOk(s) && MessageOk(s, n) && forall m :: m in s.mailbox ==> !SameSender(m, n)
    ensures MailboxOk(Post(s, n))
  {
    OneMore(s.mailbox, n);
    forall m | m in Post(s, n).mailbox ensures MessageOk(Post(s, n), m) { assert MessageOk(s, m); }
  }

  lemma PostEvents(s: State, n: Message)
    requires EventsOk(s)
    ensures EventsOk(Post(s, n))
  {
    forall k | k in s.killers && s.killers[k].posted ensures InOrder(Post(s, n), k) {
      assert InOrder(s, k);
      forall j | Ahead(s.mailbox, JobCompleted(j), KillingDone(k))
        ensures Ahead(Post(s, n).mailbox, JobCompleted(j), KillingDone(k))
      {
        AheadMore(s.mailbox, n, JobCompleted(j), KillingDone(k));
      }
    }
  }

  lemma PostsPlain(c: Config, s: State, n: Message)
    requires Inv(c, s) && Plain(n) && MessageOk(s, n) && forall m :: m in s.mailbox ==> !SameSender(m, n)
    requires s.data.endSent && !s.crew.requestedSinceEnd ==> n == SchedReady
    requires s.data.endSent ==> !n.WaitingDone?
    ensures Inv(c, Post(s, n))
  {
    hide JobsOk, KillsOk, MailboxOk, EventsOk, ActorsOk, BooksOk;
    assert JobsOk(Post(s, n)) by { PostJobs(s, n); }
    assert KillsOk(Post(s, n), []) by { PostKills(s, n); }
    assert MailboxOk(Post(s, n)) by { PostMailbox(s, n); }
    assert EventsOk(Post(s, n)) by { PostEvents(s, n); }
  }

  // ----- one step each -----

  /** Kills are not affected by changes of other jobs and by messages of others. */
  lemma KillsFramed(s: State, s': State)
    requires KillsOk(s, [])
    requires s'.killers == s.killers && s'.cancelled == s.cancelled && s'.books.deleted == s.books.deleted
    requires forall j :: j in s.jobs && s.jobs[j].killRequested ==> j in s'.jobs && s'.jobs[j] == s.jobs[j]
    requires forall j :: j in s'.jobs && s'.jobs[j].state.Killed? ==>
                           && j in s.jobs && s.jobs[j].state.Killed?
                           && (j in s'.books.written <==> j in s.books.written)
    requires forall k :: KillingDone(k) in s'.mailbox <==> KillingDone(k) in s.mailbox
    ensures KillsOk(s', [])
  {
    forall k | k in s.killers ensures KillerOk(s', k) {
      assert KillerOk(s, k);
      forall j | j in s.killers[k].all ensures KillerJobOk(s', k, j) { assert KillerJobOk(s, k, j); }
    }
    forall j | Announced(s, j) ensures Announced(s', j) {
      var k :| Handled(s, k, j);
      assert Handled(s', k, j);
    }
  }

  lemma MailboxFramed(s: State, s': State)
    requires MailboxOk(s) && s'.mailbox == s.mailbox
    requires s.crew.submitters <= s'.crew.submitters && s.crew.eventSubmitters <= s'.crew.eventSubmitters
             && (s.crew.scheduler ==> s'.crew.scheduler)
    requires s.killers.Keys <= s'.killers.Keys && s.crew.waiters <= s'.crew.waiters
             && s.crew.switchers <= s'.crew.switchers
    requires s.jobs.Keys <= s'.jobs.Keys
    requires forall j :: j in s.jobs && s.jobs[j].state.NotSubmitted? ==> s'.jobs[j].state.NotSubmitted?
    ensures MailboxOk(s')
  {
    forall m | m in s'.mailbox ensures MessageOk(s', m) { assert MessageOk(s, m); }
  }

  lemma EventsFramed(s: State, s': State)
    requires EventsOk(s) && KillsOk(s, [])
    requires s'.talk == s.talk && s'.books == s.books
    requires s.jobs.Keys <= s'.jobs.Keys && forall j :: j in s'.jobs && j in s.books.written ==> j in s.jobs
    requires forall j :: j in s.jobs && j in s.books.written ==> s'.jobs[j].state.Rejected? == s.jobs[j].state.Rejected?
    requires forall k :: k in s'.killers && s'.killers[k].posted ==> k in s.killers && s'.killers[k] == s.killers[k]
    requires |s.mailbox| <= |s'.mailbox| && s'.mailbox[..|s.mailbox|] == s.mailbox
    requires forall k, j :: k in s.killers && s.killers[k].posted && j in s.killers[k].all && j in s.jobs ==>
                              (EndedAlone(s'.jobs[j].state) ==> EndedAlone(s.jobs[j].state))
    ensures EventsOk(s')
  {
    forall k | k in s'.killers && s'.killers[k].posted ensures InOrder(s', k) {
      assert InOrder(s, k) && KillerOk(s, k);
      forall j | j in s'.killers[k].all && j in s'.jobs && EndedAlone(s'.jobs[j].state) && j !in s'.books.written
        ensures Ahead(s'.mailbox, JobCompleted(j), KillingDone(k))
      {
        assert KillerJobOk(s, k, j);
        AheadLonger(s.mailbox, s'.mailbox, JobCompleted(j), KillingDone(k));
      }
    }
  }

  lemma AheadLonger(mailbox: seq<Message>, longer: seq<Message>, m: Message, m': Message)
    requires Ahead(mailbox, m, m') && |mailbox| <= |longer| && longer[..|mailbox|] == mailbox
    ensures Ahead(longer, m, m')
  {
    var a, b :| 0 <= a < b < |mailbox| && mailbox[a] == m && mailbox[b] == m';
    assert longer[..|mailbox|][a] == longer[a] && longer[..|mailbox|][b] == longer[b];
  }

  // ----- AddsJob -----

  lemma AddsJobJobs(s: State, j: JobId)
    requires JobsOk(s) && MailboxOk(s) && j !in s.jobs
    ensures JobsOk(AddJob(s, j)) && j !in s.books.written
  {
    var s' := AddJob(s, j);
    assert !MessageOk(s, JobRegistered(j)) && !MessageOk(s, JobCompleted(j));
    assert j in s.books.written ==> j in SetOf(s.books.written);
    forall x | x in s'.jobs ensures JobOk(s', x) {
      if x in s.jobs { assert JobOk(s, x); }
    }
  }

  lemma AddsJobInv(c: Config, s: State, j: JobId)
    requires Inv(c, s) && j !in s.jobs
    ensures Inv(c, AddJob(s, j))
  {
    hide JobsOk, KillsOk, MailboxOk, EventsOk, ActorsOk, BooksOk;
    var s' := AddJob(s, j);
    AddsJobJobs(s, j);
    assert KillsOk(s', []) by { KillsFramed(s, s'); }
    assert MailboxOk(s') by { MailboxFramed(s, s'); }
    assert EventsOk(s') by { EventsFramed(s, s'); }
  }

  // ----- JobEnds -----

  predicate Unaffected(s: State, j: JobId) {
    j !in s.cancelled && j in s.executing && j in s.jobs && s.jobs[j].state.Running?
  }

  lemma JobEndsJobs(s: State, j: JobId, state: JobState)
    requires JobsOk(s) && Unaffected(s, j) && EndedAlone(state)
    ensures JobsOk(EndAlone(s, j, state))
    ensures JobCompleted(j) !in s.mailbox && j !in s.books.written
  {
    var s' := EndAlone(s, j, state);
    forall x | x in s'.jobs ensures JobOk(s', x) { assert JobOk(s, x); }
  }

  lemma JobEndsKills(s: State, j: JobId, state: JobState)
    requires KillsOk(s, []) && Unaffected(s, j) && EndedAlone(state)
    ensures KillsOk(EndAlone(s, j, state), [])
    ensures forall k :: k in s.killers && s.killers[k].posted ==> j !in s.killers[k].all
  {
    var s' := EndAlone(s, j, state);
    forall k | k in s.killers ensures KillerOk(s', k) && (s.killers[k].posted ==> j !in s.killers[k].all) {
      assert KillerOk(s, k);
      forall x | x in s.killers[k].all ensures KillerJobOk(s', k, x) { assert KillerJobOk(s, k, x); }
      if j in s.killers[k].all { assert KillerJobOk(s, k, j); }
    }
    forall x | Announced(s, x) ensures Announced(s', x) {
      var k :| Handled(s, k, x);
      assert Handled(s', k, x);
    }
  }

  lemma JobEndsInv(c: Config, s: State, j: JobId, state: JobState)
    requires Inv(c, s) && Unaffected(s, j) && EndedAlone(state)
    ensures Inv(c, EndAlone(s, j, state))
  {
    hide JobsOk, KillsOk, MailboxOk, EventsOk, ActorsOk, BooksOk;
    var s1 := SetState(s, j, state);
    var s' := Post(s1, JobCompleted(j));
    JobEndsJobs(s, j, state);
    JobEndsKills(s, j, state);
    assert MailboxOk(s') by {
      MailboxFramed(s, s1);
      PostMailbox(s1, JobCompleted(j));
    }
    assert EventsOk(s') by { EventsFramed(s, s'); }
  }

  // ----- CancelledEnds -----

  lemma CancelledEndsJobs(s: State, j: JobId)
    requires JobsOk(s) && j in s.cancelled
    ensures j in s.jobs && s.jobs[j].state.Running? && j in s.executing && j !in s.books.written
    ensures JobsOk(EndCancelled(s, j))
  {
    var s' := EndCancelled(s, j);
    forall x | x in s'.jobs ensures JobOk(s', x) { assert JobOk(s, x); }
  }

  lemma CancelledEndsKills(s: State, j: JobId)
    requires KillsOk(s, []) && j in s.cancelled && j in s.jobs && j !in s.books.written
    ensures KillsOk(EndCancelled(s, j), [])
  {
    var s' := EndCancelled(s, j);
    forall k | k in s.killers ensures KillerOk(s', k) {
      assert KillerOk(s, k);
      forall x | x in s.killers[k].all ensures KillerJobOk(s', k, x) { assert KillerJobOk(s, k, x); }
    }
    forall x | Announced(s, x) ensures Announced(s', x) {
      var k :| Handled(s, k, x);
      assert Handled(s', k, x);
    }
  }

  lemma CancelledEndsInv(c: Config, s: State, j: JobId)
    requires Inv(c, s) && j in s.cancelled
    ensures j in s.jobs
    ensures Inv(c, EndCancelled(s, j))
  {
    hide JobsOk, KillsOk, MailboxOk, EventsOk, ActorsOk, BooksOk;
    CancelledEndsJobs(s, j);
    CancelledEndsKills(s, j);
    var s' := EndCancelled(s, j);
    assert MailboxOk(s') by { MailboxFramed(s, s'); }
    assert EventsOk(s') by { EventsFramed(s, s'); }
  }

  // ----- killers -----

  lemma NextOfTodo(s: State, k: nat)
    requires k in s.killers && KillerOk(s, k) && s.killers[k].todo != []
    ensures var killer := s.killers[k];
            && !killer.posted && killer.todo[0] in killer.all && KillerJobOk(s, k, killer.todo[0])
            && killer.todo[1..] == killer.all[|killer.all| - |killer.todo[1..]|..]
            && killer.todo[0] !in killer.todo[1..]
            && forall j :: j in killer.todo <==> j == killer.todo[0] || j in killer.todo[1..]
  {
    var killer := s.killers[k];
    var n := |killer.all| - |killer.todo|;
    assert killer.todo[0] == killer.all[n];
    assert killer.todo == [killer.todo[0]] + killer.todo[1..];
    forall i | 1 <= i < |killer.todo| ensures killer.todo[i] != killer.todo[0] {
      assert killer.todo[i] == killer.all[n + i];
    }
  }

  /** The state after the killer k has looked at its job j, whatever j has become. */
  predicate Advances(s: State, s': State, k: nat, j: JobId)
    requires k in s.killers && s.killers[k].todo != []
  {
    && s'.killers == s.killers[k := s.killers[k].(todo := s.killers[k].todo[1..])]
    && s'.books == s.books && s'.mailbox == s.mailbox
    && s'.jobs.Keys == s.jobs.Keys && s.cancelled <= s'.cancelled <= s.cancelled + {j}
    && (forall x :: x in s.jobs && x != j ==> s'.jobs[x] == s.jobs[x])
    && j in s.jobs && s'.jobs[j].killRequested == s.jobs[j].killRequested
    && (s'.jobs[j].state.Killed? ==> j !in s.books.written)
    && (s'.jobs[j].state.Killed? || EndedAlone(s'.jobs[j].state) || j in s'.cancelled)
  }

  lemma AdvancesKiller(s: State, s': State, k: nat, j: JobId, k': nat)
    requires KillsOk(s, []) && k in s.killers && s.killers[k].todo != [] && j == s.killers[k].todo[0]
    requires Advances(s, s', k, j) && k' in s.killers
    ensures KillerOk(s', k')
  {
    assert KillerOk(s, k);
    NextOfTodo(s, k);
    assert KillerOk(s, k');
    forall x | x in s'.killers[k'].all ensures KillerJobOk(s', k', x) { assert KillerJobOk(s, k', x); }
  }

  lemma AdvancesAnnounced(s: State, s': State, k: nat, j: JobId, x: JobId)
    requires k in s.killers && s.killers[k].todo != [] && Advances(s, s', k, j)
    requires Announced(s, x) || Handled(s', k, x)
    ensures Announced(s', x)
  {
    if Announced(s, x) {
      var k' :| Handled(s, k', x);
      assert Handled(s', k', x);
    }
  }

  lemma AdvancesHandled(s: State, s': State, k: nat, j: JobId)
    requires KillsOk(s, []) && k in s.killers && s.killers[k].todo != [] && j == s.killers[k].todo[0]
    requires Advances(s, s', k, j)
    ensures Handled(s', k, j)
  {
    assert KillerOk(s, k);
    NextOfTodo(s, k);
  }

  lemma AdvancesApart(s: State, s': State, k: nat, j: JobId, k': nat, k'': nat, x: JobId)
    requires KillsOk(s, []) && k in s.killers && s.killers[k].todo != [] && Advances(s, s', k, j)
    requires k' in s'.killers && k'' in s'.killers && k' != k'' && x in s'.killers[k'].all
    ensures x !in s'.killers[k''].all
  {
    hide KillerOk, Announced;
    assert x in s.killers[k'].all;
  }

  lemma AdvancesStill(s: State, s': State, k: nat, j: JobId, x: JobId)
    requires KillsOk(s, []) && k in s.killers && s.killers[k].todo != [] && Advances(s, s', k, j)
    requires (x in s'.jobs && s'.jobs[x].state.Killed? && x !in s'.books.written) || x in s'.cancelled
    ensures Announced(s, x) || x == j
  {
    hide KillerOk, Announced;
  }

  lemma AdvancesKills(s: State, s': State, k: nat, j: JobId)
    requires KillsOk(s, []) && k in s.killers && s.killers[k].todo != [] && j == s.killers[k].todo[0]
    requires Advances(s, s', k, j)
    ensures KillsOk(s', [])
  {
    assert s'.killers.Keys == s.killers.Keys;
    AdvancesHandled(s, s', k, j);
    hide KillsOk, KillerOk, Announced, Handled, Advances;
    forall k' | k' in s'.killers ensures KillerOk(s', k') { AdvancesKiller(s, s', k, j, k'); }
    forall k', k'', x | k' in s'.killers && k'' in s'.killers && k' != k'' && x in s'.killers[k'].all
      ensures x !in s'.killers[k''].all
    {
      AdvancesApart(s, s', k, j, k', k'', x);
    }
    forall x | (x in s'.jobs && s'.jobs[x].state.Killed? && x !in s'.books.written) || x in s'.cancelled
      ensures Announced(s', x)
    {
      AdvancesStill(s, s', k, j, x);
      AdvancesAnnounced(s, s', k, j, x);
    }
    KillsOkFrom(s');
  }

  lemma KillsOkFrom(s: State)
    requires forall k :: k in s.killers ==> KillerOk(s, k)
    requires forall k, k', x :: k in s.killers && k' in s.killers && k != k' && x in s.killers[k].all
                                ==> x !in s.killers[k'].all
    requires forall x :: (x in s.jobs && s.jobs[x].state.Killed? && x !in s.books.written) || x in s.cancelled
                         ==> Announced(s, x)
    ensures KillsOk(s, [])
  {
    hide KillerOk, Announced;
  }

  lemma NotAnnounced(s: State, k: nat)
    requires KillsOk(s, []) && k in s.killers && s.killers[k].todo != []
    ensures !Announced(s, s.killers[k].todo[0])
  {
    assert KillerOk(s, k);
    NextOfTodo(s, k);
    forall k' ensures !Handled(s, k', s.killers[k].todo[0]) {}
  }

  lemma NextToKill(s: State, k: nat)
    requires KillsOk(s, []) && JobsOk(s) && k in s.killers && s.killers[k].todo != []
    ensures var j := s.killers[k].todo[0];
            && j in s.jobs && j !in s.books.deleted && j !in s.cancelled && !s.killers[k].posted
            && s.jobs[j].killRequested
            && !s.jobs[j].state.NotSubmitted? && !s.jobs[j].state.Submitted?
            && (s.jobs[j].state.Running? ==> j in s.executing && j !in s.books.written)
            && (s.jobs[j].state.Killed? ==> j !in s.books.written)
  {
    assert KillerOk(s, k);
    NextOfTodo(s, k);
    var j := s.killers[k].todo[0];
    assert JobOk(s, j);
    NotAnnounced(s, k);
  }

  lemma KillNextKills(s: State, k: nat, directly: bool)
    requires KillsOk(s, []) && JobsOk(s) && k in s.killers && s.killers[k].todo != []
    ensures match KillNext(s, k, directly)
            case Dies(reason) => reason == BadKill && s.killers[k].todo[0] in s.jobs
                                 && s.jobs[s.killers[k].todo[0]].state.Rejected?
            case Next(s') => KillsOk(s', [])
  {
    NextToKill(s, k);
    hide KillsOk, JobsOk;
    if KillNext(s, k, directly).Next? {
      AdvancesKills(s, KillNext(s, k, directly).state, k, s.killers[k].todo[0]);
    }
  }

  lemma KillNextJobs(s: State, k: nat, directly: bool)
    requires JobsOk(s) && k in s.killers && s.killers[k].todo != [] && KillNext(s, k, directly).Next?
    requires var j := s.killers[k].todo[0]; j !in s.cancelled && j in s.jobs && s.jobs[j].killRequested
    ensures JobsOk(KillNext(s, k, directly).state)
  {
    var s' := KillNext(s, k, directly).state;
    forall x | x in s'.jobs ensures JobOk(s', x) { assert JobOk(s, x); }
  }

  lemma KillNextEvents(s: State, k: nat, directly: bool)
    requires EventsOk(s) && KillsOk(s, []) && JobsOk(s)
    requires k in s.killers && s.killers[k].todo != [] && KillNext(s, k, directly).Next?
    ensures EventsOk(KillNext(s, k, directly).state)
  {
    NextToKill(s, k);
    hide EventsOk, KillsOk, JobsOk;
    EventsFramed(s, KillNext(s, k, directly).state);
  }

  lemma KillNextRest(s: State, k: nat, directly: bool)
    requires EndOk(s) && k in s.killers && s.killers[k].todo != [] && KillNext(s, k, directly).Next?
    ensures var s' := KillNext(s, k, directly).state;
            && EndOk(s') && s'.killers.Keys == s.killers.Keys && s'.mailbox == s.mailbox
            && s'.data == s.data && s'.crew == s.crew && s'.books == s.books && s'.talk == s.talk
  {
    assert s.killers != map[];
  }

  lemma KillNextInv(c: Config, s: State, k: nat, directly: bool)
    requires Inv(c, s) && k in s.killers && s.killers[k].todo != []
    ensures match KillNext(s, k, directly)
            case Dies(reason) => reason == BadKill
            case Next(s') => Inv(c, s')
  {
    hide JobsOk, MailboxOk, EventsOk, KillsOk, ActorsOk, BooksOk, EndOk, KillNext;
    KillNextKills(s, k, directly);
    NextToKill(s, k);
    if KillNext(s, k, directly).Next? {
      var s' := KillNext(s, k, directly).state;
      KillNextJobs(s, k, directly);
      KillNextEvents(s, k, directly);
      KillNextRest(s, k, directly);
      assert MailboxOk(s') by { KillNextMailbox(s, k, directly); }
    }
  }

  lemma KillNextMailbox(s: State, k: nat, directly: bool)
    requires MailboxOk(s) && k in s.killers && s.killers[k].todo != [] && KillNext(s, k, directly).Next?
    ensures MailboxOk(KillNext(s, k, directly).state)
  {
    hide MailboxOk;
    MailboxFramed(s, KillNext(s, k, directly).state);
  }

  lemma KillerPostsKills(s: State, k: nat)
    requires KillsOk(s, []) && k in s.killers && s.killers[k].todo == []
    ensures KillsOk(PostKill(s, k), [])
  {
    var s' := PostKill(s, k);
    forall k' | k' in s'.killers ensures KillerOk(s', k') {
      assert KillerOk(s, k');
      forall x | x in s'.killers[k'].all ensures KillerJobOk(s', k', x) { assert KillerJobOk(s, k', x); }
    }
    forall x | Announced(s, x) ensures Announced(s', x) {
      var k' :| Handled(s, k', x);
      assert Handled(s', k', x);
    }
  }

  lemma KillerPostsEvents(s: State, k: nat)
    requires EventsOk(s) && JobsOk(s) && k in s.killers
    ensures EventsOk(PostKill(s, k))
  {
    var s' := PostKill(s, k);
    forall k' | k' in s'.killers && s'.killers[k'].posted ensures InOrder(s', k') {
      forall j | j in s'.killers[k'].all && j in s'.jobs && EndedAlone(s'.jobs[j].state) && j !in s'.books.written
        ensures Ahead(s'.mailbox, JobCompleted(j), KillingDone(k'))
      {
        if k' == k {
          assert JobOk(s, j);
          var a :| 0 <= a < |s.mailbox| && s.mailbox[a] == JobCompleted(j);
          assert s'.mailbox[a] == JobCompleted(j) && s'.mailbox[|s.mailbox|] == KillingDone(k);
        } else {
          assert InOrder(s, k');
          AheadLonger(s.mailbox, s'.mailbox, JobCompleted(j), KillingDone(k'));
        }
      }
    }
  }

  lemma NotPostedYet(s: State, k: nat)
    requires KillsOk(s, []) && k in s.killers && !s.killers[k].posted
    ensures KillingDone(k) !in s.mailbox
  {
    assert KillerOk(s, k);
  }

  lemma KillerPostsInv(c: Config, s: State, k: nat)
    requires Inv(c, s) && k in s.killers && s.killers[k].todo == [] && !s.killers[k].posted
    ensures Inv(c, PostKill(s, k))
  {
    hide JobsOk, MailboxOk, EventsOk, KillsOk, ActorsOk, BooksOk;
    KillerPostsKills(s, k);
    KillerPostsEvents(s, k);
    PostKillJobs(s, k);
    KillerPostsMailbox(s, k);
    assert PostKill(s, k).killers.Keys == s.killers.Keys;
  }

  lemma KillerPostsMailbox(s: State, k: nat)
    requires MailboxOk(s) && KillsOk(s, []) && k in s.killers && !s.killers[k].posted
    ensures MailboxOk(PostKill(s, k))
  {
    NotPostedYet(s, k);
    hide MailboxOk, KillsOk;
    PostMailbox(s, KillingDone(k));
    MailboxFramed(Post(s, KillingDone(k)), PostKill(s, k));
  }

  lemma PostKillJobs(s: State, k: nat)
    requires JobsOk(s) && k in s.killers
    ensures JobsOk(PostKill(s, k))
  {
    forall x | x in s.jobs ensures JobOk(PostKill(s, k), x) { assert JobOk(s, x); }
  }

  // ----- waiters and requests -----

  lemma WaiterLostInv(c: Config, s: State, n: nat)
    requires Inv(c, s) && n in s.crew.waiters && WaitingDone(n) !in s.mailbox && (s.data.endSent || s.data.endAcked)
    ensures Inv(c, LoseWaiter(s, n))
  {
    hide JobsOk, KillsOk, MailboxOk, EventsOk, BooksOk;
    var s' := LoseWaiter(s, n);
    assert JobsOk(s') by { JobsFramed(s, s'); }
    assert KillsOk(s', []) by { KillsFramed(s, s'); }
    assert EventsOk(s') by { EventsFramed(s, s'); }
    assert MailboxOk(s') by { WaiterLostMailbox(s, n); }
  }

  lemma WaiterLostMailbox(s: State, n: nat)
    requires MailboxOk(s) && WaitingDone(n) !in s.mailbox
    ensures MailboxOk(LoseWaiter(s, n))
  {
    var s' := LoseWaiter(s, n);
    forall m | m in s'.mailbox ensures MessageOk(s', m) { assert MessageOk(s, m); }
  }

  lemma JobsFramed(s: State, s': State)
    requires JobsOk(s)
    requires s'.jobs == s.jobs && s'.books == s.books
    requires s'.executing == s.executing && s'.cancelled == s.cancelled && s'.mailbox == s.mailbox
    ensures JobsOk(s')
  {
    forall j | j in s.jobs ensures JobOk(s', j) { assert JobOk(s, j); }
  }

  lemma AskedInv(c: Config, s: State, b: bool)
    requires Inv(c, s)
    ensures Inv(c, Ask(s, b))
  {
    hide JobsOk, KillsOk, MailboxOk, EventsOk, BooksOk;
    var s' := Ask(s, b);
    assert JobsOk(s') by { JobsFramed(s, s'); }
    assert KillsOk(s', []) by { KillsFramed(s, s'); }
    assert EventsOk(s') by { EventsFramed(s, s'); }
    assert MailboxOk(s') by { MailboxFramed(s, s'); }
  }

  lemma RegisteredJobs(s: State, j: JobId)
    requires JobsOk(s) && MailboxOk(s) && j !in s.jobs
    ensures JobsOk(PostRegistered(s, j)) && j !in s.books.written
  {
    var s' := PostRegistered(s, j);
    assert !MessageOk(s, JobCompleted(j));
    assert j in s.books.written ==> j in SetOf(s.books.written);
    forall x | x in s'.jobs ensures JobOk(s', x) {
      if x in s.jobs { assert JobOk(s, x); }
    }
  }

  lemma RegisteredMailbox(s: State, j: JobId)
    requires MailboxOk(s) && j !in s.jobs && s.crew.scheduler && !SchedulerBusy(s)
    ensures MailboxOk(PostRegistered(s, j))
  {
    var s1 := s.(jobs := s.jobs[j := Job(Submitted, false)]);
    MailboxFramed(s, s1);
    PostMailbox(s1, JobRegistered(j));
  }

  lemma RegisteredInv(c: Config, s: State, j: JobId)
    requires Inv(c, s) && j !in s.jobs && s.crew.scheduler && !SchedulerBusy(s)
    requires s.data.endSent ==> s.crew.requestedSinceEnd
    ensures Inv(c, PostRegistered(s, j))
  {
    hide JobsOk, KillsOk, MailboxOk, EventsOk, BooksOk;
    var s' := PostRegistered(s, j);
    RegisteredJobs(s, j);
    assert MailboxOk(s') by { RegisteredMailbox(s, j); }
    assert KillsOk(s', []) by { KillsFramed(s, s'); }
    assert EventsOk(s') by { EventsFramed(s, s'); }
  }

  lemma RequestsInv(c: Config, s: State, m: Message)
    requires Inv(c, s) && Enabled(c, s, Requests(m))
    ensures Inv(c, Do(c, s, Requests(m)).state)
  {
    hide Inv;
    var b := s.data.endSent && !m.SchedReady?;
    var s1 := Ask(s, b);
    AskedInv(c, s, b);
    if m.JobRegistered? {
      RegisteredInv(c, s1, m.job);
    } else {
      PostsPlain(c, s1, m);
    }
  }

  predicate Posts(l: Label) {
    l.Submits? || l.SubmitterEnds? || l.EventsOccur? || l.EventSubmitterEnds? || l.SwitchEnds? || l.WaiterEnds?
  }

  /** Whoever posts is at work: the end was not announced, or something was requested since. */
  lemma AtWork(c: Config, s: State, l: Label)
    requires Inv(c, s) && Enabled(c, s, l) && Posts(l)
    ensures s.data.endSent ==> s.crew.requestedSinceEnd
  {
  }

  function MessageOf(l: Label): Message
    requires Posts(l)
  {
    match l
    case Submits(n, js) => JobsSubmitted(n, js)
    case SubmitterEnds(n) => SubmitterBye(n)
    case EventsOccur(n) => EventsOccurred(n)
    case EventSubmitterEnds(n) => EventSubmitterBye(n)
    case SwitchEnds(n) => Switched(n)
    case WaiterEnds(n) => WaitingDone(n)
  }

  lemma Postable(c: Config, s: State, l: Label)
    requires Enabled(c, s, l) && Posts(l)
    ensures Plain(MessageOf(l)) && MessageOk(s, MessageOf(l))
    ensures forall m :: m in s.mailbox ==> !SameSender(m, MessageOf(l))
  {
    hide NoDup, MaySubmit;
  }

  lemma PostedMessage(c: Config, s: State, l: Label)
    requires Enabled(c, s, l) && Posts(l) && (l.WaiterEnds? ==> !s.data.endSent && !s.data.endAcked)
    ensures Do(c, s, l) == Next(Post(s, MessageOf(l)))
  {
    hide Enabled;
  }

  lemma PosterInv(c: Config, s: State, l: Label)
    requires Inv(c, s) && Enabled(c, s, l) && Posts(l)
    ensures Do(c, s, l).Next? && Inv(c, Do(c, s, l).state)
  {
    if l.WaiterEnds? && (s.data.endSent || s.data.endAcked) {
      hide Inv, LoseWaiter;
      WaiterLostInv(c, s, l.waiter);
    } else {
      AtWork(c, s, l);
      hide Inv, Enabled, Do;
      Postable(c, s, l);
      PostedMessage(c, s, l);
      PostsPlain(c, s, MessageOf(l));
    }
  }

  /** Every step but the server's keeps the invariant, and only a killer can fail: on a rejected job. */
  lemma ActorInv(c: Config, s: State, l: Label)
    requires Inv(c, s) && Enabled(c, s, l) && !l.Serves?
    ensures match Do(c, s, l)
            case Dies(reason) => reason == BadKill && l.KillerKills?
            case Next(s') => Inv(c, s')
  {
    hide Inv;
    match l
    case AddsJob(j) => AddsJobInv(c, s, j);
    case JobEnds(j, state) => JobEndsInv(c, s, j, state);
    case CancelledEnds(j) => CancelledEndsInv(c, s, j);
    case KillerKills(k, directly) => KillNextInv(c, s, k, directly);
    case KillerPosts(k) => KillerPostsInv(c, s, k);
    case Requests(m) => RequestsInv(c, s, m);
    case _ => PosterInv(c, s, l);
  }
}
