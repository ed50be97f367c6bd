/** What holds in every reachable state of the server and its actors. */
module ServerInvariant {
  import opened ServerSteps

  ghost function SetOf(js: seq<JobId>): set<JobId> {
    set j | j in js
  }

  lemma SetOfMore(js: seq<JobId>, j: JobId)
    ensures SetOf(js + [j]) == SetOf(js) + {j}
  {
  }

  lemma {:induction false} SizeOfSet(js: seq<JobId>)
    requires NoDup(js)
    ensures |SetOf(js)| == |js|
  {
    if js != [] {
      var n := |js| - 1;
      SizeOfSet(js[..n]);
      assert js == js[..n] + [js[n]];
      SetOfMore(js[..n], js[n]);
    }
  }

  // ----- jobs -----

  /** Where a job stands decides which actors, messages and books know it. */
  ghost predicate JobOk(s: State, j: JobId)
    requires j in s.jobs
  {
    var state, done := s.jobs[j].state, j in s.books.written;
    && (j in s.books.counted <==> !state.NotSubmitted? && JobRegistered(j) !in s.mailbox)
    && (JobRegistered(j) in s.mailbox ==> state.Submitted?)
    && (j in s.books.started <==> state.Running? || EndedAlone(state) || state.Killed?)
    && (state.NotSubmitted? || state.Submitted? || state.Running? ==> !done)
    && (state.Rejected? ==> done)
    && (JobCompleted(j) in s.mailbox <==> EndedAlone(state) && !done)
    && (j in s.executing <==> state.Running? || (EndedAlone(state) && !done))
    && (j in s.cancelled ==> state.Running?)
    && (j in s.cancelled || state.Killed? ==> s.jobs[j].killRequested)
    && (s.jobs[j].killRequested ==> !state.NotSubmitted? && !state.Submitted?)
  }

  ghost predicate JobsOk(s: State) {
    && s.books.counted <= s.jobs.Keys && s.books.started <= s.jobs.Keys && s.executing <= s.jobs.Keys
    && s.cancelled <= s.jobs.Keys && SetOf(s.books.written) <= s.jobs.Keys
    && forall j :: j in s.jobs ==> JobOk(s, j)
  }

  // ----- kills -----

  /** The killer has looked at j and not yet told the server. */
  ghost predicate Handled(s: State, k: nat, j: JobId) {
    k in s.killers && j in s.killers[k].all && j !in s.killers[k].todo
  }

  ghost predicate KillerJobOk(s: State, k: nat, j: JobId)
    requires k in s.killers
  {
    && j in s.jobs && j !in s.books.deleted && s.jobs[j].killRequested
    && (s.jobs[j].state.Killed? ==> j !in s.books.written)
    && (j !in s.killers[k].todo ==>
          s.jobs[j].state.Killed? || EndedAlone(s.jobs[j].state) || j in s.cancelled)
  }

  ghost predicate KillerOk(s: State, k: nat)
    requires k in s.killers
  {
    var killer := s.killers[k];
    && NoDup(killer.all) && |killer.todo| <= |killer.all|
    && killer.todo == killer.all[|killer.all| - |killer.todo|..]
    && (killer.posted ==> killer.todo == [])
    && (KillingDone(k) in s.mailbox <==> killer.posted)
    && forall j :: j in killer.all ==> KillerJobOk(s, k, j)
  }

  /** Some killer will tell about j. */
  ghost predicate Announced(s: State, j: JobId) {
    exists k :: Handled(s, k, j)
  }

  /** Jobs in rest are being told about right now. */
  ghost predicate KillsOk(s: State, rest: seq<JobId>) {
    && (forall k :: k in s.killers ==> KillerOk(s, k))
    && (forall k, k', j :: k in s.killers && k' in s.killers && k != k' && j in s.killers[k].all
                           ==> j !in s.killers[k'].all)
    && (forall j :: j in s.jobs && s.jobs[j].state.Killed? && j !in s.books.written ==> Announced(s, j) || j in rest)
    && (forall j :: j in s.cancelled ==> Announced(s, j))
  }

  // ----- the mailbox -----

  ghost predicate MessageOk(s: State, m: Message) {
    && (IsFromScheduler(m) ==> s.crew.scheduler)
    && match m
       case JobsSubmitted(n, js) => n in s.crew.submitters && MaySubmit(s, n, js)
       case SubmitterBye(n) => n in s.crew.submitters
       case EventsOccurred(n) => n in s.crew.eventSubmitters
       case EventSubmitterBye(n) => n in s.crew.eventSubmitters
       case JobCompleted(j) => j in s.jobs
       case KillingDone(k) => k in s.killers
       case WaitingDone(n) => n in s.crew.waiters
       case Switched(n) => n in s.crew.switchers
       case JobRegistered(j) => j in s.jobs
       case _ => true
  }

  /** Two messages of one sender. */
  predicate SameSender(m: Message, m': Message) {
    || m == m' || (IsFromScheduler(m) && IsFromScheduler(m'))
    || ((m.JobsSubmitted? || m.SubmitterBye?) && (m'.JobsSubmitted? || m'.SubmitterBye?) && m.submitter == m'.submitter)
    || ((m.EventsOccurred? || m.EventSubmitterBye?) && (m'.EventsOccurred? || m'.EventSubmitterBye?)
        && m.events == m'.events)
  }

  ghost predicate OneEach(mailbox: seq<Message>) {
    forall a, b :: 0 <= a < b < |mailbox| ==> !SameSender(mailbox[a], mailbox[b])
  }

  ghost predicate MailboxOk(s: State) {
    OneEach(s.mailbox) && forall m :: m in s.mailbox ==> MessageOk(s, m)
  }

  // ----- counters -----

  ghost predicate ActorsOk(c: Config, d: Data, w: Crew, killers: set<nat>) {
    && d.nbKillers == |killers| && d.nbSwitching == |w.switchers|
    && d.nbWaiters == |w.waiters| + w.lostWaiters && (!d.endSent ==> w.lostWaiters == 0)
    && d.finishedSubmitters + |w.submitters| == c.expectedSubmitters
    && d.finishedEventSubmitters + |w.eventSubmitters| == c.expectedEventSubmitters
    && d.schedReady == !w.scheduler && (d.endAcked ==> d.endSent && d.schedReady)
    && (forall n :: n in w.waiters ==> n < w.nextId) && (forall n :: n in w.switchers ==> n < w.nextId)
    && (forall k :: k in killers ==> k < w.nextId)
  }

  /** Jobs leave memory in the order of the trace. */
  ghost predicate BooksOk(d: Data, b: Books) {
    && d.nbSubmitted == |b.counted| && d.nbCompleted == |b.written|
    && d.nbRunning == |b.started - SetOf(b.written)|
    && b.started + SetOf(b.written) <= b.counted
    && NoDup(b.written) && b.queued == b.written
    && |b.toDelete| <= |b.written|
    && b.written == b.written[..|b.written| - |b.toDelete|] + b.toDelete
    && b.deleted == SetOf(b.written[..|b.written| - |b.toDelete|])
  }

  // ----- the scheduler's view -----

  ghost function Flatten(calls: seq<seq<Event>>): seq<Event> {
    if calls == [] then [] else Flatten(calls[..|calls| - 1]) + calls[|calls| - 1]
  }

  ghost predicate CompletedAt(log: seq<Event>, i: nat, j: JobId) {
    i < |log| && log[i].CompletedEvent? && log[i].job == j
  }

  ghost predicate CompletedBefore(log: seq<Event>, n: nat, j: JobId) {
    exists i: nat :: i < n && CompletedAt(log, i, j)
  }

  /** A job completes once, and before a kill of it is acknowledged. */
  ghost predicate LogOk(log: seq<Event>) {
    && (forall i: nat, i': nat, j :: i < i' && CompletedAt(log, i, j) ==> !CompletedAt(log, i', j))
    && forall i, j :: 0 <= i < |log| && log[i].KilledEvent? && j in log[i].jobs ==> CompletedBefore(log, i, j)
  }

  ghost predicate Ahead(mailbox: seq<Message>, m: Message, m': Message) {
    exists a, b :: 0 <= a < b < |mailbox| && mailbox[a] == m && mailbox[b] == m'
  }

  /** A job the killer found completed reports before the killer. */
  ghost predicate InOrder(s: State, k: nat)
    requires k in s.killers
  {
    forall j :: j in s.killers[k].all && j in s.jobs && EndedAlone(s.jobs[j].state) && j !in s.books.written
                ==> Ahead(s.mailbox, JobCompleted(j), KillingDone(k))
  }

  ghost predicate EventsOk(s: State) {
    && s.talk.log == Flatten(s.talk.calls) + s.talk.outgoing && LogOk(s.talk.log)
    && (forall e :: e in s.talk.calls ==> e != [])
    && (forall j :: CompletedBefore(s.talk.log, |s.talk.log|, j) <==>
          j in s.jobs && j in s.books.written && !s.jobs[j].state.Rejected?)
    && (forall k :: k in s.killers && s.killers[k].posted ==> InOrder(s, k))
  }

  // ----- the end -----

  ghost predicate AtRest(s: State) {
    && s.executing == {} && s.killers == map[] && s.crew.waiters == {} && s.crew.switchers == {}
    && s.crew.submitters == {} && s.crew.eventSubmitters == {} && s.crew.lostWaiters == 0
    && s.data.nbCompleted == s.data.nbSubmitted && s.data.nbRunning == 0
  }

  ghost function Ends(log: seq<Event>): nat {
    if log == [] then 0 else Ends(log[..|log| - 1]) + if log[|log| - 1] == SimulationEnds then 1 else 0
  }

  /** The end is announced once; if nothing is requested after it, nothing is left to do. */
  ghost predicate EndOk(s: State) {
    && Ends(s.talk.log) == (if s.data.endSent then 1 else 0)
    && (s.data.endSent && !s.crew.requestedSinceEnd ==>
          AtRest(s) && forall m :: m in s.mailbox ==> m == SchedReady)
    && (s.data.endSent && !s.data.endAcked ==> s.crew.scheduler)
    && (s.data.endSent ==> forall m :: m in s.mailbox ==> !m.WaitingDone?)
  }

  ghost predicate Inv(c: Config, s: State) {
    && JobsOk(s) && KillsOk(s, []) && MailboxOk(s) && EventsOk(s)
    && ActorsOk(c, s.data, s.crew, s.killers.Keys) && BooksOk(s.data, s.books) && EndOk(s)
  }
}
