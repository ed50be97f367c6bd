/** The life cycle of jobs as a step system: job actors, killers, waiters, switchers, submitters and the
    scheduler's request process post messages; the server takes them one by one, keeps its counters and
    its trace, and calls the scheduler. A sender waits until its message is taken, so that it never has
    two messages in the mailbox. */
module ServerSteps {

  datatype JobId = JobId(workload: string, name: string)

  datatype JobState = NotSubmitted | Submitted | Running | Succeeded | Failed | WalltimeReached | Killed | Rejected

  datatype Job = Job(state: JobState, killRequested: bool)

  predicate IsComplete(state: JobState) {
    state.Succeeded? || state.Killed? || state.Failed? || state.Rejected? || state.WalltimeReached?
  }

  /** Ended by its own actor, without a kill. */
  predicate EndedAlone(state: JobState) {
    state.Succeeded? || state.Failed? || state.WalltimeReached?
  }

  datatype Message =
    | JobsSubmitted(submitter: string, jobs: seq<JobId>)
    | SubmitterBye(submitter: string)
    | EventsOccurred(events: string)
    | EventSubmitterBye(events: string)
    | JobCompleted(job: JobId)
    | KillingDone(killer: nat)
    | WaitingDone(waiter: nat)
    | Switched(switcher: nat)
    // from the scheduler
    | ExecuteJob(job: JobId)
    | RejectJob(job: JobId)
    | KillJobs(jobs: seq<JobId>)
    | CallMeLater(inFuture: bool)
    | ChangePstate(machines: nat, atOnce: bool)
    | JobRegistered(job: JobId)
    | EndRegistration
    | ContinueRegistration
    | SchedReady

  predicate IsFromScheduler(m: Message) {
    m.ExecuteJob? || m.RejectJob? || m.KillJobs? || m.CallMeLater? || m.ChangePstate? || m.JobRegistered?
    || m.EndRegistration? || m.ContinueRegistration? || m.SchedReady?
  }

  /** What the protocol writer collects for the scheduler. */
  datatype Event =
    | SubmittedEvent(job: JobId)
    | CompletedEvent(job: JobId, state: JobState)
    | KilledEvent(jobs: seq<JobId>)
    | NoMoreJobs
    | ExternalEvents(events: string)
    | NoMoreEvents
    | RequestedCall(waiter: nat)
    | StatesChanged
    | SimulationBegins
    | SimulationEnds

  /** all: the jobs it was given; todo: those it has still to look at. */
  datatype Killer = Killer(all: seq<JobId>, todo: seq<JobId>, posted: bool)

  /** The server's data. */
  datatype Data = Data(
    nbCompleted: int,
    nbSubmitted: int,
    nbRunning: int,
    nbSwitching: int,
    nbWaiters: int,
    nbKillers: int,
    finishedSubmitters: nat,
    finishedEventSubmitters: nat,
    registrationFinished: bool,
    schedReady: bool,
    endSent: bool,
    endAcked: bool)

  /** The other actors but jobs and killers; scheduler: a request-reply process is under way. As history:
      waiters that ended unheard, whether anything was requested after the end was announced. */
  datatype Crew = Crew(
    waiters: set<nat>,
    switchers: set<nat>,
    submitters: set<string>,
    eventSubmitters: set<string>,
    scheduler: bool,
    nextId: nat,
    lostWaiters: nat,
    requestedSinceEnd: bool)

  /** The jobs queued for deletion, and those erased from memory. As history: the jobs whose submission was
      handled, those that were started, the jobs trace, all that was ever queued for deletion. */
  datatype Books = Books(
    toDelete: seq<JobId>,
    deleted: set<JobId>,
    counted: set<JobId>,
    started: set<JobId>,
    written: seq<JobId>,
    queued: seq<JobId>)

  /** What is to be told to the scheduler. As history: what the calls told it, and all events. */
  datatype Talk = Talk(outgoing: seq<Event>, calls: seq<seq<Event>>, log: seq<Event>)

  /** Besides the jobs: the job actors, those whose running task was cancelled, and the killers. */
  datatype State = State(
    jobs: map<JobId, Job>,
    executing: set<JobId>,
    cancelled: set<JobId>,
    killers: map<nat, Killer>,
    mailbox: seq<Message>,
    crew: Crew,
    data: Data,
    books: Books,
    talk: Talk)

  /** silent: the switch processes whose report is not the last one that a request waits for. */
  datatype Config = Config(expectedSubmitters: nat, expectedEventSubmitters: nat, registration: bool,
                           registrationAck: bool, silent: set<nat>)

  /** A failed check: of what the scheduler asked, of the jobs a killer was given, or of the server's own data. */
  datatype Reason = BadRequest | BadKill | Inconsistent

  datatype Outcome = Next(state: State) | Dies(reason: Reason)

  // ----- the server's handlers -----

  function Emit(s: State, e: Event): State {
    s.(talk := s.talk.(outgoing := s.talk.outgoing + [e], log := s.talk.log + [e]))
  }

  /** RESOURCE_STATE_CHANGED, if a request for power states is fulfilled. */
  function Announce(s: State, fulfilled: bool): State {
    if fulfilled then Emit(s, StatesChanged) else s
  }

  function SetState(s: State, j: JobId, state: JobState): State
    requires j in s.jobs
  {
    s.(jobs := s.jobs[j := s.jobs[j].(state := state)])
  }

  function Count(s: State, j: JobId): State {
    s.(data := s.data.(nbSubmitted := s.data.nbSubmitted + 1), books := s.books.(counted := s.books.counted + {j}))
  }

  /** server_on_job_submitted, for one job */
  function OnOneSubmitted(s: State, j: JobId): State
    requires j in s.jobs
  {
    Emit(Count(SetState(s, j, Submitted), j), SubmittedEvent(j))
  }

  function OnSubmitted(s: State, js: seq<JobId>): (s': State)
    requires forall j :: j in js ==> j in s.jobs
    ensures s'.jobs.Keys == s.jobs.Keys
    decreases |js|
  {
    if js == [] then s else OnOneSubmitted(OnSubmitted(s, js[..|js| - 1]), js[|js| - 1])
  }

  /** write_job, and the job is queued for deletion */
  function Write(b: Books, j: JobId): Books {
    b.(written := b.written + [j], queued := b.queued + [j], toDelete := b.toDelete + [j])
  }

  /** A finished job leaves the counters, is traced and queued for deletion (job_completed, killing_done). */
  function Report(s: State, j: JobId): Outcome
    requires j in s.jobs
  {
    var d := s.data.(nbRunning := s.data.nbRunning - 1, nbCompleted := s.data.nbCompleted + 1);
    if d.nbRunning < 0 then Dies(Inconsistent)
    else if d.nbCompleted + d.nbRunning > d.nbSubmitted then Dies(Inconsistent)
    else if !IsComplete(s.jobs[j].state) then Dies(Inconsistent)
    else Next(Emit(s, CompletedEvent(j, s.jobs[j].state)).(data := d, books := Write(s.books, j)))
  }

  function OnJobCompleted(s: State, j: JobId): Outcome
    requires j in s.jobs
  {
    Report(s.(executing := s.executing - {j}), j)
  }

  /** server_on_killing_done, over the killer's jobs: only those really killed are reported. */
  function ReportKilled(s: State, js: seq<JobId>): Outcome
    requires forall j :: j in js ==> j in s.jobs
    decreases |js|
  {
    if js == [] then Next(s)
    else if js[0] in s.books.deleted then Dies(Inconsistent)
    else if s.jobs[js[0]].state.Killed? then
      match Report(s, js[0])
      case Dies(reason) => Dies(reason)
      case Next(s') => ReportKilled(s', js[1..])
    else ReportKilled(s, js[1..])
  }

  function OnKillingDone(s: State, k: nat): Outcome
    requires k in s.killers && forall j :: j in s.killers[k].all ==> j in s.jobs
  {
    match ReportKilled(s.(killers := s.killers - {k}), s.killers[k].all)
    case Dies(reason) => Dies(reason)
    case Next(s') =>
      Next(Emit(s', KilledEvent(s.killers[k].all)).(data := s'.data.(nbKillers := s'.data.nbKillers - 1)))
  }

  function OnExecute(s: State, j: JobId): Outcome {
    if j !in s.jobs || j in s.books.deleted || !s.jobs[j].state.Submitted? then Dies(BadRequest)
    else if s.data.nbRunning + 1 > s.data.nbSubmitted then Dies(Inconsistent)
    else Next(Start(s, j))
  }

  /** The job starts to run, and its actor with it. */
  function Start(s: State, j: JobId): State
    requires j in s.jobs
  {
    SetState(s, j, Running).(data := s.data.(nbRunning := s.data.nbRunning + 1),
                             books := s.books.(started := s.books.started + {j}), executing := s.executing + {j})
  }

  function OnReject(s: State, j: JobId): Outcome {
    if j !in s.jobs || j in s.books.deleted || !s.jobs[j].state.Submitted? then Dies(BadRequest)
    else Next(SetState(s, j, Rejected).(data := s.data.(nbCompleted := s.data.nbCompleted + 1),
                                        books := Write(s.books, j)))
  }

  datatype Marked = Marked(state: State, toKill: seq<JobId>) | BadKillRequest

  /** server_on_kill_jobs: jobs whose kill was requested before are dropped. */
  function MarkKills(s: State, js: seq<JobId>): Marked
    decreases |js|
  {
    if js == [] then Marked(s, [])
    else
      var n := |js| - 1;
      var j := js[n];
      match MarkKills(s, js[..n])
      case BadKillRequest => BadKillRequest
      case Marked(s', toKill) =>
        if j !in s'.jobs || j in s'.books.deleted then BadKillRequest
        else if s'.jobs[j].killRequested then Marked(s', toKill)
        else if !(s'.jobs[j].state.Running? || IsComplete(s'.jobs[j].state)) then BadKillRequest
        else Marked(s'.(jobs := s'.jobs[j := s'.jobs[j].(killRequested := true)]), toKill + [j])
  }

  function OnKillJobs(s: State, js: seq<JobId>): Outcome {
    match MarkKills(s, js)
    case BadKillRequest => Dies(BadRequest)
    case Marked(s', toKill) =>
      if toKill == [] then Next(s')
      else Next(Spawn(s', toKill))
  }

  /** A new killer actor */
  function Spawn(s: State, toKill: seq<JobId>): State {
    s.(killers := s.killers[s.crew.nextId := Killer(toKill, toKill, false)],
       crew := s.crew.(nextId := s.crew.nextId + 1), data := s.data.(nbKillers := s.data.nbKillers + 1))
  }

  /** The n ids from first on. */
  function NewIds(first: nat, n: nat): (ids: set<nat>)
    ensures |ids| == n && forall i :: i in ids <==> first <= i < first + n
  {
    if n == 0 then {} else NewIds(first, n - 1) + {first + n - 1}
  }

  /** server_on_submitter_bye */
  function LetGo(s: State, n: string): State {
    s.(crew := s.crew.(submitters := s.crew.submitters - {n}),
       data := s.data.(finishedSubmitters := s.data.finishedSubmitters + 1))
  }

  function LetEventsGo(s: State, n: string): State {
    s.(crew := s.crew.(eventSubmitters := s.crew.eventSubmitters - {n}),
       data := s.data.(finishedEventSubmitters := s.data.finishedEventSubmitters + 1))
  }

  /** server_on_call_me_later */
  function StartWaiting(s: State): State {
    s.(crew := s.crew.(waiters := s.crew.waiters + {s.crew.nextId}, nextId := s.crew.nextId + 1),
       data := s.data.(nbWaiters := s.data.nbWaiters + 1))
  }

  /** server_on_waiting_done */
  function EndWaiting(s: State, n: nat): State {
    s.(crew := s.crew.(waiters := s.crew.waiters - {n}), data := s.data.(nbWaiters := s.data.nbWaiters - 1))
  }

  /** server_on_pstate_modification, for the n machines that take time to switch */
  function StartSwitching(s: State, n: nat): State {
    s.(crew := s.crew.(switchers := s.crew.switchers + NewIds(s.crew.nextId, n), nextId := s.crew.nextId + n),
       data := s.data.(nbSwitching := s.data.nbSwitching + n))
  }

  /** server_on_switched */
  function EndSwitching(s: State, n: nat): State {
    s.(crew := s.crew.(switchers := s.crew.switchers - {n}), data := s.data.(nbSwitching := s.data.nbSwitching - 1))
  }

  function SetRegistration(s: State, finished: bool): State {
    s.(data := s.data.(registrationFinished := finished))
  }

  /** server_on_sched_ready */
  function TakeReady(s: State): State {
    s.(crew := s.crew.(scheduler := false),
       data := s.data.(schedReady := true, endAcked := s.data.endAcked || s.data.endSent))
  }

  predicate Known(s: State, m: Message) {
    match m
    case JobsSubmitted(_, js) => forall j :: j in js ==> j in s.jobs
    case JobCompleted(j) => j in s.jobs
    case JobRegistered(j) => j in s.jobs
    case KillingDone(k) => k in s.killers && forall j :: j in s.killers[k].all ==> j in s.jobs
    case _ => true
  }

  function Handle(c: Config, s: State, m: Message): Outcome
    requires Known(s, m)
  {
    match m
    case JobsSubmitted(_, js) => Next(OnSubmitted(s, js))
    case SubmitterBye(n) =>
      var s' := LetGo(s, n);
      Next(if s'.data.finishedSubmitters == c.expectedSubmitters then Emit(s', NoMoreJobs) else s')
    case EventsOccurred(e) => Next(Emit(s, ExternalEvents(e)))
    case EventSubmitterBye(n) =>
      var s' := LetEventsGo(s, n);
      Next(if s'.data.finishedEventSubmitters == c.expectedEventSubmitters then Emit(s', NoMoreEvents) else s')
    case JobCompleted(j) => OnJobCompleted(s, j)
    case KillingDone(k) => OnKillingDone(s, k)
    case WaitingDone(n) => Next(EndWaiting(Emit(s, RequestedCall(n)), n))
    case Switched(n) => Next(EndSwitching(Announce(s, n !in c.silent), n))
    case ExecuteJob(j) => OnExecute(s, j)
    case RejectJob(j) => OnReject(s, j)
    case KillJobs(js) => OnKillJobs(s, js)
    case CallMeLater(inFuture) => if inFuture then Next(StartWaiting(s)) else Dies(BadRequest)
    case ChangePstate(n, atOnce) => Next(StartSwitching(Announce(s, atOnce), n))
    case JobRegistered(j) => Next(if c.registrationAck then Emit(Count(s, j), SubmittedEvent(j)) else Count(s, j))
    case EndRegistration => Next(SetRegistration(s, true))
    case ContinueRegistration => Next(SetRegistration(s, false))
    case SchedReady => Next(TakeReady(s))
  }

  // ----- the end of the server's loop body -----

  predicate IsSimulationFinished(c: Config, d: Data) {
    && d.finishedSubmitters == c.expectedSubmitters
    && d.finishedEventSubmitters == c.expectedEventSubmitters
    && (!c.registration || d.registrationFinished)
    && d.nbCompleted == d.nbSubmitted
    && d.nbRunning == 0 && d.nbSwitching == 0 && d.nbWaiters == 0 && d.nbKillers == 0
  }

  /** generate_and_send_message */
  function Call(s: State): State {
    s.(talk := s.talk.(outgoing := [], calls := s.talk.calls + [s.talk.outgoing]),
       crew := s.crew.(scheduler := true), data := s.data.(schedReady := false))
  }

  predicate NoDup(js: seq<JobId>) {
    forall i, k :: 0 <= i < k < |js| ==> js[i] != js[k]
  }

  /** delete_jobs; a job that is not in memory any more cannot be deleted. */
  function DeleteJobs(s: State): Outcome {
    var b := s.books;
    if NoDup(b.toDelete) && forall j :: j in b.toDelete ==> j !in b.deleted
    then Next(s.(books := b.(deleted := b.deleted + (set j | j in b.toDelete), toDelete := [])))
    else Dies(Inconsistent)
  }

  function MaybeCall(c: Config, s: State): Outcome {
    if s.data.schedReady && !s.data.endAcked && s.mailbox == [] then
      if s.talk.outgoing != [] then DeleteJobs(Call(s))
      else if IsSimulationFinished(c, s.data) && !s.data.endSent then
        var s' := Call(Emit(s, SimulationEnds));
        Next(s'.(data := s'.data.(endSent := true)))
      else Next(s)
    else Next(s)
  }

  /** One turn of the server's loop. */
  function Serve(c: Config, s: State): Outcome
    requires s.mailbox != [] && Known(s, s.mailbox[0])
  {
    match Handle(c, s.(mailbox := s.mailbox[1..]), s.mailbox[0])
    case Dies(reason) => Dies(reason)
    case Next(s') => MaybeCall(c, s')
  }

  // ----- the other actors -----

  datatype Label =
    | AddsJob(job: JobId)
    | Submits(submitter: string, jobs: seq<JobId>)
    | SubmitterEnds(submitter: string)
    | EventsOccur(events: string)
    | EventSubmitterEnds(events: string)
    | JobEnds(job: JobId, state: JobState)
    | CancelledEnds(job: JobId)
    | KillerKills(killer: nat, directly: bool)
    | KillerPosts(killer: nat)
    | WaiterEnds(waiter: nat)
    | SwitchEnds(switcher: nat)
    | Requests(request: Message)
    | Serves

  function Post(s: State, m: Message): State {
    s.(mailbox := s.mailbox + [m])
  }

  function AddJob(s: State, j: JobId): State {
    s.(jobs := s.jobs[j := Job(NotSubmitted, false)])
  }

  /** The end of execute_job_process, unless the job was killed. */
  function EndAlone(s: State, j: JobId, state: JobState): State
    requires j in s.jobs
  {
    Post(SetState(s, j, state), JobCompleted(j))
  }

  function EndCancelled(s: State, j: JobId): State
    requires j in s.jobs
  {
    SetState(s, j, Killed).(executing := s.executing - {j}, cancelled := s.cancelled - {j})
  }

  function PostKill(s: State, k: nat): State
    requires k in s.killers
  {
    Post(s, KillingDone(k)).(killers := s.killers[k := s.killers[k].(posted := true)])
  }

  /** waiter_process does not speak once the end was announced. */
  function LoseWaiter(s: State, n: nat): State {
    s.(crew := s.crew.(waiters := s.crew.waiters - {n}, lostWaiters := s.crew.lostWaiters + 1))
  }

  function Ask(s: State, afterEnd: bool): State {
    s.(crew := s.crew.(requestedSinceEnd := s.crew.requestedSinceEnd || afterEnd))
  }

  /** The protocol reader puts a registered job into memory at once. */
  function PostRegistered(s: State, j: JobId): State {
    Post(s, JobRegistered(j)).(jobs := s.jobs[j := Job(Submitted, false)])
  }

  predicate SubmitterBusy(s: State, n: string) {
    exists m :: m in s.mailbox && ((m.JobsSubmitted? || m.SubmitterBye?) && m.submitter == n)
  }

  predicate EventSubmitterBusy(s: State, n: string) {
    EventsOccurred(n) in s.mailbox || EventSubmitterBye(n) in s.mailbox
  }

  predicate SchedulerBusy(s: State) {
    exists m :: m in s.mailbox && IsFromScheduler(m)
  }

  predicate MaySubmit(s: State, n: string, js: seq<JobId>) {
    && NoDup(js)
    && forall j :: j in js ==> j.workload == n && j in s.jobs && s.jobs[j].state.NotSubmitted?
  }

  /** A killer runs before the server takes another message, and jobs whose running task was cancelled
      end before the server hears that the killing is done. */
  predicate MayServe(s: State) {
    && s.mailbox != [] && !s.data.endAcked && Known(s, s.mailbox[0])
    && (forall k :: k in s.killers ==> s.killers[k].posted)
    && (s.mailbox[0].KillingDone? ==>
          forall j :: j in s.killers[s.mailbox[0].killer].all ==> j !in s.cancelled)
  }

  predicate Enabled(c: Config, s: State, l: Label) {
    match l
    case AddsJob(j) => j !in s.jobs
    case Submits(n, js) => n in s.crew.submitters && !SubmitterBusy(s, n) && MaySubmit(s, n, js)
    case SubmitterEnds(n) => n in s.crew.submitters && !SubmitterBusy(s, n)
    case EventsOccur(n) => n in s.crew.eventSubmitters && !EventSubmitterBusy(s, n)
    case EventSubmitterEnds(n) => n in s.crew.eventSubmitters && !EventSubmitterBusy(s, n)
    case JobEnds(j, state) =>
      j in s.executing && j !in s.cancelled && j in s.jobs && s.jobs[j].state.Running? && EndedAlone(state)
    case CancelledEnds(j) => j in s.cancelled && j in s.jobs
    case KillerKills(k, directly) => k in s.killers && s.killers[k].todo != []
    case KillerPosts(k) => k in s.killers && s.killers[k].todo == [] && !s.killers[k].posted
    case WaiterEnds(n) => n in s.crew.waiters && WaitingDone(n) !in s.mailbox
    case SwitchEnds(n) => n in s.crew.switchers && Switched(n) !in s.mailbox
    case Requests(m) =>
      && s.crew.scheduler && !SchedulerBusy(s) && IsFromScheduler(m)
      && (m.JobRegistered? ==> c.registration && !s.data.registrationFinished && m.job !in s.jobs)
    case Serves => MayServe(s)
  }

  /** killer_process looks at its next job. */
  function KillNext(s: State, k: nat, directly: bool): Outcome
    requires k in s.killers && s.killers[k].todo != []
  {
    var killer := s.killers[k];
    var j := killer.todo[0];
    var s' := s.(killers := s.killers[k := killer.(todo := killer.todo[1..])]);
    if j !in s.jobs || j in s.books.deleted then Dies(Inconsistent)
    else
      match s.jobs[j].state
      case Rejected => Dies(BadKill)
      case Submitted => Dies(BadKill)
      case NotSubmitted => Dies(BadKill)
      case Running =>
        if directly && j !in s.executing then Dies(Inconsistent)
        else if directly then Next(SetState(s', j, Killed).(executing := s.executing - {j}))
        else Next(s'.(cancelled := s.cancelled + {j}))
      case _ => Next(s')
  }

  function Do(c: Config, s: State, l: Label): Outcome
    requires Enabled(c, s, l)
  {
    match l
    case AddsJob(j) => Next(AddJob(s, j))
    case Submits(n, js) => Next(Post(s, JobsSubmitted(n, js)))
    case SubmitterEnds(n) => Next(Post(s, SubmitterBye(n)))
    case EventsOccur(n) => Next(Post(s, EventsOccurred(n)))
    case EventSubmitterEnds(n) => Next(Post(s, EventSubmitterBye(n)))
    case JobEnds(j, state) => Next(EndAlone(s, j, state))
    case CancelledEnds(j) => Next(EndCancelled(s, j))
    case KillerKills(k, directly) => KillNext(s, k, directly)
    case KillerPosts(k) => Next(PostKill(s, k))
    case WaiterEnds(n) =>
      Next(if s.data.endSent || s.data.endAcked then LoseWaiter(s, n) else Post(s, WaitingDone(n)))
    case SwitchEnds(n) => Next(Post(s, Switched(n)))
    case Requests(m) =>
      var s' := Ask(s, s.data.endSent && !m.SchedReady?);
      Next(if m.JobRegistered? then PostRegistered(s', m.job) else Post(s', m))
    case Serves => Serve(c, s)
  }

  // ----- runs -----

  /** The first call of the scheduler, with SIMULATION_BEGINS, is under way. */
  ghost predicate Init(c: Config, s: State) {
    && (forall j :: j in s.jobs ==> s.jobs[j] == Job(NotSubmitted, false))
    && s.executing == {} && s.cancelled == {} && s.killers == map[] && s.mailbox == []
    && s.crew.waiters == {} && s.crew.switchers == {} && s.crew.scheduler
    && |s.crew.submitters| == c.expectedSubmitters && |s.crew.eventSubmitters| == c.expectedEventSubmitters
    && s.crew.lostWaiters == 0 && !s.crew.requestedSinceEnd
    && s.data == Data(0, 0, 0, 0, 0, 0, 0, 0, false, false, false, false)
    && s.books == Books([], {}, {}, {}, [], []) && s.talk == Talk([], [[SimulationBegins]], [SimulationBegins])
  }

  ghost predicate StepAt(c: Config, run: seq<State>, labels: seq<Label>, i: nat)
    requires i < |labels| && |run| == |labels| + 1
  {
    Enabled(c, run[i], labels[i]) && Do(c, run[i], labels[i]) == Next(run[i + 1])
  }

  ghost predicate Run(c: Config, run: seq<State>, labels: seq<Label>) {
    && |run| == |labels| + 1 && Init(c, run[0])
    && forall i {:trigger StepAt(c, run, labels, i)} :: 0 <= i < |labels| ==> StepAt(c, run, labels, i)
  }
}
