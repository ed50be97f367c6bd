/** execute_task walks the task tree exactly as the flat program of its profile runs, and the indices a
    kill would follow are right at the start of every leaf. */
module TaskExecution {
  import opened Options
  import opened RowMajor
  import opened TaskPrograms
  import opened TaskPaths
  import opened TaskTrees

  /** The current indices lead along the path from the root to the task; only the tasks above are read. */
  ghost predicate Leads(root: BatTask, path: Path, task: BatTask, above: set<BatTask>)
    reads above`currentTaskIndex
    decreases |path|
  {
    if path == [] then root == task
    else
      && root in above && root.Valid() && path[0] < |root.subTasks| && root.currentTaskIndex == path[0]
      && root.ValidSub(path[0]) && Leads(root.subTasks[path[0]], path[1..], task, above)
  }

  lemma {:induction false} LeadsMeansReaches(root: BatTask, path: Path, task: BatTask, above: set<BatTask>)
    requires root.Valid() && Leads(root, path, task, above)
    ensures Reaches(root, path, task)
    decreases |path|
  {
    if path != [] {
      assert root.ValidSub(path[0]);
      LeadsMeansReaches(root.subTasks[path[0]], path[1..], task, above);
    }
  }

  lemma {:induction false} LeadsOn(root: BatTask, path: Path, task: BatTask, above: set<BatTask>, k: nat)
    requires task.Valid() && Leads(root, path, task, above)
    requires k < |task.subTasks| && task.currentTaskIndex == k
    ensures Leads(root, path + [k], task.subTasks[k], above + {task})
    decreases |path|
  {
    assert task.ValidSub(k);
    if path == [] {
      assert [k][1..] == [];
    } else {
      assert root.ValidSub(path[0]);
      assert (path + [k])[1..] == path[1..] + [k];
      LeadsOn(root.subTasks[path[0]], path[1..], task, above, k);
    }
  }

  /** A kill would follow the path to this leaf, and cancel it exactly if it is a parallel task. */
  ghost predicate KillFinds(root: BatTask, path: Path, leaf: BatTask)
    reads root.repr`currentTaskIndex, root.repr`hasPtask, leaf`hasPtask
  {
    && root.Valid() && Reaches(root, path, leaf) && leaf.subTasks == [] && !leaf.profile.Sequence?
    && PtasksInPlace(root.repr) && leaf.hasPtask == leaf.profile.ParallelTask?
  }

  // ----- what an execution has to do -----

  /** From clock c the task ended with this code and clock, as its flat program does; the log got the
      paths of the leaves that were started, in tree order. */
  ghost predicate Executed(p: Profile, path: Path, c: Clock, env: Platform, code: int, clock: Clock,
                           log0: seq<Path>, log: seq<Path>)
  {
    var r := Run(p, c, env);
    && code == r.code && clock == r.clock
    && r.leaves <= |LeafPaths(p)| && (code == 0 ==> r.leaves == |LeafPaths(p)|)
    && log == log0 + Under(path, LeafPaths(p)[..r.leaves])
  }

  /** The first k sub-tasks were executed. */
  ghost predicate Done(p: Profile, path: Path, k: nat, c: Clock, env: Platform, clock: Clock,
                       log0: seq<Path>, log: seq<Path>)
    requires p.Sequence?
  {
    if |p.subs| == 0 then clock == c && log == log0
    else
      && RunTo(p, k, c, env) == Result(0, clock, |LeafPathsTo(p, k)|)
      && log == log0 + Under(path, LeafPathsTo(p, k))
  }

  lemma DoneNothing(p: Profile, path: Path, c: Clock, env: Platform, log0: seq<Path>)
    requires p.Sequence?
    ensures Done(p, path, 0, c, env, c, log0, log0)
  {
  }

  lemma DoneNext(p: Profile, path: Path, k: nat, c: Clock, env: Platform, clock: Clock, log0: seq<Path>,
                 log: seq<Path>, clock': Clock, log': seq<Path>)
    requires p.Sequence? && |p.subs| > 0 && Done(p, path, k, c, env, clock, log0, log)
    requires Executed(SubAt(p, k), path + [k], clock, env, 0, clock', log, log')
    ensures Done(p, path, k + 1, c, env, clock', log0, log')
  {
    hide LeafPaths, Run, RunTo;
    RunNext(p, k, c, env);
    NextLeaves(p, path, k);
    var sub := LeafPaths(SubAt(p, k));
    assert sub[..|sub|] == sub;
  }

  lemma DoneFails(p: Profile, path: Path, k: nat, c: Clock, env: Platform, clock: Clock, log0: seq<Path>,
                  log: seq<Path>, code: int, clock': Clock, log': seq<Path>)
    requires p.Sequence? && |p.subs| > 0 && k < SubCount(p) && Done(p, path, k, c, env, clock, log0, log)
    requires Executed(SubAt(p, k), path + [k], clock, env, code, clock', log, log') && code != 0
    ensures Executed(p, path, c, env, code, clock', log0, log')
  {
    hide LeafPaths, Run, RunTo, LeafPathsTo;
    RunNext(p, k, c, env);
    FailureStays(p, k + 1, SubCount(p), c, env);
    RunWhole(p, c, env);
    FirstLeaves(p, path, k, Run(SubAt(p, k), clock, env).leaves);
  }

  lemma DoneWhole(p: Profile, path: Path, c: Clock, env: Platform, clock: Clock, log0: seq<Path>, log: seq<Path>)
    requires p.Sequence? && Done(p, path, SubCount(p), c, env, clock, log0, log)
    ensures Executed(p, path, c, env, p.code, clock, log0, log)
  {
    hide Run, RunTo;
    RunWhole(p, c, env);
    var all := LeafPaths(p);
    assert all[..|all|] == all;
  }

  lemma LeafExecuted(p: Profile, path: Path, c: Clock, env: Platform, log0: seq<Path>)
    requires !p.Sequence?
    ensures var (code, clock) := RunLeaf(p, c, env); Executed(p, path, c, env, code, clock, log0, log0 + [path])
  {
    hide Run, RunLeaf;
    RunsLeaf(p, c, env);
    var here: Path := [];
    assert LeafPaths(p)[..1] == [here] && path + here == path;
    assert Under(path, [here]) == [path];
  }

  // ----- the execution -----

  /** What a leaf records before it runs. */
  method StartLeaf(btask: BatTask, actor: Actor, ghost root: BatTask, ghost path: Path, ghost above: set<BatTask>)
    requires root.Valid() && btask.Valid() && !btask.profile.Sequence?
    requires Leads(root, path, btask, above) && btask !in above && btask in root.repr && PtasksInPlace(root.repr)
    modifies btask`hasPtask, btask`delayTaskStart, btask`delayTaskRequired, actor`log
    ensures KillFinds(root, path, btask) && actor.log == old(actor.log) + [path]
    ensures btask.profile.Delay? ==> btask.delayTaskStart == actor.now && btask.delayTaskRequired == btask.profile.delay
  {
    match btask.profile {
      case ParallelTask(_) =>
        btask.hasPtask := true;
      case Delay(delay, _) =>
        btask.delayTaskStart, btask.delayTaskRequired := actor.now, delay;
      case Send(_, _) =>
    }
    LeadsMeansReaches(root, path, btask, above);
    ChainReaches(root, path, btask);
    actor.log := actor.log + [root.Chain()];
  }

  method ExecuteLeaf(btask: BatTask, actor: Actor, ghost root: BatTask, ghost path: Path, ghost above: set<BatTask>)
    returns (code: int)
    requires root.Valid() && btask.Valid() && !btask.profile.Sequence?
    requires Leads(root, path, btask, above) && btask !in above && btask in root.repr && PtasksInPlace(root.repr)
    modifies btask`hasPtask, btask`delayTaskStart, btask`delayTaskRequired
    modifies actor`now, actor`remaining, actor`started, actor`sent, actor`log
    ensures KillFinds(root, path, btask)
    ensures Executed(btask.profile, path, old(actor.View()), actor.env, code, actor.View(), old(actor.log), actor.log)
  {
    hide Executed, Leads, KillFinds, Sleep, RunParallelTask;
    LeafExecuted(btask.profile, path, actor.View(), actor.env, actor.log);
    StartLeaf(btask, actor, root, path, above);
    match btask.profile {
      case ParallelTask(profileCode) =>
        code := actor.ParallelTask(profileCode);
      case Delay(delay, profileCode) =>
        code := actor.DelayTask(delay);
        if code == 0 {
          code := profileCode;
        }
      case Send(sleeptime, profileCode) =>
        actor.sent := actor.sent + 1;
        code := actor.DelayTask(sleeptime);
        if code == 0 {
          code := profileCode;
        }
    }
  }

  /** execute_task */
  method ExecuteTask(btask: BatTask, actor: Actor, ghost root: BatTask, ghost path: Path, ghost above: set<BatTask>)
    returns (code: int)
    requires root.Valid() && btask.Valid()
    requires Leads(root, path, btask, above) && above !! btask.repr && btask.repr <= root.repr
    requires PtasksInPlace(root.repr)
    modifies btask.repr`currentTaskIndex, btask.repr`hasPtask
    modifies btask.repr`delayTaskStart, btask.repr`delayTaskRequired
    modifies actor`now, actor`remaining, actor`started, actor`sent, actor`log
    ensures PtasksInPlace(root.repr)
    ensures Executed(btask.profile, path, old(actor.View()), actor.env, code, actor.View(), old(actor.log), actor.log)
    decreases btask.repr, 1
  {
    hide Leads, Done, Executed;
    var profile := btask.profile;
    if !profile.Sequence? {
      code := ExecuteLeaf(btask, actor, root, path, above);
      return;
    }
    ghost var c, log0, n := actor.View(), actor.log, |profile.subs|;
    DoneNothing(profile, path, c, actor.env, log0);
    for iteration := 0 to profile.repeat
      invariant Leads(root, path, btask, above) && PtasksInPlace(root.repr)
      invariant Done(profile, path, Times(iteration, n), c, actor.env, actor.View(), log0, actor.log)
    {
      for index := 0 to |profile.subs|
        invariant Leads(root, path, btask, above) && PtasksInPlace(root.repr)
        invariant Done(profile, path, Times(iteration, n) + index, c, actor.env, actor.View(), log0, actor.log)
      {
        code := ExecuteSub(btask, actor, iteration, index, root, path, above, c, log0);
        if code != 0 {
          return;
        }
      }
    }
    DoneWhole(profile, path, c, actor.env, actor.View(), log0, actor.log);
    code := profile.code;
  }

  /** One turn of the inner loop. */
  method ExecuteSub(btask: BatTask, actor: Actor, iteration: nat, index: nat, ghost root: BatTask, ghost path: Path,
                    ghost above: set<BatTask>, ghost c: Clock, ghost log0: seq<Path>)
    returns (code: int)
    requires root.Valid() && btask.Valid() && btask.profile.Sequence?
    requires iteration < btask.profile.repeat && index < |btask.profile.subs|
    requires Leads(root, path, btask, above) && above !! btask.repr && btask.repr <= root.repr
    requires PtasksInPlace(root.repr)
    requires Done(btask.profile, path, Times(iteration, |btask.profile.subs|) + index, c, actor.env, actor.View(),
                  log0, actor.log)
    modifies btask.repr`currentTaskIndex, btask.repr`hasPtask
    modifies btask.repr`delayTaskStart, btask.repr`delayTaskRequired
    modifies actor`now, actor`remaining, actor`started, actor`sent, actor`log
    ensures PtasksInPlace(root.repr) && Leads(root, path, btask, above)
    ensures if code == 0
            then Done(btask.profile, path, Times(iteration, |btask.profile.subs|) + index + 1, c, actor.env,
                      actor.View(), log0, actor.log)
            else Executed(btask.profile, path, c, actor.env, code, actor.View(), log0, actor.log)
    decreases btask.repr, 0
  {
    hide Done, Executed, Leads, PtasksInPlace, LeafPaths, LeafPathsTo, SubAt;
    ghost var p, k := btask.profile, Times(iteration, |btask.profile.subs|) + index;
    TimesIsProduct(iteration, |btask.profile.subs|);
    IndexInRange(p, iteration, index);
    btask.currentTaskIndex := iteration * |btask.profile.subs| + index;
    LeadsOn(root, path, btask, above, k);
    assert btask.ValidSub(k);
    ghost var clock, log := actor.View(), actor.log;
    code := ExecuteTask(btask.subTasks[btask.currentTaskIndex], actor, root, path + [k], above + {btask});
    if code == 0 {
      DoneNext(p, path, k, c, actor.env, clock, log0, log, actor.View(), actor.log);
    } else {
      DoneFails(p, path, k, c, actor.env, clock, log0, log, code, actor.View(), actor.log);
    }
  }

  // ----- the job -----

  datatype JobEnd = Success | Failed | WalltimeReached | Killed

  /** Profile return codes are not negative and delays last. */
  ghost predicate Sensible(p: Profile) {
    match p
    case Delay(delay, code) => delay > 0.0 && code >= 0
    case Send(sleeptime, code) => sleeptime > 0.0 && code >= 0
    case ParallelTask(code) => code >= 0
    case Sequence(_, subs, code) => code >= 0 && forall i :: 0 <= i < |subs| ==> Sensible(subs[i])
  }

  lemma {:induction false} FlatIsPlain(p: Profile)
    requires Sensible(p)
    ensures AllPlain(Flat(p))
    decreases p, if p.Sequence? then |p.subs| + 1 else 0
  {
    if p.Sequence? {
      FlatSubsIsPlain(p, |p.subs|);
      RepeatedIsPlain(FlatSubs(p, |p.subs|), p.repeat);
    }
  }

  lemma {:induction false} FlatSubsIsPlain(p: Profile, n: nat)
    requires Sensible(p) && p.Sequence? && n <= |p.subs|
    ensures AllPlain(FlatSubs(p, n))
    decreases p, n
  {
    if n > 0 {
      FlatSubsIsPlain(p, n - 1);
      FlatIsPlain(p.subs[n - 1]);
    }
  }

  lemma {:induction false} RepeatedIsPlain(s: seq<Instruction>, n: nat)
    requires AllPlain(s)
    ensures AllPlain(Repeated(s, n))
  {
    if n > 0 {
      RepeatedIsPlain(s, n - 1);
    }
  }

  /** Throughout a job's execution, after any number k of its steps: with a walltime, elapsed plus
      remaining time is the walltime; the walltime code comes exactly at its end, and never without one. */
  lemma JobBudget(p: Profile, start: real, walltime: real, env: Platform, k: nat)
    requires Sensible(p) && Realistic(env) && k <= |Flat(p)|
    ensures IsProgram(Flat(p)[..k])
    ensures var r := Interpret(Flat(p)[..k], Clock(start, walltime, 0, 0), env);
            && r.code >= -2 && r.clock.now >= start
            && (walltime >= 0.0 ==>
                  && r.clock.remaining >= 0.0 && (r.clock.now - start) + r.clock.remaining == walltime
                  && (r.code == -1 ==> r.clock.now == start + walltime))
            && (walltime < 0.0 ==> r.code != -1)
  {
    FlatIsProgram(p);
    FlatIsPlain(p);
    BudgetKept(Flat(p)[..k], Clock(start, walltime, 0, 0), env);
  }

  /** execute_job_process, as far as the job's own state goes. It needs an IO profile of the job's shape, which
      the protocol reader checks for the root only: ok is false if it has another shape further down. */
  method ExecuteJob(profile: Profile, ioProfile: Option<Profile>, env: Platform, startingTime: real, walltime: real)
    returns (ok: bool, returnCode: int, end: JobEnd, notifiesServer: bool, task: BatTask, runtime: real,
             ghost log: seq<Path>)
    requires Sensible(profile) && Realistic(env)
    ensures ok <==> Fits(profile, ioProfile)
    ensures ok ==> task.Valid() && task.profile == profile && task.RunsBeside(ioProfile) && fresh(task.repr)
    ensures ok ==> JobDone(profile, startingTime, walltime, env, returnCode, end, notifiesServer, runtime, log)
    ensures ok ==> JobMeans(profile, startingTime, walltime, env, returnCode, end, notifiesServer, log)
  {
    ghost var path: Path := [];
    returnCode, end, notifiesServer, runtime, log := 0, Success, false, 0.0, [];
    var actor := new Actor(env, startingTime, walltime);
    ok, task := InitializeSequentialTasks(profile, ioProfile);
    if !ok {
      return;
    }
    returnCode := ExecuteTask(task, actor, task, path, {});
    log := actor.log;
    runtime := actor.now - startingTime;
    JobEnds(profile, startingTime, walltime, env, returnCode, actor.View(), log);
    if returnCode == 0 {
      end := Success;
    } else if returnCode > 0 {
      end := Failed;
    } else if returnCode == -1 {
      end := WalltimeReached;
    } else {
      assert returnCode == -2;
      end := Killed;
    }
    notifiesServer := end != Killed;
    JobMeaning(profile, startingTime, walltime, env, returnCode, end, notifiesServer, runtime, log);
  }

  /** What the end of a job comes from: it is killed, and the server not told, if and only if the platform cancelled
      its last parallel task; it reaches its walltime if and only if its last leaf did not end before; otherwise
      it succeeds if and only if no part of its profile has a return code, and fails with the first one. */
  ghost predicate JobMeans(profile: Profile, startingTime: real, walltime: real, env: Platform, returnCode: int,
                           end: JobEnd, notifiesServer: bool, log: seq<Path>)
  {
    && IsProgram(Flat(profile))
    && var starts := Starts(Flat(profile), Clock(startingTime, walltime, 0, 0), env);
       && |starts| == |log|
       && (notifiesServer <==> end != Killed)
       && (end == Killed <==>
             && starts != [] && starts[|starts| - 1].leaf.ParallelTask?
             && var last := starts[|starts| - 1].clock; env(last.started, last.now, last.remaining).Cancelled?)
       && (end == WalltimeReached <==>
             && starts != []
             && var last := starts[|starts| - 1].clock;
                match starts[|starts| - 1].leaf
                case ParallelTask(_) => env(last.started, last.now, last.remaining).TimesOut?
                case Delay(delay, _) => last.remaining >= 0.0 && delay >= last.remaining
                case Send(sleeptime, _) => last.remaining >= 0.0 && sleeptime >= last.remaining
                case Sequence(_, _, _) => false)
       && (end != Killed && end != WalltimeReached ==>
             returnCode == ProfileCode(profile) && (end == Success <==> ProfileCode(profile) == 0))
  }

  lemma JobMeaning(profile: Profile, startingTime: real, walltime: real, env: Platform, returnCode: int, end: JobEnd,
                   notifiesServer: bool, runtime: real, log: seq<Path>)
    requires Sensible(profile) && Realistic(env)
    requires JobDone(profile, startingTime, walltime, env, returnCode, end, notifiesServer, runtime, log)
    ensures JobMeans(profile, startingTime, walltime, env, returnCode, end, notifiesServer, log)
  {
    var c := Clock(startingTime, walltime, 0, 0);
    FlatIsProgram(profile);
    FlatIsPlain(profile);
    KilledIffCancelled(Flat(profile), c, env);
    WalltimeIffTimedOut(Flat(profile), c, env);
    ElseFirstCode(Flat(profile), c, env);
    FlatCode(profile);
    StartsMany(Flat(profile), c, env);
    hide Flat, Starts, Interpret, ProfileCode, FirstCode, LeafPaths, Realistic, Sensible;
  }

  /** How a job ends: as its flat program does, never after its walltime, and never with an unknown code. */
  ghost predicate JobDone(profile: Profile, startingTime: real, walltime: real, env: Platform, returnCode: int,
                          end: JobEnd, notifiesServer: bool, runtime: real, log: seq<Path>)
  {
    var r := Run(profile, Clock(startingTime, walltime, 0, 0), env);
    && returnCode == r.code && runtime == r.clock.now - startingTime && runtime >= 0.0
    && r.leaves <= |LeafPaths(profile)| && log == LeafPaths(profile)[..r.leaves]
    && end == (match returnCode
               case 0 => Success
               case -1 => WalltimeReached
               case -2 => Killed
               case _ => Failed)
    && (notifiesServer <==> returnCode != -2)
    && (walltime >= 0.0 ==> runtime <= walltime && (end == WalltimeReached ==> runtime == walltime))
    && (walltime < 0.0 ==> end != WalltimeReached)
  }

  lemma JobEnds(p: Profile, start: real, walltime: real, env: Platform, code: int, clock: Clock, log: seq<Path>)
    requires Sensible(p) && Realistic(env)
    requires Executed(p, [], Clock(start, walltime, 0, 0), env, code, clock, [], log)
    ensures var r := Run(p, Clock(start, walltime, 0, 0), env);
            && code == r.code && clock == r.clock && code >= -2 && clock.now >= start
            && r.leaves <= |LeafPaths(p)| && log == LeafPaths(p)[..r.leaves]
    ensures walltime >= 0.0 ==> clock.now <= start + walltime && (code == -1 ==> clock.now == start + walltime)
    ensures walltime < 0.0 ==> code != -1
  {
    JobBudget(p, start, walltime, env, |Flat(p)|);
    assert Flat(p)[..|Flat(p)|] == Flat(p);
    var r := Run(p, Clock(start, walltime, 0, 0), env);
    var first, here: Path := LeafPaths(p)[..r.leaves], [];
    assert forall i :: 0 <= i < |first| ==> here + first[i] == first[i];
    assert Under(here, first) == first;
  }
}
