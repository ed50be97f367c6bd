/** The tree of tasks a job is executed by: how it is built, how execution walks it with indices while the
    walltime runs, and what a kill finds in it. */
module TaskTrees {
  import opened Options
  import opened RowMajor
  import opened TaskPrograms
  import opened TaskPaths

  /** The job actor's clock and budget. The log says what indices a kill would have followed at the
      start of each leaf. */
  class Actor {
    const env: Platform
    var now: real
    var remaining: real
    var started: nat
    var sent: nat
    ghost var log: seq<Path>

    constructor (env: Platform, now: real, walltime: real)
      ensures this.env == env && View() == Clock(now, walltime, 0, 0) && log == []
    {
      this.env, this.now, remaining, started, sent, log := env, now, walltime, 0, 0, [];
    }

    function View(): Clock
      reads this`now, this`remaining, this`started, this`sent
    {
      Clock(now, remaining, started, sent)
    }

    /** do_delay_task */
    method DelayTask(sleeptime: real) returns (code: int)
      modifies this`now, this`remaining
      ensures (code, View()) == Sleep(sleeptime, old(View()))
    {
      if remaining < 0.0 || sleeptime < remaining {
        now := now + sleeptime;
        if remaining > 0.0 {
          remaining := remaining - sleeptime;
        }
        return 0;
      } else {
        now := now + remaining;
        remaining := 0.0;
        return -1;
      }
    }

    /** The waiting part of execute_parallel_task. */
    method ParallelTask(profileCode: int) returns (ret: int)
      modifies this`now, this`remaining, this`started
      ensures (ret, View()) == RunParallelTask(profileCode, old(View()), env)
    {
      ret := profileCode;
      var ending := env(started, now, remaining);
      started := started + 1;
      var before := now;
      match ending {
        case TimesOut =>
          now := now + remaining;
          ret := -1;
        case Finishes(after) =>
          now := now + after;
        case Cancelled(after) =>
          now := now + after;
          ret := -2;
      }
      if remaining < 0.0 && !ending.TimesOut? {
        // without walltime
      } else {
        remaining := remaining - (now - before);
      }
    }
  }

  class BatTask {
    const profile: Profile
    const ioProfile: Option<Profile>
    const subTasks: seq<BatTask>
    ghost const repr: set<BatTask>

    var currentTaskIndex: int
    var hasPtask: bool
    var cancelAsked: bool
    var delayTaskStart: real
    var delayTaskRequired: real
    var progress: real

    constructor (profile: Profile, ioProfile: Option<Profile>, subTasks: seq<BatTask>)
      ensures this.profile == profile && this.ioProfile == ioProfile && this.subTasks == subTasks
      ensures repr == {this} + Below(subTasks)
      ensures currentTaskIndex == -1 && !hasPtask && !cancelAsked && delayTaskStart == -1.0
    {
      this.profile, this.ioProfile, this.subTasks := profile, ioProfile, subTasks;
      repr := {this} + Below(subTasks);
      currentTaskIndex, hasPtask, cancelAsked := -1, false, false;
      delayTaskStart, delayTaskRequired, progress := -1.0, 0.0, 0.0;
    }

    /** The tree below this task is the unrolled profile, every sub-task at its place. */
    ghost predicate Valid()
      decreases repr, 1
    {
      && repr == {this} + Below(subTasks)
      && |subTasks| == (if profile.Sequence? then SubCount(profile) else 0)
      && (forall i :: 0 <= i < |subTasks| ==> ValidSub(i))
      && forall i, j :: 0 <= i < j < |subTasks| ==> subTasks[i].repr !! subTasks[j].repr
    }

    ghost predicate ValidSub(i: nat)
      requires i < |subTasks|
      decreases repr, 0
    {
      && profile.Sequence? && |profile.subs| > 0 && subTasks[i].profile == SubAt(profile, i)
      && this !in subTasks[i].repr && subTasks[i].repr < repr && subTasks[i].Valid()
    }

    /** Every leaf keeps the IO profile that stands at its place, and only leaves do. */
    ghost predicate RunsBeside(io: Option<Profile>)
      requires Valid()
      decreases repr
    {
      if profile.Sequence? then
        && ioProfile == None
        && forall i :: 0 <= i < |subTasks| ==> ValidSub(i) && subTasks[i].RunsBeside(IoAt(profile, io, i))
      else ioProfile == io
    }

    /** The indices that lead down from here. */
    ghost function Chain(): (path: Path)
      requires Valid()
      reads repr`currentTaskIndex
      decreases repr
    {
      if 0 <= currentTaskIndex < |subTasks| && ValidSub(currentTaskIndex)
      then [currentTaskIndex as nat] + subTasks[currentTaskIndex].Chain()
      else []
    }

    /** cancel_ptask */
    method CancelPtask(ghost path: Path, ghost leaf: BatTask) returns (cancelled: bool)
      requires Valid() && Reaches(this, path, leaf) && leaf.subTasks == [] && PtasksInPlace(repr)
      modifies repr`cancelAsked
      ensures cancelled == leaf.hasPtask
      ensures forall t :: t in repr ==> t.cancelAsked == (old(t.cancelAsked) || (t == leaf && leaf.hasPtask))
      decreases repr
    {
      cancelled := false;
      if hasPtask {
        cancelAsked := true;
        cancelled := true;
      }
      if subTasks != [] {
        assert path != [] && ValidSub(path[0]);
        ReachesInside(subTasks[currentTaskIndex], path[1..], leaf);
        if !cancelled {
          cancelled := subTasks[currentTaskIndex].CancelPtask(path[1..], leaf);
        }
      }
    }

    /** compute_tasks_progress: only the leaf's progress changes; ok is false where the source's check that a
        delay has started fails. */
    method ComputeTasksProgress(now: real, remainingRatio: real, ghost path: Path, ghost leaf: BatTask)
      returns (ok: bool)
      requires Valid() && Reaches(this, path, leaf) && leaf.subTasks == []
      requires !leaf.profile.Sequence?
      modifies repr`progress
      ensures forall t :: t in repr && t != leaf ==> t.progress == old(t.progress)
      ensures ok <==> (leaf.profile.Delay? ==> leaf.delayTaskStart != -1.0)
      ensures ok ==> leaf.progress == match leaf.profile
                case ParallelTask(_) => if leaf.hasPtask then 1.0 - remainingRatio else 0.0
                case Delay(_, _) => if leaf.delayTaskRequired == 0.0 then 1.0
                                    else (now - leaf.delayTaskStart) / leaf.delayTaskRequired
                case _ => old(leaf.progress)
      decreases repr
    {
      if profile.Sequence? {
        assert path != [] && ValidSub(path[0]);
        ok := subTasks[currentTaskIndex].ComputeTasksProgress(now, remainingRatio, path[1..], leaf);
      } else {
        ok := true;
        match profile {
          case ParallelTask(_) =>
            if hasPtask {
              progress := 1.0 - remainingRatio;
            } else {
              progress := 0.0;
            }
          case Delay(_, _) =>
            if delayTaskStart == -1.0 {
              ok := false;
            } else if delayTaskRequired == 0.0 {
              progress := 1.0;
            } else {
              progress := (now - delayTaskStart) / delayTaskRequired;
            }
          case _ =>
        }
      }
    }
  }

  /** Only parallel tasks have a ptask. */
  ghost predicate PtasksInPlace(tasks: set<BatTask>)
    reads tasks`hasPtask
  {
    forall t :: t in tasks && t.hasPtask ==> t.profile.ParallelTask?
  }

  ghost function Below(tasks: seq<BatTask>): set<BatTask> {
    set i, t | 0 <= i < |tasks| && t in tasks[i].repr :: t
  }

  /** The current indices lead from the root to t along the path. */
  ghost predicate Reaches(root: BatTask, path: Path, t: BatTask)
    requires root.Valid()
    reads root.repr`currentTaskIndex
    decreases |path|
  {
    if path == [] then root == t
    else
      && path[0] < |root.subTasks| && root.currentTaskIndex == path[0]
      && root.ValidSub(path[0]) && Reaches(root.subTasks[path[0]], path[1..], t)
  }

  lemma {:induction false} ReachesInside(root: BatTask, path: Path, t: BatTask)
    requires root.Valid() && Reaches(root, path, t)
    ensures t in root.repr && t.Valid() && t.repr <= root.repr
    decreases |path|
  {
    if path != [] {
      assert root.ValidSub(path[0]);
      ReachesInside(root.subTasks[path[0]], path[1..], t);
    }
  }

  /** A kill that comes while a leaf runs finds this leaf. */
  lemma {:induction false} ChainReaches(root: BatTask, path: Path, leaf: BatTask)
    requires root.Valid() && Reaches(root, path, leaf) && leaf.subTasks == []
    ensures root.Chain() == path
    decreases |path|
  {
    if path != [] {
      assert root.ValidSub(path[0]);
      ChainReaches(root.subTasks[path[0]], path[1..], leaf);
    }
  }

  /** ... which has the profile and the IO profile named by the path. */
  lemma {:induction false} LeafNamed(root: BatTask, path: Path, leaf: BatTask, io: Option<Profile>)
    requires root.Valid() && Reaches(root, path, leaf) && !leaf.profile.Sequence?
    requires root.RunsBeside(io)
    ensures LeadsToLeaf(root.profile, path)
    ensures leaf.profile == ProfileAt(root.profile, path) && leaf.ioProfile == IoAlong(root.profile, io, path)
    decreases |path|
  {
    if path != [] {
      assert root.ValidSub(path[0]);
      LeafNamed(root.subTasks[path[0]], path[1..], leaf, IoAt(root.profile, io, path[0]));
    }
  }

  ghost function ProfileAt(p: Profile, path: Path): Profile
    requires LeadsToLeaf(p, path)
    decreases |path|
  {
    if path == [] then p else ProfileAt(SubAt(p, path[0]), path[1..])
  }

  ghost function IoAlong(p: Profile, io: Option<Profile>, path: Path): Option<Profile>
    requires LeadsToLeaf(p, path)
    decreases |path|
  {
    if path == [] then io else IoAlong(SubAt(p, path[0]), IoAt(p, io, path[0]), path[1..])
  }

  // ----- building the tree -----

  /** The IO profile repeats the shape of the profile it runs beside, wherever that has parts. */
  predicate Fits(p: Profile, io: Option<Profile>) {
    p.Sequence? && p.repeat > 0 && |p.subs| > 0 && io.Some? ==>
      && io.value.Sequence? && |io.value.subs| >= |p.subs|
      && forall i :: 0 <= i < |p.subs| ==> Fits(p.subs[i], Some(io.value.subs[i]))
  }

  /** What the protocol reader checks: the root only, and only if the IO profile is a sequence. */
  predicate RootChecked(p: Profile, io: Option<Profile>) {
    io.Some? && io.value.Sequence? ==> p.Sequence? && |p.subs| == |io.value.subs|
  }

  /** The check is enough for a sequence of parallel tasks and delays with an IO sequence ... */
  lemma RootCheckEnough(p: Profile, io: Option<Profile>)
    requires RootChecked(p, io) && (p.Sequence? ==> forall i :: 0 <= i < |p.subs| ==> !p.subs[i].Sequence?)
    ensures Fits(p, io) <==>
            (p.Sequence? && p.repeat > 0 && |p.subs| > 0 && io.Some? ==> io.value.Sequence?)
  {
  }

  /** ... but lets a sequence pass whose IO profile is none, and a nested sequence whose IO part is none. */
  lemma RootCheckMisses(leaf: Profile, code: int)
    requires leaf.ParallelTask?
    ensures var flat := Sequence(1, [leaf], code); RootChecked(flat, Some(leaf)) && !Fits(flat, Some(leaf))
    ensures var flat := Sequence(1, [leaf], code);
            var nested := Sequence(1, [flat], code);
            RootChecked(nested, Some(flat)) && !Fits(nested, Some(flat))
  {
    var flat := Sequence(1, [leaf], code);
    assert flat.subs[0] == leaf && !Fits(flat, Some(leaf));
    assert Sequence(1, [flat], code).subs[0] == flat;
  }

  /** The IO profile of the k-th sub-task, if the shapes agree so far. */
  ghost function IoAt(p: Profile, io: Option<Profile>, k: nat): (r: Option<Profile>)
    requires p.Sequence? && |p.subs| > 0
    ensures Fits(p, io) && p.repeat > 0 ==> Fits(SubAt(p, k), r)
  {
    if io.Some? && io.value.Sequence? && Column(k, |p.subs|) < |io.value.subs|
    then Some(io.value.subs[Column(k, |p.subs|)]) else None
  }

  /** In every repetition, part i runs beside part i of the IO profile. */
  lemma IoOfPart(p: Profile, io: Profile, repeated: nat, i: nat)
    requires p.Sequence? && io.Sequence? && i < |p.subs| && i < |io.subs|
    ensures var k := repeated * |p.subs| + i;
            && SubAt(p, k) == p.subs[i] && IoAt(p, Some(io), k) == Some(io.subs[i]) && IoAt(p, None, k) == None
  {
    TimesIsProduct(repeated, |p.subs|);
    ColumnOf(repeated, |p.subs|, i);
  }

  /** The sub-tasks built so far. */
  ghost predicate Built(p: Profile, io: Option<Profile>, tasks: seq<BatTask>)
    requires p.Sequence? && |p.subs| > 0
  {
    && (forall i :: 0 <= i < |tasks| ==> BuiltSub(p, io, tasks[i], i))
    && forall i, j :: 0 <= i < j < |tasks| ==> tasks[i].repr !! tasks[j].repr
  }

  ghost predicate BuiltSub(p: Profile, io: Option<Profile>, task: BatTask, i: nat)
    requires p.Sequence? && |p.subs| > 0
  {
    task.profile == SubAt(p, i) && task.Valid() && task.RunsBeside(IoAt(p, io, i))
  }

  /** initialize_sequential_tasks: ok is false where the source takes an IO profile for a sequence that is none,
      or looks for a part that it does not have. */
  method InitializeSequentialTasks(profile: Profile, ioProfile: Option<Profile>) returns (ok: bool, task: BatTask)
    ensures ok <==> Fits(profile, ioProfile)
    ensures ok ==> task.Valid() && task.profile == profile && task.RunsBeside(ioProfile)
    ensures ok ==> fresh(task.repr) && Untouched(task.repr)
    decreases profile, 1
  {
    ok := true;
    if !profile.Sequence? {
      task := new BatTask(profile, ioProfile, []);
      return;
    }
    FitsEnds(profile, ioProfile);
    NoneBuilt(profile, ioProfile);
    hide BatTask.Valid, BatTask.RunsBeside, Fits, FitsUpTo, Built, Below, Times, HasPart, Part;
    var subTasks := [];
    for repeated := 0 to profile.repeat
      invariant |subTasks| == Times(repeated, |profile.subs|)
      invariant |profile.subs| > 0 ==> Built(profile, ioProfile, subTasks)
      invariant Untouched(Below(subTasks)) && fresh(Below(subTasks))
      invariant repeated > 0 ==> Fits(profile, ioProfile)
    {
      for i := 0 to |profile.subs|
        invariant |subTasks| == Times(repeated, |profile.subs|) + i
        invariant |profile.subs| > 0 ==> Built(profile, ioProfile, subTasks)
        invariant Untouched(Below(subTasks)) && fresh(Below(subTasks))
        invariant FitsUpTo(profile, ioProfile, i)
      {
        FitsPart(profile, ioProfile, i);
        PartAt(profile, ioProfile, repeated, i);
        ok, subTasks := AddSubTask(profile, ioProfile, repeated, i, subTasks);
        if !ok {
          task := new BatTask(profile, None, []);
          return;
        }
      }
    }
    task := new BatTask(profile, None, subTasks);
    BuiltWhole(profile, ioProfile, task);
  }

  /** The sub-task of one part in one repetition. */
  method AddSubTask(profile: Profile, ioProfile: Option<Profile>, ghost repeated: nat, i: nat, subTasks: seq<BatTask>)
    returns (ok: bool, more: seq<BatTask>)
    requires profile.Sequence? && repeated < profile.repeat && i < |profile.subs|
    requires |subTasks| == Times(repeated, |profile.subs|) + i
    requires Built(profile, ioProfile, subTasks) && Untouched(Below(subTasks))
    ensures ok <==> HasPart(ioProfile, i) && Fits(profile.subs[i], Part(ioProfile, i))
    ensures ok ==> |more| == |subTasks| + 1 && Built(profile, ioProfile, more)
    ensures ok ==> Untouched(Below(more)) && fresh(Below(more) - Below(subTasks))
    decreases profile, 0
  {
    more := subTasks;
    if !HasPart(ioProfile, i) {
      return false, more;
    }
    PartAt(profile, ioProfile, repeated, i);
    hide BatTask.Valid, BatTask.RunsBeside, Fits, Below, Times;
    var sub;
    ok, sub := InitializeSequentialTasks(profile.subs[i], Part(ioProfile, i));
    if ok {
      BelowMore(subTasks, sub);
      BuiltMore(profile, ioProfile, subTasks, sub);
      more := subTasks + [sub];
    }
  }

  /** The IO profile fits for the first n parts. */
  predicate FitsUpTo(p: Profile, io: Option<Profile>, n: nat)
    requires p.Sequence? && n <= |p.subs|
  {
    n > 0 && io.Some? ==>
      && io.value.Sequence? && |io.value.subs| >= n
      && forall i :: 0 <= i < n ==> Fits(p.subs[i], Some(io.value.subs[i]))
  }

  lemma NoneBuilt(p: Profile, io: Option<Profile>)
    requires p.Sequence?
    ensures Below([]) == {} && Times(0, |p.subs|) == 0 && (|p.subs| > 0 ==> Built(p, io, []))
  {
  }

  /** The sub-task of part i in a repetition, and its IO profile. */
  lemma PartAt(p: Profile, io: Option<Profile>, repeated: nat, i: nat)
    requires p.Sequence? && repeated < p.repeat && i < |p.subs|
    ensures var k := Times(repeated, |p.subs|) + i;
            && SubAt(p, k) == p.subs[i] && (HasPart(io, i) ==> IoAt(p, io, k) == Part(io, i))
    ensures Times(repeated + 1, |p.subs|) == Times(repeated, |p.subs|) + |p.subs|
  {
    IndexInRange(p, repeated, i);
    ColumnOf(repeated, |p.subs|, i);
  }

  predicate HasPart(io: Option<Profile>, i: nat) {
    io.Some? ==> io.value.Sequence? && i < |io.value.subs|
  }

  function Part(io: Option<Profile>, i: nat): Option<Profile>
    requires HasPart(io, i)
  {
    if io.Some? then Some(io.value.subs[i]) else None
  }

  lemma FitsPart(p: Profile, io: Option<Profile>, i: nat)
    requires p.Sequence? && p.repeat > 0 && i < |p.subs|
    ensures Fits(p, io) ==> HasPart(io, i) && Fits(p.subs[i], Part(io, i))
    ensures FitsUpTo(p, io, i) && HasPart(io, i) && Fits(p.subs[i], Part(io, i)) ==> FitsUpTo(p, io, i + 1)
  {
  }

  lemma FitsEnds(p: Profile, io: Option<Profile>)
    requires p.Sequence?
    ensures FitsUpTo(p, io, 0) && (FitsUpTo(p, io, |p.subs|) ==> Fits(p, io)) && (p.repeat == 0 ==> Fits(p, io))
  {
  }

  ghost predicate Untouched(tasks: set<BatTask>)
    reads tasks`currentTaskIndex, tasks`hasPtask
  {
    forall t :: t in tasks ==> t.currentTaskIndex == -1 && !t.hasPtask
  }

  lemma BelowMore(tasks: seq<BatTask>, task: BatTask)
    ensures Below(tasks + [task]) == Below(tasks) + task.repr
  {
    forall t ensures t in Below(tasks + [task]) <==> t in Below(tasks) + task.repr {
      if t in task.repr {
        assert (tasks + [task])[|tasks|] == task;
      }
      if t in Below(tasks) {
        var i :| 0 <= i < |tasks| && t in tasks[i].repr;
        assert (tasks + [task])[i] == tasks[i];
      }
    }
  }

  lemma BuiltMore(p: Profile, io: Option<Profile>, tasks: seq<BatTask>, task: BatTask)
    requires p.Sequence? && |p.subs| > 0
    requires Built(p, io, tasks) && BuiltSub(p, io, task, |tasks|) && task.repr !! Below(tasks)
    ensures Built(p, io, tasks + [task])
  {
    forall i | 0 <= i < |tasks| ensures tasks[i].repr !! task.repr {
      forall t | t in tasks[i].repr ensures t in Below(tasks) {}
    }
  }

  lemma BuiltWhole(p: Profile, io: Option<Profile>, task: BatTask)
    requires p.Sequence? && task.profile == p && task.ioProfile == None
    requires |task.subTasks| == SubCount(p)
    requires |p.subs| > 0 ==> Built(p, io, task.subTasks)
    requires task.repr == {task} + Below(task.subTasks) && task !in Below(task.subTasks)
    ensures task.Valid() && task.RunsBeside(io)
  {
    if |p.subs| == 0 {
      TimesIsProduct(p.repeat, 0);
    }
    forall i: nat | i < |task.subTasks| ensures task.ValidSub(i) {
      assert BuiltSub(p, io, task.subTasks[i], i);
      forall t | t in task.subTasks[i].repr ensures t in Below(task.subTasks) {}
    }
    forall i: nat | i < |task.subTasks| ensures task.subTasks[i].RunsBeside(IoAt(p, io, i)) {
      assert BuiltSub(p, io, task.subTasks[i], i);
    }
  }
}
