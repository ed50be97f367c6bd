/** Profiles, what running one leaf does to the clock and the walltime budget, and the flat program a
    composed profile stands for: its leaves one after the other, every sequence followed by its own
    return code. */
module TaskPrograms {

  datatype Profile =
    | Delay(delay: real, code: int)
    | ParallelTask(code: int)
    | Send(sleeptime: real, code: int)
    | Sequence(repeat: nat, subs: seq<Profile>, code: int)

  /** How a parallel task ends: the simulated platform decides. */
  datatype Ending = Finishes(after: real) | Cancelled(after: real) | TimesOut

  /** The platform's answer to the n-th parallel task, started at a date with a remaining time. */
  type Platform = (nat, real, real) -> Ending

  ghost predicate Legal(e: Ending, remaining: real) {
    match e
    case TimesOut => remaining >= 0.0
    case _ => e.after >= 0.0 && (remaining < 0.0 || e.after <= remaining)
  }

  ghost predicate Realistic(env: Platform) {
    forall n, now, remaining :: Legal(env(n, now, remaining), remaining)
  }

  /** remaining is negative when the job has no walltime. */
  datatype Clock = Clock(now: real, remaining: real, started: nat, sent: nat)

  datatype Result = Result(code: int, clock: Clock, leaves: nat)

  /** do_delay_task */
  function Sleep(sleeptime: real, c: Clock): (r: (int, Clock))
  {
    if c.remaining < 0.0 || sleeptime < c.remaining then
      (0, c.(now := c.now + sleeptime,
             remaining := if c.remaining > 0.0 then c.remaining - sleeptime else c.remaining))
    else
      (-1, c.(now := c.now + c.remaining, remaining := 0.0))
  }

  /** The end of execute_parallel_task. */
  function RunParallelTask(code: int, c: Clock, env: Platform): (r: (int, Clock))
  {
    var c' := c.(started := c.started + 1);
    match env(c.started, c.now, c.remaining)
    case TimesOut => (-1, c'.(now := c.now + c.remaining, remaining := 0.0))
    case Finishes(after) => (code, Spend(c', after))
    case Cancelled(after) => (-2, Spend(c', after))
  }

  function Spend(c: Clock, time: real): Clock {
    c.(now := c.now + time, remaining := if c.remaining < 0.0 then c.remaining else c.remaining - time)
  }

  function RunLeaf(leaf: Profile, c: Clock, env: Platform): (r: (int, Clock))
    requires !leaf.Sequence?
  {
    match leaf
    case Delay(delay, code) =>
      var (ret, c') := Sleep(delay, c); (if ret == 0 then code else ret, c')
    case Send(sleeptime, code) =>
      var (ret, c') := Sleep(sleeptime, c.(sent := c.sent + 1)); (if ret == 0 then code else ret, c')
    case ParallelTask(code) => RunParallelTask(code, c, env)
  }

  // ----- flat programs -----

  datatype Instruction = Leaf(leaf: Profile) | Exit(code: int)

  function Repeated<T>(s: seq<T>, n: nat): (r: seq<T>)
    ensures forall x :: x in r ==> x in s
  {
    if n == 0 then [] else Repeated(s, n - 1) + s
  }

  /** The program of the first n sub-profiles of p. */
  ghost function FlatSubs(p: Profile, n: nat): seq<Instruction>
    requires p.Sequence? && n <= |p.subs|
    decreases p, n
  {
    if n == 0 then [] else FlatSubs(p, n - 1) + Flat(p.subs[n - 1])
  }

  ghost function Flat(p: Profile): seq<Instruction>
    decreases p, if p.Sequence? then |p.subs| + 1 else 0
  {
    if p.Sequence? then Repeated(FlatSubs(p, |p.subs|), p.repeat) + [Exit(p.code)] else [Leaf(p)]
  }

  ghost predicate IsProgram(code: seq<Instruction>) {
    forall i :: 0 <= i < |code| && code[i].Leaf? ==> !code[i].leaf.Sequence?
  }

  /** Runs a program up to its first nonzero code. */
  ghost function Interpret(program: seq<Instruction>, c: Clock, env: Platform): Result
    requires IsProgram(program)
  {
    if program == [] then Result(0, c, 0)
    else
      assert IsProgram(program[1..]) by { Tail(program); }
      match program[0]
      case Exit(code) => if code != 0 then Result(code, c, 0) else Interpret(program[1..], c, env)
      case Leaf(leaf) =>
        var (code, c') := RunLeaf(leaf, c, env);
        if code != 0 then Result(code, c', 1)
        else
          var r := Interpret(program[1..], c', env);
          r.(leaves := r.leaves + 1)
  }

  lemma Tail(program: seq<Instruction>)
    requires IsProgram(program) && program != []
    ensures IsProgram(program[1..])
  {
    forall i | 0 <= i < |program[1..]| && program[1..][i].Leaf? ensures !program[1..][i].leaf.Sequence? {
      assert program[1..][i] == program[i + 1];
    }
  }

  ghost function Then(r: Result, program: seq<Instruction>, env: Platform): Result
    requires IsProgram(program)
  {
    if r.code != 0 then r
    else var r' := Interpret(program, r.clock, env); r'.(leaves := r.leaves + r'.leaves)
  }

  lemma {:induction false} InterpretConcat(a: seq<Instruction>, b: seq<Instruction>, c: Clock, env: Platform)
    requires IsProgram(a) && IsProgram(b)
    ensures IsProgram(a + b)
    ensures Interpret(a + b, c, env) == Then(Interpret(a, c, env), b, env)
  {
    if a == [] {
      assert a + b == b;
    } else {
      Tail(a);
      assert (a + b)[1..] == a[1..] + b;
      match a[0]
      case Exit(code) => InterpretConcat(a[1..], b, c, env);
      case Leaf(leaf) => InterpretConcat(a[1..], b, RunLeaf(leaf, c, env).1, env);
    }
  }

  lemma {:induction false} FlatIsProgram(p: Profile)
    ensures IsProgram(Flat(p))
    decreases p, if p.Sequence? then |p.subs| + 1 else 0
  {
    if p.Sequence? {
      FlatSubsIsProgram(p, |p.subs|);
      RepeatedIsProgram(FlatSubs(p, |p.subs|), p.repeat);
    }
  }

  lemma {:induction false} FlatSubsIsProgram(p: Profile, n: nat)
    requires p.Sequence? && n <= |p.subs|
    ensures IsProgram(FlatSubs(p, n))
    decreases p, n
  {
    if n > 0 {
      FlatSubsIsProgram(p, n - 1);
      FlatIsProgram(p.subs[n - 1]);
    }
  }

  lemma {:induction false} RepeatedIsProgram(s: seq<Instruction>, n: nat)
    requires IsProgram(s)
    ensures IsProgram(Repeated(s, n))
  {
    if n > 0 {
      RepeatedIsProgram(s, n - 1);
    }
  }

  // ----- the walltime -----

  /** Return codes -1 and -2 are the executor's own. */
  ghost predicate Plain(i: Instruction) {
    match i
    case Exit(code) => code >= 0
    case Leaf(Delay(delay, code)) => delay > 0.0 && code >= 0
    case Leaf(Send(sleeptime, code)) => sleeptime > 0.0 && code >= 0
    case Leaf(ParallelTask(code)) => code >= 0
    case Leaf(_) => false
  }

  ghost predicate AllPlain(program: seq<Instruction>) {
    forall i :: 0 <= i < |program| ==> Plain(program[i])
  }

  /** With a walltime, elapsed and remaining time always add up to it, and code -1 comes exactly at its
      end. Without one, the job never times out. -2 needs a cancelled parallel task. */
  lemma {:induction false} BudgetKept(program: seq<Instruction>, c: Clock, env: Platform)
    requires AllPlain(program) && IsProgram(program) && Realistic(env)
    ensures var r := Interpret(program, c, env);
            && r.code >= -2 && r.clock.now >= c.now
            && (c.remaining >= 0.0 ==>
                  && r.clock.remaining >= 0.0
                  && r.clock.now + r.clock.remaining == c.now + c.remaining
                  && (r.code == -1 ==> r.clock.now == c.now + c.remaining))
            && (c.remaining < 0.0 ==> r.code != -1 && r.clock.remaining == c.remaining)
  {
    if program != [] {
      Tail(program);
      assert Plain(program[0]);
      assert AllPlain(program[1..]) by {
        forall i | 0 <= i < |program[1..]| ensures Plain(program[1..][i]) {
          assert program[1..][i] == program[i + 1];
        }
      }
      match program[0]
      case Exit(code) => BudgetKept(program[1..], c, env);
      case Leaf(leaf) =>
        LeafBudget(leaf, c, env);
        BudgetKept(program[1..], RunLeaf(leaf, c, env).1, env);
    }
  }

  lemma LeafBudget(leaf: Profile, c: Clock, env: Platform)
    requires Plain(Leaf(leaf)) && Realistic(env)
    ensures var (code, c') := RunLeaf(leaf, c, env);
            && code >= -2 && c'.now >= c.now
            && (c.remaining >= 0.0 ==>
                  && c'.remaining >= 0.0 && c'.now + c'.remaining == c.now + c.remaining
                  && (code == -1 ==> c'.remaining == 0.0))
            && (c.remaining < 0.0 ==> code != -1 && c'.remaining == c.remaining)
  {
    assert Legal(env(c.started, c.now, c.remaining), c.remaining);
  }

  // ----- what a code and a date mean -----

  /** A leaf that was started, and the clock at its start: env(clock.started, clock.now, clock.remaining) is what
      the platform answers if it is a parallel task. */
  datatype Start = Start(leaf: Profile, clock: Clock)

  /** The leaves that a program starts, one after the other. */
  ghost function Starts(program: seq<Instruction>, c: Clock, env: Platform): seq<Start>
    requires IsProgram(program)
  {
    if program == [] then []
    else
      assert IsProgram(program[1..]) by { Tail(program); }
      match program[0]
      case Exit(code) => if code != 0 then [] else Starts(program[1..], c, env)
      case Leaf(leaf) =>
        var (code, c') := RunLeaf(leaf, c, env);
        [Start(leaf, c)] + if code != 0 then [] else Starts(program[1..], c', env)
  }

  lemma {:induction false} PlainTail(program: seq<Instruction>)
    requires AllPlain(program) && IsProgram(program) && program != []
    ensures Plain(program[0]) && AllPlain(program[1..]) && IsProgram(program[1..])
  {
    Tail(program);
    forall i | 0 <= i < |program[1..]| ensures Plain(program[1..][i]) { assert program[1..][i] == program[i + 1]; }
  }

  /** A job is killed if and only if the platform cancelled the parallel task that was started last. */
  lemma {:induction false} KilledIffCancelled(program: seq<Instruction>, c: Clock, env: Platform)
    requires AllPlain(program) && IsProgram(program)
    ensures var starts := Starts(program, c, env);
            Interpret(program, c, env).code == -2 <==>
            && starts != [] && starts[|starts| - 1].leaf.ParallelTask?
            && var last := starts[|starts| - 1].clock; env(last.started, last.now, last.remaining).Cancelled?
  {
    if program != [] {
      PlainTail(program);
      match program[0]
      case Exit(code) => KilledIffCancelled(program[1..], c, env);
      case Leaf(leaf) => KilledIffCancelled(program[1..], RunLeaf(leaf, c, env).1, env);
    }
  }

  /** It reaches its walltime if and only if the last leaf did not end before: the platform says so of a parallel
      task, and a sleep is not shorter than the remaining time. */
  lemma {:induction false} WalltimeIffTimedOut(program: seq<Instruction>, c: Clock, env: Platform)
    requires AllPlain(program) && IsProgram(program)
    ensures var starts := Starts(program, c, env);
            Interpret(program, c, env).code == -1 <==>
            && starts != []
            && var last := starts[|starts| - 1].clock;
               match starts[|starts| - 1].leaf
               case ParallelTask(_) => env(last.started, last.now, last.remaining).TimesOut?
               case Delay(delay, _) => last.remaining >= 0.0 && delay >= last.remaining
               case Send(sleeptime, _) => last.remaining >= 0.0 && sleeptime >= last.remaining
               case Sequence(_, _, _) => false
  {
    if program != [] {
      PlainTail(program);
      match program[0]
      case Exit(code) => WalltimeIffTimedOut(program[1..], c, env);
      case Leaf(leaf) => WalltimeIffTimedOut(program[1..], RunLeaf(leaf, c, env).1, env);
    }
  }

  /** What a leaf or the end of a sequence returns when nothing interrupts it. */
  ghost function PlainCode(i: Instruction): int {
    match i
    case Exit(code) => code
    case Leaf(Delay(_, code)) => code
    case Leaf(Send(_, code)) => code
    case Leaf(ParallelTask(code)) => code
    case Leaf(Sequence(_, _, code)) => code
  }

  ghost function FirstCode(program: seq<Instruction>): int {
    if program == [] then 0
    else if PlainCode(program[0]) != 0 then PlainCode(program[0])
    else FirstCode(program[1..])
  }

  /** In all other cases the code is the first one in the program that is not zero. */
  lemma {:induction false} ElseFirstCode(program: seq<Instruction>, c: Clock, env: Platform)
    requires AllPlain(program) && IsProgram(program)
    ensures var code := Interpret(program, c, env).code; code == -1 || code == -2 || code == FirstCode(program)
  {
    if program != [] {
      PlainTail(program);
      match program[0]
      case Exit(code) => ElseFirstCode(program[1..], c, env);
      case Leaf(leaf) => ElseFirstCode(program[1..], RunLeaf(leaf, c, env).1, env);
    }
  }

  /** The code of a profile that nothing interrupts: its own, unless a part of a sequence has one. */
  ghost function ProfileCode(p: Profile): int {
    match p
    case Sequence(repeat, subs, code) =>
      if repeat > 0 && FirstOf(subs) != 0 then FirstOf(subs) else code
    case Delay(_, code) => code
    case Send(_, code) => code
    case ParallelTask(code) => code
  }

  /** The first nonzero code among the parts, in their order. */
  ghost function FirstOf(subs: seq<Profile>): int {
    if subs == [] then 0
    else if ProfileCode(subs[0]) != 0 then ProfileCode(subs[0])
    else FirstOf(subs[1..])
  }

  lemma {:induction false} FirstCodeConcat(a: seq<Instruction>, b: seq<Instruction>)
    ensures FirstCode(a + b) == if FirstCode(a) != 0 then FirstCode(a) else FirstCode(b)
  {
    if a == [] {
      assert a + b == b;
    } else {
      assert (a + b)[1..] == a[1..] + b;
      FirstCodeConcat(a[1..], b);
    }
  }

  lemma {:induction false} FirstCodeRepeated(s: seq<Instruction>, n: nat)
    ensures FirstCode(Repeated(s, n)) == if n > 0 then FirstCode(s) else 0
  {
    if n > 0 {
      FirstCodeRepeated(s, n - 1);
      FirstCodeConcat(Repeated(s, n - 1), s);
    }
  }

  lemma {:induction false} FirstOfConcat(a: seq<Profile>, b: seq<Profile>)
    ensures FirstOf(a + b) == if FirstOf(a) != 0 then FirstOf(a) else FirstOf(b)
  {
    if a == [] {
      assert a + b == b;
    } else {
      assert (a + b)[1..] == a[1..] + b;
      FirstOfConcat(a[1..], b);
    }
  }

  lemma {:induction false} FlatSubsCode(p: Profile, n: nat)
    requires p.Sequence? && n <= |p.subs|
    ensures FirstCode(FlatSubs(p, n)) == FirstOf(p.subs[..n])
    decreases p, n
  {
    if n > 0 {
      FlatSubsCode(p, n - 1);
      FlatCode(p.subs[n - 1]);
      FirstCodeConcat(FlatSubs(p, n - 1), Flat(p.subs[n - 1]));
      assert p.subs[..n] == p.subs[..n - 1] + [p.subs[n - 1]];
      FirstOfConcat(p.subs[..n - 1], [p.subs[n - 1]]);
    }
  }

  /** Repetitions do not matter, only the order of the parts. */
  lemma {:induction false} FlatCode(p: Profile)
    ensures FirstCode(Flat(p)) == ProfileCode(p)
    decreases p, if p.Sequence? then |p.subs| + 1 else 0
  {
    if p.Sequence? {
      FlatSubsCode(p, |p.subs|);
      assert p.subs[..|p.subs|] == p.subs;
      var body := Repeated(FlatSubs(p, |p.subs|), p.repeat);
      FirstCodeRepeated(FlatSubs(p, |p.subs|), p.repeat);
      FirstCodeConcat(body, [Exit(p.code)]);
    }
  }

  /** How long a leaf takes: a sleep its time or what is left of the walltime, a parallel task what the platform
      says. */
  ghost predicate Takes(s: Start, env: Platform, time: real) {
    match s.leaf
    case Delay(delay, _) =>
      time == if s.clock.remaining < 0.0 || delay < s.clock.remaining then delay else s.clock.remaining
    case Send(sleeptime, _) =>
      time == if s.clock.remaining < 0.0 || sleeptime < s.clock.remaining then sleeptime else s.clock.remaining
    case ParallelTask(_) =>
      time == (match env(s.clock.started, s.clock.now, s.clock.remaining)
               case TimesOut => s.clock.remaining
               case Finishes(after) => after
               case Cancelled(after) => after)
    case Sequence(_, _, _) => false
  }

  /** Leaves follow each other without a gap, and each is started with the walltime that is left. */
  lemma {:induction false} StartsInTime(program: seq<Instruction>, c: Clock, env: Platform, k: nat)
    requires AllPlain(program) && IsProgram(program) && Realistic(env)
    requires k < |Starts(program, c, env)|
    ensures var starts, r := Starts(program, c, env), Interpret(program, c, env);
            var next := if k + 1 < |starts| then starts[k + 1].clock else r.clock;
            && |starts| == r.leaves && starts[0].clock == c
            && Takes(starts[k], env, next.now - starts[k].clock.now)
            && (starts[k].clock.remaining < 0.0 ==> next.remaining == starts[k].clock.remaining)
            && (starts[k].clock.remaining >= 0.0 ==>
                  next.remaining == starts[k].clock.remaining - (next.now - starts[k].clock.now))
            && next.started == starts[k].clock.started + (if starts[k].leaf.ParallelTask? then 1 else 0)
            && next.sent == starts[k].clock.sent + (if starts[k].leaf.Send? then 1 else 0)
  {
    PlainTail(program);
    match program[0]
    case Exit(code) => StartsInTime(program[1..], c, env, k);
    case Leaf(leaf) =>
      assert Legal(env(c.started, c.now, c.remaining), c.remaining);
      StartsMany(program, c, env);
      StartsMany(program[1..], RunLeaf(leaf, c, env).1, env);
      if k > 0 { StartsInTime(program[1..], RunLeaf(leaf, c, env).1, env, k - 1); }
  }

  lemma {:induction false} StartsMany(program: seq<Instruction>, c: Clock, env: Platform)
    requires IsProgram(program)
    ensures |Starts(program, c, env)| == Interpret(program, c, env).leaves
    ensures Starts(program, c, env) != [] ==> Starts(program, c, env)[0].clock == c
    ensures Starts(program, c, env) == [] ==> Interpret(program, c, env).clock == c
  {
    if program != [] {
      Tail(program);
      match program[0]
      case Exit(code) => StartsMany(program[1..], c, env);
      case Leaf(leaf) => StartsMany(program[1..], RunLeaf(leaf, c, env).1, env);
    }
  }

  // ----- delays only -----

  ghost predicate OnlyDelays(p: Profile) {
    match p
    case Delay(delay, code) => delay > 0.0 && code == 0
    case Sequence(_, subs, code) => code == 0 && forall i :: 0 <= i < |subs| ==> OnlyDelays(subs[i])
    case _ => false
  }

  /** x added n times. */
  ghost function Often(n: nat, x: real): real {
    if n == 0 then 0.0 else Often(n - 1, x) + x
  }

  lemma {:induction false} OftenIsProduct(n: nat, x: real)
    ensures Often(n, x) == n as real * x
  {
    if n > 0 {
      OftenIsProduct(n - 1, x);
    }
  }

  /** The time the leaves of p ask for, repetitions included. */
  ghost function TotalDelay(p: Profile): real
    requires OnlyDelays(p)
    decreases p, if p.Sequence? then |p.subs| + 1 else 0
  {
    if p.Delay? then p.delay else Often(p.repeat, SubsDelay(p, |p.subs|))
  }

  ghost function SubsDelay(p: Profile, n: nat): real
    requires OnlyDelays(p) && p.Sequence? && n <= |p.subs|
    decreases p, n
  {
    if n == 0 then 0.0 else SubsDelay(p, n - 1) + TotalDelay(p.subs[n - 1])
  }

  /** The program takes total time, from any clock with a positive or no walltime. */
  ghost predicate Sleeps(program: seq<Instruction>, total: real, env: Platform)
  {
    && IsProgram(program) && total >= 0.0
    && forall c: Clock :: SleepsFrom(program, total, c, env)
  }

  ghost predicate SleepsFrom(program: seq<Instruction>, total: real, c: Clock, env: Platform)
    requires IsProgram(program)
  {
    var r := Interpret(program, c, env);
    if c.remaining == 0.0 then true
    else if c.remaining < 0.0 then r.code == 0 && r.clock == c.(now := c.now + total)
    else if total < c.remaining then
      r.code == 0 && r.clock == c.(now := c.now + total, remaining := c.remaining - total)
    else r.code == -1 && r.clock == c.(now := c.now + c.remaining, remaining := 0.0)
  }

  lemma SleepsBoth(a: seq<Instruction>, x: real, b: seq<Instruction>, y: real, z: real, env: Platform)
    requires Sleeps(a, x, env) && Sleeps(b, y, env) && z == x + y
    ensures Sleeps(a + b, z, env)
  {
    InterpretConcat(a, b, Clock(0.0, 0.0, 0, 0), env);
    forall c: Clock ensures SleepsFrom(a + b, z, c, env) {
      InterpretConcat(a, b, c, env);
      assert SleepsFrom(a, x, c, env);
      assert SleepsFrom(b, y, Interpret(a, c, env).clock, env);
    }
  }

  lemma SleepsNot(i: Instruction, env: Platform)
    requires i == Exit(0)
    ensures Sleeps([], 0.0, env) && Sleeps([i], 0.0, env)
  {
    forall c: Clock ensures SleepsFrom([], 0.0, c, env) && SleepsFrom([i], 0.0, c, env) {
      assert [i][1..] == [];
      assert Interpret([], c, env) == Interpret([i], c, env) == Result(0, c, 0);
    }
  }

  lemma SleepsOnce(leaf: Profile, env: Platform)
    requires OnlyDelays(leaf) && leaf.Delay?
    ensures Sleeps([Leaf(leaf)], leaf.delay, env)
  {
    forall c: Clock ensures SleepsFrom([Leaf(leaf)], leaf.delay, c, env) {
      assert [Leaf(leaf)][1..] == [];
    }
  }

  lemma {:induction false} SleepsRepeated(s: seq<Instruction>, x: real, n: nat, env: Platform)
    requires Sleeps(s, x, env)
    ensures Sleeps(Repeated(s, n), Often(n, x), env)
  {
    if n == 0 {
      SleepsNot(Exit(0), env);
    } else {
      SleepsRepeated(s, x, n - 1, env);
      SleepsBoth(Repeated(s, n - 1), Often(n - 1, x), s, x, Often(n, x), env);
    }
  }

  lemma {:induction false} DelaysAddUp(p: Profile, env: Platform)
    requires OnlyDelays(p)
    ensures Sleeps(Flat(p), TotalDelay(p), env)
    decreases p, if p.Sequence? then |p.subs| + 1 else 0
  {
    if p.Sequence? {
      SubsAddUp(p, |p.subs|, env);
      SleepsRepeated(FlatSubs(p, |p.subs|), SubsDelay(p, |p.subs|), p.repeat, env);
      SleepsNot(Exit(p.code), env);
      SleepsBoth(Repeated(FlatSubs(p, |p.subs|), p.repeat), TotalDelay(p), [Exit(p.code)], 0.0, TotalDelay(p), env);
    } else {
      SleepsOnce(p, env);
    }
  }

  lemma {:induction false} SubsAddUp(p: Profile, n: nat, env: Platform)
    requires OnlyDelays(p) && p.Sequence? && n <= |p.subs|
    ensures Sleeps(FlatSubs(p, n), SubsDelay(p, n), env)
    decreases p, n
  {
    if n == 0 {
      SleepsNot(Exit(0), env);
    } else {
      SubsAddUp(p, n - 1, env);
      DelaysAddUp(p.subs[n - 1], env);
      SleepsBoth(FlatSubs(p, n - 1), SubsDelay(p, n - 1), Flat(p.subs[n - 1]), TotalDelay(p.subs[n - 1]),
                 SubsDelay(p, n), env);
    }
  }

  lemma RepeatedDelay(p: Profile)
    requires OnlyDelays(p)
    ensures p.Sequence? ==> TotalDelay(p) == p.repeat as real * SubsDelay(p, |p.subs|)
  {
    if p.Sequence? { OftenIsProduct(p.repeat, SubsDelay(p, |p.subs|)); }
  }

  /** A job of delays with walltime ends successfully after their sum if that is shorter, else it is
      stopped after exactly its walltime; without a walltime it takes their sum. */
  lemma DelayJob(p: Profile, start: real, walltime: real, env: Platform)
    requires OnlyDelays(p) && walltime != 0.0
    ensures IsProgram(Flat(p))
    ensures var r, total := Interpret(Flat(p), Clock(start, walltime, 0, 0), env), TotalDelay(p);
            if walltime < 0.0 || total < walltime
            then r.code == 0 && r.clock.now == start + total
            else r.code == -1 && r.clock.now == start + walltime
    ensures p.Sequence? ==> TotalDelay(p) == p.repeat as real * SubsDelay(p, |p.subs|)
  {
    RepeatedDelay(p);
    hide TotalDelay, SubsDelay;
    DelaysAddUp(p, env);
    assert SleepsFrom(Flat(p), TotalDelay(p), Clock(start, walltime, 0, 0), env);
  }
}
