/** The sub-tasks of an unrolled sequence by index, and the leaves of a profile by path: which index to
    take at every level of the task tree. */
module TaskPaths {
  import opened TaskPrograms
  import opened RowMajor

  type Path = seq<nat>

  /** Sub-task number iteration * |subs| + i executes subs[i]. */
  function SubCount(p: Profile): nat
    requires p.Sequence?
  {
    Times(p.repeat, |p.subs|)
  }

  function SubAt(p: Profile, k: nat): Profile
    requires p.Sequence? && |p.subs| > 0
  {
    p.subs[Column(k, |p.subs|)]
  }

  lemma IndexInRange(p: Profile, iteration: nat, i: nat)
    requires p.Sequence? && iteration < p.repeat && i < |p.subs|
    ensures Times(iteration, |p.subs|) + i < SubCount(p)
    ensures SubAt(p, Times(iteration, |p.subs|) + i) == p.subs[i]
  {
    TimesGrows(iteration, p.repeat, |p.subs|);
    ColumnOf(iteration, |p.subs|, i);
  }

  // ----- the unrolled program -----

  /** The program of the first k sub-tasks. */
  ghost function FlatTo(p: Profile, k: nat): seq<Instruction>
    requires p.Sequence? && |p.subs| > 0
  {
    if k == 0 then [] else FlatTo(p, k - 1) + Flat(SubAt(p, k - 1))
  }

  lemma {:induction false} FlatToIteration(p: Profile, iteration: nat, i: nat)
    requires p.Sequence? && |p.subs| > 0 && i <= |p.subs|
    ensures FlatTo(p, Times(iteration, |p.subs|) + i)
         == Repeated(FlatSubs(p, |p.subs|), iteration) + FlatSubs(p, i)
    decreases iteration, i
  {
    var n := |p.subs|;
    if i > 0 {
      FlatToIteration(p, iteration, i - 1);
      ColumnOf(iteration, n, i - 1);
    } else if iteration > 0 {
      FlatToIteration(p, iteration - 1, n);
    }
  }

  lemma {:induction false} RepeatedNothing(n: nat)
    ensures Repeated<Instruction>([], n) == []
  {
    if n > 0 {
      RepeatedNothing(n - 1);
    }
  }

  /** A sequence is its sub-tasks in index order, then its own return code. */
  lemma FlatSequence(p: Profile)
    requires p.Sequence?
    ensures Flat(p) == (if |p.subs| > 0 then FlatTo(p, SubCount(p)) else []) + [Exit(p.code)]
  {
    if |p.subs| > 0 {
      FlatToIteration(p, p.repeat, 0);
    } else {
      RepeatedNothing(p.repeat);
    }
  }

  // ----- leaves -----

  ghost function Under(prefix: Path, paths: seq<Path>): (r: seq<Path>)
    ensures |r| == |paths| && forall i :: 0 <= i < |r| ==> r[i] == prefix + paths[i]
  {
    seq(|paths|, i requires 0 <= i < |paths| => prefix + paths[i])
  }

  /** The paths of the leaves below p, in tree order. */
  ghost function LeafPaths(p: Profile): seq<Path>
    decreases p, if p.Sequence? then SubCount(p) + 1 else 0
  {
    if !p.Sequence? then [[]]
    else if |p.subs| == 0 then []
    else LeafPathsTo(p, SubCount(p))
  }

  ghost function LeafPathsTo(p: Profile, k: nat): seq<Path>
    requires p.Sequence? && |p.subs| > 0
    decreases p, k
  {
    if k == 0 then [] else LeafPathsTo(p, k - 1) + Under([k - 1], LeafPaths(SubAt(p, k - 1)))
  }

  /** The path leads to a leaf, every index on it naming an existing sub-task. */
  ghost predicate LeadsToLeaf(p: Profile, path: Path)
    decreases |path|
  {
    if p.Sequence? then
      |p.subs| > 0 && path != [] && path[0] < SubCount(p) && LeadsToLeaf(SubAt(p, path[0]), path[1..])
    else path == []
  }

  /** Tree order on paths of leaves: the first difference decides. */
  ghost predicate Before(a: Path, b: Path) {
    a != [] && b != [] && (a[0] < b[0] || (a[0] == b[0] && Before(a[1..], b[1..])))
  }

  lemma {:induction false} LeafPathsAreLeaves(p: Profile, path: Path)
    ensures path in LeafPaths(p) <==> LeadsToLeaf(p, path)
    decreases p, if p.Sequence? then SubCount(p) + 1 else 0
  {
    if p.Sequence? && |p.subs| > 0 {
      LeafPathsToAreLeaves(p, SubCount(p), path);
    }
  }

  lemma {:induction false} LeafPathsToAreLeaves(p: Profile, k: nat, path: Path)
    requires p.Sequence? && |p.subs| > 0
    ensures path in LeafPathsTo(p, k)
       <==> path != [] && path[0] < k && LeadsToLeaf(SubAt(p, path[0]), path[1..])
    decreases p, k
  {
    if k > 0 {
      LeafPathsToAreLeaves(p, k - 1, path);
      var last := LeafPaths(SubAt(p, k - 1));
      if path != [] && path[0] == k - 1 {
        LeafPathsAreLeaves(SubAt(p, k - 1), path[1..]);
        if path[1..] in last {
          var i :| 0 <= i < |last| && last[i] == path[1..];
          assert Under([k - 1], last)[i] == path;
        }
      }
      if path in Under([k - 1], last) {
        var i :| 0 <= i < |last| && Under([k - 1], last)[i] == path;
        assert path[1..] == last[i];
      }
    }
  }

  /** Leaves are listed in tree order, each once. */
  lemma {:induction false} LeafPathsInOrder(p: Profile, i: nat, j: nat)
    requires i < j < |LeafPaths(p)|
    ensures Before(LeafPaths(p)[i], LeafPaths(p)[j]) && LeafPaths(p)[i] != LeafPaths(p)[j]
    decreases p, if p.Sequence? then SubCount(p) + 1 else 0
  {
    if p.Sequence? && |p.subs| > 0 {
      LeafPathsToInOrder(p, SubCount(p), i, j);
    }
    BeforeIsStrict(LeafPaths(p)[i], LeafPaths(p)[j]);
  }

  lemma {:induction false} LeafPathsToInOrder(p: Profile, k: nat, i: nat, j: nat)
    requires p.Sequence? && |p.subs| > 0 && i < j < |LeafPathsTo(p, k)|
    ensures Before(LeafPathsTo(p, k)[i], LeafPathsTo(p, k)[j])
    decreases p, k
  {
    var first, last := LeafPathsTo(p, k - 1), LeafPaths(SubAt(p, k - 1));
    var n := |first|;
    if j < n {
      LeafPathsToInOrder(p, k - 1, i, j);
    } else if i < n {
      LeafPathsToAreLeaves(p, k - 1, first[i]);
      assert first[i] in first;
    } else {
      LeafPathsInOrder(SubAt(p, k - 1), i - n, j - n);
      assert LeafPathsTo(p, k)[i][1..] == last[i - n] && LeafPathsTo(p, k)[j][1..] == last[j - n];
    }
  }

  lemma {:induction false} BeforeIsStrict(a: Path, b: Path)
    ensures !(Before(a, b) && Before(b, a))
  {
    if a != [] && b != [] && a[0] == b[0] {
      BeforeIsStrict(a[1..], b[1..]);
    }
  }

  // ----- running a sequence sub-task by sub-task -----

  ghost function Run(p: Profile, c: Clock, env: Platform): Result {
    FlatIsProgram(p);
    Interpret(Flat(p), c, env)
  }

  lemma {:induction false} FlatToIsProgram(p: Profile, k: nat)
    requires p.Sequence? && |p.subs| > 0
    ensures IsProgram(FlatTo(p, k))
  {
    if k > 0 {
      FlatToIsProgram(p, k - 1);
      FlatIsProgram(SubAt(p, k - 1));
    }
  }

  /** The first k sub-tasks. */
  ghost function RunTo(p: Profile, k: nat, c: Clock, env: Platform): Result
    requires p.Sequence? && |p.subs| > 0
  {
    FlatToIsProgram(p, k);
    Interpret(FlatTo(p, k), c, env)
  }

  lemma RunNext(p: Profile, k: nat, c: Clock, env: Platform)
    requires p.Sequence? && |p.subs| > 0
    ensures var r := RunTo(p, k, c, env);
            RunTo(p, k + 1, c, env) == if r.code != 0 then r
                                       else var r' := Run(SubAt(p, k), r.clock, env);
                                            r'.(leaves := r.leaves + r'.leaves)
  {
    FlatToIsProgram(p, k);
    FlatIsProgram(SubAt(p, k));
    InterpretConcat(FlatTo(p, k), Flat(SubAt(p, k)), c, env);
  }

  /** Once a sub-task fails, nothing else runs. */
  lemma {:induction false} FailureStays(p: Profile, k: nat, n: nat, c: Clock, env: Platform)
    requires p.Sequence? && |p.subs| > 0 && k <= n && RunTo(p, k, c, env).code != 0
    ensures RunTo(p, n, c, env) == RunTo(p, k, c, env)
  {
    if k < n {
      FailureStays(p, k, n - 1, c, env);
      RunNext(p, n - 1, c, env);
    }
  }

  lemma RunExit(code: int, c: Clock, env: Platform)
    ensures IsProgram([Exit(code)]) && Interpret([Exit(code)], c, env) == Result(code, c, 0)
  {
    assert [Exit(code)][1..] == [];
    assert Interpret([], c, env) == Result(0, c, 0);
  }

  lemma RunWhole(p: Profile, c: Clock, env: Platform)
    requires p.Sequence?
    ensures |p.subs| == 0 ==> Run(p, c, env) == Result(p.code, c, 0)
    ensures |p.subs| > 0 ==> var r := RunTo(p, SubCount(p), c, env);
                             Run(p, c, env) == if r.code != 0 then r else r.(code := p.code)
  {
    FlatSequence(p);
    FlatIsProgram(p);
    var last := [Exit(p.code)];
    if |p.subs| > 0 {
      FlatToIsProgram(p, SubCount(p));
      InterpretConcat(FlatTo(p, SubCount(p)), last, c, env);
      RunExit(p.code, RunTo(p, SubCount(p), c, env).clock, env);
    } else {
      assert Flat(p) == last;
      RunExit(p.code, c, env);
    }
  }

  lemma RunsLeaf(p: Profile, c: Clock, env: Platform)
    requires !p.Sequence?
    ensures var (code, c') := RunLeaf(p, c, env); Run(p, c, env) == Result(code, c', 1)
  {
    assert [Leaf(p)][1..] == [];
    assert Interpret([], RunLeaf(p, c, env).1, env).leaves == 0;
    FlatIsProgram(p);
    assert Flat(p) == [Leaf(p)];
  }

  lemma {:induction false} LeafPathsPrefix(p: Profile, k: nat, n: nat)
    requires p.Sequence? && |p.subs| > 0 && k <= n
    ensures |LeafPathsTo(p, k)| <= |LeafPathsTo(p, n)|
    ensures LeafPathsTo(p, n)[..|LeafPathsTo(p, k)|] == LeafPathsTo(p, k)
  {
    if k < n {
      LeafPathsPrefix(p, k, n - 1);
    }
  }

  /** The leaves before sub-task k, and the first m of it, are the first leaves of p. */
  lemma FirstLeaves(p: Profile, prefix: Path, k: nat, m: nat)
    requires p.Sequence? && |p.subs| > 0 && k < SubCount(p) && m <= |LeafPaths(SubAt(p, k))|
    ensures var n := |LeafPathsTo(p, k)| + m;
            && n <= |LeafPaths(p)|
            && Under(prefix, LeafPathsTo(p, k)) + Under(prefix + [k], LeafPaths(SubAt(p, k))[..m])
               == Under(prefix, LeafPaths(p)[..n])
  {
    hide *;
    var first, sub, all := LeafPathsTo(p, k), LeafPaths(SubAt(p, k)), LeafPaths(p);
    SubLeaves(p, k);
    UnderUnder(prefix, k, sub[..m]);
    FirstOf(all, first, Under([k], sub), m);
    UnderTake([k], sub, m);
    UnderConcat(prefix, first, Under([k], sub[..m]));
  }

  lemma SubLeaves(p: Profile, k: nat)
    requires p.Sequence? && |p.subs| > 0 && k < SubCount(p)
    ensures var first, sub := LeafPathsTo(p, k), LeafPaths(SubAt(p, k));
            && |first| + |sub| <= |LeafPaths(p)|
            && LeafPaths(p)[..|first| + |sub|] == first + Under([k], sub)
  {
    hide *;
    AllLeaves(p, k);
    LeafPathsPrefix(p, k + 1, SubCount(p));
  }

  lemma AllLeaves(p: Profile, k: nat)
    requires p.Sequence? && |p.subs| > 0
    ensures LeafPaths(p) == LeafPathsTo(p, SubCount(p))
    ensures LeafPathsTo(p, k + 1) == LeafPathsTo(p, k) + Under([k], LeafPaths(SubAt(p, k)))
  {
  }

  lemma FirstOf(all: seq<Path>, a: seq<Path>, b: seq<Path>, m: nat)
    requires |a| + |b| <= |all| && all[..|a| + |b|] == a + b && m <= |b|
    ensures all[..|a| + m] == a + b[..m]
  {
    assert all[..|a| + m] == all[..|a| + |b|][..|a| + m];
  }

  lemma UnderUnder(prefix: Path, k: nat, s: seq<Path>)
    ensures Under(prefix, Under([k], s)) == Under(prefix + [k], s)
  {
    forall i | 0 <= i < |s| ensures Under(prefix, Under([k], s))[i] == Under(prefix + [k], s)[i] {
      assert prefix + ([k] + s[i]) == (prefix + [k]) + s[i];
    }
  }

  lemma UnderConcat(prefix: Path, a: seq<Path>, b: seq<Path>)
    ensures Under(prefix, a + b) == Under(prefix, a) + Under(prefix, b)
  {
  }

  lemma UnderTake(prefix: Path, s: seq<Path>, m: nat)
    requires m <= |s|
    ensures Under(prefix, s)[..m] == Under(prefix, s[..m])
  {
  }

  lemma {:induction false} NextLeaves(p: Profile, prefix: Path, k: nat)
    requires p.Sequence? && |p.subs| > 0
    ensures Under(prefix, LeafPathsTo(p, k)) + Under(prefix + [k], LeafPaths(SubAt(p, k)))
         == Under(prefix, LeafPathsTo(p, k + 1))
  {
    UnderUnder(prefix, k, LeafPaths(SubAt(p, k)));
    UnderConcat(prefix, LeafPathsTo(p, k), Under([k], LeafPaths(SubAt(p, k))));
  }
}
