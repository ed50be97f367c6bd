/** The main results about the workflow submitter, over all runs. */
module WorkflowTheorems {
  import opened WorkflowSteps
  import opened WorkflowSafety
  import opened WorkflowDepth

  /** Every task was submitted exactly once, after all its parents completed, and completed. */
  ghost predicate AllServed(g: Graph, log: seq<Event>) {
    && Orderly(g, log)
    && forall t :: t in g.nodes ==> Submitted(t) in log && Completed(t) in log
  }

  // ----- at every moment, when each edge was declared once -----

  /** No task is submitted early or twice, the counter is the number of jobs at work and respects the
      cap, and the submitter is not stuck unless its loop is over. */
  lemma AlwaysSafe(g: Graph, limit: nat, run: seq<State>, i: nat)
    requires WellFormed(g) && EdgesOnce(g) && Run(g, limit, run) && i < |run|
    ensures Orderly(g, run[i].log)
    ensures run[i].currentNb == |run[i].submitted| && (limit > 0 ==> run[i].currentNb <= limit)
    ensures Over(run[i]) <==> !exists s :: Next(g, limit, run[i], s)
  {
    var s := run[i];
    RunInv(g, limit, run, i);
    RunLogged(g, limit, run, i);
    if CanSubmit(limit, s) {
      assert Next(g, limit, s, Submit(s));
    } else if s.submitted != map[] {
      var key :| key in s.submitted;
      assert CompletesJob(g, s, Complete(g, s, key), key);
      assert Next(g, limit, s, Complete(g, s, key));
    }
  }

  lemma CompletionWaited(g: Graph, limit: nat, run: seq<State>, i: nat)
    requires WellFormed(g) && Run(g, limit, run) && 0 < i < |run|
    requires run[i].log != [] && run[i].log[|run[i].log| - 1].Completed?
    ensures !CanSubmit(limit, run[i - 1])
  {
    var s, s' := StepOf(g, limit, run, i);
  }

  /** The submitter only waits for a completion when no task is ready or the cap is reached. */
  lemma WaitsOnlyWhenItMust(g: Graph, limit: nat, run: seq<State>, i: nat)
    requires WellFormed(g) && EdgesOnce(g) && Run(g, limit, run) && 0 < i < |run|
    requires run[i].log != [] && run[i].log[|run[i].log| - 1].Completed?
    ensures run[i - 1].ready == [] || (limit > 0 && |run[i - 1].submitted| == limit)
  {
    RunInv(g, limit, run, i - 1);
    CompletionWaited(g, limit, run, i);
  }

  /** A run has one event per step, and at most two per task: every run ends. */
  lemma {:induction false} RunsAreShort(g: Graph, limit: nat, run: seq<State>)
    requires WellFormed(g) && EdgesOnce(g) && Run(g, limit, run)
    ensures |run[|run| - 1].log| == |run| - 1 <= 2 * |g.nodes|
  {
    LogLength(g, limit, run, |run| - 1);
    RunLogged(g, limit, run, |run| - 1);
    EventsAreFew(g, run[|run| - 1].log);
  }

  lemma {:induction false} LogLength(g: Graph, limit: nat, run: seq<State>, i: nat)
    requires WellFormed(g) && Run(g, limit, run) && i < |run|
    ensures |run[i].log| == i
  {
    if i > 0 {
      LogLength(g, limit, run, i - 1);
      assert StepAt(g, limit, run, i);
      if !CanSubmit(limit, run[i - 1]) {
        var key :| CompletesJob(g, run[i - 1], run[i], key);
      }
    }
  }

  lemma EventsAreFew(g: Graph, log: seq<Event>)
    requires Orderly(g, log)
    ensures |log| <= 2 * |g.nodes|
  {
    var events := set e | e in log;
    DistinctEvents(g, log);
    var sent, done := set t | t in g.nodes :: Submitted(t), set t | t in g.nodes :: Completed(t);
    ImageSize(g.nodes, true);
    ImageSize(g.nodes, false);
    assert events <= sent + done by {
      forall e | e in events ensures e in sent + done {
        var i :| 0 <= i < |log| && log[i] == e;
        assert Due(g, log, i);
      }
    }
    assert |sent + done| <= |sent| + |done|;
    SubsetSize(events, sent + done);
  }

  ghost function EventOf(t: Id, submitted: bool): Event {
    if submitted then Submitted(t) else Completed(t)
  }

  lemma {:induction false} ImageSize(nodes: set<Id>, submitted: bool)
    ensures |set t | t in nodes :: EventOf(t, submitted)| == |nodes|
    ensures submitted ==> (set t | t in nodes :: EventOf(t, submitted)) == set t | t in nodes :: Submitted(t)
    ensures !submitted ==> (set t | t in nodes :: EventOf(t, submitted)) == set t | t in nodes :: Completed(t)
  {
    if nodes != {} {
      var x :| x in nodes;
      ImageSize(nodes - {x}, submitted);
      assert (set t | t in nodes :: EventOf(t, submitted))
          == (set t | t in nodes - {x} :: EventOf(t, submitted)) + {EventOf(x, submitted)};
      assert EventOf(x, submitted) !in (set t | t in nodes - {x} :: EventOf(t, submitted));
    }
  }

  lemma {:induction false} SubsetSize(a: set<Event>, b: set<Event>)
    requires a <= b
    ensures |a| <= |b|
  {
    if a != {} {
      var x :| x in a;
      SubsetSize(a - {x}, b - {x});
    }
  }

  lemma {:induction false} DistinctEvents(g: Graph, log: seq<Event>)
    requires Orderly(g, log)
    ensures |set e | e in log| == |log|
  {
    if log != [] {
      var n := |log| - 1;
      assert Due(g, log, n);
      forall i | 0 <= i < n ensures Due(g, log[..n], i) {
        assert Due(g, log, i);
        assert log[..n][..i] == log[..i];
      }
      DistinctEvents(g, log[..n]);
      assert (set e | e in log) == (set e | e in log[..n]) + {log[n]} by {
        assert log == log[..n] + [log[n]];
      }
    }
  }

  // ----- when the loop is over -----

  /** Over an acyclic graph the loop only ends when every task has completed ... */
  lemma {:induction false} EachTaskDone(g: Graph, limit: nat, s: State, rank: map<Id, nat>, t: Id)
    requires WellFormed(g) && Inv(g, limit, s) && Over(s) && Ranked(g, rank) && t in g.nodes
    ensures t in s.done
    decreases rank[t]
  {
    forall p | p in Parents(g, t) ensures p in s.done {
      EachTaskDone(g, limit, s, rank, p);
    }
    assert AllIn(Parents(g, t), s.done);
  }

  ghost function FirstIndex(log: seq<Event>, e: Event): (i: nat)
    requires e in log
    ensures i < |log| && log[i] == e && forall j :: 0 <= j < i ==> log[j] != e
  {
    if log[|log| - 1] == e && e !in log[..|log| - 1] then |log| - 1
    else
      assert log == log[..|log| - 1] + [log[|log| - 1]];
      FirstIndex(log[..|log| - 1], e)
  }

  lemma EventBefore(log: seq<Event>, e: Event, k: nat)
    requires k <= |log| && e in log[..k]
    ensures e in log && FirstIndex(log, e) < k
  {
    var j :| 0 <= j < k && log[..k][j] == e;
    assert log[j] == e;
  }

  lemma ParentCompletesFirst(g: Graph, log: seq<Event>, t: Id, p: Id)
    requires Orderly(g, log) && Completed(t) in log && p in Parents(g, t)
    ensures p in g.nodes && Completed(p) in log && FirstIndex(log, Completed(p)) < FirstIndex(log, Completed(t))
  {
    var i := FirstIndex(log, Completed(t));
    assert Due(g, log, i);
    EventBefore(log, Submitted(t), i);
    var k := FirstIndex(log, Submitted(t));
    assert Due(g, log, k);
    EventBefore(log, Completed(p), k);
    assert Due(g, log, FirstIndex(log, Completed(p)));
  }

  /** ... and the other way round: serving all tasks in order proves the graph acyclic. */
  lemma ServedMeansAcyclic(g: Graph, log: seq<Event>)
    requires AllServed(g, log)
    ensures Acyclic(g)
  {
    var rank := map t | t in g.nodes :: FirstIndex(log, Completed(t));
    forall t, p | t in g.nodes && p in Parents(g, t) ensures p in g.nodes && rank[p] < rank[t] {
      ParentCompletesFirst(g, log, t, p);
    }
    assert Ranked(g, rank);
  }

  /** When each edge was declared once: whatever the cap and the order of completions, the loop ends
      with every task served exactly when the graph has no cycle. */
  lemma ServesAllTasksIffAcyclic(g: Graph, limit: nat, run: seq<State>)
    requires WellFormed(g) && EdgesOnce(g) && Run(g, limit, run) && Over(run[|run| - 1])
    ensures AllServed(g, run[|run| - 1].log) <==> Acyclic(g)
  {
    hide *;
    RunStart(g, limit, run);
    RunInv(g, limit, run, |run| - 1);
    RunLogged(g, limit, run, |run| - 1);
    ServedAtEnd(g, limit, run[|run| - 1]);
  }

  lemma ServedAtEnd(g: Graph, limit: nat, s: State)
    requires WellFormed(g) && Inv(g, limit, s) && Logged(g, s) && Over(s)
    ensures AllServed(g, s.log) <==> Acyclic(g)
  {
    hide *;
    if Acyclic(g) {
      AllDone(g, limit, s);
      DoneMeansServed(g, s);
    }
    if AllServed(g, s.log) {
      ServedMeansAcyclic(g, s.log);
    }
  }

  lemma DoneMeansServed(g: Graph, s: State)
    requires Logged(g, s) && s.done == g.nodes
    ensures AllServed(g, s.log)
  {
    forall t | t in g.nodes ensures Submitted(t) in s.log && Completed(t) in s.log {
      assert Completed(t) in s.log;
      var i :| 0 <= i < |s.log| && s.log[i] == Completed(t);
      assert Due(g, s.log, i);
    }
  }

  lemma AllDone(g: Graph, limit: nat, s: State)
    requires WellFormed(g) && Acyclic(g) && Inv(g, limit, s) && Over(s)
    ensures s.done == g.nodes
  {
    var rank :| Ranked(g, rank);
    forall t | t in g.nodes ensures t in s.done {
      EachTaskDone(g, limit, s, rank, t);
    }
  }

  lemma FinalDeepMap(g: Graph, limit: nat, run: seq<State>)
    requires WellFormed(g) && EdgesOnce(g) && Acyclic(g)
    requires Run(g, limit, run) && Over(run[|run| - 1])
    ensures DeepMap(g, run[|run| - 1].depth, g.nodes)
  {
    RunInv(g, limit, run, |run| - 1);
    RunDeep(g, limit, run, |run| - 1);
    AllDone(g, limit, run[|run| - 1]);
  }

  /** The depths at the end do not depend on the run: each is the longest path to the task, which
      starts at a source ... */
  lemma FinalDepth(g: Graph, limit: nat, run: seq<State>, t: Id)
    requires WellFormed(g) && EdgesOnce(g) && Acyclic(g) && t in g.nodes
    requires Run(g, limit, run) && Over(run[|run| - 1])
    ensures t in run[|run| - 1].depth && Longest(g, t, run[|run| - 1].depth[t])
    ensures exists q :: PathTo(g, q, t) && |q| == run[|run| - 1].depth[t] + 1 && Parents(g, q[0]) == []
  {
    var depth := run[|run| - 1].depth;
    FinalDeepMap(g, limit, run);
    var rank :| Ranked(g, rank);
    DepthIsLongest(g, depth, rank, t);
    var q :| PathTo(g, q, t) && |q| == depth[t] + 1;
    LongestFromSource(g, t, depth[t], q);
  }

  /** ... and the workflow's maximum depth is the longest path of the whole graph. */
  lemma FinalMaximumDepth(g: Graph, limit: nat, run: seq<State>, d: int)
    requires WellFormed(g) && EdgesOnce(g) && Acyclic(g) && g.nodes != {}
    requires Run(g, limit, run) && Over(run[|run| - 1])
    requires MaximumDepth(g, run[|run| - 1].depth, d)
    ensures exists q, t :: PathTo(g, q, t) && |q| == d + 1
    ensures forall q, t :: PathTo(g, q, t) ==> |q| <= d + 1
  {
    FinalDeepMap(g, limit, run);
    var rank :| Ranked(g, rank);
    MaximumDepthIsLongest(g, run[|run| - 1].depth, rank, d);
  }
}
