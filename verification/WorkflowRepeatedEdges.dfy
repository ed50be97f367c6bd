/** Why each edge must be declared once. add_edge keeps a repeated edge out of the child's parents but
    not out of the parent's children, so the child is counted, and released, too often. */
module WorkflowRepeatedEdges {
  import opened WorkflowSteps
  import opened WorkflowSafety
  import opened WorkflowDepth
  import opened WorkflowTheorems

  /** How many times the completions in the log counted c. */
  ghost function Received(g: Graph, log: seq<Event>, c: Id): nat {
    if log == [] then 0
    else
      var n := |log| - 1;
      Received(g, log[..n], c) + if log[n].Completed? then Copies(Children(g, log[n].task), c) else 0
  }

  ghost predicate NoCompletion(log: seq<Event>) {
    forall i :: 0 <= i < |log| ==> log[i].Submitted?
  }

  /** c is a source, or the last completion of the log made its count reach its number of parents. */
  ghost predicate CountedUpOrSource(g: Graph, log: seq<Event>, c: Id) {
    Parents(g, c) == [] || exists k: nat :: CountedUp(g, log, c, k)
  }

  ghost predicate CountedUp(g: Graph, log: seq<Event>, c: Id, k: nat) {
    && k <= |log| && NoCompletion(log[k..])
    && Received(g, log[..k], c) == |Parents(g, c)|
  }

  /** With no cap, a task is submitted before any further completion is waited for. */
  ghost predicate Prompt(g: Graph, s: State) {
    && Covers(g, s)
    && (forall c :: c in g.nodes ==> s.nbParentCompleted[c] == Received(g, s.log, c))
    && (forall i :: 0 <= i < |s.log| && s.log[i].Submitted? ==> CountedUpOrSource(g, s.log[..i], s.log[i].task))
    && (forall c :: c in s.ready ==> CountedUpOrSource(g, s.log, c))
  }

  lemma StillDue(g: Graph, log: seq<Event>, c: Id, e: Event)
    requires CountedUpOrSource(g, log, c) && e.Submitted?
    ensures CountedUpOrSource(g, log + [e], c)
  {
    if Parents(g, c) != [] {
      var k: nat :| CountedUp(g, log, c, k);
      assert (log + [e])[k..] == log[k..] + [e];
      assert (log + [e])[..k] == log[..k];
      assert CountedUp(g, log + [e], c, k);
    }
  }

  lemma SubmitPrompt(g: Graph, s: State)
    requires WellFormed(g) && Prompt(g, s) && s.ready != []
    requires Covers(g, Submit(s))
    ensures Prompt(g, Submit(s))
  {
    var s', t := Submit(s), s.ready[0];
    assert s.ready == [t] + s.ready[1..];
    assert s'.log[..|s.log|] == s.log;
    forall i | 0 <= i < |s'.log| && s'.log[i].Submitted? ensures CountedUpOrSource(g, s'.log[..i], s'.log[i].task) {
      if i < |s.log| { assert s'.log[..i] == s.log[..i]; }
    }
    forall c | c in s'.ready ensures CountedUpOrSource(g, s'.log, c) {
      StillDue(g, s.log, c, Submitted(t));
    }
  }

  lemma CompletePrompt(g: Graph, s: State, key: nat)
    requires WellFormed(g) && Prompt(g, s) && s.ready == [] && key in s.submitted
    requires Covers(g, Complete(g, s, key))
    ensures Prompt(g, Complete(g, s, key))
  {
    var s', kids := Complete(g, s, key), Children(g, s.submitted[key]);
    hide WellFormed, IncAll, DeepenAll, Copies, CountedUp;
    assert s'.log[..|s.log|] == s.log;
    forall c | c in g.nodes ensures s'.nbParentCompleted[c] == Received(g, s'.log, c) {
      IncAllAdds(s.nbParentCompleted, kids, c);
    }
    forall i | 0 <= i < |s'.log| && s'.log[i].Submitted? ensures CountedUpOrSource(g, s'.log[..i], s'.log[i].task) {
      assert s'.log[..i] == s.log[..i];
    }
    forall c | c in s'.ready ensures CountedUpOrSource(g, s'.log, c) {
      JustCountedUp(g, s'.log, c);
    }
  }

  lemma JustCountedUp(g: Graph, log: seq<Event>, c: Id)
    requires Received(g, log, c) == |Parents(g, c)|
    ensures CountedUpOrSource(g, log, c)
  {
    assert log[..|log|] == log;
    assert CountedUp(g, log, c, |log|);
  }

  lemma {:induction false} RunPrompt(g: Graph, run: seq<State>, i: nat)
    requires WellFormed(g) && Run(g, 0, run) && i < |run|
    ensures Prompt(g, run[i])
  {
    if i == 0 {
      InitCovers(g, run[0]);
    } else {
      RunPrompt(g, run, i - 1);
      var s, s' := run[i - 1], run[i];
      assert StepAt(g, 0, run, i);
      StepKeepsCover(g, 0, s, s');
      if CanSubmit(0, s) {
        SubmitPrompt(g, s);
      } else {
        var key :| CompletesJob(g, s, s', key);
        CompletePrompt(g, s, key);
      }
    }
  }

  ghost function TotalCopies(g: Graph, qs: seq<Id>, c: Id): nat {
    if qs == [] then 0 else TotalCopies(g, qs[..|qs| - 1], c) + Copies(Children(g, qs[|qs| - 1]), c)
  }

  lemma {:induction false} TotalWithout(g: Graph, qs: seq<Id>, x: nat, c: Id)
    requires x < |qs|
    ensures TotalCopies(g, qs, c) == TotalCopies(g, qs[..x] + qs[x + 1..], c) + Copies(Children(g, qs[x]), c)
  {
    hide Copies, Children;
    var n := |qs| - 1;
    if x == n {
      assert qs[..x] + qs[x + 1..] == qs[..n];
    } else {
      TotalWithout(g, qs[..n], x, c);
      var rest := qs[..x] + qs[x + 1..];
      assert rest[..|rest| - 1] == qs[..n][..x] + qs[..n][x + 1..];
    }
  }

  lemma NoneTotal(g: Graph, c: Id)
    ensures TotalCopies(g, [], c) == 0
  {
  }

  /** Distinct completed parents have counted c at least as often as they store it. */
  lemma {:induction false} ReceivedAtLeast(g: Graph, log: seq<Event>, qs: seq<Id>, c: Id)
    requires NoDup(qs) && forall q :: q in qs ==> Completed(q) in log
    ensures Received(g, log, c) >= TotalCopies(g, qs, c)
  {
    hide Copies, Children, TotalCopies;
    if qs == [] {
      assert TotalCopies(g, qs, c) == 0 by { NoneTotal(g, c); }
    } else {
      assert Completed(qs[0]) in log;
      var n := |log| - 1;
      assert log == log[..n] + [log[n]];
      if log[n].Completed? && log[n].task in qs {
        var x :| 0 <= x < |qs| && qs[x] == log[n].task;
        var rest := qs[..x] + qs[x + 1..];
        TotalWithout(g, qs, x, c);
        assert forall i :: 0 <= i < |rest| ==> rest[i] == qs[if i < x then i else i + 1];
        ReceivedAtLeast(g, log[..n], rest, c);
      } else {
        ReceivedAtLeast(g, log[..n], qs, c);
      }
    }
  }

  /** If every entry of qs stores c, and p even twice, they store it more often than they are. */
  lemma {:induction false} TooManyCopies(g: Graph, qs: seq<Id>, c: Id, p: Id)
    requires forall q :: q in qs ==> Copies(Children(g, q), c) >= 1
    ensures TotalCopies(g, qs, c) >= |qs|
    ensures p in qs && Copies(Children(g, p), c) > 1 ==> TotalCopies(g, qs, c) > |qs|
  {
    if qs != [] {
      var n := |qs| - 1;
      assert qs == qs[..n] + [qs[n]];
      TooManyCopies(g, qs[..n], c, p);
    }
  }

  /** With all parents completed and no completion since the count was right, no parent stores c twice. */
  lemma NoCopyTooMany(g: Graph, log: seq<Event>, c: Id, k: nat, p: Id)
    requires CountedUp(g, log, c, k) && NoDup(Parents(g, c)) && p in Parents(g, c)
    requires forall q :: q in Parents(g, c) ==> Completed(q) in log && c in Children(g, q)
    ensures Copies(Children(g, p), c) <= 1
  {
    assert log == log[..k] + log[k..];
    forall q | q in Parents(g, c) ensures Completed(q) in log[..k] {
      assert Completed(q) in log;
    }
    forall q | q in Parents(g, c) ensures Copies(Children(g, q), c) >= 1 {
      CopiesPositive(Children(g, q), c);
    }
    ReceivedAtLeast(g, log[..k], Parents(g, c), c);
    TooManyCopies(g, Parents(g, c), c, p);
  }

  lemma NoEarlyRelease(g: Graph, log: seq<Event>, i: nat, p: Id)
    requires WellFormed(g) && Orderly(g, log) && i < |log| && log[i].Submitted?
    requires CountedUpOrSource(g, log[..i], log[i].task) && p in Parents(g, log[i].task)
    ensures Copies(Children(g, p), log[i].task) <= 1
  {
    var c := log[i].task;
    assert Due(g, log, i);
    var k: nat :| CountedUp(g, log[..i], c, k);
    NoCopyTooMany(g, log[..i], c, k, p);
  }

  lemma ServedMeansOnce(g: Graph, s: State, p: Id)
    requires WellFormed(g) && Prompt(g, s) && AllServed(g, s.log) && p in g.nodes
    ensures NoDup(Children(g, p))
  {
    forall c | c in Children(g, p) ensures Copies(Children(g, p), c) == 1 {
      CopiesPositive(Children(g, p), c);
      assert c in g.nodes && p in Parents(g, c);
      assert Submitted(c) in s.log;
      var i :| 0 <= i < |s.log| && s.log[i] == Submitted(c);
      NoEarlyRelease(g, s.log, i, p);
    }
    CopiesOnce(Children(g, p));
  }

  lemma NotServed(g: Graph, run: seq<State>)
    requires WellFormed(g) && Run(g, 0, run) && !EdgesOnce(g)
    ensures !AllServed(g, run[|run| - 1].log)
  {
    RunPrompt(g, run, |run| - 1);
    var p :| p in g.nodes && !NoDup(Children(g, p));
    hide *;
    if AllServed(g, run[|run| - 1].log) {
      ServedMeansOnce(g, run[|run| - 1], p);
      assert false;
    }
  }

  /** Without a cap, over an acyclic graph: a run that came to its end served every task once and in
      order if and only if each edge was declared once. */
  lemma ServedIffEdgesOnce(g: Graph, run: seq<State>)
    requires WellFormed(g) && Acyclic(g) && Run(g, 0, run) && Over(run[|run| - 1])
    ensures AllServed(g, run[|run| - 1].log) <==> EdgesOnce(g)
  {
    hide Acyclic, Run, AllServed, WellFormed, EdgesOnce, Over;
    if EdgesOnce(g) {
      ServesAllTasksIffAcyclic(g, 0, run);
    } else {
      NotServed(g, run);
    }
  }
}
