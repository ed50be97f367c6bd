/** What becomes of the submitter when jobs are rejected or killed: only the message of a completed job
    makes the server call the submitter back. */
module WorkflowFates {
  import opened WorkflowSteps
  import opened WorkflowSafety
  import opened WorkflowTheorems

  /** So far only tasks of the set reported were called back. */
  ghost predicate CalledBack(log: seq<Event>, reported: set<Id>) {
    forall t :: Completed(t) in log ==> t in reported
  }

  /** The submitter cannot go on: nothing may be submitted, and no job at work will be called back. */
  ghost predicate Stuck(limit: nat, s: State, reported: set<Id>) {
    !CanSubmit(limit, s) && forall key :: key in s.submitted ==> s.submitted[key] !in reported
  }

  /** However the run went, once the submitter cannot go on, its loop is over if and only if no task's job
      was rejected or killed; otherwise it waits for ever. */
  lemma EndsIffAllReported(g: Graph, limit: nat, run: seq<State>, reported: set<Id>)
    requires WellFormed(g) && EdgesOnce(g) && Acyclic(g) && Run(g, limit, run)
    requires CalledBack(run[|run| - 1].log, reported) && Stuck(limit, run[|run| - 1], reported)
    ensures Over(run[|run| - 1]) <==> g.nodes <= reported
  {
    var s := run[|run| - 1];
    if Over(s) {
      ServesAllTasksIffAcyclic(g, limit, run);
    }
    if g.nodes <= reported {
      RunInv(g, limit, run, |run| - 1);
      hide Run, WellFormed, EdgesOnce, Acyclic;
      NothingAtWork(g, limit, s, reported);
    }
  }

  lemma NothingAtWork(g: Graph, limit: nat, s: State, reported: set<Id>)
    requires Inv(g, limit, s) && Stuck(limit, s, reported) && g.nodes <= reported
    ensures Over(s)
  {
    forall key ensures key !in s.submitted {
      assert Covers(g, s);
    }
    assert s.submitted == map[];
  }
}
