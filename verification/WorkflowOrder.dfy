/** Tasks are submitted in the order of their release, and the tasks that one completion releases in the order of
    the children. */
module WorkflowOrder {
  import opened WorkflowSteps
  import opened WorkflowSafety

  /** The submitted tasks, first to last. */
  ghost function Submissions(log: seq<Event>): seq<Id> {
    if log == [] then []
    else
      var n := |log| - 1;
      Submissions(log[..n]) + match log[n] case Submitted(t) => [t] case Completed(_) => []
  }

  lemma SubmissionsMore(log: seq<Event>, e: Event)
    ensures Submissions(log + [e]) == Submissions(log) + match e case Submitted(t) => [t] case Completed(_) => []
  {
    assert (log + [e])[..|log|] == log;
  }

  /** The queue of released tasks: those already submitted, then those that are ready. */
  ghost function Queue(s: State): seq<Id> {
    Submissions(s.log) + s.ready
  }

  ghost predicate Prefix(a: seq<Id>, b: seq<Id>) {
    |a| <= |b| && b[..|a|] == a
  }

  lemma PrefixSelf(a: seq<Id>)
    ensures Prefix(a, a)
  {
  }

  lemma PrefixOn(a: seq<Id>, b: seq<Id>, c: seq<Id>)
    requires Prefix(a, b) && Prefix(b, c)
    ensures Prefix(a, c)
  {
    assert c[..|b|][..|a|] == c[..|a|];
  }

  lemma SubmitQueue(limit: nat, s: State)
    requires CanSubmit(limit, s)
    ensures Queue(Submit(s)) == Queue(s)
  {
    var t := s.ready[0];
    SubmissionsMore(s.log, Submitted(t));
    hide Submissions;
    assert s.ready == [t] + s.ready[1..];
    assert Submissions(s.log) + ([t] + s.ready[1..]) == (Submissions(s.log) + [t]) + s.ready[1..];
  }

  lemma WhatIsReleased(g: Graph, s: State, key: nat)
    requires WellFormed(g) && Covers(g, s) && key in s.submitted
    ensures forall k :: k in Children(g, s.submitted[key]) ==> k in s.nbParentCompleted
    ensures var s', kids := Complete(g, s, key), Children(g, s.submitted[key]);
            && s'.log == s.log + [Completed(s.submitted[key])]
            && s'.ready == s.ready + ReadyKids(g, IncAll(s.nbParentCompleted, kids), kids)
  {
  }

  lemma QueueIs(s: State)
    ensures Queue(s) == Submissions(s.log) + s.ready
  {
  }

  lemma CompletionSubmitsNothing(log: seq<Event>, t: Id)
    ensures Submissions(log + [Completed(t)]) == Submissions(log)
  {
    SubmissionsMore(log, Completed(t));
    hide Submissions;
    assert Submissions(log) + [] == Submissions(log);
  }

  lemma CompleteQueue(g: Graph, s: State, key: nat)
    requires WellFormed(g) && Covers(g, s) && key in s.submitted
    ensures Prefix(Queue(s), Queue(Complete(g, s, key)))
  {
    hide *;
    WhatIsReleased(g, s, key);
    CompletionSubmitsNothing(s.log, s.submitted[key]);
    QueueIs(s);
    QueueIs(Complete(g, s, key));
    var kids := Children(g, s.submitted[key]);
    Appended(Submissions(s.log), s.ready, ReadyKids(g, IncAll(s.nbParentCompleted, kids), kids));
  }

  lemma Appended(subs: seq<Id>, ready: seq<Id>, released: seq<Id>)
    ensures Prefix(subs + ready, subs + (ready + released))
  {
  }

  /** A step takes the first ready task, or appends what it released. */
  lemma StepQueue(g: Graph, limit: nat, s: State, s': State)
    requires WellFormed(g) && Next(g, limit, s, s')
    ensures Prefix(Queue(s), Queue(s'))
  {
    hide WellFormed, Covers, Submit, Complete, Queue;
    if CanSubmit(limit, s) {
      SubmitQueue(limit, s);
    } else {
      var key :| CompletesJob(g, s, s', key);
      CompleteQueue(g, s, key);
    }
  }

  /** In every run: what is ready at some moment is submitted in that order, after what was submitted before and
      before anything released later. */
  lemma FirstReleasedFirst(g: Graph, limit: nat, run: seq<State>, i: nat, n: nat)
    requires WellFormed(g) && Run(g, limit, run) && i <= n < |run|
    ensures var before, after := Submissions(run[i].log) + run[i].ready, Submissions(run[n].log) + run[n].ready;
            |before| <= |after| && after[..|before|] == before
  {
    RunQueue(g, limit, run, i, n);
  }

  lemma {:induction false} RunQueue(g: Graph, limit: nat, run: seq<State>, i: nat, n: nat)
    requires WellFormed(g) && Run(g, limit, run) && i <= n < |run|
    ensures Prefix(Queue(run[i]), Queue(run[n]))
  {
    hide *;
    if i == n {
      PrefixSelf(Queue(run[i]));
    } else {
      RunQueue(g, limit, run, i, n - 1);
      var s, s' := StepOf(g, limit, run, n);
      StepQueue(g, limit, s, s');
      PrefixOn(Queue(run[i]), Queue(s), Queue(s'));
    }
  }

  /** At the end of the loop, the tasks that were ready at some moment were submitted one after the other. */
  lemma SubmittedInOrder(g: Graph, limit: nat, run: seq<State>, i: nat)
    requires WellFormed(g) && Run(g, limit, run) && i < |run| && Over(run[|run| - 1])
    ensures var done, all := |Submissions(run[i].log)|, Submissions(run[|run| - 1].log);
            done + |run[i].ready| <= |all| && all[done..done + |run[i].ready|] == run[i].ready
  {
    FirstReleasedFirst(g, limit, run, i, |run| - 1);
    hide Run, WellFormed;
    var all, done := Submissions(run[|run| - 1].log), |Submissions(run[i].log)|;
    assert all + [] == all;
    var before := Submissions(run[i].log) + run[i].ready;
    assert all[..|before|][done..] == run[i].ready;
  }

  /** The tasks that a completion releases are in the order of the children list. */
  lemma {:induction false} ReleasedInOrder(g: Graph, nb: map<Id, int>, kids: seq<Id>, a: nat, b: nat)
    returns (i: nat, j: nat)
    requires (forall k :: k in kids ==> k in nb) && a < b < |ReadyKids(g, nb, kids)|
    ensures i < j < |kids| && kids[i] == ReadyKids(g, nb, kids)[a] && kids[j] == ReadyKids(g, nb, kids)[b]
  {
    var n := |kids| - 1;
    var r, before := ReadyKids(g, nb, kids), ReadyKids(g, nb, kids[..n]);
    if b < |before| {
      i, j := ReleasedInOrder(g, nb, kids[..n], a, b);
      assert r[a] == before[a] && r[b] == before[b];
    } else {
      assert r[a] == before[a] && before[a] in before;
      assert r[a] in kids[..n];
      i :| 0 <= i < n && kids[i] == r[a];
      j := n;
    }
  }

  /** ... so are those that a step appends to the ready list. */
  lemma CompletionAppends(g: Graph, limit: nat, run: seq<State>, n: nat, a: nat, b: nat)
    returns (t: Id, i: nat, j: nat)
    requires WellFormed(g) && Run(g, limit, run) && 0 < n < |run|
    requires |run[n].log| > 0 && run[n].log[|run[n].log| - 1].Completed?
    requires |run[n - 1].ready| <= a < b < |run[n].ready|
    ensures run[n].log[|run[n].log| - 1] == Completed(t)
    ensures i < j < |Children(g, t)| && Children(g, t)[i] == run[n].ready[a] && Children(g, t)[j] == run[n].ready[b]
  {
    hide *;
    var s, s' := StepOf(g, limit, run, n);
    var key := WhoCompletes(g, limit, s, s');
    t := s.submitted[key];
    WhatIsReleased(g, s, key);
    var nb := IncAll(s.nbParentCompleted, Children(g, t));
    i, j := ReleasedInOrder(g, nb, Children(g, t), a - |s.ready|, b - |s.ready|);
  }

  lemma WhoCompletes(g: Graph, limit: nat, s: State, s': State) returns (key: nat)
    requires WellFormed(g) && Next(g, limit, s, s') && s'.log != [] && s'.log[|s'.log| - 1].Completed?
    ensures Covers(g, s) && key in s.submitted && s' == Complete(g, s, key)
  {
    hide WellFormed, Covers, Complete, ReadyKids, IncAll, DeepenAll;
    key :| CompletesJob(g, s, s', key);
  }

  // ----- job numbers -----

  /** The k-th submitted task has job number k. */
  ghost predicate Numbered(s: State) {
    && s.nextKey == |Submissions(s.log)|
    && forall k :: k in s.submitted ==> k < |Submissions(s.log)| && s.submitted[k] == Submissions(s.log)[k]
  }

  lemma SubmitNumbers(limit: nat, s: State)
    requires CanSubmit(limit, s) && Numbered(s)
    ensures Numbered(Submit(s))
  {
    SubmissionsMore(s.log, Submitted(s.ready[0]));
    hide Submissions;
  }

  lemma CompleteNumbers(g: Graph, s: State, key: nat)
    requires WellFormed(g) && Covers(g, s) && key in s.submitted && Numbered(s)
    ensures Numbered(Complete(g, s, key))
  {
    CompletionSubmitsNothing(s.log, s.submitted[key]);
    hide WellFormed, Covers, Submissions, ReadyKids, IncAll, DeepenAll;
  }

  /** In every run the jobs of the tasks are numbered in the order of their submission. */
  lemma {:induction false} JobNumbers(g: Graph, limit: nat, run: seq<State>, n: nat)
    requires WellFormed(g) && Run(g, limit, run) && n < |run|
    ensures run[n].nextKey == |Submissions(run[n].log)|
    ensures forall k :: k in run[n].submitted ==>
              k < |Submissions(run[n].log)| && run[n].submitted[k] == Submissions(run[n].log)[k]
  {
    if n > 0 {
      JobNumbers(g, limit, run, n - 1);
      var s, s' := StepOf(g, limit, run, n);
      hide Run, WellFormed, Covers, Submit, Complete, Submissions, Init;
      if CanSubmit(limit, s) {
        SubmitNumbers(limit, s);
      } else {
        var key :| CompletesJob(g, s, s', key);
        CompleteNumbers(g, s, key);
      }
    }
  }
}
