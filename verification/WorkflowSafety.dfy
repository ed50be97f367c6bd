/** What holds in every run of the workflow submitter when each edge was declared once: every task is
    submitted once, after its parents, and within the cap. */
module WorkflowSafety {
  import opened WorkflowSteps

  ghost predicate AllIn(s: seq<Id>, a: set<Id>) {
    forall x :: x in s ==> x in a
  }

  // ----- where the tasks are -----

  /** A task that was submitted is either completed or found under its own key. */
  ghost predicate Placed(g: Graph, s: State) {
    && NoDup(s.ready)
    && (forall t :: t in s.ready ==> t in g.nodes && t !in s.keyOf)
    && (forall k :: k in s.submitted ==>
          k < s.nextKey && s.submitted[k] in s.keyOf && s.keyOf[s.submitted[k]] == k && s.submitted[k] !in s.done)
    && (forall t :: t in s.keyOf && t !in s.done ==> s.keyOf[t] in s.submitted && s.submitted[s.keyOf[t]] == t)
    && s.done <= s.keyOf.Keys <= g.nodes
  }

  /** A task is ready or was submitted exactly when all its parents completed. */
  ghost predicate Released(g: Graph, s: State) {
    forall t {:trigger AllIn(Parents(g, t), s.done)} ::
      t in g.nodes ==> ((t in s.ready || t in s.keyOf) <==> AllIn(Parents(g, t), s.done))
  }

  ghost predicate Counted(g: Graph, s: State) {
    && s.nbParentCompleted.Keys == g.nodes
    && forall t :: t in g.nodes ==> s.nbParentCompleted[t] == CountIn(Parents(g, t), s.done)
  }

  ghost predicate Capped(limit: nat, s: State) {
    && s.currentNb == |s.submitted|
    && (limit > 0 ==> s.currentNb <= limit)
  }

  lemma {:induction false} CountNone(s: seq<Id>)
    ensures CountIn(s, {}) == 0
  {
    if s != [] { CountNone(s[..|s| - 1]); }
  }

  lemma InitPlaced(g: Graph, limit: nat, s: State)
    requires WellFormed(g) && Init(g, s)
    ensures Placed(g, s) && Released(g, s) && Counted(g, s) && Capped(limit, s)
  {
    forall t | t in g.nodes ensures CountIn(Parents(g, t), {}) == 0 {
      CountNone(Parents(g, t));
    }
    forall t | t in g.nodes && Parents(g, t) != [] ensures !AllIn(Parents(g, t), {}) {
      assert Parents(g, t)[0] in Parents(g, t);
    }
  }

  lemma SubmitPlaced(g: Graph, limit: nat, s: State)
    requires Placed(g, s) && CanSubmit(limit, s)
    ensures Placed(g, Submit(s))
  {
    var s', t := Submit(s), s.ready[0];
    assert s.ready == [t] + s.ready[1..];
    assert t in s.ready;
    assert t !in s'.ready;
  }

  lemma SubmitReleased(g: Graph, limit: nat, s: State)
    requires Released(g, s) && CanSubmit(limit, s)
    ensures Released(g, Submit(s))
  {
    var s', t := Submit(s), s.ready[0];
    assert s.ready == [t] + s.ready[1..];
    forall x ensures (x in s'.ready || x in s'.keyOf) <==> (x in s.ready || x in s.keyOf) {
    }
  }

  lemma SubmitCapped(g: Graph, limit: nat, s: State)
    requires Placed(g, s) && Capped(limit, s) && CanSubmit(limit, s)
    ensures Capped(limit, Submit(s))
  {
    assert s.nextKey !in s.submitted;
  }

  /** The count of one task grows by one exactly when one of its parents completes. */
  lemma OneMoreParent(g: Graph, nb: map<Id, int>, done: set<Id>, t: Id, c: Id)
    requires WellFormed(g) && NoDup(Children(g, t)) && t !in done && c in g.nodes
    requires nb.Keys == g.nodes && nb[c] == CountIn(Parents(g, c), done)
    ensures (forall k :: k in Children(g, t) ==> k in nb)
         && IncAll(nb, Children(g, t))[c] == CountIn(Parents(g, c), done + {t})
  {
    var kids := Children(g, t);
    IncAllAdds(nb, kids, c);
    CopiesOnce(kids);
    CopiesPositive(kids, c);
    CountOneMore(Parents(g, c), done, t);
  }

  lemma CompleteCounted(g: Graph, s: State, key: nat)
    requires WellFormed(g) && EdgesOnce(g) && Covers(g, s) && key in s.submitted
    requires Counted(g, s) && s.submitted[key] !in s.done
    ensures Counted(g, Complete(g, s, key))
  {
    var s' := Complete(g, s, key);
    forall c | c in g.nodes ensures s'.nbParentCompleted[c] == CountIn(Parents(g, c), s'.done) {
      OneMoreParent(g, s.nbParentCompleted, s.done, s.submitted[key], c);
    }
  }

  lemma {:induction false} ReadyKidsNoDup(g: Graph, nb: map<Id, int>, kids: seq<Id>)
    requires forall k :: k in kids ==> k in nb
    requires NoDup(kids)
    ensures NoDup(ReadyKids(g, nb, kids))
  {
    if kids != [] {
      var n := |kids| - 1;
      ReadyKidsNoDup(g, nb, kids[..n]);
      assert kids[n] !in kids[..n];
    }
  }

  /** The tasks that the completion of t releases are exactly the children all of whose parents are
      now done. */
  lemma CompleteReleases(g: Graph, nb: map<Id, int>, done: set<Id>, t: Id)
    requires WellFormed(g) && NoDup(Children(g, t)) && t !in done && nb.Keys == g.nodes
    requires forall c :: c in g.nodes ==> nb[c] == CountIn(Parents(g, c), done)
    ensures ReleasedBy(g, done, t, ReadyKids(g, IncAll(nb, Children(g, t)), Children(g, t)))
  {
    var kids := Children(g, t);
    var nb' := IncAll(nb, kids);
    ReadyKidsNoDup(g, nb', kids);
    forall c | c in kids ensures nb'[c] == |Parents(g, c)| <==> AllIn(Parents(g, c), done + {t}) {
      OneMoreParent(g, nb, done, t, c);
      CountAll(Parents(g, c), done + {t});
    }
  }

  ghost predicate ReleasedBy(g: Graph, done: set<Id>, t: Id, released: seq<Id>) {
    && NoDup(released)
    && forall c :: c in released <==> c in g.nodes && t in Parents(g, c) && AllIn(Parents(g, c), done + {t})
  }

  /** s' is s after the completion of the task under key released some tasks. */
  ghost predicate Completes(s: State, s': State, key: nat, released: seq<Id>)
    requires key in s.submitted
  {
    && s'.ready == s.ready + released && s'.submitted == s.submitted - {key} && s'.nextKey == s.nextKey
    && s'.keyOf == s.keyOf && s'.done == s.done + {s.submitted[key]}
  }

  lemma ReleasedAfter(g: Graph, s: State, s': State, key: nat, released: seq<Id>)
    requires key in s.submitted && Completes(s, s', key, released)
    requires Released(g, s) && s.submitted[key] !in s.done && ReleasedBy(g, s.done, s.submitted[key], released)
    ensures Released(g, s')
    ensures forall c :: c in released ==> c !in s.ready && c !in s.keyOf
  {
    var t := s.submitted[key];
    forall c | c in g.nodes
      ensures c in released ==> c !in s.ready && c !in s.keyOf
      ensures (c in s.ready || c in released || c in s.keyOf) <==> AllIn(Parents(g, c), s'.done)
    {
      if t in Parents(g, c) {
        assert !AllIn(Parents(g, c), s.done);
      } else {
        assert AllIn(Parents(g, c), s'.done) <==> AllIn(Parents(g, c), s.done);
      }
    }
  }

  lemma PlacedAfter(g: Graph, s: State, s': State, key: nat, released: seq<Id>)
    requires key in s.submitted && Completes(s, s', key, released)
    requires Placed(g, s) && NoDup(released)
    requires forall c :: c in released ==> c in g.nodes && c !in s.ready && c !in s.keyOf
    ensures Placed(g, s')
  {
    NoDupConcat(s.ready, released);
  }

  lemma CompletePlaced(g: Graph, s: State, key: nat)
    requires WellFormed(g) && EdgesOnce(g) && Covers(g, s) && key in s.submitted
    requires Placed(g, s) && Released(g, s) && Counted(g, s)
    ensures Placed(g, Complete(g, s, key)) && Released(g, Complete(g, s, key))
  {
    var s', t := Complete(g, s, key), s.submitted[key];
    var released := ReadyKids(g, s'.nbParentCompleted, Children(g, t));
    CompleteReleases(g, s.nbParentCompleted, s.done, t);
    ReleasedAfter(g, s, s', key, released);
    PlacedAfter(g, s, s', key, released);
  }

  lemma NoDupConcat(a: seq<Id>, b: seq<Id>)
    requires NoDup(a) && NoDup(b) && forall x :: x in b ==> x !in a
    ensures NoDup(a + b)
  {
    forall i, j | 0 <= i < j < |a + b| ensures (a + b)[i] != (a + b)[j] {
      if i < |a| <= j { assert b[j - |a|] in b && a[i] in a; }
    }
  }

  lemma CompleteCapped(g: Graph, limit: nat, s: State, key: nat)
    requires WellFormed(g) && Covers(g, s) && key in s.submitted
    requires Capped(limit, s)
    ensures Capped(limit, Complete(g, s, key))
  {
    assert s.submitted.Keys == (s.submitted - {key}).Keys + {key};
  }

  // ----- the order of events -----

  /** Event i of the log was due: a task is submitted once, after all its parents completed, and
      completes once, after it was submitted. */
  ghost predicate Due(g: Graph, log: seq<Event>, i: nat)
    requires i < |log|
  {
    && log[i].task in g.nodes
    && log[i] !in log[..i]
    && match log[i]
       case Submitted(t) => forall p :: p in Parents(g, t) ==> Completed(p) in log[..i]
       case Completed(t) => Submitted(t) in log[..i]
  }

  ghost predicate Orderly(g: Graph, log: seq<Event>) {
    forall i :: 0 <= i < |log| ==> Due(g, log, i)
  }

  ghost predicate Logged(g: Graph, s: State) {
    && Orderly(g, s.log)
    && (forall t :: Submitted(t) in s.log <==> t in s.keyOf)
    && (forall t :: Completed(t) in s.log <==> t in s.done)
  }

  lemma OrderlyGrows(g: Graph, log: seq<Event>, e: Event)
    requires Orderly(g, log)
    requires e.task in g.nodes && e !in log
    requires e.Submitted? ==> forall p :: p in Parents(g, e.task) ==> Completed(p) in log
    requires e.Completed? ==> Submitted(e.task) in log
    ensures Orderly(g, log + [e])
  {
    var log' := log + [e];
    forall i | 0 <= i < |log'| ensures Due(g, log', i) {
      if i < |log| {
        assert log'[..i] == log[..i] && log'[i] == log[i];
        assert Due(g, log, i);
      } else {
        assert log'[..i] == log;
      }
    }
  }

  lemma SubmitLogged(g: Graph, limit: nat, s: State)
    requires Placed(g, s) && Released(g, s) && Logged(g, s) && CanSubmit(limit, s)
    ensures Logged(g, Submit(s))
  {
    var t := s.ready[0];
    assert t in s.ready;
    assert AllIn(Parents(g, t), s.done);
    OrderlyGrows(g, s.log, Submitted(t));
  }

  lemma CompleteLogged(g: Graph, s: State, key: nat)
    requires WellFormed(g) && Covers(g, s) && key in s.submitted
    requires Placed(g, s) && Logged(g, s)
    ensures Logged(g, Complete(g, s, key))
  {
    OrderlyGrows(g, s.log, Completed(s.submitted[key]));
  }

  // ----- all runs -----

  ghost predicate Inv(g: Graph, limit: nat, s: State) {
    Covers(g, s) && Placed(g, s) && Released(g, s) && Counted(g, s) && Capped(limit, s)
  }

  lemma InitInv(g: Graph, limit: nat, s: State)
    requires WellFormed(g) && Init(g, s)
    ensures Inv(g, limit, s)
  {
    InitCovers(g, s);
    InitPlaced(g, limit, s);
  }

  /** The i-th step of a run. */
  lemma StepOf(g: Graph, limit: nat, run: seq<State>, i: nat) returns (s: State, s': State)
    requires WellFormed(g) && Run(g, limit, run) && 0 < i < |run|
    ensures s == run[i - 1] && s' == run[i] && Next(g, limit, s, s')
  {
    s, s' := run[i - 1], run[i];
    assert StepAt(g, limit, run, i);
  }

  lemma StepInv(g: Graph, limit: nat, run: seq<State>, i: nat)
    requires WellFormed(g) && EdgesOnce(g) && Run(g, limit, run) && 0 < i < |run|
    requires Inv(g, limit, run[i - 1])
    ensures Inv(g, limit, run[i])
  {
    var s, s' := StepOf(g, limit, run, i);
    StepKeepsCover(g, limit, s, s');
    if CanSubmit(limit, s) {
      SubmitPlaced(g, limit, s);
      SubmitReleased(g, limit, s);
      SubmitCapped(g, limit, s);
    } else {
      var key :| CompletesJob(g, s, s', key);
      CompleteCounted(g, s, key);
      CompletePlaced(g, s, key);
      CompleteCapped(g, limit, s, key);
    }
  }

  lemma RunStart(g: Graph, limit: nat, run: seq<State>)
    requires WellFormed(g) && Run(g, limit, run)
    ensures run != [] && Init(g, run[0])
  {
  }

  lemma {:induction false} RunInv(g: Graph, limit: nat, run: seq<State>, i: nat)
    requires WellFormed(g) && EdgesOnce(g) && Run(g, limit, run) && i < |run|
    ensures Inv(g, limit, run[i])
  {
    hide *;
    if i == 0 {
      RunStart(g, limit, run);
      InitInv(g, limit, run[0]);
    } else {
      RunInv(g, limit, run, i - 1);
      StepInv(g, limit, run, i);
    }
  }

  lemma StepLogged(g: Graph, limit: nat, run: seq<State>, i: nat)
    requires WellFormed(g) && EdgesOnce(g) && Run(g, limit, run) && 0 < i < |run|
    requires Inv(g, limit, run[i - 1]) && Logged(g, run[i - 1])
    ensures Logged(g, run[i])
  {
    var s, s' := StepOf(g, limit, run, i);
    if CanSubmit(limit, s) {
      SubmitLogged(g, limit, s);
    } else {
      var key :| CompletesJob(g, s, s', key);
      CompleteLogged(g, s, key);
    }
  }

  lemma InitLogged(g: Graph, s: State)
    requires Init(g, s)
    ensures Logged(g, s)
  {
  }

  lemma {:induction false} RunLogged(g: Graph, limit: nat, run: seq<State>, i: nat)
    requires WellFormed(g) && EdgesOnce(g) && Run(g, limit, run) && i < |run|
    ensures Logged(g, run[i])
  {
    hide *;
    if i == 0 {
      RunStart(g, limit, run);
      InitLogged(g, run[0]);
    } else {
      RunLogged(g, limit, run, i - 1);
      RunInv(g, limit, run, i - 1);
      StepLogged(g, limit, run, i);
    }
  }
}
