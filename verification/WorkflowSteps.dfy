/** The workflow submitter as a step system on values: what one submission and one completion do to
    the ready list, the submitted tasks, the counters and the depths (workflow_submitter_process).
    Tasks are named by their ids. */
module WorkflowSteps {

  type Id = string

  /** parents and children as stored in the tasks; a child can be stored several times. */
  datatype Graph = Graph(nodes: set<Id>, parents: map<Id, seq<Id>>, children: map<Id, seq<Id>>)

  ghost predicate NoDup(s: seq<Id>) {
    forall i, j :: 0 <= i < j < |s| ==> s[i] != s[j]
  }

  function Parents(g: Graph, t: Id): seq<Id> {
    if t in g.parents then g.parents[t] else []
  }

  function Children(g: Graph, t: Id): seq<Id> {
    if t in g.children then g.children[t] else []
  }

  /** The two sides of every edge agree; add_edge stores a parent only once. */
  ghost predicate WellFormed(g: Graph) {
    && g.parents.Keys == g.nodes && g.children.Keys == g.nodes
    && (forall t :: t in g.nodes ==> NoDup(Parents(g, t)))
    && (forall t, p :: p in Parents(g, t) ==> p in g.nodes && t in Children(g, p))
    && (forall p, t :: t in Children(g, p) ==> t in g.nodes && p in Parents(g, t))
  }

  /** Each edge was declared once. */
  ghost predicate EdgesOnce(g: Graph) {
    forall p :: p in g.nodes ==> NoDup(Children(g, p))
  }

  ghost predicate Ranked(g: Graph, rank: map<Id, nat>) {
    && rank.Keys == g.nodes
    && forall t, p :: t in g.nodes && p in Parents(g, t) ==> p in g.nodes && rank[p] < rank[t]
  }

  /** The tasks can be numbered so that every parent comes before its children. */
  ghost predicate Acyclic(g: Graph) {
    exists rank :: Ranked(g, rank)
  }

  datatype Event = Submitted(task: Id) | Completed(task: Id)

  datatype State = State(
    ready: seq<Id>,
    submitted: map<nat, Id>,
    nextKey: nat,
    currentNb: int,
    nbParentCompleted: map<Id, int>,
    depth: map<Id, int>,
    // history: the job key each submitted task got, the completed tasks, and what happened in order
    keyOf: map<Id, nat>,
    done: set<Id>,
    log: seq<Event>)

  /** The source tasks, in whatever order the task map lists them. */
  ghost predicate Init(g: Graph, s: State) {
    && NoDup(s.ready) && (forall t :: t in s.ready <==> t in g.nodes && Parents(g, t) == [])
    && s.submitted == map[] && s.nextKey == 0 && s.currentNb == 0
    && s.nbParentCompleted == (map t | t in g.nodes :: 0)
    && s.depth == (map t | t in g.nodes :: 0)
    && s.keyOf == map[] && s.done == {} && s.log == []
  }

  predicate CanSubmit(limit: nat, s: State) {
    s.ready != [] && (limit == 0 || limit > s.currentNb)
  }

  function Submit(s: State): State
    requires s.ready != []
  {
    var t := s.ready[0];
    s.(ready := s.ready[1..], submitted := s.submitted[s.nextKey := t], nextKey := s.nextKey + 1,
       currentNb := s.currentNb + 1, keyOf := s.keyOf[t := s.nextKey], log := s.log + [Submitted(t)])
  }

  /** inc_child over the kids, one after the other. */
  function IncAll(nb: map<Id, int>, kids: seq<Id>): (r: map<Id, int>)
    requires forall k :: k in kids ==> k in nb
    ensures r.Keys == nb.Keys
  {
    if kids == [] then nb
    else
      var n := |kids| - 1;
      var m := IncAll(nb, kids[..n]);
      m[kids[n] := m[kids[n]] + 1]
  }

  function Max(a: int, b: int): int {
    if a < b then b else a
  }

  /** bottom_level_f over the kids, one after the other. */
  function DeepenAll(depth: map<Id, int>, kids: seq<Id>, parent: Id): (r: map<Id, int>)
    requires parent in depth && forall k :: k in kids ==> k in depth
    ensures r.Keys == depth.Keys && forall k :: k in depth ==> depth[k] <= r[k]
  {
    if kids == [] then depth
    else
      var n := |kids| - 1;
      var m := DeepenAll(depth, kids[..n], parent);
      m[kids[n] := Max(m[kids[n]], m[parent] + 1)]
  }

  /** The kids whose parents are all counted, in list order. */
  function ReadyKids(g: Graph, nb: map<Id, int>, kids: seq<Id>): (r: seq<Id>)
    requires forall k :: k in kids ==> k in nb
    ensures forall k :: k in r <==> k in kids && nb[k] == |Parents(g, k)|
  {
    if kids == [] then []
    else
      var n := |kids| - 1;
      assert kids == kids[..n] + [kids[n]];
      ReadyKids(g, nb, kids[..n]) + if nb[kids[n]] == |Parents(g, kids[n])| then [kids[n]] else []
  }

  /** The maps of s cover the tasks of g. */
  ghost predicate Covers(g: Graph, s: State) {
    && s.nbParentCompleted.Keys == g.nodes && s.depth.Keys == g.nodes
    && (forall k :: k in s.submitted ==> s.submitted[k] in g.nodes)
    && forall t :: t in s.ready ==> t in g.nodes
  }

  function Complete(g: Graph, s: State, key: nat): State
    requires WellFormed(g) && Covers(g, s) && key in s.submitted
  {
    var task := s.submitted[key];
    var kids := Children(g, task);
    var nb := IncAll(s.nbParentCompleted, kids);
    s.(ready := s.ready + ReadyKids(g, nb, kids), submitted := s.submitted - {key},
       currentNb := s.currentNb - 1, nbParentCompleted := nb,
       depth := DeepenAll(s.depth, kids, task), done := s.done + {task}, log := s.log + [Completed(task)])
  }

  /** One step: the submitter waits for a completion, of any submitted task, only when no task is
      ready or the cap is reached. */
  ghost predicate Next(g: Graph, limit: nat, s: State, s': State)
    requires WellFormed(g)
  {
    && Covers(g, s)
    && if CanSubmit(limit, s) then s' == Submit(s)
       else exists key :: CompletesJob(g, s, s', key)
  }

  ghost predicate CompletesJob(g: Graph, s: State, s': State, key: nat)
    requires WellFormed(g) && Covers(g, s)
  {
    key in s.submitted && s' == Complete(g, s, key)
  }

  ghost predicate StepAt(g: Graph, limit: nat, run: seq<State>, i: nat)
    requires WellFormed(g) && 0 < i < |run|
  {
    Next(g, limit, run[i - 1], run[i])
  }

  ghost predicate Run(g: Graph, limit: nat, run: seq<State>)
    requires WellFormed(g)
  {
    && run != [] && Init(g, run[0])
    && forall i {:trigger StepAt(g, limit, run, i)} :: 0 < i < |run| ==> StepAt(g, limit, run, i)
  }

  /** The outer loop's exit condition. */
  predicate Over(s: State) {
    s.ready == [] && s.submitted == map[]
  }

  lemma {:induction false} StepKeepsCover(g: Graph, limit: nat, s: State, s': State)
    requires WellFormed(g) && Next(g, limit, s, s')
    ensures Covers(g, s')
  {
    if CanSubmit(limit, s) {
      assert s.ready == [s.ready[0]] + s.ready[1..];
    }
  }

  lemma InitCovers(g: Graph, s: State)
    requires WellFormed(g) && Init(g, s)
    ensures Covers(g, s)
  {
  }

  // ----- counting -----

  /** How many entries of s belong to a. */
  ghost function CountIn(s: seq<Id>, a: set<Id>): (n: nat)
    ensures n <= |s|
  {
    if s == [] then 0 else CountIn(s[..|s| - 1], a) + if s[|s| - 1] in a then 1 else 0
  }

  lemma {:induction false} CountAll(s: seq<Id>, a: set<Id>)
    ensures CountIn(s, a) == |s| <==> forall x :: x in s ==> x in a
  {
    if s != [] {
      var n := |s| - 1;
      CountAll(s[..n], a);
      assert s == s[..n] + [s[n]];
    }
  }

  lemma {:induction false} CountOneMore(s: seq<Id>, a: set<Id>, t: Id)
    requires NoDup(s) && t !in a
    ensures CountIn(s, a + {t}) == CountIn(s, a) + if t in s then 1 else 0
  {
    if s != [] {
      var n := |s| - 1;
      CountOneMore(s[..n], a, t);
      assert s == s[..n] + [s[n]];
    }
  }

  /** How often c is stored among the children in s. */
  ghost function Copies(s: seq<Id>, c: Id): nat {
    if s == [] then 0 else Copies(s[..|s| - 1], c) + if s[|s| - 1] == c then 1 else 0
  }

  lemma {:induction false} CopiesPositive(s: seq<Id>, c: Id)
    ensures Copies(s, c) > 0 <==> c in s
  {
    if s != [] {
      var n := |s| - 1;
      CopiesPositive(s[..n], c);
      assert s == s[..n] + [s[n]];
    }
  }

  lemma {:induction false} CopiesOnce(s: seq<Id>)
    ensures NoDup(s) <==> forall c :: c in s ==> Copies(s, c) == 1
  {
    if s != [] {
      var n := |s| - 1;
      CopiesOnce(s[..n]);
      assert s == s[..n] + [s[n]];
      CopiesPositive(s[..n], s[n]);
      if NoDup(s) {
        assert NoDup(s[..n]);
        assert s[n] !in s[..n];
      } else if NoDup(s[..n]) {
        assert s[n] in s[..n];
        assert Copies(s, s[n]) > 1;
      } else {
        var c :| c in s[..n] && Copies(s[..n], c) != 1;
        CopiesPositive(s[..n], c);
        assert c in s && Copies(s, c) >= Copies(s[..n], c) > 1;
        assert !NoDup(s) by {
          var i, j :| 0 <= i < j < n && s[..n][i] == s[..n][j];
          assert s[i] == s[j];
        }
      }
    }
  }

  lemma {:induction false} IncAllAdds(nb: map<Id, int>, kids: seq<Id>, c: Id)
    requires c in nb && forall k :: k in kids ==> k in nb
    ensures IncAll(nb, kids)[c] == nb[c] + Copies(kids, c)
  {
    if kids != [] {
      IncAllAdds(nb, kids[..|kids| - 1], c);
    }
  }

  // ----- termination -----

  /** The tasks that still wait for parents. */
  ghost function Waiting(g: Graph, s: State): set<Id>
    requires WellFormed(g) && Covers(g, s)
  {
    set t | t in g.nodes && s.nbParentCompleted[t] < |Parents(g, t)|
  }

  /** A completion either releases a waiting task for good or leaves one task fewer at work. */
  lemma CompletionProgress(g: Graph, s: State, key: nat)
    requires WellFormed(g) && Covers(g, s) && key in s.submitted
    ensures var s' := Complete(g, s, key);
            Covers(g, s') && (Waiting(g, s') < Waiting(g, s)
                              || (Waiting(g, s') == Waiting(g, s) && s'.ready == s.ready))
  {
    var s' := Complete(g, s, key);
    var kids := Children(g, s.submitted[key]);
    forall t | t in g.nodes ensures s'.nbParentCompleted[t] == s.nbParentCompleted[t] + Copies(kids, t) {
      IncAllAdds(s.nbParentCompleted, kids, t);
    }
    var released := ReadyKids(g, s'.nbParentCompleted, kids);
    if released != [] {
      var t := released[0];
      assert t in released;
      CopiesPositive(kids, t);
      assert t in Waiting(g, s) && t !in Waiting(g, s');
    }
  }
}
