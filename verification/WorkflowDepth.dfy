/** The depth a task accumulates while its parents complete is the length of the longest path to it. */
module WorkflowDepth {
  import opened WorkflowSteps
  import opened WorkflowSafety

  /** q is a path of edges that ends at t; its length is |q| - 1. */
  ghost predicate PathTo(g: Graph, q: seq<Id>, t: Id) {
    && q != [] && q[|q| - 1] == t
    && (forall i :: 0 <= i < |q| ==> q[i] in g.nodes)
    && (forall i :: 0 <= i < |q| - 1 ==> q[i] in Parents(g, q[i + 1]))
  }

  ghost predicate Longest(g: Graph, t: Id, d: int) {
    && (exists q :: PathTo(g, q, t) && |q| == d + 1)
    && (forall q :: PathTo(g, q, t) ==> |q| <= d + 1)
  }

  // ----- along a run -----

  /** The depth of a task is the largest that its completed parents gave it. */
  ghost predicate DepthOf(g: Graph, depth: map<Id, int>, done: set<Id>, c: Id)
    requires depth.Keys == g.nodes && c in g.nodes && done <= g.nodes
  {
    && depth[c] >= 0
    && (forall p :: p in Parents(g, c) && p in done ==> depth[c] >= depth[p] + 1)
    && (depth[c] == 0 || exists p :: p in Parents(g, c) && p in done && depth[c] == depth[p] + 1)
  }

  ghost predicate DeepMap(g: Graph, depth: map<Id, int>, done: set<Id>) {
    && depth.Keys == g.nodes && done <= g.nodes
    && forall c {:trigger DepthOf(g, depth, done, c)} :: c in g.nodes ==> DepthOf(g, depth, done, c)
  }

  ghost predicate Deep(g: Graph, s: State) {
    DeepMap(g, s.depth, s.done)
  }

  lemma {:induction false} DeepenAllGives(depth: map<Id, int>, kids: seq<Id>, parent: Id, c: Id)
    requires parent in depth && parent !in kids && c in depth
    requires forall k :: k in kids ==> k in depth
    ensures DeepenAll(depth, kids, parent)[parent] == depth[parent]
    ensures DeepenAll(depth, kids, parent)[c] == if c in kids then Max(depth[c], depth[parent] + 1) else depth[c]
  {
    if kids != [] {
      var n := |kids| - 1;
      assert kids == kids[..n] + [kids[n]];
      DeepenAllGives(depth, kids[..n], parent, c);
      DeepenAllGives(depth, kids[..n], parent, kids[n]);
    }
  }

  lemma DepthAfter(g: Graph, depth: map<Id, int>, depth': map<Id, int>, done: set<Id>, t: Id, c: Id)
    requires WellFormed(g) && depth.Keys == depth'.Keys == g.nodes && c in g.nodes && t in g.nodes && done <= g.nodes
    requires DepthOf(g, depth, done, c) && depth[t] >= 0
    requires forall x :: x in g.nodes ==>
               depth'[x] == if x in Children(g, t) then Max(depth[x], depth[t] + 1) else depth[x]
    requires forall x :: x in done + {t} ==> x !in Children(g, t)
    ensures DepthOf(g, depth', done + {t}, c)
  {
    if c in Children(g, t) && depth[c] < depth[t] + 1 {
      assert t in Parents(g, c) && depth'[c] == depth'[t] + 1;
    } else if depth[c] != 0 {
      var p :| p in Parents(g, c) && p in done && depth[c] == depth[p] + 1;
      assert depth'[c] == depth'[p] + 1;
    }
  }

  /** The children of a task at work are not done yet, nor is a task its own child. */
  lemma ChildrenNotDone(g: Graph, s: State, t: Id)
    requires WellFormed(g) && Placed(g, s) && Released(g, s)
    requires t in s.keyOf && t !in s.done
    ensures forall x :: x in s.done + {t} ==> x !in Children(g, t)
  {
    forall x | x in s.done + {t} ensures x !in Children(g, t) {
      assert x in s.keyOf && AllIn(Parents(g, x), s.done);
    }
  }

  lemma DeepenedNodes(g: Graph, depth: map<Id, int>, t: Id)
    requires WellFormed(g) && depth.Keys == g.nodes && t in g.nodes && t !in Children(g, t)
    ensures forall x :: x in Children(g, t) ==> x in depth
    ensures forall x :: x in g.nodes ==>
              (DeepenAll(depth, Children(g, t), t)[x]
               == if x in Children(g, t) then Max(depth[x], depth[t] + 1) else depth[x])
  {
    forall x | x in g.nodes
      ensures DeepenAll(depth, Children(g, t), t)[x]
           == if x in Children(g, t) then Max(depth[x], depth[t] + 1) else depth[x]
    {
      DeepenAllGives(depth, Children(g, t), t, x);
    }
  }

  lemma DeepAfter(g: Graph, depth: map<Id, int>, done: set<Id>, t: Id)
    requires WellFormed(g) && DeepMap(g, depth, done) && t in g.nodes
    requires forall x :: x in done + {t} ==> x !in Children(g, t)
    ensures forall x :: x in Children(g, t) ==> x in depth
    ensures DeepMap(g, DeepenAll(depth, Children(g, t), t), done + {t})
  {
    DeepenedNodes(g, depth, t);
    assert DepthOf(g, depth, done, t);
    forall c | c in g.nodes ensures DepthOf(g, DeepenAll(depth, Children(g, t), t), done + {t}, c) {
      assert DepthOf(g, depth, done, c);
      DepthAfter(g, depth, DeepenAll(depth, Children(g, t), t), done, t, c);
    }
  }

  lemma CompleteDeep(g: Graph, s: State, key: nat)
    requires WellFormed(g) && Covers(g, s) && key in s.submitted
    requires Placed(g, s) && Released(g, s) && Deep(g, s)
    ensures Deep(g, Complete(g, s, key))
  {
    ChildrenNotDone(g, s, s.submitted[key]);
    DeepAfter(g, s.depth, s.done, s.submitted[key]);
  }

  lemma InitDeep(g: Graph, s: State)
    requires WellFormed(g) && Init(g, s)
    ensures Deep(g, s)
  {
  }

  lemma StepDeep(g: Graph, limit: nat, run: seq<State>, i: nat)
    requires WellFormed(g) && EdgesOnce(g) && Run(g, limit, run) && 0 < i < |run|
    requires Inv(g, limit, run[i - 1]) && Deep(g, run[i - 1])
    ensures Deep(g, run[i])
  {
    var s, s' := StepOf(g, limit, run, i);
    if CanSubmit(limit, s) {
      assert s'.depth == s.depth && s'.done == s.done;
    } else {
      var key :| CompletesJob(g, s, s', key);
      CompleteDeep(g, s, key);
    }
  }

  lemma {:induction false} RunDeep(g: Graph, limit: nat, run: seq<State>, i: nat)
    requires WellFormed(g) && EdgesOnce(g) && Run(g, limit, run) && i < |run|
    ensures Deep(g, run[i])
  {
    hide *;
    if i == 0 {
      RunStart(g, limit, run);
      InitDeep(g, run[0]);
    } else {
      RunDeep(g, limit, run, i - 1);
      RunInv(g, limit, run, i - 1);
      StepDeep(g, limit, run, i);
    }
  }

  // ----- when all tasks are done -----

  lemma {:induction false} PathToDepth(g: Graph, depth: map<Id, int>, rank: map<Id, nat>, t: Id) returns (q: seq<Id>)
    requires Ranked(g, rank) && DeepMap(g, depth, g.nodes) && t in g.nodes
    ensures PathTo(g, q, t) && |q| == depth[t] + 1
    decreases rank[t]
  {
    assert DepthOf(g, depth, g.nodes, t);
    if depth[t] == 0 {
      q := [t];
    } else {
      var p :| p in Parents(g, t) && p in g.nodes && depth[t] == depth[p] + 1;
      q := PathToDepth(g, depth, rank, p);
      q := q + [t];
    }
  }

  lemma {:induction false} NoLongerPath(g: Graph, depth: map<Id, int>, q: seq<Id>, t: Id)
    requires DeepMap(g, depth, g.nodes) && PathTo(g, q, t)
    ensures |q| <= depth[t] + 1
    decreases |q|
  {
    assert DepthOf(g, depth, g.nodes, t);
    if |q| > 1 {
      var p := q[|q| - 2];
      assert p in Parents(g, q[|q| - 2 + 1]);
      NoLongerPath(g, depth, q[..|q| - 1], p);
    }
  }

  lemma DepthIsLongest(g: Graph, depth: map<Id, int>, rank: map<Id, nat>, t: Id)
    requires WellFormed(g) && Ranked(g, rank) && DeepMap(g, depth, g.nodes) && t in g.nodes
    ensures Longest(g, t, depth[t])
  {
    var q := PathToDepth(g, depth, rank, t);
    forall q | PathTo(g, q, t) ensures |q| <= depth[t] + 1 {
      NoLongerPath(g, depth, q, t);
    }
  }

  lemma PathPrepend(g: Graph, p: Id, q: seq<Id>, t: Id)
    requires WellFormed(g) && PathTo(g, q, t) && p in Parents(g, q[0])
    ensures PathTo(g, [p] + q, t)
  {
    assert p in g.nodes;
  }

  /** A longest path starts at a source. */
  lemma LongestFromSource(g: Graph, t: Id, d: int, q: seq<Id>)
    requires WellFormed(g) && Longest(g, t, d) && PathTo(g, q, t) && |q| == d + 1
    ensures Parents(g, q[0]) == []
  {
    if Parents(g, q[0]) != [] {
      var p := Parents(g, q[0])[0];
      hide Longest;
      PathPrepend(g, p, q, t);
      hide *;
      NotLonger(g, t, d, [p] + q);
    }
  }

  lemma NotLonger(g: Graph, t: Id, d: int, q: seq<Id>)
    requires Longest(g, t, d) && PathTo(g, q, t)
    ensures |q| <= d + 1
  {
    hide PathTo;
  }

  ghost function Above(g: Graph, rank: map<Id, nat>, t: Id): set<Id>
    requires rank.Keys == g.nodes && t in g.nodes
  {
    set x | x in g.nodes && rank[x] > rank[t]
  }

  /** Every path can be prolonged to a sink. */
  lemma {:induction false} ProlongToSink(g: Graph, rank: map<Id, nat>, q: seq<Id>, t: Id)
      returns (q': seq<Id>, sink: Id)
    requires WellFormed(g) && Ranked(g, rank) && PathTo(g, q, t) && t in g.nodes
    ensures PathTo(g, q', sink) && Children(g, sink) == [] && |q| <= |q'|
    decreases Above(g, rank, t)
  {
    if Children(g, t) == [] {
      q', sink := q, t;
    } else {
      var c := Children(g, t)[0];
      assert c in Children(g, t);
      assert t in Parents(g, c);
      assert PathTo(g, q + [c], c);
      assert c in Above(g, rank, t) && c !in Above(g, rank, c);
      q', sink := ProlongToSink(g, rank, q + [c], c);
    }
  }

  /** d is the largest depth of a sink, and -1 when there is none (get_maximum_depth). */
  ghost predicate MaximumDepth(g: Graph, depth: map<Id, int>, d: int) {
    if forall t :: t in g.nodes ==> Children(g, t) != [] then d == -1
    else
      && (exists t :: t in g.nodes && Children(g, t) == [] && t in depth && depth[t] == d)
      && (forall t :: t in g.nodes && Children(g, t) == [] && t in depth ==> depth[t] <= d)
  }

  /** The maximum depth is the length of the longest path of the whole graph. */
  lemma MaximumDepthIsLongest(g: Graph, depth: map<Id, int>, rank: map<Id, nat>, d: int)
    requires WellFormed(g) && Ranked(g, rank) && DeepMap(g, depth, g.nodes) && g.nodes != {}
    requires MaximumDepth(g, depth, d)
    ensures exists q, t :: PathTo(g, q, t) && |q| == d + 1
    ensures forall q, t :: PathTo(g, q, t) ==> |q| <= d + 1
  {
    forall q, t | PathTo(g, q, t) ensures |q| <= d + 1 {
      assert t in g.nodes by { assert q[|q| - 1] in g.nodes; }
      var q', sink := ProlongToSink(g, rank, q, t);
      assert sink in g.nodes by { assert q'[|q'| - 1] in g.nodes; }
      DepthIsLongest(g, depth, rank, sink);
    }
    var t :| t in g.nodes;
    assert PathTo(g, [t], t);
    var q0, sink0 := ProlongToSink(g, rank, [t], t);
    assert sink0 in g.nodes by { assert q0[|q0| - 1] in g.nodes; }
    var last :| last in g.nodes && Children(g, last) == [] && depth[last] == d;
    DepthIsLongest(g, depth, rank, last);
    var q :| PathTo(g, q, last) && |q| == d + 1;
  }
}
