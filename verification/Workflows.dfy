/** Workflows as the linked, mutable tasks of Batsim, and the submitter process that drives them. */
module Workflows {
  import opened WorkflowSteps
  import opened WorkflowSafety
  import opened WorkflowDepth

  class Task {
    const id: Id
    var parents: seq<Task>
    var children: seq<Task>
    var nbParentCompleted: int
    var depth: int

    constructor (id: Id)
      ensures this.id == id && parents == [] && children == [] && nbParentCompleted == 0 && depth == 0
    {
      this.id := id;
      parents, children, nbParentCompleted, depth := [], [], 0, 0;
    }
  }

  function Ids(ts: seq<Task>): (ids: seq<Id>)
    ensures |ids| == |ts| && forall i :: 0 <= i < |ts| ==> ids[i] == ts[i].id
  {
    seq(|ts|, i requires 0 <= i < |ts| => ts[i].id)
  }

  class Workflow {
    var tasks: map<Id, Task>
    ghost var links: Graph        // the graph of task ids
    ghost var members: set<Task>  // the tasks themselves

    constructor ()
      ensures tasks == map[] && members == {} && links == Graph({}, map[], map[]) && Valid()
    {
      tasks, members := map[], {};
      links := Graph({}, map[], map[]);
    }

    ghost predicate Owned(ts: seq<Task>)
      reads this
    {
      forall t :: t in ts ==> t.id in tasks && tasks[t.id] == t
    }

    ghost predicate Filed()
      reads this
    {
      forall id :: id in tasks ==> tasks[id].id == id && tasks[id] in members
    }

    /** The task t, filed under id, has that id and is linked to tasks of the workflow as the graph says. */
    ghost predicate ValidTask(id: Id, t: Task)
      reads this, t`parents, t`children
    {
      && t.id == id && Owned(t.parents) && Owned(t.children)
      && id in links.parents && Ids(t.parents) == links.parents[id]
      && id in links.children && Ids(t.children) == links.children[id]
    }

    ghost predicate Valid()
      reads this, members`parents, members`children
    {
      && Filed() && links.nodes == links.parents.Keys == links.children.Keys == tasks.Keys
      && forall id :: id in tasks ==> ValidTask(id, tasks[id])
    }

    /** The counters and depths of the tasks. */
    ghost predicate Shows(nb: map<Id, int>, depth: map<Id, int>)
      reads this, members`nbParentCompleted, members`depth
    {
      && nb.Keys == depth.Keys == tasks.Keys
      && forall id :: id in tasks ==>
           tasks[id] in members && tasks[id].nbParentCompleted == nb[id] && tasks[id].depth == depth[id]
    }

    method AddTask(task: Task)
      requires Valid() && task.id !in tasks && task.parents == [] && task.children == []
      modifies this
      ensures Valid() && tasks == old(tasks)[task.id := task] && members == old(members) + {task}
    {
      tasks := tasks[task.id := task];
      members := members + {task};
      links := Graph(tasks.Keys, links.parents[task.id := []], links.children[task.id := []]);
      forall id | id in tasks ensures ValidTask(id, tasks[id]) {
        if id != task.id { assert old(ValidTask(id, tasks[id])); }
      }
    }

    /** The first half of add_edge. */
    method AddParent(parent: Task, child: Task)
      requires Valid() && Owned([parent, child])
      modifies child`parents, this`links
      ensures Valid() && links == WithParent(old(links), parent.id, child.id)
    {
      assert parent in [parent, child] && child in [parent, child];
      assert ValidTask(child.id, tasks[child.id]);
      IdsMember(child.parents, parent, tasks);
      if parent in child.parents {
        // edge already there
      } else {
        child.parents := child.parents + [parent];
        links := WithParent(links, parent.id, child.id);
        assert Ids(child.parents) == links.parents[child.id];
        forall id | id in tasks ensures ValidTask(id, tasks[id]) {
          assert old(ValidTask(id, tasks[id]));
        }
      }
    }

    /** The second half: it looks for the parent, not the child, among the parent's children. */
    method AddChild(parent: Task, child: Task)
      requires Valid() && Owned([parent, child])
      modifies parent`children, this`links
      ensures Valid() && links == WithChild(old(links), parent.id, child.id)
    {
      assert parent in [parent, child] && child in [parent, child];
      assert ValidTask(parent.id, tasks[parent.id]);
      IdsMember(parent.children, parent, tasks);
      if parent in parent.children {
        // edge already there
      } else {
        parent.children := parent.children + [child];
        links := WithChild(links, parent.id, child.id);
        assert Ids(parent.children) == links.children[parent.id];
        forall id | id in tasks ensures ValidTask(id, tasks[id]) {
          assert old(ValidTask(id, tasks[id]));
        }
      }
    }

    /** add_edge */
    method AddEdge(parent: Task, child: Task)
      requires Valid() && Owned([parent, child])
      modifies parent`children, child`parents, this`links
      ensures Valid() && links == WithEdge(old(links), parent.id, child.id)
    {
      AddParent(parent, child);
      AddChild(parent, child);
    }

    /** get_source_tasks: the tasks without parents, in the order of the map. */
    method GetSourceTasks() returns (list: seq<Task>)
      requires Valid()
      ensures NoDup(Ids(list))
      ensures forall t :: t in list <==> t.id in tasks && tasks[t.id] == t && t.parents == []
    {
      list := [];
      var todo := tasks.Keys;
      while todo != {}
        invariant todo <= tasks.Keys && NoDup(Ids(list))
        invariant forall t :: t in list <==> t.id in tasks.Keys - todo && tasks[t.id] == t && t.parents == []
      {
        var id :| id in todo;
        assert ValidTask(id, tasks[id]);
        if tasks[id].parents == [] {
          list := list + [tasks[id]];
        }
        todo := todo - {id};
      }
    }

    /** get_maximum_depth, over the sinks that get_sink_tasks collects. */
    method GetMaximumDepth(ghost nb: map<Id, int>, ghost depths: map<Id, int>) returns (maxDepth: int)
      requires Valid() && Shows(nb, depths)
      requires forall id :: id in tasks ==> tasks[id].depth >= 0
      ensures MaximumDepth(links, depths, maxDepth)
    {
      maxDepth := -1;
      var todo := tasks.Keys;
      while todo != {}
        invariant todo <= tasks.Keys && maxDepth >= -1
        invariant forall id :: id in tasks.Keys - todo && tasks[id].children == [] ==> tasks[id].depth <= maxDepth
        invariant maxDepth == -1 || exists id :: id in tasks && tasks[id].children == [] && tasks[id].depth == maxDepth
      {
        var id :| id in todo;
        var t := tasks[id];
        if t.children == [] {
          if maxDepth == -1 || t.depth > maxDepth {
            maxDepth := t.depth;
          }
        }
        todo := todo - {id};
      }
      forall id | id in tasks ensures Children(links, id) == [] <==> tasks[id].children == [] {
        assert ValidTask(id, tasks[id]);
      }
    }
  }

  lemma IdsMember(ts: seq<Task>, t: Task, tasks: map<Id, Task>)
    requires t.id in tasks && tasks[t.id] == t
    requires forall x :: x in ts ==> x.id in tasks && tasks[x.id] == x
    ensures t.id in Ids(ts) <==> t in ts
  {
    if t in ts {
      var i :| 0 <= i < |ts| && ts[i] == t;
      assert Ids(ts)[i] == t.id;
    }
  }

  function WithParent(g: Graph, parent: Id, child: Id): Graph {
    if parent in Parents(g, child) then g
    else g.(parents := g.parents[child := Parents(g, child) + [parent]])
  }

  function WithChild(g: Graph, parent: Id, child: Id): Graph {
    if parent in Children(g, parent) then g
    else g.(children := g.children[parent := Children(g, parent) + [child]])
  }

  function WithEdge(g: Graph, parent: Id, child: Id): Graph {
    WithChild(WithParent(g, parent, child), parent, child)
  }

  lemma EdgeAdded(g: Graph, parent: Id, child: Id, p: Id, c: Id)
    ensures p in Parents(WithEdge(g, parent, child), c)
       <==> p in Parents(g, c) || (p == parent && c == child)
    ensures c in Children(WithEdge(g, parent, child), p)
       <==> c in Children(g, p) || (p == parent && c == child && parent !in Children(g, parent))
  {
  }

  /** Adding an edge keeps the two sides of all edges in agreement, unless the parent has a loop to
      itself and the edge leads to a new child: then only the child learns about it. */
  lemma AddEdgeKeepsAgreement(g: Graph, parent: Id, child: Id)
    requires WellFormed(g) && parent in g.nodes && child in g.nodes
    ensures WellFormed(WithEdge(g, parent, child)) <==> parent !in Children(g, parent) || child in Children(g, parent)
  {
    if parent !in Children(g, parent) || child in Children(g, parent) {
      EdgeKnownToBoth(g, parent, child);
    } else {
      EdgeAdded(g, parent, child, parent, child);
    }
  }

  /** Both sides of the edge from p to t agree. */
  ghost predicate SidesAgree(g: Graph, p: Id, t: Id) {
    && (p in Parents(g, t) ==> p in g.nodes && t in Children(g, p))
    && (t in Children(g, p) ==> t in g.nodes && p in Parents(g, t))
  }

  lemma WellFormedSides(g: Graph)
    ensures WellFormed(g) <==>
              && g.parents.Keys == g.nodes && g.children.Keys == g.nodes
              && (forall t :: t in g.nodes ==> NoDup(Parents(g, t)))
              && forall p, t :: SidesAgree(g, p, t)
  {
    if forall p, t :: SidesAgree(g, p, t) {
      forall t, p | p in Parents(g, t) || t in Children(g, p) ensures SidesAgree(g, p, t) {}
      assert forall t, p :: p in Parents(g, t) ==> SidesAgree(g, p, t);
      assert forall p, t :: t in Children(g, p) ==> SidesAgree(g, p, t);
    }
  }

  lemma EdgeSides(g: Graph, parent: Id, child: Id, p: Id, t: Id)
    requires SidesAgree(g, p, t) && parent in g.nodes && child in g.nodes
    requires parent !in Children(g, parent) || child in Children(g, parent)
    requires WithEdge(g, parent, child).nodes == g.nodes
    ensures SidesAgree(WithEdge(g, parent, child), p, t)
  {
    EdgeAdded(g, parent, child, p, t);
  }

  lemma EdgeKnownToBoth(g: Graph, parent: Id, child: Id)
    requires WellFormed(g) && parent in g.nodes && child in g.nodes
    requires parent !in Children(g, parent) || child in Children(g, parent)
    ensures WellFormed(WithEdge(g, parent, child))
  {
    hide *;
    var g' := WithEdge(g, parent, child);
    WellFormedSides(g);
    EdgeAddedNodes(g, parent, child);
    forall p, t ensures SidesAgree(g', p, t) {
      EdgeSides(g, parent, child, p, t);
    }
    forall t | t in g'.nodes ensures NoDup(Parents(g', t)) {
      ParentAdded(g, parent, child, t);
    }
    WellFormedSides(g');
  }

  lemma EdgeAddedNodes(g: Graph, parent: Id, child: Id)
    requires parent in g.children && child in g.parents
    ensures var g' := WithEdge(g, parent, child);
            g'.nodes == g.nodes && g'.parents.Keys == g.parents.Keys && g'.children.Keys == g.children.Keys
  {
  }

  lemma ParentAdded(g: Graph, parent: Id, child: Id, t: Id)
    requires NoDup(Parents(g, t))
    ensures NoDup(Parents(WithEdge(g, parent, child), t))
  {
    AppendNew(Parents(g, t), parent);
  }

  lemma AppendNew(s: seq<Id>, x: Id)
    requires NoDup(s)
    ensures NoDup(s + [x]) <==> x !in s
  {
    if x in s {
      var i :| 0 <= i < |s| && s[i] == x;
      assert (s + [x])[i] == (s + [x])[|s|];
    }
  }

  /** ... and it keeps every edge single exactly when it is a new one, or nothing is stored because the parent
      is its own child. */
  lemma AddEdgeKeepsEdgesOnce(g: Graph, parent: Id, child: Id)
    requires WellFormed(g) && EdgesOnce(g) && parent in g.nodes && child in g.nodes
    ensures EdgesOnce(WithEdge(g, parent, child)) <==>
            child !in Children(g, parent) || parent in Children(g, parent)
  {
    var g', kids := WithEdge(g, parent, child), Children(g, parent);
    assert NoDup(kids);
    if parent in kids {
      assert g'.children == g.children;
    } else {
      assert Children(g', parent) == kids + [child];
      AppendNew(kids, child);
    }
    forall p | p in g.nodes && p != parent ensures Children(g', p) == Children(g, p) {}
  }

  // ----- the submitter process -----

  method IncChild(w: Workflow, kid: Task, ghost nb: map<Id, int>, ghost depth: map<Id, int>)
    requires w.Filed() && kid.id in w.tasks && w.tasks[kid.id] == kid && w.Shows(nb, depth)
    modifies kid`nbParentCompleted
    ensures w.Shows(nb[kid.id := nb[kid.id] + 1], depth)
  {
    kid.nbParentCompleted := kid.nbParentCompleted + 1;
  }

  method BottomLevel(w: Workflow, child: Task, parent: Task, ghost nb: map<Id, int>, ghost depth: map<Id, int>)
    requires w.Filed() && w.Shows(nb, depth)
    requires child.id in w.tasks && w.tasks[child.id] == child
    requires parent.id in w.tasks && w.tasks[parent.id] == parent
    modifies child`depth
    ensures w.Shows(nb, depth[child.id := Max(depth[child.id], depth[parent.id] + 1)])
  {
    child.depth := Max(child.depth, parent.depth + 1);
  }

  lemma IncNone(nb: map<Id, int>, ids: seq<Id>)
    ensures IncAll(nb, ids[..0]) == nb
  {
  }

  lemma IncOne(nb: map<Id, int>, ids: seq<Id>, i: nat)
    requires (forall k :: k in ids ==> k in nb) && i < |ids|
    ensures var m := IncAll(nb, ids[..i]); ids[i] in m && IncAll(nb, ids[..i + 1]) == m[ids[i] := m[ids[i]] + 1]
  {
    assert ids[i] in ids && ids[..i + 1][..i] == ids[..i] && ids[..i + 1][i] == ids[i];
  }

  /** inc_child over the kids. */
  method IncChildren(w: Workflow, kids: seq<Task>, ghost nb: map<Id, int>, ghost depth: map<Id, int>)
    requires w.Filed() && w.Owned(kids) && w.Shows(nb, depth)
    requires forall k :: k in Ids(kids) ==> k in nb
    modifies w.members`nbParentCompleted
    ensures w.Shows(IncAll(nb, Ids(kids)), depth)
  {
    ghost var ids := Ids(kids);
    hide Workflow.Shows, IncAll;
    IncNone(nb, ids);
    for i := 0 to |kids|
      invariant w.Shows(IncAll(nb, ids[..i]), depth)
    {
      assert kids[i] in kids && ids[i] in ids;
      IncOne(nb, ids, i);
      IncChild(w, kids[i], IncAll(nb, ids[..i]), depth);
    }
    assert ids[..|kids|] == ids;
  }

  lemma Shown(w: Workflow, t: Task, nb: map<Id, int>, depth: map<Id, int>)
    requires w.Shows(nb, depth) && t.id in w.tasks
    ensures t.id in nb && t.id in depth
  {
  }

  lemma DeepenNone(depth: map<Id, int>, ids: seq<Id>, parent: Id)
    requires parent in depth
    ensures DeepenAll(depth, ids[..0], parent) == depth
  {
  }

  lemma DeepenOne(depth: map<Id, int>, ids: seq<Id>, i: nat, parent: Id)
    requires parent in depth && (forall k :: k in ids ==> k in depth) && i < |ids|
    ensures var d := DeepenAll(depth, ids[..i], parent);
            && ids[i] in d && parent in d
            && DeepenAll(depth, ids[..i + 1], parent) == d[ids[i] := Max(d[ids[i]], d[parent] + 1)]
  {
    assert ids[..i + 1][..i] == ids[..i];
    assert ids[..i + 1][i] == ids[i] && ids[i] in ids;
  }

  /** bottom_level_f over the kids. */
  method DeepenChildren(w: Workflow, kids: seq<Task>, parent: Task, ghost nb: map<Id, int>, ghost depth: map<Id, int>)
    requires w.Filed() && w.Owned(kids) && w.Shows(nb, depth)
    requires parent.id in w.tasks && w.tasks[parent.id] == parent
    requires forall k :: k in Ids(kids) ==> k in depth
    modifies w.members`depth
    ensures w.Shows(nb, DeepenAll(depth, Ids(kids), parent.id))
  {
    hide Workflow.Shows, DeepenAll;
    ghost var ids := Ids(kids);
    Shown(w, parent, nb, depth);
    DeepenNone(depth, ids, parent.id);
    for i := 0 to |kids|
      invariant w.Shows(nb, DeepenAll(depth, ids[..i], parent.id))
    {
      assert kids[i] in kids && ids[i] in ids;
      DeepenOne(depth, ids, i, parent.id);
      BottomLevel(w, kids[i], parent, nb, DeepenAll(depth, ids[..i], parent.id));
    }
    assert ids[..|kids|] == ids;
  }

  lemma ReadyNone(g: Graph, nb: map<Id, int>, ids: seq<Id>)
    ensures ReadyKids(g, nb, ids[..0]) == []
  {
  }

  lemma ReadyOne(g: Graph, nb: map<Id, int>, ids: seq<Id>, i: nat)
    requires (forall k :: k in ids ==> k in nb) && i < |ids|
    ensures ids[i] in nb
    ensures ReadyKids(g, nb, ids[..i + 1])
         == ReadyKids(g, nb, ids[..i]) + if nb[ids[i]] == |Parents(g, ids[i])| then [ids[i]] else []
  {
    assert ids[i] in ids && ids[..i + 1][..i] == ids[..i] && ids[..i + 1][i] == ids[i];
  }

  lemma CountersOf(w: Workflow, t: Task, nb: map<Id, int>, depth: map<Id, int>)
    requires w.Valid() && w.Shows(nb, depth) && t.id in w.tasks && w.tasks[t.id] == t && t.id in nb
    ensures t.nbParentCompleted == nb[t.id] && |t.parents| == |Parents(w.links, t.id)|
  {
    assert w.ValidTask(t.id, w.tasks[t.id]);
  }

  /** The ready kids, in the order of the children list. */
  method CollectReady(w: Workflow, kids: seq<Task>, ghost nb: map<Id, int>, ghost depth: map<Id, int>)
    returns (ready: seq<Task>)
    requires w.Valid() && w.Owned(kids) && w.Shows(nb, depth)
    requires forall k :: k in Ids(kids) ==> k in nb
    ensures w.Owned(ready)
    ensures Ids(ready) == ReadyKids(w.links, nb, Ids(kids))
  {
    ghost var ids := Ids(kids);
    ready := [];
    hide ReadyKids, Workflow.Valid, Workflow.Shows;
    ReadyNone(w.links, nb, ids);
    for i := 0 to |kids|
      invariant w.Owned(ready)
      invariant Ids(ready) == ReadyKids(w.links, nb, ids[..i])
    {
      assert kids[i] in kids;
      ReadyOne(w.links, nb, ids, i);
      CountersOf(w, kids[i], nb, depth);
      if kids[i].nbParentCompleted == |kids[i].parents| {
        ready := ready + [kids[i]];
      }
    }
    assert ids[..|kids|] == ids;
  }

  function KeyIds(m: map<nat, Task>): map<nat, Id> {
    map k | k in m :: m[k].id
  }

  lemma RunGrows(g: Graph, limit: nat, run: seq<State>, s: State)
    requires WellFormed(g) && Run(g, limit, run) && Next(g, limit, run[|run| - 1], s)
    ensures EndsIn(g, limit, run + [s], s)
  {
    var run' := run + [s];
    forall i | 0 < i < |run'| ensures StepAt(g, limit, run', i) {
      if i < |run| { assert StepAt(g, limit, run, i); }
    }
  }

  ghost predicate EndsIn(g: Graph, limit: nat, run: seq<State>, s: State)
    requires WellFormed(g)
  {
    Run(g, limit, run) && s == run[|run| - 1]
  }

  /** The process' variables show the state s. */
  ghost predicate Lists(w: Workflow, s: State, readyTasks: seq<Task>, submittedTasks: map<nat, Task>,
                        nextKey: nat, currentNb: int)
    reads w
  {
    && w.Owned(readyTasks) && s.ready == Ids(readyTasks)
    && (forall k :: k in submittedTasks ==> k < nextKey && w.Owned([submittedTasks[k]]))
    && s.submitted == KeyIds(submittedTasks)
    && s.nextKey == nextKey && s.currentNb == currentNb == |submittedTasks|
  }

  /** The tasks themselves show the state s. */
  ghost predicate Tracks(w: Workflow, s: State)
    reads w, w.members
  {
    && w.Valid() && Covers(w.links, s) && w.Shows(s.nbParentCompleted, s.depth)
    && (forall id :: id in s.depth ==> s.depth[id] >= 0)
  }

  ghost function InitialState(tasks: map<Id, Task>, sources: seq<Task>): State {
    State(Ids(sources), map[], 0, 0, map id | id in tasks :: 0, map id | id in tasks :: 0, map[], {}, [])
  }

  lemma InitialTracks(w: Workflow, limit: nat, sources: seq<Task>)
    requires w.Valid() && WellFormed(w.links) && NoDup(Ids(sources))
    requires forall id :: id in w.tasks ==> w.tasks[id].nbParentCompleted == 0 && w.tasks[id].depth == 0
    requires forall t :: t in sources <==> t.id in w.tasks && w.tasks[t.id] == t && t.parents == []
    ensures var s := InitialState(w.tasks, sources);
            Covers(w.links, s) && Tracks(w, s) && Lists(w, s, sources, map[], 0, 0) && EndsIn(w.links, limit, [s], s)
  {
    var s, g := InitialState(w.tasks, sources), w.links;
    forall id ensures id in s.ready <==> id in g.nodes && Parents(g, id) == [] {
      if id in g.nodes {
        assert w.ValidTask(id, w.tasks[id]);
        if Parents(g, id) == [] {
          assert w.tasks[id] in sources;
        }
      }
    }
    InitCovers(g, s);
  }

  lemma SubmitLists(w: Workflow, s: State, readyTasks: seq<Task>, submittedTasks: map<nat, Task>,
                    nextKey: nat, currentNb: int)
    requires Lists(w, s, readyTasks, submittedTasks, nextKey, currentNb) && readyTasks != []
    ensures s.ready != []
    ensures Lists(w, Submit(s), readyTasks[1..], submittedTasks[nextKey := readyTasks[0]], nextKey + 1, currentNb + 1)
  {
    assert readyTasks[0] in readyTasks;
    assert nextKey !in submittedTasks;
  }

  lemma SubmitTracks(w: Workflow, limit: nat, s: State)
    requires WellFormed(w.links) && Tracks(w, s) && CanSubmit(limit, s)
    ensures Tracks(w, Submit(s)) && Next(w.links, limit, s, Submit(s))
  {
    StepKeepsCover(w.links, limit, s, Submit(s));
  }

  /** What the submitter knows when the job under key completes. */
  lemma CompletionStarts(w: Workflow, limit: nat, run: seq<State>, s: State, readyTasks: seq<Task>,
                         submittedTasks: map<nat, Task>, nextKey: nat, currentNb: int, key: nat)
    requires WellFormed(w.links) && Tracks(w, s) && EndsIn(w.links, limit, run, s) && !CanSubmit(limit, s)
    requires Lists(w, s, readyTasks, submittedTasks, nextKey, currentNb) && key in submittedTasks
    ensures w.Valid() && w.Shows(s.nbParentCompleted, s.depth)
    ensures Covers(w.links, s) && w.links.nodes == s.nbParentCompleted.Keys == s.depth.Keys
    ensures forall id :: id in s.depth ==> s.depth[id] >= 0
    ensures var t := submittedTasks[key];
            t.id in w.tasks && w.tasks[t.id] == t && key in s.submitted && s.submitted[key] == t.id
    ensures EndsIn(w.links, limit, run + [Complete(w.links, s, key)], Complete(w.links, s, key))
  {
    hide WellFormed, EndsIn;
    assert submittedTasks[key] in [submittedTasks[key]];
    RunCompletes(w.links, limit, run, s, key);
  }

  lemma CompleteLists(w: Workflow, s: State, s': State, readyTasks: seq<Task>, submittedTasks: map<nat, Task>,
                      nextKey: nat, currentNb: int, key: nat, released: seq<Task>)
    requires Lists(w, s, readyTasks, submittedTasks, nextKey, currentNb) && key in submittedTasks
    requires w.Owned(released) && s'.ready == s.ready + Ids(released)
    requires s'.submitted == s.submitted - {key} && s'.nextKey == s.nextKey && s'.currentNb == s.currentNb - 1
    ensures Lists(w, s', readyTasks + released, submittedTasks - {key}, nextKey, currentNb - 1)
    ensures |submittedTasks - {key}| == |submittedTasks| - 1
    ensures s'.ready == s.ready ==> released == []
  {
    assert submittedTasks.Keys == (submittedTasks - {key}).Keys + {key};
    assert Ids(released) == [] <==> released == [];
  }

  /** The tasks show the completed state, once the children know and the ready ones are released. */
  lemma CompletionShown(w: Workflow, s: State, key: nat)
    requires WellFormed(w.links) && Covers(w.links, s) && key in s.submitted
    requires forall id :: id in s.depth ==> s.depth[id] >= 0
    requires w.Valid()
    requires var s' := Complete(w.links, s, key); w.Shows(s'.nbParentCompleted, s'.depth)
    ensures Tracks(w, Complete(w.links, s, key))
  {
    hide WellFormed, Waiting, Workflow.Valid, Workflow.Shows;
    CompletionProgress(w.links, s, key);
  }

  lemma WhatCompleteDoes(g: Graph, s: State, key: nat)
    requires WellFormed(g) && Covers(g, s) && key in s.submitted
    ensures var s', kids := Complete(g, s, key), Children(g, s.submitted[key]);
            && (forall k :: k in kids ==> k in s.nbParentCompleted)
            && s'.nbParentCompleted == IncAll(s.nbParentCompleted, kids)
            && s'.depth == DeepenAll(s.depth, kids, s.submitted[key])
            && s'.ready == s.ready + ReadyKids(g, s'.nbParentCompleted, kids)
            && s'.submitted == s.submitted - {key} && s'.nextKey == s.nextKey && s'.currentNb == s.currentNb - 1
  {
  }

  lemma KidsKnown(w: Workflow, t: Task)
    requires w.Valid() && t.id in w.tasks && w.tasks[t.id] == t
    ensures w.Owned(t.children) && Ids(t.children) == Children(w.links, t.id)
    ensures w.Owned([t]) && t.id in w.links.nodes && forall k :: k in Ids(t.children) ==> k in w.links.nodes
  {
    assert w.ValidTask(t.id, w.tasks[t.id]);
  }

  /** The children of a completed task are counted and deepened. */
  method CountChildren(w: Workflow, completed: Task, ghost nb: map<Id, int>, ghost depth: map<Id, int>)
    requires w.Valid() && w.Shows(nb, depth) && w.Owned([completed]) && w.Owned(completed.children)
    requires completed.id in depth && forall k :: k in Ids(completed.children) ==> k in nb && k in depth
    modifies w.members`nbParentCompleted, w.members`depth
    ensures var kids := Ids(completed.children); w.Shows(IncAll(nb, kids), DeepenAll(depth, kids, completed.id))
  {
    assert w.Filed() && completed in [completed];
    hide Workflow.Valid, Workflow.Shows, IncAll, DeepenAll;
    IncChildren(w, completed.children, nb, depth);
    DeepenChildren(w, completed.children, completed, IncAll(nb, Ids(completed.children)), depth);
  }

  /** What a completion does to the tasks: the children are told, then the ready ones are collected. */
  method TellChildren(w: Workflow, completed: Task, ghost nb: map<Id, int>, ghost depth: map<Id, int>)
    returns (released: seq<Task>)
    requires w.Valid() && w.Shows(nb, depth) && w.links.nodes == nb.Keys == depth.Keys
    requires completed.id in w.tasks && w.tasks[completed.id] == completed
    modifies w.members`nbParentCompleted, w.members`depth
    ensures w.Valid()
    ensures forall k :: k in Children(w.links, completed.id) ==> k in nb
    ensures var kids := Children(w.links, completed.id);
            && w.Shows(IncAll(nb, kids), DeepenAll(depth, kids, completed.id))
            && w.Owned(released) && Ids(released) == ReadyKids(w.links, IncAll(nb, kids), kids)
  {
    KidsKnown(w, completed);
    hide *;
    ghost var kids := Ids(completed.children);
    CountChildren(w, completed, nb, depth);
    released := CollectReady(w, completed.children, IncAll(nb, kids), DeepenAll(depth, kids, completed.id));
  }

  lemma RunSubmits(g: Graph, limit: nat, run: seq<State>, s: State)
    requires WellFormed(g) && EndsIn(g, limit, run, s) && Covers(g, s) && CanSubmit(limit, s)
    ensures EndsIn(g, limit, run + [Submit(s)], Submit(s))
  {
    RunGrows(g, limit, run, Submit(s));
  }

  lemma RunCompletes(g: Graph, limit: nat, run: seq<State>, s: State, key: nat)
    requires WellFormed(g) && EndsIn(g, limit, run, s)
    requires Covers(g, s) && !CanSubmit(limit, s) && key in s.submitted
    ensures EndsIn(g, limit, run + [Complete(g, s, key)], Complete(g, s, key))
  {
    assert CompletesJob(g, s, Complete(g, s, key), key);
    RunGrows(g, limit, run, Complete(g, s, key));
  }

  /** The inner loop: submit ready tasks until none is left or the cap is reached. */
  method SubmitReady(w: Workflow, limit: nat, ghost run: seq<State>, ghost s: State, ready0: seq<Task>,
                     submitted0: map<nat, Task>, nextKey0: nat, currentNb0: int)
    returns (readyTasks: seq<Task>, submittedTasks: map<nat, Task>, nextKey: nat, currentNb: int,
             ghost run': seq<State>, ghost s': State)
    requires WellFormed(w.links) && Tracks(w, s) && EndsIn(w.links, limit, run, s)
    requires Lists(w, s, ready0, submitted0, nextKey0, currentNb0)
    ensures Covers(w.links, s') && Tracks(w, s') && EndsIn(w.links, limit, run', s')
    ensures Lists(w, s', readyTasks, submittedTasks, nextKey, currentNb) && !CanSubmit(limit, s')
    ensures Waiting(w.links, s') == Waiting(w.links, s)
    ensures |readyTasks| + |submittedTasks| == |ready0| + |submitted0| && (submittedTasks == map[] ==> readyTasks == [])
  {
    hide WellFormed, EndsIn;
    readyTasks, submittedTasks, nextKey, currentNb, run', s' := ready0, submitted0, nextKey0, currentNb0, run, s;
    while readyTasks != [] && (limit == 0 || limit > currentNb)
      invariant Tracks(w, s') && EndsIn(w.links, limit, run', s')
      invariant Lists(w, s', readyTasks, submittedTasks, nextKey, currentNb)
      invariant s'.nbParentCompleted == s.nbParentCompleted
      invariant |readyTasks| + |submittedTasks| == |ready0| + |submitted0|
      decreases |readyTasks|
    {
      SubmitLists(w, s', readyTasks, submittedTasks, nextKey, currentNb);
      SubmitTracks(w, limit, s');
      RunSubmits(w.links, limit, run', s');
      s' := Submit(s');
      run' := run' + [s'];

      var task := readyTasks[0];
      readyTasks := readyTasks[1..];
      submittedTasks := submittedTasks[nextKey := task];
      nextKey := nextKey + 1;
      currentNb := currentNb + 1;
    }
  }

  /** The rest of the outer loop's body: the job under some key completes. */
  method CompleteOne(w: Workflow, limit: nat, ghost run: seq<State>, ghost s: State, readyTasks: seq<Task>,
                     submittedTasks: map<nat, Task>, nextKey: nat, currentNb: int, key: nat)
    returns (readyTasks': seq<Task>, submittedTasks': map<nat, Task>, currentNb': int,
             ghost run': seq<State>, ghost s': State)
    requires WellFormed(w.links) && Tracks(w, s) && EndsIn(w.links, limit, run, s) && !CanSubmit(limit, s)
    requires Lists(w, s, readyTasks, submittedTasks, nextKey, currentNb) && key in submittedTasks
    modifies w.members`nbParentCompleted, w.members`depth
    ensures Covers(w.links, s') && Tracks(w, s') && EndsIn(w.links, limit, run', s')
    ensures Lists(w, s', readyTasks', submittedTasks', nextKey, currentNb')
    ensures Waiting(w.links, s') < Waiting(w.links, s)
         || (Waiting(w.links, s') == Waiting(w.links, s)
             && |readyTasks'| + |submittedTasks'| < |readyTasks| + |submittedTasks|)
  {
    hide *;
    CompletionStarts(w, limit, run, s, readyTasks, submittedTasks, nextKey, currentNb, key);
    CompletionProgress(w.links, s, key);
    WhatCompleteDoes(w.links, s, key);
    s' := Complete(w.links, s, key);
    run' := run + [s'];

    currentNb' := currentNb - 1;
    var completed := submittedTasks[key];
    var released := TellChildren(w, completed, s.nbParentCompleted, s.depth);
    CompletionShown(w, s, key);
    CompleteLists(w, s, s', readyTasks, submittedTasks, nextKey, currentNb, key, released);
    readyTasks' := readyTasks + released;
    submittedTasks' := submittedTasks - {key};
  }

  lemma LastState(w: Workflow, limit: nat, run: seq<State>, s: State, readyTasks: seq<Task>,
                  submittedTasks: map<nat, Task>, nextKey: nat, currentNb: int)
    requires WellFormed(w.links) && EndsIn(w.links, limit, run, s) && Tracks(w, s)
    requires Lists(w, s, readyTasks, submittedTasks, nextKey, currentNb)
    requires readyTasks == [] && submittedTasks == map[]
    ensures Run(w.links, limit, run) && Over(run[|run| - 1]) && s == run[|run| - 1]
    ensures w.Valid() && w.Shows(s.nbParentCompleted, s.depth)
    ensures forall id :: id in w.tasks ==> w.tasks[id].depth >= 0
  {
  }

  /** workflow_submitter_process: any submitted job may be the next to complete. */
  method SubmitterProcess(w: Workflow, limit: nat) returns (maximumDepth: int, ghost run: seq<State>)
    requires w.Valid() && WellFormed(w.links)
    requires forall id :: id in w.tasks ==> w.tasks[id].nbParentCompleted == 0 && w.tasks[id].depth == 0
    modifies w.members`nbParentCompleted, w.members`depth
    ensures Run(w.links, limit, run) && Over(run[|run| - 1])
    ensures w.Shows(run[|run| - 1].nbParentCompleted, run[|run| - 1].depth)
    ensures MaximumDepth(w.links, run[|run| - 1].depth, maximumDepth)
  {
    hide *;
    var currentNb := 0;
    var nextKey := 0;
    var submittedTasks: map<nat, Task> := map[];
    var readyTasks := w.GetSourceTasks();
    ghost var s := InitialState(w.tasks, readyTasks);
    run := [s];
    InitialTracks(w, limit, readyTasks);

    while readyTasks != [] || submittedTasks != map[]
      invariant WellFormed(w.links) && Covers(w.links, s) && Tracks(w, s) && EndsIn(w.links, limit, run, s)
      invariant Lists(w, s, readyTasks, submittedTasks, nextKey, currentNb)
      decreases Waiting(w.links, s), |readyTasks| + |submittedTasks|
    {
      readyTasks, submittedTasks, nextKey, currentNb, run, s :=
        SubmitReady(w, limit, run, s, readyTasks, submittedTasks, nextKey, currentNb);
      if submittedTasks != map[] {
        var key :| key in submittedTasks;
        readyTasks, submittedTasks, currentNb, run, s :=
          CompleteOne(w, limit, run, s, readyTasks, submittedTasks, nextKey, currentNb, key);
      }
    }
    LastState(w, limit, run, s, readyTasks, submittedTasks, nextKey, currentNb);
    maximumDepth := w.GetMaximumDepth(s.nbParentCompleted, s.depth);
  }
}
