/** A workflow with a repeated edge, and what becomes of it. */
module WorkflowWitnesses {
  import opened WorkflowSteps
  import opened WorkflowTheorems
  import opened WorkflowRepeatedEdges
  import opened Workflows

  /** Two tasks; x is what the parents of b are, y the children of a. */
  function Two(a: Id, b: Id, x: seq<Id>, y: seq<Id>): Graph {
    Graph({a, b}, map[a := [], b := x], map[a := y, b := []])
  }

  lemma NoEdges(w: Workflow, a: Task, b: Task)
    requires w.Valid() && a.id != b.id && w.tasks == map[a.id := a, b.id := b]
    requires a.parents == a.children == b.parents == b.children == []
    ensures w.links == Two(a.id, b.id, [], [])
  {
    assert w.ValidTask(a.id, a) && w.ValidTask(b.id, b);
  }

  /** add_edge adds the parent once, and the child every time. */
  lemma OneEdge(a: Id, b: Id, y: seq<Id>)
    requires a != b && a !in y
    ensures WithEdge(Two(a, b, [], y), a, b) == Two(a, b, [a], y + [b])
    ensures WithEdge(Two(a, b, [a], y), a, b) == Two(a, b, [a], y + [b])
  {
    assert [] + [a] == [a];
    assert Two(a, b, [], y).parents[b := [a]] == Two(a, b, [a], y).parents;
    assert Two(a, b, [a], y).children[a := y + [b]] == Two(a, b, [a], y + [b]).children;
  }

  lemma EdgeTwice(a: Id, b: Id)
    requires a != b
    ensures WithEdge(WithEdge(Two(a, b, [], []), a, b), a, b) == Two(a, b, [a], [b, b])
  {
    OneEdge(a, b, []);
    OneEdge(a, b, [b]);
    assert [] + [b] == [b] && [b] + [b] == [b, b];
  }

  lemma StoredTwice(a: Id, b: Id)
    requires a != b
    ensures var g := Two(a, b, [a], [b, b]); WellFormed(g) && Acyclic(g) && !EdgesOnce(g)
  {
    var g := Two(a, b, [a], [b, b]);
    assert Ranked(g, map[a := 0, b := 1]);
    assert Children(g, a)[0] == Children(g, a)[1];
  }

  lemma BothOwned(w: Workflow, first: Task, second: Task)
    requires first.id != second.id && w.tasks == map[first.id := first, second.id := second]
    ensures w.Owned([first, second])
  {
  }

  method TwoTasks(a: Id, b: Id) returns (w: Workflow, first: Task, second: Task)
    requires a != b
    ensures fresh(w) && fresh(w.members) && fresh(first) && fresh(second) && w.Valid()
    ensures first.id == a && second.id == b && w.tasks == map[a := first, b := second]
    ensures w.links == Two(a, b, [], [])
    ensures first.nbParentCompleted == first.depth == second.nbParentCompleted == second.depth == 0
  {
    w := new Workflow();
    first := new Task(a);
    second := new Task(b);
    hide Workflow.Valid;
    w.AddTask(first);
    w.AddTask(second);
    NoEdges(w, first, second);
  }

  method AddTwice(w: Workflow, first: Task, second: Task)
    requires w.Valid() && w.Owned([first, second])
    modifies w`links, first`children, second`parents
    ensures w.Valid() && w.links == WithEdge(WithEdge(old(w.links), first.id, second.id), first.id, second.id)
  {
    hide Workflow.Valid, WithEdge;
    w.AddEdge(first, second);
    w.AddEdge(first, second);
  }

  /** The edge from a to b is declared twice: the loop ends, and not every task was served. */
  method RepeatedEdge(a: Id, b: Id) returns (w: Workflow, ghost run: seq<State>)
    requires a != b
    ensures w.links == Two(a, b, [a], [b, b])
    ensures Run(w.links, 0, run) && Over(run[|run| - 1]) && !AllServed(w.links, run[|run| - 1].log)
  {
    hide *;
    var first, second, depth;
    w, first, second := TwoTasks(a, b);
    EdgeTwice(a, b);
    BothOwned(w, first, second);
    AddTwice(w, first, second);
    StoredTwice(a, b);
    depth, run := SubmitterProcess(w, 0);
    ServedIffEdgesOnce(w.links, run);
  }
}
