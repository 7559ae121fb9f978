/**
 * The `src` package's workflow (src/graphs/workflow_graph.py): a straight line from
 * the requirement node to the story node, registered by successive builder calls.
 */
module WorkflowGraph {
  import opened StateGraph

  datatype Node = UserRequirement | CreateUserStories

  /** The graph has no conditional edge; its one label type is a placeholder. */
  datatype NoLabel = NoLabel

  /** The graph `build_workflow` registers. */
  const Workflow: Topology<Node, NoLabel> := Topology(
    [UserRequirement, CreateUserStories],
    [ (Start, Node(UserRequirement)),
      (Node(UserRequirement), Node(CreateUserStories)),
      (Node(CreateUserStories), End) ],
    map[])

  /** The only run: each node once, requirement first. */
  const Run := [Start, Node(UserRequirement), Node(CreateUserStories), End]

  /** `build_workflow`: registers the two nodes and the three edges, in the source's order. */
  method BuildWorkflow() returns (builder: GraphBuilder<Node, NoLabel>)
    ensures fresh(builder)
    ensures builder.Registered() == Workflow
  {
    builder := new GraphBuilder();
    builder.AddNode(UserRequirement);
    builder.AddNode(CreateUserStories);
    builder.AddEdge(Start, Node(UserRequirement));
    builder.AddEdge(Node(UserRequirement), Node(CreateUserStories));
    builder.AddEdge(Node(CreateUserStories), End);
  }

  /** Exactly two distinct nodes, no conditional edge, and the compile-time checks pass. */
  lemma Shape()
    ensures |Workflow.nodes| == 2 && Workflow.nodes[0] != Workflow.nodes[1]
    ensures Workflow.branches == map[]
    ensures WellFormed(Workflow)
  {
    var starts := set e | e in Workflow.edges && e.0 == Start;
    assert starts == {(Start, Node(UserRequirement))};
  }

  /** The transitions: START to the requirement node, then the story node, then END. */
  lemma Transitions(v: Vertex<Node>, w: Vertex<Node>)
    ensures Edge(Workflow, v, w) <==>
              || (v == Start && w == Node(UserRequirement))
              || (v == Node(UserRequirement) && w == Node(CreateUserStories))
              || (v == Node(CreateUserStories) && w == End)
  {
  }

  /** Every path from START is a prefix of the one run: no branch, no cycle, each node at most once, in order. */
  lemma {:induction false} PathsFromStart(p: seq<Vertex<Node>>)
    requires IsPath(Workflow, p) && |p| >= 1 && p[0] == Start
    ensures |p| <= |Run| && p == Run[..|p|]
  {
    var n := |p|;
    if n > 1 {
      var q := p[..n - 1];
      assert IsPath(Workflow, q);
      PathsFromStart(q);
      Transitions(p[n - 2], p[n - 1]);
      assert p == q + [p[n - 1]];
    }
  }

  /** The run reaches END after visiting each node exactly once. */
  lemma RunIsThePathToEnd(p: seq<Vertex<Node>>)
    requires IsPath(Workflow, p) && |p| >= 1 && p[0] == Start && p[|p| - 1] == End
    ensures p == Run
  {
    PathsFromStart(p);
  }

  /** The run is a path. */
  lemma RunIsPath()
    ensures IsPath(Workflow, Run)
  {
    Transitions(Start, Node(UserRequirement));
    Transitions(Node(UserRequirement), Node(CreateUserStories));
    Transitions(Node(CreateUserStories), End);
  }
}
