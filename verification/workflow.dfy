/** The graph that `build_workflow` assembles: the names under which nodes are
    registered and the edges between names.

    A node added as `add_node(f)` is registered under the function's own name. Edges
    are written with names; a conditional edge lists every name its router may return
    (for `grade_documents`, the two names of its `Literal` return type). Compiling the
    graph requires every edge source to be a registered node or the start marker and
    every edge target to be a registered node or the end marker. */
module Workflow {

  const StartName: string := "__start__"
  const EndName: string := "__end__"

  /** An edge from `source` to each of `targets`: a plain edge has one target, a
      conditional edge one per route. */
  datatype Edge = Edge(source: string, targets: set<string>)

  datatype Graph = Graph(nodes: set<string>, edges: seq<Edge>)

  /** Every name an edge uses that the graph does not define. */
  function UnknownNames(g: Graph): set<string> {
    (set e | e in g.edges && e.source !in g.nodes && e.source != StartName :: e.source)
    + (set e, t | e in g.edges && t in e.targets && t !in g.nodes && t != EndName :: t)
  }

  predicate Compiles(g: Graph) {
    UnknownNames(g) == {}
  }

  /** The names reachable in one step from `n`. */
  function Successors(g: Graph, n: string): set<string> {
    set e, t | e in g.edges && e.source == n && t in e.targets :: t
  }

  /** The edges of `build_workflow`, which refer to the query node as
      `generate_query_or_respond`. */
  const Edges: seq<Edge> := [
    Edge(StartName, {"generate_query_or_respond"}),
    Edge("generate_query_or_respond", {"retrieve", EndName}),
    Edge("retrieve", {"generate_answer", "rewrite_question"}),
    Edge("generate_answer", {EndName}),
    Edge("rewrite_question", {"generate_query_or_respond"})
  ]

  /** The graph as written: the query node is added as `add_node(generate_query)` and so
      is registered as `generate_query`. */
  const AsWritten: Graph :=
    Graph({"generate_query", "retrieve", "rewrite_question", "generate_answer"}, Edges)

  /** The graph as evidently intended: the query node registered under the name the
      edges use. */
  const Corrected: Graph :=
    Graph({"generate_query_or_respond", "retrieve", "rewrite_question", "generate_answer"}, Edges)

  /** The graph as written cannot be compiled: the query node's edge name is defined
      nowhere, and the registered name `generate_query` is used by no edge. */
  lemma AsWrittenDoesNotCompile()
    ensures UnknownNames(AsWritten) == {"generate_query_or_respond"}
    ensures !Compiles(AsWritten)
    ensures forall e :: e in AsWritten.edges ==> e.source != "generate_query" && "generate_query" !in e.targets
  {
    assert Edges[1] in AsWritten.edges;
    assert "generate_query_or_respond" in UnknownNames(AsWritten);
  }

  /** With the query node registered under its edge name every edge resolves. */
  lemma CorrectedCompiles()
    ensures Compiles(Corrected)
  {
  }

  /** The transition table of the corrected graph: start goes to the query node, the
      query node to `retrieve` or the end, `retrieve` to one of the two grading outcomes,
      `rewrite_question` back to the query node and `generate_answer` to the end. */
  lemma TransitionTable()
    ensures Successors(Corrected, StartName) == {"generate_query_or_respond"}
    ensures Successors(Corrected, "generate_query_or_respond") == {"retrieve", EndName}
    ensures Successors(Corrected, "retrieve") == {"generate_answer", "rewrite_question"}
    ensures Successors(Corrected, "rewrite_question") == {"generate_query_or_respond"}
    ensures Successors(Corrected, "generate_answer") == {EndName}
    ensures Successors(Corrected, EndName) == {}
  {
    assert Edges[0] in Corrected.edges;
    assert Edges[1] in Corrected.edges;
    assert Edges[2] in Corrected.edges;
    assert Edges[3] in Corrected.edges;
    assert Edges[4] in Corrected.edges;
  }
}
