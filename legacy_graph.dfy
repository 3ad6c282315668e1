/** The earlier multigraph of the top-level multigraph.h: only `addVertex`, which scans
    the vertices with an explicit loop, and `addEdge`, which checks that both endpoints
    exist but accepts a loop from a vertex to itself. */
module LegacyGraph {

  import opened Errors
  import opened EdgeList
  import Graph

  class Multigraph<V(==), E(==)> {
    var vertexes: seq<V>
    var edges: seq<Edge<V, E>>

    constructor ()
      ensures vertexes == [] && edges == []
    {
      vertexes := [];
      edges := [];
    }

    /** Scans the vertices in order and refuses a duplicate ("Person already exist!");
        otherwise appends `value`. */
    method AddVertex(value: V) returns (r: Outcome)
      modifies this
      ensures value in old(vertexes) ==> r == Fail(VertexExists) && vertexes == old(vertexes)
      ensures value !in old(vertexes) ==> r == Pass && vertexes == old(vertexes) + [value]
      ensures edges == old(edges)
    {
      var i := 0;
      while i != |vertexes|
        invariant i <= |vertexes|
        invariant value !in vertexes[..i]
      {
        if vertexes[i] == value {
          return Fail(VertexExists);
        }
        i := i + 1;
      }
      assert vertexes[..i] == vertexes;
      vertexes := vertexes + [value];
      r := Pass;
    }

    /** Refuses a missing source ("Creditor doesn't exist!"), then a missing destination
        ("Debtor doesn't exist!"); otherwise appends the edge, a loop included. */
    method AddEdge(src: V, dst: V, value: E) returns (r: Outcome)
      modifies this
      ensures src !in vertexes ==> r == Fail(SrcNotFound)
      ensures src in vertexes && dst !in vertexes ==> r == Fail(DstNotFound)
      ensures r == Pass <==> src in vertexes && dst in vertexes
      ensures r == Pass ==> edges == old(edges) + [Edge(src, dst, value)]
      ensures r != Pass ==> edges == old(edges)
      ensures vertexes == old(vertexes)
    {
      if src !in vertexes {
        return Fail(SrcNotFound);
      }
      if dst !in vertexes {
        return Fail(DstNotFound);
      }
      edges := edges + [Edge(src, dst, value)];
      r := Pass;
    }
  }

  /** The two versions differ on a loop: the earlier one stores it, the later one refuses it. */
  method LoopAcceptedOnlyByLegacy<V(==), E(==)>(x: V, value: E) returns (legacy: Outcome, current: Outcome)
    ensures legacy == Pass && current == Fail(SelfLoop)
  {
    var earlier := new Multigraph<V, E>();
    var r := earlier.AddVertex(x);
    legacy := earlier.AddEdge(x, x, value);
    var later := new Graph.Multigraph<V, E>();
    r := later.AddVertex(x);
    current := later.AddEdge(x, x, value);
  }
}
