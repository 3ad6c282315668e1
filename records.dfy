/** The pointer-linked records of src/vertex.h and src/edge.h: a vertex holds its value
    and the lists of its incoming and outgoing edges, an edge holds its two endpoints and
    a mutable amount. A null pointer is a `null` reference. */
module Records {

  import opened Errors
  import EdgeList

  class Vertex<V, E> {
    var data: V
    var incomingEdges: seq<Edge<V, E>>
    var outgoingEdges: seq<Edge<V, E>>

    /** A vertex holding `dt` and no edges. */
    constructor (dt: V)
      ensures data == dt && incomingEdges == [] && outgoingEdges == []
    {
      data := dt;
      incomingEdges := [];
      outgoingEdges := [];
    }

    /** Replaces the value; both edge lists stay as they are. */
    method SetData(value: V)
      modifies this
      ensures data == value
      ensures incomingEdges == old(incomingEdges) && outgoingEdges == old(outgoingEdges)
    {
      data := value;
    }

    /** Appends `edge` to the incoming list; a null edge is refused. Duplicates are not
        checked. */
    method AddIncomingEdge(edge: Edge?<V, E>) returns (r: Outcome)
      modifies this
      ensures edge == null ==> r == Fail(NullEdge) && incomingEdges == old(incomingEdges)
      ensures edge != null ==> r == Pass && incomingEdges == old(incomingEdges) + [edge]
      ensures data == old(data) && outgoingEdges == old(outgoingEdges)
    {
      if edge == null {
        return Fail(NullEdge);
      }
      incomingEdges := incomingEdges + [edge];
      r := Pass;
    }

    /** Appends `edge` to the outgoing list; a null edge is refused. Duplicates are not
        checked. */
    method AddOutgoingEdge(edge: Edge?<V, E>) returns (r: Outcome)
      modifies this
      ensures edge == null ==> r == Fail(NullEdge) && outgoingEdges == old(outgoingEdges)
      ensures edge != null ==> r == Pass && outgoingEdges == old(outgoingEdges) + [edge]
      ensures data == old(data) && incomingEdges == old(incomingEdges)
    {
      if edge == null {
        return Fail(NullEdge);
      }
      outgoingEdges := outgoingEdges + [edge];
      r := Pass;
    }

    /** Removes the first occurrence of `edge` from the incoming list, as the tests use it. */
    method DelIncomingEdge(edge: Edge<V, E>)
      modifies this
      ensures incomingEdges == EdgeList.RemoveFirst(old(incomingEdges), edge)
      ensures data == old(data) && outgoingEdges == old(outgoingEdges)
    {
      incomingEdges := EdgeList.RemoveFirst(incomingEdges, edge);
    }

    /** Removes the first occurrence of `edge` from the outgoing list, as the tests use it. */
    method DelOutgoingEdge(edge: Edge<V, E>)
      modifies this
      ensures outgoingEdges == EdgeList.RemoveFirst(old(outgoingEdges), edge)
      ensures data == old(data) && incomingEdges == old(incomingEdges)
    {
      outgoingEdges := EdgeList.RemoveFirst(outgoingEdges, edge);
    }
  }

  class Edge<V, E> {
    const source: Vertex?<V, E>
    const destination: Vertex?<V, E>
    var value: E

    /** Stores the endpoints and the amount as given: neither a null endpoint nor a loop
        is refused here. */
    constructor (src: Vertex?<V, E>, dst: Vertex?<V, E>, value: E)
      ensures source == src && destination == dst && this.value == value
    {
      source := src;
      destination := dst;
      this.value := value;
    }

    /** Replaces the amount; the endpoints cannot change. */
    method SetValue(x: E)
      modifies this
      ensures value == x
    {
      value := x;
    }
  }

  /** Of two edges added to a vertex's incoming list, deleting the first keeps the second. */
  method DeleteOneOfTwoIncoming(x: real, y: real) returns (v: Vertex<string, real>, e1: Edge<string, real>, e2: Edge<string, real>)
    ensures e1 !in v.incomingEdges && e2 in v.incomingEdges
    ensures v.outgoingEdges == []
  {
    var u := new Vertex("Vert1");
    v := new Vertex("Vert2");
    e1 := new Edge(u, v, x);
    e2 := new Edge(u, v, y);
    var r1 := v.AddIncomingEdge(e1);
    var r2 := v.AddIncomingEdge(e2);
    v.DelIncomingEdge(e1);
    assert v.incomingEdges == [e2];
  }

  /** Of two edges added to a vertex's outgoing list, deleting the first keeps the second. */
  method DeleteOneOfTwoOutgoing(x: real, y: real) returns (v: Vertex<string, real>, e1: Edge<string, real>, e2: Edge<string, real>)
    ensures e1 !in v.outgoingEdges && e2 in v.outgoingEdges
    ensures v.incomingEdges == []
  {
    v := new Vertex("Vert1");
    var w := new Vertex("Vert2");
    e1 := new Edge(v, w, x);
    e2 := new Edge(v, w, y);
    var r1 := v.AddOutgoingEdge(e1);
    var r2 := v.AddOutgoingEdge(e2);
    v.DelOutgoingEdge(e1);
    assert v.outgoingEdges == [e2];
  }

  /** The same edge may sit twice in one list. */
  method AddTwice(x: real) returns (v: Vertex<string, real>, e: Edge<string, real>)
    ensures v.incomingEdges == [e, e]
  {
    v := new Vertex("Vert");
    e := new Edge(null, v, x);
    var r1 := v.AddIncomingEdge(e);
    var r2 := v.AddIncomingEdge(e);
  }

  /** A null edge leaves the lists empty and reports the error. */
  method AddNull() returns (v: Vertex<string, real>, r: Outcome)
    ensures r == Fail(NullEdge) && v.incomingEdges == [] && v.outgoingEdges == []
  {
    v := new Vertex("Vert");
    r := v.AddIncomingEdge(null);
  }

  /** An edge from a vertex to itself, with a negative amount set afterwards, is accepted. */
  method LoopWithNegativeAmount() returns (e: Edge<string, real>)
    ensures e.source == e.destination && e.source != null && e.value == -0.5
  {
    var v := new Vertex("Vert");
    e := new Edge(v, v, 10.5);
    e.SetValue(-0.5);
  }
}
