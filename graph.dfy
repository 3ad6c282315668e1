/** The multigraph of src/multigraph.h: a sequence of vertex values and a sequence of
    debts between them, both in insertion order, with a position iterator over the
    vertices. Exceptions become `Outcome`/`Result` values; a rejected call changes
    nothing. */
module Graph {

  import opened Errors
  import opened EdgeList
  import opened Text


  class Multigraph<V(==), E(==)> {
    var vertexes: seq<V>
    var edges: seq<Edge<V, E>>

    /** The structural invariant that addVertex, addEdge, deleteVertex and clear keep:
        vertex values are distinct, every debt joins two vertices, and no debt is a loop.
        The stream reader does not check it. */
    ghost predicate Valid()
      reads this
    {
      && (forall i, j :: 0 <= i < j < |vertexes| ==> vertexes[i] != vertexes[j])
      && EndpointsIn(edges, vertexes)
      && NoSelfLoops(edges)
    }

    constructor ()
      ensures vertexes == [] && edges == []
      ensures Valid()
    {
      vertexes := [];
      edges := [];
    }

    /** Appends `value` unless it is already a vertex. */
    method AddVertex(value: V) returns (r: Outcome)
      modifies this
      ensures value in old(vertexes) ==> r == Fail(VertexExists) && vertexes == old(vertexes)
      ensures value !in old(vertexes) ==> r == Pass && vertexes == old(vertexes) + [value]
      ensures edges == old(edges)
      ensures old(Valid()) ==> Valid()
    {
      if value in vertexes {
        return Fail(VertexExists);
      }
      vertexes := vertexes + [value];
      r := Pass;
    }

    /** Appends the debt `src` -> `dst`; the three checks run in this order: a loop,
        a missing source, a missing destination. */
    method AddEdge(src: V, dst: V, value: E) returns (r: Outcome)
      modifies this
      ensures src == dst ==> r == Fail(SelfLoop)
      ensures src != dst && src !in vertexes ==> r == Fail(SrcNotFound)
      ensures src != dst && src in vertexes && dst !in vertexes ==> r == Fail(DstNotFound)
      ensures r == Pass <==> src != dst && src in vertexes && dst in vertexes
      ensures r == Pass ==> edges == old(edges) + [Edge(src, dst, value)]
      ensures r != Pass ==> edges == old(edges)
      ensures vertexes == old(vertexes)
      ensures old(Valid()) ==> Valid()
    {
      if src == dst {
        return Fail(SelfLoop);
      }
      if src !in vertexes {
        return Fail(SrcNotFound);
      }
      if dst !in vertexes {
        return Fail(DstNotFound);
      }
      edges := edges + [Edge(src, dst, value)];
      r := Pass;
    }

    /** Empties both sequences. */
    method Clear()
      modifies this
      ensures vertexes == [] && edges == []
      ensures Valid()
    {
      vertexes := [];
      edges := [];
    }

    /** Removes the (first) vertex carrying `value` and every debt that starts or ends
        there; the surviving debts keep their order. */
    method DeleteVertex(value: V) returns (r: Outcome)
      modifies this
      ensures value !in old(vertexes) ==> r == Fail(VertexNotFound) && vertexes == old(vertexes) && edges == old(edges)
      ensures value in old(vertexes) ==> r == Pass && vertexes == RemoveFirst(old(vertexes), value) && edges == Detach(old(edges), value)
      ensures old(Valid()) ==> Valid() && value !in vertexes
    {
      var pos := IndexOf(vertexes, value);
      if pos == |vertexes| {
        return Fail(VertexNotFound);
      }
      ghost var vs0, es0 := vertexes, edges;
      vertexes := DeleteAt(vertexes, pos);
      edges := Detach(edges, value);
      r := Pass;
      if old(Valid()) {
        RemoveFirstOfDistinct(vs0, value);
        assert forall y :: y in vertexes <==> y in vs0 && y != value;
        forall i | 0 <= i < |edges| ensures edges[i].src in vertexes && edges[i].dst in vertexes && edges[i].src != edges[i].dst {
          assert edges[i] in es0 && !Touches(edges[i], value);
        }
        forall i, j | 0 <= i < j < |vertexes| ensures vertexes[i] != vertexes[j] {
          if j < pos {
          } else if i < pos {
            assert vertexes[i] == vs0[i] && vertexes[j] == vs0[j + 1];
          } else {
            assert vertexes[i] == vs0[i + 1] && vertexes[j] == vs0[j + 1];
          }
        }
      }
    }

    /** Whether the vertex `value` has no debt at all; an error for an unknown vertex. */
    function VertexIsIsolated(value: V): (r: Result<bool>)
      reads this
      ensures r.Err? <==> value !in vertexes
      ensures r.Err? ==> r.error == VertexNotFound
      ensures r == Ok(true) <==> value in vertexes && forall i :: 0 <= i < |edges| ==> !Touches(edges[i], value)
    {
      if value !in vertexes then Err(VertexNotFound)
      else Ok(forall i :: 0 <= i < |edges| ==> !Touches(edges[i], value))
    }

    function GetVertexes(): seq<V>
      reads this
    {
      vertexes
    }

    function GetEdges(): seq<Edge<V, E>>
      reads this
    {
      edges
    }

    /** Deletes the edge at position `k`: `deleteEdge` given a live edge. */
    method DeleteEdgeAt(k: nat)
      requires k < |edges|
      modifies this
      ensures edges == DeleteAt(old(edges), k)
      ensures vertexes == old(vertexes)
    {
      edges := DeleteAt(edges, k);
    }

    /** `Edge::setValue` on the edge at position `k`. */
    method SetEdgeValue(k: nat, x: E)
      requires k < |edges|
      modifies this
      ensures edges == SetValueAt(old(edges), k, x)
      ensures vertexes == old(vertexes)
    {
      edges := SetValueAt(edges, k, x);
    }

    /** Deletes the first debt `src` -> `dst` of amount `value`; an error if there is none. */
    method DeleteEdge(src: V, dst: V, value: E) returns (r: Outcome)
      modifies this
      ensures Edge(src, dst, value) !in old(edges) ==> r == Fail(EdgeNotFound) && edges == old(edges)
      ensures Edge(src, dst, value) in old(edges) ==> r == Pass && edges == RemoveFirst(old(edges), Edge(src, dst, value))
      ensures vertexes == old(vertexes)
      ensures old(Valid()) ==> Valid()
    {
      var k := IndexOf(edges, Edge(src, dst, value));
      if k == |edges| {
        return Fail(EdgeNotFound);
      }
      DeleteEdgeAt(k);
      r := Pass;
    }

    /** An iterator at the first vertex. */
    method BeginV() returns (it: VertexIterator<V, E>)
      ensures fresh(it) && it.graph == this && it.position == 0
    {
      it := new VertexIterator(0, this);
    }

    /** An iterator one past the last vertex. */
    method EndV() returns (it: VertexIterator<V, E>)
      ensures fresh(it) && it.graph == this && it.position == |vertexes|
    {
      it := new VertexIterator(|vertexes|, this);
    }
  }

  /** `a + b` on `size_t`: it wraps around past the largest value. */
  function SizeSum(a: nat, b: nat): (r: nat)
    requires a < SizeModulus && b < SizeModulus
    ensures r < SizeModulus && (r + SizeModulus - b) % SizeModulus == a
    ensures a + b < SizeModulus <==> r == a + b
    ensures a + b >= SizeModulus <==> r < a
  {
    (a + b) % SizeModulus
  }

  /** The `size_t` sum of the largest value and 1 wraps to 0, so the guard of
      `IncrementAsWritten` passes there. */
  lemma IncrementWraps()
    ensures SizeSum(SizeModulus - 1, 1) == 0
  {
  }

  /** The `size_t` sum of 1 and the largest value wraps to 0, so the guard of
      `AdvanceAsWritten` passes from position 1. */
  lemma AdvanceWraps()
    ensures SizeSum(1, SizeModulus - 1) == 0
  {
  }

  /** `a - b` on `size_t`: never negative, it wraps around below 0. */
  function SizeDifference(a: nat, b: nat): (r: nat)
    requires a < SizeModulus && b < SizeModulus
    ensures r < SizeModulus && (r + b) % SizeModulus == a
  {
    if b <= a then a - b else a + SizeModulus - b
  }

  /** Moving back past the first vertex with the `-=` as written does not fail: the
      position wraps around to far beyond endV. */
  lemma RetreatPastBeginWraps(position: nat, k: nat)
    requires position < k < SizeModulus
    ensures SizeDifference(position, k) == SizeModulus - (k - position)
    ensures SizeDifference(position, k) > position
  {
  }

  /** A position over the vertices of `graph`; position |vertexes| is endV. */
  class VertexIterator<V(==), E(==)> {
    const graph: Multigraph<V, E>
    var position: nat

    constructor (position: nat, graph: Multigraph<V, E>)
      ensures this.position == position && this.graph == graph
    {
      this.position := position;
      this.graph := graph;
    }

    /** `++`: moves one vertex on; an error if that would pass endV. */
    method Increment() returns (r: Outcome)
      modifies this
      ensures old(position) + 1 <= |graph.vertexes| ==> r == Pass && position == old(position) + 1
      ensures |graph.vertexes| < old(position) + 1 ==> r == Fail(OutOfRange) && position == old(position)
    {
      if |graph.vertexes| < position + 1 {
        return Fail(OutOfRange);
      }
      position := position + 1;
      r := Pass;
    }

    /** `+= k`: moves `k` vertices on; an error if that would pass endV. */
    method Advance(k: nat) returns (r: Outcome)
      modifies this
      ensures old(position) + k <= |graph.vertexes| ==> r == Pass && position == old(position) + k
      ensures |graph.vertexes| < old(position) + k ==> r == Fail(OutOfRange) && position == old(position)
    {
      if |graph.vertexes| < position + k {
        return Fail(OutOfRange);
      }
      position := position + k;
      r := Pass;
    }

    /** `++` as written: `_position + 1` is a `size_t` sum, so at the largest position it
        wraps to 0 and the guard does not fire. */
    method IncrementAsWritten() returns (r: Outcome)
      requires position < SizeModulus && |graph.vertexes| < SizeModulus
      modifies this
      ensures SizeSum(old(position), 1) <= |graph.vertexes| ==> r == Pass && position == SizeSum(old(position), 1)
      ensures |graph.vertexes| < SizeSum(old(position), 1) ==> r == Fail(OutOfRange) && position == old(position)
    {
      var next := SizeSum(position, 1);
      if |graph.vertexes| < next {
        return Fail(OutOfRange);
      }
      position := next;
      r := Pass;
    }

    /** `+= k` as written: `_position + k` is a `size_t` sum, so a large `k` wraps it below
        the vertex count and the position moves back instead of failing. */
    method AdvanceAsWritten(k: nat) returns (r: Outcome)
      requires position < SizeModulus && k < SizeModulus && |graph.vertexes| < SizeModulus
      modifies this
      ensures SizeSum(old(position), k) <= |graph.vertexes| ==> r == Pass && position == SizeSum(old(position), k)
      ensures |graph.vertexes| < SizeSum(old(position), k) ==> r == Fail(OutOfRange) && position == old(position)
    {
      var next := SizeSum(position, k);
      if |graph.vertexes| < next {
        return Fail(OutOfRange);
      }
      position := next;
      r := Pass;
    }

    /** `-= k` as intended: moves `k` vertices back; an error if that would pass the
        first vertex. */
    method Retreat(k: nat) returns (r: Outcome)
      modifies this
      ensures k <= old(position) ==> r == Pass && position == old(position) - k
      ensures old(position) < k ==> r == Fail(OutOfRange) && position == old(position)
    {
      if position < k {
        return Fail(OutOfRange);
      }
      position := position - k;
      r := Pass;
    }

    /** `-= k` as written: the guard `_position - k < 0` compares a `size_t` difference
        with 0, so it never fires, and the position is always replaced by that
        difference. */
    method RetreatAsWritten(k: nat) returns (r: Outcome)
      requires position < SizeModulus && k < SizeModulus
      modifies this
      ensures r == Pass && position == SizeDifference(old(position), k)
    {
      position := SizeDifference(position, k);
      r := Pass;
    }

    /** `==`: the same graph and the same position. Equal iterators reach the same
        vertex, or both fail. */
    predicate Equals(other: VertexIterator<V, E>)
      reads this, other, graph, other.graph
      ensures Equals(other) ==> Current() == other.Current()
    {
      graph == other.graph && position == other.position
    }

    /** `!=`: another graph or another position; the negation of `==`. */
    predicate NotEquals(other: VertexIterator<V, E>)
      reads this, other, graph, other.graph
      ensures NotEquals(other) <==> !Equals(other)
    {
      graph != other.graph || position != other.position
    }

    /** `*`: the vertex at the position; `at` reports an error at endV. */
    function Current(): (r: Result<V>)
      reads this, graph
      ensures r.Ok? <==> position < |graph.vertexes|
      ensures r.Ok? ==> r.value == graph.vertexes[position]
      ensures r.Err? ==> r.error == OutOfRange
    {
      if position < |graph.vertexes| then Ok(graph.vertexes[position]) else Err(OutOfRange)
    }

    /** The debts owed to the current vertex, in edge order. */
    function IncomingEdges(): (r: Result<seq<Edge<V, E>>>)
      reads this, graph
      ensures r.Ok? <==> position < |graph.vertexes|
      ensures r.Ok? ==> r.value == Incoming(graph.edges, graph.vertexes[position])
    {
      if position < |graph.vertexes| then Ok(Incoming(graph.edges, graph.vertexes[position])) else Err(OutOfRange)
    }

    /** The debts owed by the current vertex, in edge order. */
    function OutcomingEdges(): (r: Result<seq<Edge<V, E>>>)
      reads this, graph
      ensures r.Ok? <==> position < |graph.vertexes|
      ensures r.Ok? ==> r.value == Outgoing(graph.edges, graph.vertexes[position])
    {
      if position < |graph.vertexes| then Ok(Outgoing(graph.edges, graph.vertexes[position])) else Err(OutOfRange)
    }
  }
}
