/** Failure kinds of the debt multigraph engine. Each constructor stands for one
    exception the engine throws; the message text, line number and time stamp that
    the exception carries are not modelled. */
module Errors {

  datatype Error =
    | VertexExists      // addVertex: the value is already a vertex
    | SelfLoop          // addEdge: source equals destination
    | SrcNotFound       // addEdge: no vertex carries the source value
    | DstNotFound       // addEdge: no vertex carries the destination value
    | VertexNotFound    // deleteVertex / vertexIsIsolated: no such vertex
    | EdgeNotFound      // deleteEdge(src, dst, value): no such edge
    | NullEdge          // Vertex::addIncomingEdge / addOutgoingEdge given a null edge
    | OutOfRange        // VertexIterator moved past endV, or dereferenced at endV
    | NamelessPerson    // addPerson: the name is empty

  /** The result of an operation that returns nothing when it succeeds. */
  datatype Outcome = Pass | Fail(error: Error)

  /** An optional value: what a read from a stream gives back. */
  datatype Option<T> = None | Some(value: T)

  /** The result of an operation that returns a value when it succeeds. */
  datatype Result<T> = Ok(value: T) | Err(error: Error)
}
