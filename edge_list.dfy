/** The multigraph's edge store: a debt is a value `Edge(src, dst, value)` ("src owes
    dst this amount") held in a sequence, in insertion order. An index into that
    sequence stands for the edge pointer the source passes around. */
module EdgeList {

  datatype Edge<V, E> = Edge(src: V, dst: V, value: E)

  predicate Touches<V(==), E>(e: Edge<V, E>, v: V) {
    e.src == v || e.dst == v
  }

  /** No debt from a vertex to itself. */
  predicate NoSelfLoops<V(==), E>(es: seq<Edge<V, E>>) {
    forall i :: 0 <= i < |es| ==> es[i].src != es[i].dst
  }

  /** Every debt is between two vertices of `vs`. */
  predicate EndpointsIn<V(==), E>(es: seq<Edge<V, E>>, vs: seq<V>) {
    forall i :: 0 <= i < |es| ==> es[i].src in vs && es[i].dst in vs
  }

  /** The outgoing edges of `v`: those whose source is `v`, in edge order. */
  function Outgoing<V(==), E(==)>(es: seq<Edge<V, E>>, v: V): (r: seq<Edge<V, E>>)
    ensures |r| <= |es|
    ensures forall e | e in r :: e in es && e.src == v
    ensures forall e | e in es && e.src == v :: e in r
  {
    if es == [] then []
    else (if es[0].src == v then [es[0]] else []) + Outgoing(es[1..], v)
  }

  /** The incoming edges of `v`: those whose destination is `v`, in edge order. */
  function Incoming<V(==), E(==)>(es: seq<Edge<V, E>>, v: V): (r: seq<Edge<V, E>>)
    ensures |r| <= |es|
    ensures forall e | e in r :: e in es && e.dst == v
    ensures forall e | e in es && e.dst == v :: e in r
  {
    if es == [] then []
    else (if es[0].dst == v then [es[0]] else []) + Incoming(es[1..], v)
  }

  /** The edges that neither start nor end at `v`, in edge order: what the stable
      `remove_if` of deleteVertex keeps. */
  function Detach<V(==), E(==)>(es: seq<Edge<V, E>>, v: V): (r: seq<Edge<V, E>>)
    ensures |r| <= |es|
    ensures forall e | e in r :: e in es && !Touches(e, v)
    ensures forall e | e in es && !Touches(e, v) :: e in r
  {
    if es == [] then []
    else (if Touches(es[0], v) then [] else [es[0]]) + Detach(es[1..], v)
  }

  /** Filtering keeps relative order: each filter distributes over concatenation. */
  lemma {:induction false} OutgoingConcat<V, E>(s: seq<Edge<V, E>>, t: seq<Edge<V, E>>, v: V)
    ensures Outgoing(s + t, v) == Outgoing(s, v) + Outgoing(t, v)
  {
    if s == [] {
      assert s + t == t;
    } else {
      assert (s + t)[1..] == s[1..] + t;
      OutgoingConcat(s[1..], t, v);
    }
  }

  lemma {:induction false} IncomingConcat<V, E>(s: seq<Edge<V, E>>, t: seq<Edge<V, E>>, v: V)
    ensures Incoming(s + t, v) == Incoming(s, v) + Incoming(t, v)
  {
    if s == [] {
      assert s + t == t;
    } else {
      assert (s + t)[1..] == s[1..] + t;
      IncomingConcat(s[1..], t, v);
    }
  }

  lemma {:induction false} DetachConcat<V, E>(s: seq<Edge<V, E>>, t: seq<Edge<V, E>>, v: V)
    ensures Detach(s + t, v) == Detach(s, v) + Detach(t, v)
  {
    if s == [] {
      assert s + t == t;
    } else {
      assert (s + t)[1..] == s[1..] + t;
      DetachConcat(s[1..], t, v);
    }
  }

  /** A vertex with no edge at all keeps every edge when detached. */
  lemma {:induction false} DetachUntouched<V, E>(es: seq<Edge<V, E>>, v: V)
    ensures Detach(es, v) == es <==> forall i :: 0 <= i < |es| ==> !Touches(es[i], v)
  {
    if es != [] {
      DetachUntouched(es[1..], v);
      if Touches(es[0], v) {
        assert |Detach(es, v)| < |es|;
      }
    }
  }

  /** The first index of `x` in `s`, or |s| when `x` does not occur: what std::find gives. */
  function IndexOf<T(==)>(s: seq<T>, x: T): (i: nat)
    ensures i <= |s|
    ensures i < |s| ==> s[i] == x
    ensures x !in s[..i]
    ensures i == |s| <==> x !in s
  {
    if s == [] then 0
    else if s[0] == x then 0
    else
      var i := 1 + IndexOf(s[1..], x);
      assert s[..i] == [s[0]] + s[1..][..i - 1];
      i
  }

  /** `s` without position `k`: what `vector::erase` at one position leaves. */
  function DeleteAt<T>(s: seq<T>, k: nat): (r: seq<T>)
    requires k < |s|
    ensures |r| == |s| - 1
    ensures forall i :: 0 <= i < k ==> r[i] == s[i]
    ensures forall i :: k <= i < |r| ==> r[i] == s[i + 1]
  {
    s[..k] + s[k + 1..]
  }

  /** `s` without the first occurrence of `x`, if any. */
  function RemoveFirst<T(==)>(s: seq<T>, x: T): (r: seq<T>)
    ensures x !in s ==> r == s
    ensures x in s ==> |r| == |s| - 1 && multiset(r) == multiset(s) - multiset{x}
  {
    var i := IndexOf(s, x);
    if i == |s| then s
    else
      assert s == s[..i] + [s[i]] + s[i + 1..];
      DeleteAt(s, i)
  }

  /** When every element occurs once, removing `x` keeps exactly the other elements. */
  lemma RemoveFirstOfDistinct<T>(s: seq<T>, x: T)
    requires forall i, j :: 0 <= i < j < |s| ==> s[i] != s[j]
    ensures forall y :: y in RemoveFirst(s, x) <==> y in s && y != x
  {
    var r := RemoveFirst(s, x);
    if x in s {
      var i := IndexOf(s, x);
      forall y | y in s && y != x ensures y in r {
        var j :| 0 <= j < |s| && s[j] == y;
        if j < i { assert r[j] == y; } else { assert r[j - 1] == y; }
      }
      forall y | y in r ensures y != x {
        var j :| 0 <= j < |r| && r[j] == y;
        if j < i { assert s[j] == y; } else { assert s[j + 1] == y; }
      }
    }
  }

  /** `s` with the value of edge `k` replaced: `Edge::setValue` on that edge. */
  function SetValueAt<V, E>(s: seq<Edge<V, E>>, k: nat, x: E): (r: seq<Edge<V, E>>)
    requires k < |s|
    ensures |r| == |s|
    ensures r[k] == Edge(s[k].src, s[k].dst, x)
    ensures forall i :: 0 <= i < |s| && i != k ==> r[i] == s[i]
  {
    s[k := s[k].(value := x)]
  }

  /** Deleting an item takes exactly that item out of the multiset of items. */
  lemma DeleteAtMultiset<T>(s: seq<T>, k: nat)
    requires k < |s|
    ensures multiset(DeleteAt(s, k)) + multiset{s[k]} == multiset(s)
  {
    assert s == s[..k] + [s[k]] + s[k + 1..];
  }

  /** Changing an amount swaps exactly that debt for its new form in the multiset. */
  lemma SetValueAtMultiset<V, E>(s: seq<Edge<V, E>>, k: nat, x: E)
    requires k < |s|
    ensures multiset(SetValueAt(s, k, x)) + multiset{s[k]} == multiset(s) + multiset{Edge(s[k].src, s[k].dst, x)}
  {
    var t := SetValueAt(s, k, x);
    assert s == s[..k] + [s[k]] + s[k + 1..];
    assert t == s[..k] + [Edge(s[k].src, s[k].dst, x)] + s[k + 1..];
  }
}
