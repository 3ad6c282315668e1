/** The debt simplification of MainWindow::actionReduseEdges (src/mainwindow.cpp), run on
    the window's `Multigraph<string, double>` (amounts as `real`).

    Pass 1 folds, for every vertex, each later outgoing debt to the same creditor into the
    earliest one. Pass 2 cancels, for every vertex, each outgoing debt against the debt
    running back, keeping only the difference. Both passes keep every pair's net balance;
    afterwards no pair owes in both directions, and running the reduction again changes
    nothing. */
module Reduction {

  import opened Errors
  import opened EdgeList
  import opened Graph

  /** A participant's name, as the window's graph stores it. */
  type Name = string

  type Debts = seq<Edge<Name, real>>

  // ---------------------------------------------------------------------------
  // Amounts owed between two people

  function Contribution(e: Edge<Name, real>, a: Name, b: Name): real {
    if e.src == a && e.dst == b then e.value else 0.0
  }

  /** The total that `a` owes `b` over all debts `a` -> `b`. */
  function Weight(es: Debts, a: Name, b: Name): real {
    if es == [] then 0.0 else Contribution(es[0], a, b) + Weight(es[1..], a, b)
  }

  /** What `a` owes `b`, net of what `b` owes `a`. */
  function Balance(es: Debts, a: Name, b: Name): real {
    Weight(es, a, b) - Weight(es, b, a)
  }

  ghost predicate SameWeights(s: Debts, t: Debts) {
    forall a, b :: Weight(s, a, b) == Weight(t, a, b)
  }

  ghost predicate SameBalances(s: Debts, t: Debts) {
    forall a, b :: Balance(s, a, b) == Balance(t, a, b)
  }

  lemma SameBalancesTrans(r: Debts, s: Debts, t: Debts)
    requires SameBalances(r, s) && SameBalances(s, t)
    ensures SameBalances(r, t)
  {
    forall a, b ensures Balance(r, a, b) == Balance(t, a, b) {
      assert Balance(r, a, b) == Balance(s, a, b);
    }
  }

  /** Totals add up over concatenation. */
  lemma {:induction false} WeightConcat(s: Debts, t: Debts, a: Name, b: Name)
    ensures Weight(s + t, a, b) == Weight(s, a, b) + Weight(t, a, b)
  {
    if s == [] {
      assert s + t == t;
    } else {
      assert (s + t)[1..] == s[1..] + t;
      WeightConcat(s[1..], t, a, b);
    }
  }

  lemma WeightAt(s: Debts, k: nat, a: Name, b: Name)
    requires k < |s|
    ensures Weight(s, a, b) == Weight(s[..k], a, b) + Contribution(s[k], a, b) + Weight(s[k + 1..], a, b)
  {
    assert s == s[..k] + ([s[k]] + s[k + 1..]);
    WeightConcat(s[..k], [s[k]] + s[k + 1..], a, b);
    WeightConcat([s[k]], s[k + 1..], a, b);
  }

  /** Deleting a debt takes its amount off its own pair and nothing else. */
  lemma WeightDeleteAt(s: Debts, k: nat, a: Name, b: Name)
    requires k < |s|
    ensures Weight(DeleteAt(s, k), a, b) == Weight(s, a, b) - Contribution(s[k], a, b)
  {
    WeightAt(s, k, a, b);
    WeightConcat(s[..k], s[k + 1..], a, b);
  }

  /** Changing a debt's amount changes its own pair's total by the difference. */
  lemma WeightSetValueAt(s: Debts, k: nat, x: real, a: Name, b: Name)
    requires k < |s|
    ensures Weight(SetValueAt(s, k, x), a, b)
         == Weight(s, a, b) - Contribution(s[k], a, b) + Contribution(s[k].(value := x), a, b)
  {
    var t := SetValueAt(s, k, x);
    WeightAt(s, k, a, b);
    WeightAt(t, k, a, b);
    assert t[..k] == s[..k];
    assert t[k + 1..] == s[k + 1..];
  }

  // ---------------------------------------------------------------------------
  // Shapes of the debt list

  /** `v` owes each creditor through at most one debt. */
  predicate NoParallel(es: Debts, v: Name) {
    forall p, q :: 0 <= p < q < |es| && es[p].src == v && es[q].src == v ==> es[p].dst != es[q].dst
  }

  /** No two debts join the same ordered pair. */
  predicate NoParallelAll(es: Debts) {
    forall p, q :: 0 <= p < |es| && 0 <= q < |es| && p != q && es[p].src == es[q].src ==> es[p].dst != es[q].dst
  }

  /** Nobody that `v` owes also owes `v`. */
  predicate NoOpposing(es: Debts, v: Name) {
    forall p, q :: 0 <= p < |es| && 0 <= q < |es| && es[p].src == v && es[q].src == es[p].dst ==> es[q].dst != v
  }

  /** No pair owes in both directions. */
  predicate NoOpposingAll(es: Debts) {
    forall p, q :: 0 <= p < |es| && 0 <= q < |es| && es[q].src == es[p].dst ==> es[q].dst != es[p].src
  }

  predicate AllPositive(es: Debts) {
    forall i :: 0 <= i < |es| ==> es[i].value > 0.0
  }

  /** Some debt runs from `a` to `b`. */
  ghost predicate HasLink(es: Debts, a: Name, b: Name) {
    exists p :: 0 <= p < |es| && es[p].src == a && es[p].dst == b
  }

  /** Every debt of `t` joins a pair that some debt of `s` already joined. */
  ghost predicate LinksWithin(t: Debts, s: Debts) {
    forall i :: 0 <= i < |t| ==> HasLink(s, t[i].src, t[i].dst)
  }

  /** What a pass that invents no new pair of debtor and creditor keeps. */
  lemma LinksWithinKeeps(t: Debts, s: Debts, vs: seq<Name>)
    requires LinksWithin(t, s)
    ensures NoSelfLoops(s) ==> NoSelfLoops(t)
    ensures EndpointsIn(s, vs) ==> EndpointsIn(t, vs)
    ensures forall u :: NoOpposing(s, u) ==> NoOpposing(t, u)
  {
    forall u | NoOpposing(s, u) ensures NoOpposing(t, u) {
      forall p, q | 0 <= p < |t| && 0 <= q < |t| && t[p].src == u && t[q].src == t[p].dst
        ensures t[q].dst != u
      {
        assert HasLink(s, t[p].src, t[p].dst);
        assert HasLink(s, t[q].src, t[q].dst);
      }
    }
  }

  lemma LinksWithinTrans(r: Debts, t: Debts, s: Debts)
    requires LinksWithin(r, t) && LinksWithin(t, s)
    ensures LinksWithin(r, s)
  {
    forall i | 0 <= i < |r| ensures HasLink(s, r[i].src, r[i].dst) {
      var p :| 0 <= p < |t| && t[p].src == r[i].src && t[p].dst == r[i].dst;
      assert HasLink(s, t[p].src, t[p].dst);
    }
  }

  lemma LinksWithinDeleteAt(s: Debts, k: nat)
    requires k < |s|
    ensures LinksWithin(DeleteAt(s, k), s)
  {
    var t := DeleteAt(s, k);
    forall i | 0 <= i < |t| ensures HasLink(s, t[i].src, t[i].dst) {
      if i < k { assert t[i] == s[i]; } else { assert t[i] == s[i + 1]; }
    }
  }

  lemma LinksWithinSetValueAt(s: Debts, k: nat, x: real)
    requires k < |s|
    ensures LinksWithin(SetValueAt(s, k, x), s)
  {
    var t := SetValueAt(s, k, x);
    forall i | 0 <= i < |t| ensures HasLink(s, t[i].src, t[i].dst) {
      assert t[i].src == s[i].src && t[i].dst == s[i].dst;
    }
  }

  lemma LinksWithinRefl(s: Debts)
    ensures LinksWithin(s, s)
  {
    forall i | 0 <= i < |s| ensures HasLink(s, s[i].src, s[i].dst) {
    }
  }

  // ---------------------------------------------------------------------------
  // Pass 1: merge parallel debts

  /** The outgoing debts of `v` before position `j` have no later parallel debt. */
  predicate MergedBefore(es: Debts, v: Name, j: nat) {
    forall p, q :: 0 <= p < j && p < q < |es| && es[p].src == v && es[q].src == v ==> es[p].dst != es[q].dst
  }

  /** Folding debt `k` into the earlier parallel debt `j` of `v`. */
  function Merge(s: Debts, j: nat, k: nat): (t: Debts)
    requires j < k < |s|
    ensures |t| == |s| - 1
    ensures t[j] == Edge(s[j].src, s[j].dst, s[j].value + s[k].value)
    ensures forall i :: 0 <= i < k && i != j ==> t[i] == s[i]
    ensures forall i :: k <= i < |t| ==> t[i] == s[i + 1]
    ensures multiset(t) + multiset{s[j], s[k]} == multiset(s) + multiset{Edge(s[j].src, s[j].dst, s[j].value + s[k].value)}
  {
    var x := s[j].value + s[k].value;
    var m := SetValueAt(s, j, x);
    SetValueAtMultiset(s, j, x);
    assert m[k] == s[k];
    DeleteAtMultiset(m, k);
    DeleteAt(m, k)
  }

  /** A merge keeps every pair's total. */
  lemma MergeKeepsWeights(s: Debts, j: nat, k: nat)
    requires j < k < |s| && s[j].src == s[k].src && s[j].dst == s[k].dst
    ensures SameWeights(s, Merge(s, j, k))
  {
    var x := s[j].value + s[k].value;
    var m := SetValueAt(s, j, x);
    forall a, b ensures Weight(s, a, b) == Weight(Merge(s, j, k), a, b) {
      WeightSetValueAt(s, j, x, a, b);
      WeightDeleteAt(m, k, a, b);
    }
  }

  /** A merge only deletes a debt and changes an amount, so it adds no parallel debt. */
  lemma MergeKeepsNoParallel(s: Debts, j: nat, k: nat, u: Name)
    requires j < k < |s| && NoParallel(s, u)
    ensures NoParallel(Merge(s, j, k), u)
  {
    var t := Merge(s, j, k);
    forall p, q | 0 <= p < q < |t| && t[p].src == u && t[q].src == u ensures t[p].dst != t[q].dst {
      var p0 := if p < k then p else p + 1;
      var q0 := if q < k then q else q + 1;
      assert t[p].src == s[p0].src && t[p].dst == s[p0].dst;
      assert t[q].src == s[q0].src && t[q].dst == s[q0].dst;
    }
  }

  lemma MergeKeepsMergedBefore(s: Debts, j: nat, k: nat, v: Name)
    requires j < k < |s| && MergedBefore(s, v, j)
    ensures MergedBefore(Merge(s, j, k), v, j)
  {
    var t := Merge(s, j, k);
    forall p, q | 0 <= p < j && p < q < |t| && t[p].src == v && t[q].src == v ensures t[p].dst != t[q].dst {
      var q0 := if q < k then q else q + 1;
      assert t[p] == s[p];
      assert t[q].src == s[q0].src && t[q].dst == s[q0].dst;
    }
  }

  /** A merge keeps the shape facts the passes rely on. */
  lemma MergeKeepsShape(s: Debts, j: nat, k: nat, v: Name)
    requires j < k < |s| && s[j].src == v && s[k].src == v && s[j].dst == s[k].dst
    ensures forall u :: NoParallel(s, u) ==> NoParallel(Merge(s, j, k), u)
    ensures LinksWithin(Merge(s, j, k), s)
    ensures AllPositive(s) ==> AllPositive(Merge(s, j, k))
    ensures MergedBefore(s, v, j) ==> MergedBefore(Merge(s, j, k), v, j)
    ensures !NoParallel(s, v)
  {
    var x := s[j].value + s[k].value;
    var m := SetValueAt(s, j, x);
    var t := Merge(s, j, k);
    assert LinksWithin(t, s) by {
      LinksWithinSetValueAt(s, j, x);
      LinksWithinDeleteAt(m, k);
      LinksWithinTrans(t, m, s);
    }
    forall u | NoParallel(s, u) ensures NoParallel(t, u) {
      MergeKeepsNoParallel(s, j, k, u);
    }
    if MergedBefore(s, v, j) {
      MergeKeepsMergedBefore(s, j, k, v);
    }
  }

  /** What every step of pass 1 keeps: each pair's total, the absence of parallel
      debts, the pairs that owe anything at all, and positive amounts. */
  ghost predicate MergeKeeps(s: Debts, t: Debts) {
    && SameWeights(s, t)
    && (forall u :: NoParallel(s, u) ==> NoParallel(t, u))
    && LinksWithin(t, s)
    && (AllPositive(s) ==> AllPositive(t))
  }

  lemma MergeKeepsRefl(s: Debts)
    ensures MergeKeeps(s, s)
  {
    LinksWithinRefl(s);
  }

  lemma MergeKeepsTrans(r: Debts, s: Debts, t: Debts)
    requires MergeKeeps(r, s) && MergeKeeps(s, t)
    ensures MergeKeeps(r, t)
  {
    LinksWithinTrans(t, s, r);
  }

  lemma MergeStep(s: Debts, j: nat, k: nat, v: Name)
    requires j < k < |s| && s[j].src == v && s[k].src == v && s[j].dst == s[k].dst
    ensures MergeKeeps(s, Merge(s, j, k))
    ensures MergedBefore(s, v, j) ==> MergedBefore(Merge(s, j, k), v, j)
    ensures !NoParallel(s, v)
  {
    MergeKeepsWeights(s, j, k);
    MergeKeepsShape(s, j, k, v);
  }

  /** The state of the inner loop of pass 1 for debt `j` of `v`, scanned up to `k`,
      starting from the list `E0`. */
  ghost predicate FoldState(E0: Debts, es: Debts, v: Name, j: nat, k: nat) {
    && j < k <= |es| <= |E0|
    && es[j].src == v && es[j].dst == E0[j].dst
    && MergeKeeps(E0, es)
    && (NoParallel(E0, v) ==> es == E0)
    && (MergedBefore(E0, v, j) ==> MergedBefore(es, v, j))
    && (forall q :: j < q < k && es[q].src == v ==> es[q].dst != es[j].dst)
  }

  /** Folding the parallel debt `k` into `j` keeps the inner loop's state. */
  lemma FoldStep(E0: Debts, s: Debts, v: Name, j: nat, k: nat)
    requires FoldState(E0, s, v, j, k) && k < |s|
    requires s[k].src == v && s[k].dst == s[j].dst
    ensures FoldState(E0, Merge(s, j, k), v, j, k)
  {
    MergeStep(s, j, k, v);
    MergeKeepsTrans(E0, s, Merge(s, j, k));
  }

  /** Passing over a debt that is not parallel to `j` keeps the inner loop's state. */
  lemma FoldSkip(E0: Debts, s: Debts, v: Name, j: nat, k: nat)
    requires FoldState(E0, s, v, j, k) && k < |s|
    requires !(s[k].src == v && s[k].dst == s[j].dst)
    ensures FoldState(E0, s, v, j, k + 1)
  {
  }

  /** One merge of pass 1: debt `j` takes on the amount of debt `k` (`setValue`), then
      debt `k` is deleted from the graph (`deleteEdge`). */
  method MergeAt(g: Multigraph<Name, real>, j: nat, k: nat)
    requires j < k < |g.edges|
    modifies g
    ensures g.edges == Merge(old(g.edges), j, k)
    ensures g.vertexes == old(g.vertexes)
  {
    var current := g.edges[j].value;
    g.SetEdgeValue(j, current + g.edges[k].value);
    g.DeleteEdgeAt(k);
  }

  /** The inner loop of pass 1: every later outgoing debt of `v` to the creditor of debt
      `j` is added into `j` and deleted; the scan goes on with the debt after the deleted
      one, so the earlier debt `j` is the one that survives. */
  method FoldInto(g: Multigraph<Name, real>, v: Name, j: nat)
    requires j < |g.edges| && g.edges[j].src == v
    modifies g
    ensures g.vertexes == old(g.vertexes)
    ensures FoldState(old(g.edges), g.edges, v, j, |g.edges|)
  {
    ghost var E0 := g.edges;
    MergeKeepsRefl(E0);
    var k: nat := j + 1;
    while k < |g.edges|
      invariant g.vertexes == old(g.vertexes)
      invariant FoldState(E0, g.edges, v, j, k)
      decreases |g.edges| - k
    {
      if g.edges[k].dst == g.edges[j].dst && g.edges[k].src == v {
        ghost var s := g.edges;
        FoldStep(E0, s, v, j, k);
        MergeAt(g, j, k);
      } else {
        FoldSkip(E0, g.edges, v, j, k);
        k := k + 1;
      }
    }
  }

  /** Pass 1 for one vertex `v`: each outgoing debt of `v`, in order, absorbs the later
      outgoing debts of `v` to the same creditor. */
  method MergeParallel(g: Multigraph<Name, real>, v: Name)
    modifies g
    ensures g.vertexes == old(g.vertexes)
    ensures MergeKeeps(old(g.edges), g.edges)
    ensures NoParallel(g.edges, v)
    ensures NoParallel(old(g.edges), v) ==> g.edges == old(g.edges)
  {
    ghost var E0 := g.edges;
    MergeKeepsRefl(E0);
    var j := 0;
    while j < |g.edges|
      invariant j <= |g.edges|
      invariant g.vertexes == old(g.vertexes)
      invariant MergeKeeps(E0, g.edges)
      invariant NoParallel(E0, v) ==> g.edges == E0
      invariant MergedBefore(g.edges, v, j)
      decreases |g.edges| - j
    {
      if g.edges[j].src == v {
        ghost var s := g.edges;
        FoldInto(g, v, j);
        MergeKeepsTrans(E0, s, g.edges);
      }
      j := j + 1;
    }
  }

  /** The two readings of "no parallel debts" agree once every debtor is a vertex. */
  lemma NoParallelEverywhere(es: Debts, vs: seq<Name>)
    requires EndpointsIn(es, vs)
    requires forall i :: 0 <= i < |vs| ==> NoParallel(es, vs[i])
    ensures NoParallelAll(es)
  {
    forall p, q | 0 <= p < |es| && 0 <= q < |es| && p != q && es[p].src == es[q].src
      ensures es[p].dst != es[q].dst
    {
      var i :| 0 <= i < |vs| && vs[i] == es[p].src;
      assert NoParallel(es, vs[i]);
    }
  }

  /** Pass 1 over the whole graph: `MergeParallel` for every vertex, in vertex order. */
  method MergeAllParallel(g: Multigraph<Name, real>)
    requires EndpointsIn(g.edges, g.vertexes)
    modifies g
    ensures g.vertexes == old(g.vertexes)
    ensures MergeKeeps(old(g.edges), g.edges)
    ensures NoParallelAll(g.edges)
    ensures NoParallelAll(old(g.edges)) ==> g.edges == old(g.edges)
  {
    ghost var E0 := g.edges;
    MergeKeepsRefl(E0);
    var i := 0;
    while i < |g.vertexes|
      invariant i <= |g.vertexes|
      invariant g.vertexes == old(g.vertexes)
      invariant MergeKeeps(E0, g.edges)
      invariant NoParallelAll(E0) ==> g.edges == E0
      invariant forall k :: 0 <= k < i ==> NoParallel(g.edges, g.vertexes[k])
    {
      ghost var s := g.edges;
      MergeParallel(g, g.vertexes[i]);
      MergeKeepsTrans(E0, s, g.edges);
      i := i + 1;
    }
    LinksWithinKeeps(g.edges, E0, g.vertexes);
    NoParallelEverywhere(g.edges, g.vertexes);
  }

  // ---------------------------------------------------------------------------
  // Pass 2: cancel opposing debts

  /** The position of the first debt `a` -> `b`, or |es| when there is none: the
      `find_if` over the outgoing debts of `a` for one whose creditor is `b`. */
  function FindLink(es: Debts, a: Name, b: Name): (r: nat)
    ensures r <= |es|
    ensures r < |es| ==> es[r].src == a && es[r].dst == b
    ensures forall i :: 0 <= i < r ==> !(es[i].src == a && es[i].dst == b)
  {
    if es == [] then 0
    else if es[0].src == a && es[0].dst == b then 0
    else 1 + FindLink(es[1..], a, b)
  }

  /** What `a` owes `b` net: deleting a debt takes it off both directions' balance. */
  lemma BalanceDeleteAt(s: Debts, k: nat, a: Name, b: Name)
    requires k < |s|
    ensures Balance(DeleteAt(s, k), a, b) == Balance(s, a, b) - Contribution(s[k], a, b) + Contribution(s[k], b, a)
  {
    WeightDeleteAt(s, k, a, b);
    WeightDeleteAt(s, k, b, a);
  }

  lemma BalanceSetValueAt(s: Debts, k: nat, x: real, a: Name, b: Name)
    requires k < |s|
    ensures Balance(SetValueAt(s, k, x), a, b)
         == Balance(s, a, b) - Contribution(s[k], a, b) + Contribution(s[k].(value := x), a, b)
          + Contribution(s[k], b, a) - Contribution(s[k].(value := x), b, a)
  {
    WeightSetValueAt(s, k, x, a, b);
    WeightSetValueAt(s, k, x, b, a);
  }

  /** The outgoing debts of `v` before position `p` have no debt running back. */
  predicate Settled(es: Debts, v: Name, p: nat) {
    forall q, r :: 0 <= q < p && q < |es| && 0 <= r < |es| && es[q].src == v && es[r].src == es[q].dst ==> es[r].dst != v
  }

  lemma SettledDeleteAt(s: Debts, v: Name, p: nat, k: nat)
    requires k < |s| && p <= |s| && Settled(s, v, p)
    ensures Settled(DeleteAt(s, k), v, if k < p then p - 1 else p)
  {
    var t := DeleteAt(s, k);
    var p' := if k < p then p - 1 else p;
    forall q, r | 0 <= q < p' && q < |t| && 0 <= r < |t| && t[q].src == v && t[r].src == t[q].dst
      ensures t[r].dst != v
    {
      var q0 := if q < k then q else q + 1;
      var r0 := if r < k then r else r + 1;
      assert t[q] == s[q0] && t[r] == s[r0];
    }
  }

  lemma SettledSetValueAt(s: Debts, v: Name, p: nat, k: nat, x: real)
    requires k < |s| && Settled(s, v, p)
    ensures Settled(SetValueAt(s, k, x), v, p)
  {
    var t := SetValueAt(s, k, x);
    forall q, r | 0 <= q < p && q < |t| && 0 <= r < |t| && t[q].src == v && t[r].src == t[q].dst
      ensures t[r].dst != v
    {
      assert t[q].src == s[q].src && t[q].dst == s[q].dst;
      assert t[r].src == s[r].src && t[r].dst == s[r].dst;
    }
  }

  lemma NoParallelAllDeleteAt(s: Debts, k: nat)
    requires k < |s| && NoParallelAll(s)
    ensures NoParallelAll(DeleteAt(s, k))
  {
    var t := DeleteAt(s, k);
    forall p, q | 0 <= p < |t| && 0 <= q < |t| && p != q && t[p].src == t[q].src
      ensures t[p].dst != t[q].dst
    {
      var p0 := if p < k then p else p + 1;
      var q0 := if q < k then q else q + 1;
      assert t[p] == s[p0] && t[q] == s[q0];
    }
  }

  lemma NoParallelAllSetValueAt(s: Debts, k: nat, x: real)
    requires k < |s| && NoParallelAll(s)
    ensures NoParallelAll(SetValueAt(s, k, x))
  {
    var t := SetValueAt(s, k, x);
    forall p, q | 0 <= p < |t| && 0 <= q < |t| && p != q && t[p].src == t[q].src
      ensures t[p].dst != t[q].dst
    {
      assert t[p].src == s[p].src && t[p].dst == s[p].dst;
      assert t[q].src == s[q].src && t[q].dst == s[q].dst;
    }
  }

  /** With no parallel debts, deleting the debt `a` -> `b` leaves none. */
  lemma NoLinkAfterDelete(s: Debts, r: nat)
    requires r < |s| && NoParallelAll(s)
    ensures forall i :: 0 <= i < |DeleteAt(s, r)| ==> !(DeleteAt(s, r)[i].src == s[r].src && DeleteAt(s, r)[i].dst == s[r].dst)
  {
    var t := DeleteAt(s, r);
    forall i | 0 <= i < |t| ensures !(t[i].src == s[r].src && t[i].dst == s[r].dst) {
      if i < r { assert t[i] == s[i]; } else { assert t[i] == s[i + 1]; }
    }
  }

  /** Debt `p` (`v` -> `d`) is the larger: it keeps the difference and the debt back goes. */
  function CancelForward(s: Debts, p: nat, r: nat): (t: Debts)
    requires p < |s| && r < |s| && p != r
    ensures |t| == |s| - 1
    ensures t[if r < p then p - 1 else p] == Edge(s[p].src, s[p].dst, s[p].value - s[r].value)
    ensures multiset(t) + multiset{s[p], s[r]} == multiset(s) + multiset{Edge(s[p].src, s[p].dst, s[p].value - s[r].value)}
  {
    var m := SetValueAt(s, p, s[p].value - s[r].value);
    SetValueAtMultiset(s, p, s[p].value - s[r].value);
    DeleteAtMultiset(m, r);
    DeleteAt(m, r)
  }

  /** The debt back is the larger: it keeps the difference and debt `p` goes. */
  function CancelBackward(s: Debts, p: nat, r: nat): (t: Debts)
    requires p < |s| && r < |s| && p != r
    ensures |t| == |s| - 1
    ensures t[if p < r then r - 1 else r] == Edge(s[r].src, s[r].dst, s[r].value - s[p].value)
    ensures multiset(t) + multiset{s[p], s[r]} == multiset(s) + multiset{Edge(s[r].src, s[r].dst, s[r].value - s[p].value)}
  {
    var m := SetValueAt(s, r, s[r].value - s[p].value);
    SetValueAtMultiset(s, r, s[r].value - s[p].value);
    DeleteAtMultiset(m, p);
    DeleteAt(m, p)
  }

  /** The two debts are equal: both go, the debt back first. */
  function CancelBoth(s: Debts, p: nat, r: nat): (t: Debts)
    requires p < |s| && r < |s| && p != r
    ensures |t| == |s| - 2
    ensures multiset(t) + multiset{s[p], s[r]} == multiset(s)
  {
    var m := DeleteAt(s, r);
    var q := if r < p then p - 1 else p;
    DeleteAtMultiset(s, r);
    DeleteAtMultiset(m, q);
    DeleteAt(m, q)
  }

  /** The state of pass 2 for `v`, scanned up to `p`, starting from the list `E0`. */
  ghost predicate CancelState(E0: Debts, es: Debts, v: Name, p: nat) {
    && p <= |es|
    && SameBalances(E0, es)
    && NoParallelAll(es)
    && NoSelfLoops(es)
    && LinksWithin(es, E0)
    && (AllPositive(E0) ==> AllPositive(es))
    && (NoOpposing(E0, v) ==> es == E0)
    && Settled(es, v, p)
  }

  lemma CancelSkip(E0: Debts, s: Debts, v: Name, p: nat)
    requires CancelState(E0, s, v, p) && p < |s|
    requires s[p].src == v ==> FindLink(s, s[p].dst, v) == |s|
    ensures CancelState(E0, s, v, p + 1)
  {
  }

  /** Setting a debt against the debt running back keeps every pair's balance. */
  lemma CancelForwardBalances(s: Debts, p: nat, r: nat)
    requires p < |s| && r < |s| && p != r
    requires s[r].src == s[p].dst && s[r].dst == s[p].src
    ensures SameBalances(s, CancelForward(s, p, r))
  {
    var m := SetValueAt(s, p, s[p].value - s[r].value);
    forall a, b ensures Balance(s, a, b) == Balance(CancelForward(s, p, r), a, b) {
      BalanceSetValueAt(s, p, s[p].value - s[r].value, a, b);
      BalanceDeleteAt(m, r, a, b);
    }
  }

  lemma CancelBackwardBalances(s: Debts, p: nat, r: nat)
    requires p < |s| && r < |s| && p != r
    requires s[r].src == s[p].dst && s[r].dst == s[p].src
    ensures SameBalances(s, CancelBackward(s, p, r))
  {
    var m := SetValueAt(s, r, s[r].value - s[p].value);
    forall a, b ensures Balance(s, a, b) == Balance(CancelBackward(s, p, r), a, b) {
      BalanceSetValueAt(s, r, s[r].value - s[p].value, a, b);
      BalanceDeleteAt(m, p, a, b);
    }
  }

  lemma CancelBothBalances(s: Debts, p: nat, r: nat)
    requires p < |s| && r < |s| && p != r
    requires s[r].src == s[p].dst && s[r].dst == s[p].src && s[p].value == s[r].value
    ensures SameBalances(s, CancelBoth(s, p, r))
  {
    var m := DeleteAt(s, r);
    var p' := if r < p then p - 1 else p;
    assert m[p'] == s[p];
    forall a, b ensures Balance(s, a, b) == Balance(CancelBoth(s, p, r), a, b) {
      BalanceDeleteAt(s, r, a, b);
      BalanceDeleteAt(m, p', a, b);
    }
  }

  /** Deleting one debt and changing the amount of another keeps the shape facts. */
  lemma SetDeleteKeeps(s: Debts, k: nat, x: real, d: nat)
    requires k < |s| && d < |s| && NoParallelAll(s)
    ensures LinksWithin(DeleteAt(SetValueAt(s, k, x), d), s)
    ensures NoParallelAll(DeleteAt(SetValueAt(s, k, x), d))
    ensures NoSelfLoops(s) ==> NoSelfLoops(DeleteAt(SetValueAt(s, k, x), d))
    ensures AllPositive(s) && x > 0.0 ==> AllPositive(DeleteAt(SetValueAt(s, k, x), d))
  {
    var m := SetValueAt(s, k, x);
    var t := DeleteAt(m, d);
    LinksWithinSetValueAt(s, k, x);
    LinksWithinDeleteAt(m, d);
    LinksWithinTrans(t, m, s);
    LinksWithinKeeps(t, s, []);
    NoParallelAllSetValueAt(s, k, x);
    NoParallelAllDeleteAt(m, d);
  }

  lemma DeleteDeleteKeeps(s: Debts, k: nat, d: nat)
    requires k < |s| && d < |s| - 1 && NoParallelAll(s)
    ensures LinksWithin(DeleteAt(DeleteAt(s, k), d), s)
    ensures NoParallelAll(DeleteAt(DeleteAt(s, k), d))
    ensures NoSelfLoops(s) ==> NoSelfLoops(DeleteAt(DeleteAt(s, k), d))
    ensures AllPositive(s) ==> AllPositive(DeleteAt(DeleteAt(s, k), d))
  {
    var m := DeleteAt(s, k);
    var t := DeleteAt(m, d);
    LinksWithinDeleteAt(s, k);
    LinksWithinDeleteAt(m, d);
    LinksWithinTrans(t, m, s);
    LinksWithinKeeps(t, s, []);
    NoParallelAllDeleteAt(s, k);
    NoParallelAllDeleteAt(m, d);
  }

  /** Each way of cancelling invents no pair, keeps pairs unique and loops absent, and
      leaves only positive amounts when the debts were positive. */
  lemma CancelForwardShape(s: Debts, p: nat, r: nat)
    requires p < |s| && r < |s| && p != r && NoParallelAll(s) && s[p].value > s[r].value
    ensures LinksWithin(CancelForward(s, p, r), s) && NoParallelAll(CancelForward(s, p, r))
    ensures NoSelfLoops(s) ==> NoSelfLoops(CancelForward(s, p, r))
    ensures AllPositive(s) ==> AllPositive(CancelForward(s, p, r))
  {
    var x := s[p].value - s[r].value;
    SetDeleteKeeps(s, p, x, r);
    assert CancelForward(s, p, r) == DeleteAt(SetValueAt(s, p, x), r);
  }

  lemma CancelBackwardShape(s: Debts, p: nat, r: nat)
    requires p < |s| && r < |s| && p != r && NoParallelAll(s) && s[p].value < s[r].value
    ensures LinksWithin(CancelBackward(s, p, r), s) && NoParallelAll(CancelBackward(s, p, r))
    ensures NoSelfLoops(s) ==> NoSelfLoops(CancelBackward(s, p, r))
    ensures AllPositive(s) ==> AllPositive(CancelBackward(s, p, r))
  {
    var y := s[r].value - s[p].value;
    SetDeleteKeeps(s, r, y, p);
    assert CancelBackward(s, p, r) == DeleteAt(SetValueAt(s, r, y), p);
  }

  lemma CancelBothShape(s: Debts, p: nat, r: nat)
    requires p < |s| && r < |s| && p != r && NoParallelAll(s)
    ensures LinksWithin(CancelBoth(s, p, r), s) && NoParallelAll(CancelBoth(s, p, r))
    ensures NoSelfLoops(s) ==> NoSelfLoops(CancelBoth(s, p, r))
    ensures AllPositive(s) ==> AllPositive(CancelBoth(s, p, r))
  {
    DeleteDeleteKeeps(s, r, if r < p then p - 1 else p);
  }

  /** A debt of `v` with a debt running back is a witness against `NoOpposing`. */
  lemma LinkOpposes(s: Debts, v: Name, p: nat, r: nat)
    requires p < |s| && r < |s| && s[p].src == v && s[r].src == s[p].dst && s[r].dst == v
    ensures !NoOpposing(s, v)
  {
  }

  lemma CancelForwardStep(E0: Debts, s: Debts, v: Name, p: nat, r: nat)
    requires CancelState(E0, s, v, p) && p < |s| && s[p].src == v
    requires r == FindLink(s, s[p].dst, v) && r < |s|
    requires s[p].value > s[r].value
    ensures CancelState(E0, CancelForward(s, p, r), v, (if r < p then p - 1 else p) + 1)
  {
    var x := s[p].value - s[r].value;
    var m := SetValueAt(s, p, x);
    var t := CancelForward(s, p, r);
    var p' := if r < p then p - 1 else p;
    assert SameBalances(E0, t) by {
      CancelForwardBalances(s, p, r);
      SameBalancesTrans(E0, s, t);
    }
    assert !NoOpposing(E0, v) by {
      LinkOpposes(s, v, p, r);
    }
    assert NoParallelAll(t) && NoSelfLoops(t) && LinksWithin(t, E0) && (AllPositive(E0) ==> AllPositive(t)) by {
      CancelForwardShape(s, p, r);
      LinksWithinTrans(t, s, E0);
    }
    assert Settled(t, v, p' + 1) by {
      SettledSetValueAt(s, v, p, p, x);
      SettledDeleteAt(m, v, p, r);
      NoParallelAllSetValueAt(s, p, x);
      NoLinkAfterDelete(m, r);
      assert t[p'] == m[p];
    }
  }

  lemma CancelBackwardStep(E0: Debts, s: Debts, v: Name, p: nat, r: nat)
    requires CancelState(E0, s, v, p) && p < |s| && s[p].src == v
    requires r == FindLink(s, s[p].dst, v) && r < |s|
    requires s[p].value < s[r].value
    ensures CancelState(E0, CancelBackward(s, p, r), v, p)
  {
    var y := s[r].value - s[p].value;
    var m := SetValueAt(s, r, y);
    var t := CancelBackward(s, p, r);
    assert SameBalances(E0, t) by {
      CancelBackwardBalances(s, p, r);
      SameBalancesTrans(E0, s, t);
    }
    assert !NoOpposing(E0, v) by {
      LinkOpposes(s, v, p, r);
    }
    assert NoParallelAll(t) && NoSelfLoops(t) && LinksWithin(t, E0) && (AllPositive(E0) ==> AllPositive(t)) by {
      CancelBackwardShape(s, p, r);
      LinksWithinTrans(t, s, E0);
    }
    assert Settled(t, v, p) by {
      SettledSetValueAt(s, v, p, r, y);
      SettledDeleteAt(m, v, p, p);
    }
  }

  lemma CancelBothStep(E0: Debts, s: Debts, v: Name, p: nat, r: nat)
    requires CancelState(E0, s, v, p) && p < |s| && s[p].src == v
    requires r == FindLink(s, s[p].dst, v) && r < |s|
    requires s[p].value == s[r].value
    ensures CancelState(E0, CancelBoth(s, p, r), v, if r < p then p - 1 else p)
  {
    var m := DeleteAt(s, r);
    var p' := if r < p then p - 1 else p;
    var t := CancelBoth(s, p, r);
    assert SameBalances(E0, t) by {
      CancelBothBalances(s, p, r);
      SameBalancesTrans(E0, s, t);
    }
    assert !NoOpposing(E0, v) by {
      LinkOpposes(s, v, p, r);
    }
    assert NoParallelAll(t) && NoSelfLoops(t) && LinksWithin(t, E0) && (AllPositive(E0) ==> AllPositive(t)) by {
      CancelBothShape(s, p, r);
      LinksWithinTrans(t, s, E0);
    }
    assert Settled(t, v, p') by {
      SettledDeleteAt(s, v, p, r);
      SettledDeleteAt(m, v, p', p');
    }
  }

  /** `j->setValue(outgoing - incoming)`, then `deleteEdge(reverseEdge)`. */
  method CancelForwardAt(g: Multigraph<Name, real>, p: nat, r: nat)
    requires p < |g.edges| && r < |g.edges| && p != r
    modifies g
    ensures g.edges == CancelForward(old(g.edges), p, r)
    ensures g.vertexes == old(g.vertexes)
  {
    var outgoing := g.edges[p].value;
    var incoming := g.edges[r].value;
    g.SetEdgeValue(p, outgoing - incoming);
    g.DeleteEdgeAt(r);
  }

  /** `reverseEdge->setValue(incoming - outgoing)`, then `deleteEdge(j)`. */
  method CancelBackwardAt(g: Multigraph<Name, real>, p: nat, r: nat)
    requires p < |g.edges| && r < |g.edges| && p != r
    modifies g
    ensures g.edges == CancelBackward(old(g.edges), p, r)
    ensures g.vertexes == old(g.vertexes)
  {
    var outgoing := g.edges[p].value;
    var incoming := g.edges[r].value;
    g.SetEdgeValue(r, incoming - outgoing);
    g.DeleteEdgeAt(p);
  }

  /** `deleteEdge(reverseEdge)`, then `deleteEdge(j)`. */
  method CancelBothAt(g: Multigraph<Name, real>, p: nat, r: nat)
    requires p < |g.edges| && r < |g.edges| && p != r
    modifies g
    ensures g.edges == CancelBoth(old(g.edges), p, r)
    ensures g.vertexes == old(g.vertexes)
  {
    g.DeleteEdgeAt(r);
    g.DeleteEdgeAt(if r < p then p - 1 else p);
  }

  /** One step of pass 2 at position `p`: the debt there, if it is one of `v`'s and has a
      debt running back, is cancelled against it; the result is where the scan goes on. */
  method CancelAt(g: Multigraph<Name, real>, v: Name, p: nat, ghost E0: Debts) returns (next: nat)
    requires CancelState(E0, g.edges, v, p) && p < |g.edges|
    modifies g
    ensures g.vertexes == old(g.vertexes)
    ensures CancelState(E0, g.edges, v, next)
    ensures |g.edges| - next < old(|g.edges|) - p
  {
    ghost var es := g.edges;
    var r := if g.edges[p].src == v then FindLink(g.edges, g.edges[p].dst, v) else |g.edges|;
    if r == |g.edges| {
      CancelSkip(E0, es, v, p);
      next := p + 1;
    } else if g.edges[p].value > g.edges[r].value {
      next := (if r < p then p - 1 else p) + 1;
      CancelForwardStep(E0, es, v, p, r);
      CancelForwardAt(g, p, r);
    } else if g.edges[p].value < g.edges[r].value {
      next := p;
      CancelBackwardStep(E0, es, v, p, r);
      CancelBackwardAt(g, p, r);
    } else {
      next := if r < p then p - 1 else p;
      CancelBothStep(E0, es, v, p, r);
      CancelBothAt(g, p, r);
    }
  }

  /** Pass 2 for one vertex `v`: each outgoing debt of `v`, in order, is set against the
      first debt running back from its creditor; the larger keeps the difference and the
      other is deleted, or both go when they are equal. */
  method CancelOpposing(g: Multigraph<Name, real>, v: Name)
    requires NoParallelAll(g.edges) && NoSelfLoops(g.edges)
    modifies g
    ensures g.vertexes == old(g.vertexes)
    ensures CancelState(old(g.edges), g.edges, v, |g.edges|)
  {
    ghost var E0 := g.edges;
    LinksWithinRefl(E0);
    var p: nat := 0;
    while p < |g.edges|
      invariant g.vertexes == old(g.vertexes)
      invariant CancelState(E0, g.edges, v, p)
      decreases |g.edges| - p
    {
      p := CancelAt(g, v, p, E0);
    }
  }

  lemma NoOpposingEverywhere(es: Debts, vs: seq<Name>)
    requires EndpointsIn(es, vs)
    requires forall i :: 0 <= i < |vs| ==> NoOpposing(es, vs[i])
    ensures NoOpposingAll(es)
  {
    forall p, q | 0 <= p < |es| && 0 <= q < |es| && es[q].src == es[p].dst
      ensures es[q].dst != es[p].src
    {
      var i :| 0 <= i < |vs| && vs[i] == es[p].src;
      assert NoOpposing(es, vs[i]);
    }
  }

  /** What pass 2 keeps over the whole graph, from the list `E0` it started on. */
  ghost predicate CancelAllState(E0: Debts, es: Debts, vs: seq<Name>, i: nat) {
    && i <= |vs|
    && SameBalances(E0, es)
    && NoParallelAll(es)
    && NoSelfLoops(es)
    && LinksWithin(es, E0)
    && (AllPositive(E0) ==> AllPositive(es))
    && (NoOpposingAll(E0) ==> es == E0)
    && (forall k :: 0 <= k < i ==> NoOpposing(es, vs[k]))
  }

  /** Cancelling at vertex `vs[i]` moves the whole-graph state of pass 2 one vertex on. */
  lemma CancelAllStep(E0: Debts, s: Debts, t: Debts, vs: seq<Name>, i: nat)
    requires CancelAllState(E0, s, vs, i) && i < |vs|
    requires CancelState(s, t, vs[i], |t|)
    ensures CancelAllState(E0, t, vs, i + 1)
  {
    SameBalancesTrans(E0, s, t);
    LinksWithinTrans(t, s, E0);
    LinksWithinKeeps(t, s, vs);
    if NoOpposingAll(E0) {
      assert NoOpposing(s, vs[i]);
    }
  }

  /** Pass 2 over the whole graph: `CancelOpposing` for every vertex, in vertex order. */
  method CancelAllOpposing(g: Multigraph<Name, real>)
    requires EndpointsIn(g.edges, g.vertexes) && NoParallelAll(g.edges) && NoSelfLoops(g.edges)
    modifies g
    ensures g.vertexes == old(g.vertexes)
    ensures CancelAllState(old(g.edges), g.edges, g.vertexes, |g.vertexes|)
  {
    ghost var E0 := g.edges;
    LinksWithinRefl(E0);
    var i := 0;
    while i < |g.vertexes|
      invariant g.vertexes == old(g.vertexes)
      invariant CancelAllState(E0, g.edges, g.vertexes, i)
    {
      ghost var s := g.edges;
      CancelOpposing(g, g.vertexes[i]);
      CancelAllStep(E0, s, g.edges, g.vertexes, i);
      i := i + 1;
    }
  }

  /** `actionReduseEdges`: pass 1 then pass 2 over the whole graph. Every pair keeps its
      net balance; afterwards nobody owes anybody through two debts, and no pair owes in
      both directions; no new pair of debtor and creditor appears; positive amounts stay
      positive; and a graph already in that form is left as it is. */
  method ReduceEdges(g: Multigraph<Name, real>)
    requires EndpointsIn(g.edges, g.vertexes) && NoSelfLoops(g.edges)
    modifies g
    ensures g.vertexes == old(g.vertexes)
    ensures SameBalances(old(g.edges), g.edges)
    ensures NoParallelAll(g.edges) && NoOpposingAll(g.edges)
    ensures LinksWithin(g.edges, old(g.edges))
    ensures AllPositive(old(g.edges)) ==> AllPositive(g.edges)
    ensures NoParallelAll(old(g.edges)) && NoOpposingAll(old(g.edges)) ==> g.edges == old(g.edges)
  {
    ghost var E0 := g.edges;
    MergeAllParallel(g);
    ghost var E1 := g.edges;
    LinksWithinKeeps(E1, E0, g.vertexes);
    CancelAllOpposing(g);
    LinksWithinKeeps(g.edges, E1, g.vertexes);
    NoOpposingEverywhere(g.edges, g.vertexes);
    SameWeightsBalances(E0, E1);
    SameBalancesTrans(E0, E1, g.edges);
    LinksWithinTrans(g.edges, E1, E0);
  }

  lemma SameWeightsBalances(s: Debts, t: Debts)
    requires SameWeights(s, t)
    ensures SameBalances(s, t)
  {
    forall a, b ensures Balance(s, a, b) == Balance(t, a, b) {
      assert Weight(s, a, b) == Weight(t, a, b) && Weight(s, b, a) == Weight(t, b, a);
    }
  }

  /** Running the reduction a second time changes nothing: `once` is the debt list after
      the first run. */
  method ReduceTwice(g: Multigraph<Name, real>) returns (once: Debts)
    requires EndpointsIn(g.edges, g.vertexes) && NoSelfLoops(g.edges)
    modifies g
    ensures NoParallelAll(once) && NoOpposingAll(once) && SameBalances(old(g.edges), once)
    ensures g.edges == once
    ensures SameBalances(old(g.edges), g.edges)
  {
    ReduceEdges(g);
    once := g.edges;
    LinksWithinKeeps(g.edges, old(g.edges), g.vertexes);
    ReduceEdges(g);
    SameBalancesTrans(old(g.edges), once, g.edges);
  }
}
