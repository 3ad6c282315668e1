/** The text forms of the multigraph in src/multigraph.h: the stream writer `operator<<`,
    the stream reader `operator>>`, and the Graphviz text of `generateDotText`.

    How a vertex value or an amount is written and read (`ostream << x`, `istream >> x`)
    is a parameter: `showV`/`showE` give its text, `parseV`/`parseE` read one token. An
    input stream is the sequence of its whitespace-delimited tokens; once an extraction
    fails the stream is in a failed state and every later extraction fails too, which the
    model shows as an empty remainder. An extraction from an empty or failed stream leaves
    its variable as it was; one whose token does not convert stores what the conversion
    stores. */
module GraphText {

  import opened Errors
  import opened Text
  import opened EdgeList
  import opened Graph

  // ---------------------------------------------------------------------------
  // Writer

  /** The tokens of the edges: source, destination and amount of each, in order. */
  function EdgeTokens<V, E>(es: seq<Edge<V, E>>, showV: V -> string, showE: E -> string): (r: seq<string>)
    ensures |r| == 3 * |es|
  {
    if es == [] then []
    else [showV(es[0].src), showV(es[0].dst), showE(es[0].value)] + EdgeTokens(es[1..], showV, showE)
  }

  /** Edge `i` is written at tokens 3i, 3i+1 and 3i+2 of the edge part. */
  lemma {:induction false} EdgeTokensAt<V, E>(es: seq<Edge<V, E>>, showV: V -> string, showE: E -> string, i: nat)
    requires i < |es|
    ensures EdgeTokens(es, showV, showE)[3 * i] == showV(es[i].src)
    ensures EdgeTokens(es, showV, showE)[3 * i + 1] == showV(es[i].dst)
    ensures EdgeTokens(es, showV, showE)[3 * i + 2] == showE(es[i].value)
  {
    if i > 0 {
      EdgeTokensAt(es[1..], showV, showE, i - 1);
    }
  }

  /** Every line `operator<<` writes, in order: the vertex count, each vertex, the edge
      count, then source, destination and amount of each edge. */
  function Encode<V, E>(vs: seq<V>, es: seq<Edge<V, E>>, showV: V -> string, showE: E -> string): (r: seq<string>)
    ensures |r| == 2 + |vs| + 3 * |es|
    ensures r[0] == NatToString(|vs|)
    ensures forall i :: 0 <= i < |vs| ==> r[1 + i] == showV(vs[i])
    ensures r[1 + |vs|] == NatToString(|es|)
    ensures r[2 + |vs|..] == EdgeTokens(es, showV, showE)
  {
    [NatToString(|vs|)] + Map(vs, showV) + [NatToString(|es|)] + EdgeTokens(es, showV, showE)
  }

  /** Where each part of the graph sits in the written lines. */
  lemma EncodeLayout<V, E>(vs: seq<V>, es: seq<Edge<V, E>>, showV: V -> string, showE: E -> string, i: nat)
    requires i < |es|
    ensures Encode(vs, es, showV, showE)[2 + |vs| + 3 * i] == showV(es[i].src)
    ensures Encode(vs, es, showV, showE)[3 + |vs| + 3 * i] == showV(es[i].dst)
    ensures Encode(vs, es, showV, showE)[4 + |vs| + 3 * i] == showE(es[i].value)
  {
    var r := Encode(vs, es, showV, showE);
    var et := r[2 + |vs|..];
    EdgeTokensAt(es, showV, showE, i);
    assert r[2 + |vs| + 3 * i] == et[3 * i];
    assert r[3 + |vs| + 3 * i] == et[3 * i + 1];
    assert r[4 + |vs| + 3 * i] == et[3 * i + 2];
  }

  function Map<V>(vs: seq<V>, f: V -> string): (r: seq<string>)
    ensures |r| == |vs|
    ensures forall i :: 0 <= i < |vs| ==> r[i] == f(vs[i])
  {
    if vs == [] then [] else [f(vs[0])] + Map(vs[1..], f)
  }

  /** `os << graph`: each token of `Encode` followed by a newline. */
  function Serialize<V, E>(g: Multigraph<V, E>, showV: V -> string, showE: E -> string): (r: string)
    reads g
    ensures (forall i :: 0 <= i < |Encode(g.vertexes, g.edges, showV, showE)| ==> IsWord(Encode(g.vertexes, g.edges, showV, showE)[i]))
            ==> Tokens(r) == Encode(g.vertexes, g.edges, showV, showE)
  {
    var ts := Encode(g.vertexes, g.edges, showV, showE);
    LinesOfWords(ts);
    Lines(ts)
  }

  /** Lines of words split back into those words; other lines promise nothing. */
  lemma LinesOfWords(ts: seq<string>)
    ensures (forall i :: 0 <= i < |ts| ==> IsWord(ts[i])) ==> Tokens(Lines(ts)) == ts
  {
    if forall i :: 0 <= i < |ts| ==> IsWord(ts[i]) {
      TokensOfLines(ts);
    }
  }

  // ---------------------------------------------------------------------------
  // Reader, as specification functions over the token stream

  /** A value read and the stream after it. */
  datatype Read<T> = Read(value: T, rest: seq<string>)

  /** `is >> x` where `x` held `prev`. On an empty or failed stream nothing is stored. A
      token that converts is stored and consumed; a token that does not fails the stream
      and stores what the conversion stores (0 for a number), or nothing. */
  function ReadItem<T>(ts: seq<string>, parse: string -> Conversion<T>, prev: T): (r: Read<T>)
    ensures |r.rest| < |ts| || r.rest == []
    ensures ts == [] ==> r == Read(prev, [])
    ensures ts != [] && parse(ts[0]).Converted? ==> r == Read(parse(ts[0]).value, ts[1..])
    ensures ts != [] && parse(ts[0]).Rejected? && parse(ts[0]).stored.Some? ==> r == Read(parse(ts[0]).stored.value, [])
    ensures ts != [] && parse(ts[0]).Rejected? && parse(ts[0]).stored.None? ==> r == Read(prev, [])
  {
    if ts == [] then Read(prev, [])
    else match parse(ts[0])
      case Converted(x) => Read(x, ts[1..])
      case Rejected(Some(z)) => Read(z, [])
      case Rejected(None) => Read(prev, [])
  }

  /** `is >> count` for a `size_t` count that held `prev`: whatever a token gives is a
      `size_t` value, and an empty or failed stream leaves `prev` in place. */
  function ReadCount(ts: seq<string>, prev: nat): (r: Read<nat>)
    ensures ts == [] ==> r == Read(prev, [])
    ensures ts != [] ==> r.value < SizeModulus
    ensures ts != [] && ParseSize(ts[0]).Converted? ==> r == Read(ParseSize(ts[0]).value, ts[1..])
  {
    ReadItem(ts, ParseSize, prev)
  }

  /** What the vertex loop pushes: `n` times, read into `obj` and push `obj`. */
  datatype VertexPass<V> = VertexPass(pushed: seq<V>, obj: V, rest: seq<string>)

  function ReadVertices<V>(ts: seq<string>, n: nat, parseV: string -> Conversion<V>, obj: V): (r: VertexPass<V>)
    ensures |r.pushed| == n
    decreases n
  {
    if n == 0 then VertexPass([], obj, ts)
    else
      var x := ReadItem(ts, parseV, obj);
      var tail := ReadVertices(x.rest, n - 1, parseV, x.value);
      VertexPass([x.value] + tail.pushed, tail.obj, tail.rest)
  }

  /** What the edge loop pushes: `n` times, read `obj`, `obj2` and `valueObj` and push the
      edge they make. */
  function ReadEdges<V, E>(ts: seq<string>, n: nat, parseV: string -> Conversion<V>, parseE: string -> Conversion<E>,
                           obj: V, obj2: V, valueObj: E): (r: seq<Edge<V, E>>)
    ensures |r| == n
    decreases n
  {
    if n == 0 then []
    else
      var a := ReadItem(ts, parseV, obj);
      var b := ReadItem(a.rest, parseV, obj2);
      var c := ReadItem(b.rest, parseE, valueObj);
      [Edge(a.value, b.value, c.value)] + ReadEdges(c.rest, n - 1, parseV, parseE, a.value, b.value, c.value)
  }

  /** What `is >> graph` appends: the vertices, then the edges. `blankV`/`blankE` are the
      default-constructed values the local variables start with; `vertexesSize` and
      `edgesSize` are whatever the uninitialised counts hold before they are read. */
  datatype Decoded<V, E> = Decoded(vertexes: seq<V>, edges: seq<Edge<V, E>>)

  function Decode<V, E>(input: string, parseV: string -> Conversion<V>, parseE: string -> Conversion<E>,
                        blankV: V, blankE: E, vertexesSize: nat, edgesSize: nat): (r: Decoded<V, E>)
    ensures |r.vertexes| == ReadCount(Tokens(input), vertexesSize).value
  {
    var nv := ReadCount(Tokens(input), vertexesSize);
    var vp := ReadVertices(nv.rest, nv.value, parseV, blankV);
    var ne := ReadCount(vp.rest, edgesSize);
    Decoded(vp.pushed, ReadEdges(ne.rest, ne.value, parseV, parseE, vp.obj, blankV, blankE))
  }

  /** The reader with both counts starting at 0: a stream that holds no count appends
      nothing. */
  function DecodeZeroed<V, E>(input: string, parseV: string -> Conversion<V>, parseE: string -> Conversion<E>,
                              blankV: V, blankE: E): (r: Decoded<V, E>)
    ensures Tokens(input) == [] ==> r == Decoded([], [])
  {
    Decode(input, parseV, parseE, blankV, blankE, 0, 0)
  }

  /** On an empty stream every read fails and stores nothing: the vertex loop pushes the
      blank value as many times as the uninitialised count says, and the edge loop does
      the same. */
  lemma {:induction false} EmptyInputRepeatsBlank<V, E>(parseV: string -> Conversion<V>, parseE: string -> Conversion<E>,
                                                        blankV: V, blankE: E, vertexesSize: nat, edgesSize: nat)
    ensures Decode("", parseV, parseE, blankV, blankE, vertexesSize, edgesSize)
         == Decoded(seq(vertexesSize, _ => blankV), seq(edgesSize, _ => Edge(blankV, blankV, blankE)))
  {
    assert Tokens("") == [];
    ReadVerticesOfEmpty(vertexesSize, parseV, blankV);
    ReadEdgesOfEmpty(edgesSize, parseV, parseE, blankV, blankE);
  }

  lemma {:induction false} ReadVerticesOfEmpty<V>(n: nat, parseV: string -> Conversion<V>, obj: V)
    ensures ReadVertices([], n, parseV, obj) == VertexPass(seq(n, _ => obj), obj, [])
  {
    if n > 0 {
      ReadVerticesOfEmpty(n - 1, parseV, obj);
      assert seq(n, _ => obj) == [obj] + seq(n - 1, _ => obj);
    }
  }

  lemma {:induction false} ReadEdgesOfEmpty<V, E>(n: nat, parseV: string -> Conversion<V>, parseE: string -> Conversion<E>,
                                                  obj: V, valueObj: E)
    ensures ReadEdges([], n, parseV, parseE, obj, obj, valueObj) == seq(n, _ => Edge(obj, obj, valueObj))
  {
    if n > 0 {
      ReadEdgesOfEmpty(n - 1, parseV, parseE, obj, valueObj);
      assert seq(n, _ => Edge(obj, obj, valueObj)) == [Edge(obj, obj, valueObj)] + seq(n - 1, _ => Edge(obj, obj, valueObj));
    }
  }

  // ---------------------------------------------------------------------------
  // Round trip

  /** The writer and the reader agree on a value: reading its text gives it back, and its
      text is one token. */
  ghost predicate Codec<T>(x: T, show: T -> string, parse: string -> Conversion<T>) {
    IsWord(show(x)) && parse(show(x)) == Converted(x)
  }

  lemma {:induction false} ReadVerticesOfEncoding<V>(vs: seq<V>, rest: seq<string>, showV: V -> string,
                                                     parseV: string -> Conversion<V>, obj: V)
    requires forall i :: 0 <= i < |vs| ==> Codec(vs[i], showV, parseV)
    ensures ReadVertices(Map(vs, showV) + rest, |vs|, parseV, obj).pushed == vs
    ensures ReadVertices(Map(vs, showV) + rest, |vs|, parseV, obj).rest == rest
    ensures vs != [] ==> ReadVertices(Map(vs, showV) + rest, |vs|, parseV, obj).obj == vs[|vs| - 1]
    ensures vs == [] ==> ReadVertices(Map(vs, showV) + rest, |vs|, parseV, obj).obj == obj
  {
    if vs != [] {
      var ts := Map(vs, showV) + rest;
      assert ts[0] == showV(vs[0]) && Codec(vs[0], showV, parseV);
      assert ts[1..] == Map(vs[1..], showV) + rest;
      var x := ReadItem(ts, parseV, obj);
      assert x == Read(vs[0], Map(vs[1..], showV) + rest);
      ReadVerticesOfEncoding(vs[1..], rest, showV, parseV, vs[0]);
      var tail := ReadVertices(x.rest, |vs| - 1, parseV, x.value);
      assert ReadVertices(ts, |vs|, parseV, obj) == VertexPass([vs[0]] + tail.pushed, tail.obj, tail.rest);
      assert [vs[0]] + vs[1..] == vs;
    } else {
      assert Map(vs, showV) + rest == rest;
    }
  }

  lemma {:induction false} ReadEdgesOfEncoding<V, E>(es: seq<Edge<V, E>>, showV: V -> string, showE: E -> string,
                                                     parseV: string -> Conversion<V>, parseE: string -> Conversion<E>,
                                                     obj: V, obj2: V, valueObj: E)
    requires forall i :: 0 <= i < |es| ==>
      Codec(es[i].src, showV, parseV) && Codec(es[i].dst, showV, parseV) && Codec(es[i].value, showE, parseE)
    ensures ReadEdges(EdgeTokens(es, showV, showE), |es|, parseV, parseE, obj, obj2, valueObj) == es
  {
    if es != [] {
      var ts := EdgeTokens(es, showV, showE);
      var e := es[0];
      assert Codec(e.src, showV, parseV) && Codec(e.dst, showV, parseV) && Codec(e.value, showE, parseE);
      assert ts[3..] == EdgeTokens(es[1..], showV, showE);
      ReadEdgesOfEncoding(es[1..], showV, showE, parseV, parseE, e.src, e.dst, e.value);
    }
  }

  /** Every written line is one token when every value is. */
  lemma EncodeWords<V, E>(vs: seq<V>, es: seq<Edge<V, E>>, showV: V -> string, showE: E -> string,
                          parseV: string -> Conversion<V>, parseE: string -> Conversion<E>)
    requires forall i :: 0 <= i < |vs| ==> Codec(vs[i], showV, parseV)
    requires forall i :: 0 <= i < |es| ==>
      Codec(es[i].src, showV, parseV) && Codec(es[i].dst, showV, parseV) && Codec(es[i].value, showE, parseE)
    ensures forall i :: 0 <= i < |Encode(vs, es, showV, showE)| ==> IsWord(Encode(vs, es, showV, showE)[i])
  {
    var ts := Encode(vs, es, showV, showE);
    forall i | 0 <= i < |ts| ensures IsWord(ts[i]) {
      if i == 0 {
        NatToStringIsWord(|vs|);
      } else if i < 1 + |vs| {
        assert Codec(vs[i - 1], showV, parseV);
      } else if i == 1 + |vs| {
        NatToStringIsWord(|es|);
      } else {
        var j := (i - 2 - |vs|) / 3;
        EncodeLayout(vs, es, showV, showE, j);
        assert Codec(es[j].src, showV, parseV) && Codec(es[j].dst, showV, parseV) && Codec(es[j].value, showE, parseE);
      }
    }
  }

  /** A written count below 2^64 reads back as itself and is consumed. */
  lemma ReadCountOfWritten(n: nat, rest: seq<string>, prev: nat)
    requires n < SizeModulus
    ensures ReadCount([NatToString(n)] + rest, prev) == Read(n, rest)
  {
    ParseSizeOfNatToString(n);
    assert ([NatToString(n)] + rest)[1..] == rest;
  }

  /** Writing a graph and reading the text back gives the same vertices and edges, in the
      same order, when every value is written as one token that reads back as itself. */
  lemma DecodeOfSerialize<V, E>(vs: seq<V>, es: seq<Edge<V, E>>, showV: V -> string, showE: E -> string,
                                parseV: string -> Conversion<V>, parseE: string -> Conversion<E>, blankV: V, blankE: E,
                                vertexesSize: nat, edgesSize: nat)
    requires forall i :: 0 <= i < |vs| ==> Codec(vs[i], showV, parseV)
    requires forall i :: 0 <= i < |es| ==>
      Codec(es[i].src, showV, parseV) && Codec(es[i].dst, showV, parseV) && Codec(es[i].value, showE, parseE)
    requires |vs| < SizeModulus && |es| < SizeModulus
    ensures Decode(Lines(Encode(vs, es, showV, showE)), parseV, parseE, blankV, blankE, vertexesSize, edgesSize) == Decoded(vs, es)
  {
    var ts := Encode(vs, es, showV, showE);
    EncodeWords(vs, es, showV, showE, parseV, parseE);
    TokensOfLines(ts);
    DecodeOfEncoding(Lines(ts), vs, es, showV, showE, parseV, parseE, blankV, blankE, vertexesSize, edgesSize);
  }

  /** Any text whose tokens are the written lines of a graph reads back as that graph. */
  lemma DecodeOfEncoding<V, E>(input: string, vs: seq<V>, es: seq<Edge<V, E>>, showV: V -> string, showE: E -> string,
                               parseV: string -> Conversion<V>, parseE: string -> Conversion<E>, blankV: V, blankE: E,
                               vertexesSize: nat, edgesSize: nat)
    requires Tokens(input) == Encode(vs, es, showV, showE)
    requires forall i :: 0 <= i < |vs| ==> Codec(vs[i], showV, parseV)
    requires forall i :: 0 <= i < |es| ==>
      Codec(es[i].src, showV, parseV) && Codec(es[i].dst, showV, parseV) && Codec(es[i].value, showE, parseE)
    requires |vs| < SizeModulus && |es| < SizeModulus
    ensures Decode(input, parseV, parseE, blankV, blankE, vertexesSize, edgesSize) == Decoded(vs, es)
  {
    var ts := Tokens(input);
    var et := EdgeTokens(es, showV, showE);
    var rest := [NatToString(|es|)] + et;
    assert ts == [NatToString(|vs|)] + (Map(vs, showV) + rest);
    ReadCountOfWritten(|vs|, Map(vs, showV) + rest, vertexesSize);
    var nv := ReadCount(ts, vertexesSize);
    assert nv == Read(|vs|, Map(vs, showV) + rest);
    ReadVerticesOfEncoding(vs, rest, showV, parseV, blankV);
    var vp := ReadVertices(nv.rest, nv.value, parseV, blankV);
    assert vp.pushed == vs && vp.rest == rest;
    ReadCountOfWritten(|es|, et, edgesSize);
    var ne := ReadCount(vp.rest, edgesSize);
    assert ne == Read(|es|, et);
    ReadEdgesOfEncoding(es, showV, showE, parseV, parseE, vp.obj, blankV, blankE);
  }

  // ---------------------------------------------------------------------------
  // Reader, as the loops of `operator>>`

  /** `is >> graph`: reads the vertex count, pushes that many vertices, reads the edge
      count and pushes that many edges, without the checks of `addVertex`/`addEdge`.
      `vertexesSize` and `edgesSize` stand for what the uninitialised counts hold. */
  method ReadGraph<V(==), E(==)>(g: Multigraph<V, E>, input: string, parseV: string -> Conversion<V>,
                                 parseE: string -> Conversion<E>, blankV: V, blankE: E, vertexesSize: nat, edgesSize: nat)
    modifies g
    ensures g.vertexes == old(g.vertexes) + Decode(input, parseV, parseE, blankV, blankE, vertexesSize, edgesSize).vertexes
    ensures g.edges == old(g.edges) + Decode(input, parseV, parseE, blankV, blankE, vertexesSize, edgesSize).edges
  {
    var count := ReadCount(Tokens(input), vertexesSize);
    var obj, ts := PushVertices(g, count.rest, count.value, parseV, blankV);
    count := ReadCount(ts, edgesSize);
    PushEdges(g, count.rest, count.value, parseV, parseE, obj, blankV, blankE);
  }

  /** The vertex loop of `operator>>`: `n` times, read into `obj` and push it. */
  method PushVertices<V(==), E(==)>(g: Multigraph<V, E>, ts0: seq<string>, n: nat, parseV: string -> Conversion<V>, obj0: V)
    returns (obj: V, ts: seq<string>)
    modifies g
    ensures g.vertexes == old(g.vertexes) + ReadVertices(ts0, n, parseV, obj0).pushed
    ensures obj == ReadVertices(ts0, n, parseV, obj0).obj && ts == ReadVertices(ts0, n, parseV, obj0).rest
    ensures g.edges == old(g.edges)
  {
    obj, ts := obj0, ts0;
    ghost var vp := ReadVertices(ts0, n, parseV, obj0);
    var i := 0;
    while i != n
      invariant i <= n
      invariant g.edges == old(g.edges)
      invariant g.vertexes == old(g.vertexes) + vp.pushed[..i]
      invariant ReadVertices(ts, n - i, parseV, obj) == VertexPass(vp.pushed[i..], vp.obj, vp.rest)
    {
      var x := ReadItem(ts, parseV, obj);
      obj, ts := x.value, x.rest;
      g.vertexes := g.vertexes + [obj];
      i := i + 1;
    }
    assert vp.pushed[..i] == vp.pushed;
  }

  /** The edge loop of `operator>>`: `n` times, read `obj`, `obj2` and `valueObj` and push
      the edge they make. */
  method PushEdges<V(==), E(==)>(g: Multigraph<V, E>, ts0: seq<string>, n: nat, parseV: string -> Conversion<V>,
                                 parseE: string -> Conversion<E>, obj0: V, obj20: V, valueObj0: E)
    modifies g
    ensures g.edges == old(g.edges) + ReadEdges(ts0, n, parseV, parseE, obj0, obj20, valueObj0)
    ensures g.vertexes == old(g.vertexes)
  {
    var obj, obj2, valueObj, ts := obj0, obj20, valueObj0, ts0;
    ghost var pushed := ReadEdges(ts0, n, parseV, parseE, obj0, obj20, valueObj0);
    var i := 0;
    while i != n
      invariant i <= n
      invariant g.vertexes == old(g.vertexes)
      invariant g.edges == old(g.edges) + pushed[..i]
      invariant ReadEdges(ts, n - i, parseV, parseE, obj, obj2, valueObj) == pushed[i..]
    {
      var a := ReadItem(ts, parseV, obj);
      var b := ReadItem(a.rest, parseV, obj2);
      var c := ReadItem(b.rest, parseE, valueObj);
      obj, obj2, valueObj, ts := a.value, b.value, c.value, c.rest;
      g.edges := g.edges + [Edge(obj, obj2, valueObj)];
      i := i + 1;
    }
    assert pushed[..i] == pushed;
  }

  /** Save then load: writing `g`, clearing it and reading the text back into it gives
      its vertices and edges back, in order. */
  method SaveAndLoad<V(==), E(==)>(g: Multigraph<V, E>, showV: V -> string, showE: E -> string,
                                   parseV: string -> Conversion<V>, parseE: string -> Conversion<E>, blankV: V, blankE: E,
                                   vertexesSize: nat, edgesSize: nat)
    requires forall i :: 0 <= i < |g.vertexes| ==> Codec(g.vertexes[i], showV, parseV)
    requires forall i :: 0 <= i < |g.edges| ==>
      Codec(g.edges[i].src, showV, parseV) && Codec(g.edges[i].dst, showV, parseV) && Codec(g.edges[i].value, showE, parseE)
    requires |g.vertexes| < SizeModulus && |g.edges| < SizeModulus
    modifies g
    ensures g.vertexes == old(g.vertexes) && g.edges == old(g.edges)
  {
    var text := Serialize(g, showV, showE);
    ghost var vs, es := g.vertexes, g.edges;
    DecodeOfSerialize(vs, es, showV, showE, parseV, parseE, blankV, blankE, vertexesSize, edgesSize);
    g.Clear();
    ReadGraph(g, text, parseV, parseE, blankV, blankE, vertexesSize, edgesSize);
  }

  /** A stream that ends early: the count says two vertices but only one follows, so the
      failed second read pushes the first vertex again, and the edge loop runs as many
      times as the uninitialised edge count says. */
  lemma TruncatedInputRepeats(vertexesSize: nat, edgesSize: nat)
    ensures Decode("2\nalice\n", (t: string) => Converted(t), ParseSize, "", 0, vertexesSize, edgesSize).vertexes == ["alice", "alice"]
    ensures |Decode("2\nalice\n", (t: string) => Converted(t), ParseSize, "", 0, vertexesSize, edgesSize).edges| == edgesSize
  {
    var parseV := (t: string) => Converted(t);
    TruncatedTokens();
    TwoCount(["alice"], vertexesSize);
    assert ReadItem(["alice"], parseV, "") == Read("alice", []);
    ReadVerticesOfEmpty(1, parseV, "alice");
    assert ReadVertices(["alice"], 2, parseV, "").pushed == ["alice", "alice"];
  }

  lemma TruncatedTokens()
    ensures Tokens("2\nalice\n") == ["2", "alice"]
  {
    assert IsWord("2") && IsWord("alice");
    assert Lines(["2", "alice"]) == "2\nalice\n";
    TokensOfLines(["2", "alice"]);
  }

  lemma TwoCount(rest: seq<string>, prev: nat)
    ensures ReadCount(["2"] + rest, prev) == Read(2, rest)
  {
    assert DigitsValue("2") == 2 by { assert "2"[..0] == []; }
    assert ParseSize("2") == Converted(2);
    assert (["2"] + rest)[1..] == rest;
  }

  // ---------------------------------------------------------------------------
  // Graphviz text

  /** One line `"name";` per vertex, in order. */
  function VertexStatements<V>(vs: seq<V>, showV: V -> string): (r: string)
    ensures r == [] <==> vs == []
    ensures vs != [] ==> "\"" + showV(vs[0]) + "\";\n" <= r
    ensures vs != [] ==> r[|r| - 1] == '\n'
  {
    if vs == [] then [] else "\"" + showV(vs[0]) + "\";\n" + VertexStatements(vs[1..], showV)
  }

  /** The line of one edge: `"src"->"dst"[label="value"];`. */
  function EdgeStatement(src: string, dst: string, value: string): (r: string)
    ensures |r| == |src| + |dst| + |value| + 18
    ensures r[0] == '"' && r[1..1 + |src|] == src && r[1 + |src|..5 + |src|] == "\"->\""
    ensures r[5 + |src|..5 + |src| + |dst|] == dst
    ensures r[|r| - 4 - |value|..|r| - 4] == value && r[|r| - 4..] == "\"];\n"
  {
    "\"" + src + "\"->\"" + dst + "\"[label=\"" + value + "\"];\n"
  }

  /** One edge line per debt, in order. */
  function EdgeStatements<V, E>(es: seq<Edge<V, E>>, showV: V -> string, showE: E -> string): (r: string)
    ensures r == [] <==> es == []
    ensures es != [] ==> EdgeStatement(showV(es[0].src), showV(es[0].dst), showE(es[0].value)) <= r
    ensures es != [] ==> r[|r| - 1] == '\n'
  {
    if es == [] then []
    else EdgeStatement(showV(es[0].src), showV(es[0].dst), showE(es[0].value)) + EdgeStatements(es[1..], showV, showE)
  }

  /** The text `generateDotText` writes to its file. */
  function DotText<V, E>(g: Multigraph<V, E>, showV: V -> string, showE: E -> string): (r: string)
    reads g
    ensures |r| >= 11 && r[..10] == "digraph {\n" && r[|r| - 1] == '}'
  {
    "digraph {\n" + VertexStatements(g.vertexes, showV) + EdgeStatements(g.edges, showV, showE) + "}"
  }

  function CountChar(s: string, c: char): nat {
    if s == [] then 0 else (if s[0] == c then 1 else 0) + CountChar(s[1..], c)
  }

  lemma {:induction false} CountCharConcat(s: string, t: string, c: char)
    ensures CountChar(s + t, c) == CountChar(s, c) + CountChar(t, c)
  {
    if s == [] {
      assert s + t == t;
    } else {
      assert (s + t)[1..] == s[1..] + t;
      CountCharConcat(s[1..], t, c);
    }
  }

  /** One line per vertex statement when no written vertex holds a newline. */
  lemma {:induction false} VertexStatementLines<V>(vs: seq<V>, showV: V -> string)
    requires forall i :: 0 <= i < |vs| ==> '\n' !in showV(vs[i])
    ensures CountChar(VertexStatements(vs, showV), '\n') == |vs|
  {
    if vs != [] {
      var w := showV(vs[0]);
      assert CountChar(w, '\n') == 0 by { NoCharCounts(w, '\n'); }
      CountCharConcat("\"", w, '\n');
      CountCharConcat("\"" + w, "\";\n", '\n');
      CountCharConcat("\"" + w + "\";\n", VertexStatements(vs[1..], showV), '\n');
      VertexStatementLines(vs[1..], showV);
    }
  }

  lemma {:induction false} NoCharCounts(s: string, c: char)
    requires c !in s
    ensures CountChar(s, c) == 0
  {
    if s != [] {
      NoCharCounts(s[1..], c);
    }
  }

  /** An edge line holds exactly one newline when its three values hold none. */
  lemma EdgeStatementLine(a: string, b: string, c: string)
    requires '\n' !in a && '\n' !in b && '\n' !in c
    ensures CountChar(EdgeStatement(a, b, c), '\n') == 1
  {
    NoCharCounts(a, '\n');
    NoCharCounts(b, '\n');
    NoCharCounts(c, '\n');
    NoCharCounts("\"", '\n');
    NoCharCounts("\"->\"", '\n');
    NoCharCounts("\"[label=\"", '\n');
    assert CountChar("\"];\n", '\n') == 1;
    var p1 := "\"" + a;
    var p2 := p1 + "\"->\"";
    var p3 := p2 + b;
    var p4 := p3 + "\"[label=\"";
    var p5 := p4 + c;
    CountCharConcat("\"", a, '\n');
    CountCharConcat(p1, "\"->\"", '\n');
    CountCharConcat(p2, b, '\n');
    CountCharConcat(p3, "\"[label=\"", '\n');
    CountCharConcat(p4, c, '\n');
    CountCharConcat(p5, "\"];\n", '\n');
  }

  /** One line per edge statement when no written value holds a newline. */
  lemma {:induction false} EdgeStatementLines<V, E>(es: seq<Edge<V, E>>, showV: V -> string, showE: E -> string)
    requires forall i :: 0 <= i < |es| ==>
      '\n' !in showV(es[i].src) && '\n' !in showV(es[i].dst) && '\n' !in showE(es[i].value)
    ensures CountChar(EdgeStatements(es, showV, showE), '\n') == |es|
  {
    if es != [] {
      var line := EdgeStatement(showV(es[0].src), showV(es[0].dst), showE(es[0].value));
      EdgeStatementLine(showV(es[0].src), showV(es[0].dst), showE(es[0].value));
      CountCharConcat(line, EdgeStatements(es[1..], showV, showE), '\n');
      EdgeStatementLines(es[1..], showV, showE);
    }
  }

  /** The DOT text has one line for the header, one per vertex and one per edge, the
      closing brace ending the last, unterminated, line. */
  lemma DotTextLines<V, E>(g: Multigraph<V, E>, showV: V -> string, showE: E -> string)
    requires forall i :: 0 <= i < |g.vertexes| ==> '\n' !in showV(g.vertexes[i])
    requires forall i :: 0 <= i < |g.edges| ==>
      '\n' !in showV(g.edges[i].src) && '\n' !in showV(g.edges[i].dst) && '\n' !in showE(g.edges[i].value)
    ensures CountChar(DotText(g, showV, showE), '\n') == 1 + |g.vertexes| + |g.edges|
  {
    var a := VertexStatements(g.vertexes, showV);
    var b := EdgeStatements(g.edges, showV, showE);
    VertexStatementLines(g.vertexes, showV);
    EdgeStatementLines(g.edges, showV, showE);
    CountCharConcat("digraph {\n", a, '\n');
    CountCharConcat("digraph {\n" + a, b, '\n');
    CountCharConcat("digraph {\n" + a + b, "}", '\n');
  }
}
