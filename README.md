# MultiDiner debt multigraph, in Dafny

MultiDiner keeps track of who owes whom in a group. People are the vertices of a
multigraph; each debt is an edge `src -> dst` carrying an amount ("src owes dst this
much"). This project models the engine behind it and proves what it promises:

- `Graph` (graph.dfy): the `Multigraph<V, E>` class of `src/multigraph.h`: two sequences,
  `vertexes` and `edges`, updated in place by `addVertex`, `addEdge`, `deleteVertex`,
  `clear` and edge deletion, the query `vertexIsIsolated`, and the `VertexIterator` whose
  position moves with `++`, `+=` and `-=`. Exceptions become `Outcome`/`Result` values; a
  rejected call changes nothing.
- `EdgeList` (edge_list.dfy): a debt as the value `Edge(src, dst, value)` and the
  sequence operations the graph uses (`std::find`, `erase`, the stable `remove_if`, the
  incoming and outgoing filters).
- `GraphText` (graph_text.dfy) and `Text` (text.dfy): the stream writer `operator<<`,
  the stream reader `operator>>` (both as specification functions and as the reader's two
  loops) and the Graphviz text of `generateDotText`.
- `Records` (records.dfy): the pointer-linked `Vertex` and `Edge` classes of
  `src/vertex.h` and `src/edge.h`.
- `Reduction` (reduction.dfy): `MainWindow::actionReduseEdges`, which first folds parallel
  debts together and then cancels debts running in opposite directions.
- `MainWindow` (main_window.dfy): the name sanitising of `MainWindow::addPerson`.
- `LegacyGraph` (legacy_graph.dfy): the earlier top-level `multigraph.h`, whose `addEdge`
  accepts a loop.
- `Arithmetic` (math_parser.dfy): the recursive-descent calculator of `mathparser.h`, as
  grammar functions over a string and as the `MathParser` class over a character cursor,
  proved to compute the same.

Getters that only return a field (`getVertexes`, `getEdges`, `getData`,
`getIncomingEdges`, `getOutgoingEdges`, `getSource`, `getDestination`, `getValue`) are
reads of the corresponding Dafny field or the functions `GetVertexes`/`GetEdges`.

How a vertex value or an amount is written to and read from a stream is a parameter
(`showV`/`showE`, `parseV`/`parseE`). Amounts are `real`. A stream is the sequence of
its whitespace-delimited tokens. Once an extraction fails the stream stays failed. An
extraction from an empty or failed stream leaves its variable as it was; a malformed
number stores 0. For the reader the model follows the code: when the text ends early,
the loops go on pushing the last value read rather than stopping, and the counts it
could not read keep their uninitialised values.

## Model

| member | source | states |
|---|---|---|
| Graph.Multigraph.constructor | src/multigraph.h:18 | a new graph has no vertex and no debt, and satisfies the invariant |
| Graph.Multigraph.AddVertex | src/multigraph.h:119-128 | a value already present is refused with `VertexExists` and nothing changes; otherwise it is appended at the end; edges are untouched; the invariant (distinct vertices, endpoints present, no loops) is kept |
| Graph.Multigraph.AddEdge | src/multigraph.h:131-152 | the checks run in order loop, missing source, missing destination, each with its own error and no change; it succeeds exactly when none fails, and then exactly one `Edge(src, dst, value)` is appended; vertices are untouched; the invariant is kept |
| Graph.Multigraph.Clear | src/multigraph.h:155-159 | both sequences become empty |
| Graph.Multigraph.DeleteVertex | src/multigraph.h:162-181 | an absent value gives `VertexNotFound` and no change; otherwise the first occurrence of the vertex is removed and the debts become `Detach(edges, value)`, the touching ones removed and the others kept in order; the invariant is kept and the value is gone |
| Graph.Multigraph.VertexIsIsolated | src/multigraph.h:184-198 | an error exactly for an absent vertex; `Ok(true)` exactly when the vertex exists and no debt starts or ends there |
| Graph.Multigraph.DeleteEdgeAt | src/mainwindow.cpp:234 | `deleteEdge` of a live edge removes exactly that position; vertices are untouched |
| Graph.Multigraph.SetEdgeValue | src/mainwindow.cpp:230 | `setValue` through an edge of the graph changes only that edge's amount |
| Graph.Multigraph.DeleteEdge | tests/MDtests/tst_mdtests.cpp:200-222 | deleting by (source, destination, amount) removes the first matching debt and keeps the others, the reverse debt included; no match gives `EdgeNotFound` and no change |
| Graph.Multigraph.BeginV | src/multigraph.h:56 | a fresh iterator at position 0 of this graph |
| Graph.Multigraph.EndV | src/multigraph.h:57 | a fresh iterator at position `|vertexes|` of this graph |
| Graph.VertexIterator.constructor | src/multigraph.h:250-255 | stores the position and the graph |
| Graph.VertexIterator.Increment | src/multigraph.h:258-267 | as intended: moves on by one up to endV; past endV it fails with `OutOfRange` and does not move |
| Graph.VertexIterator.Advance | src/multigraph.h:270-279 | as intended: moves on by `k` up to endV; past endV it fails with `OutOfRange` and does not move |
| Graph.VertexIterator.IncrementAsWritten | src/multigraph.h:258-267 | the guard compares the `size_t` sum, wrapped modulo 2^64, with the vertex count; the position becomes that sum or the call fails and nothing moves |
| Graph.VertexIterator.AdvanceAsWritten | src/multigraph.h:270-279 | the same for `+= k`: a sum that wraps below the vertex count passes the guard |
| Graph.SizeSum | src/multigraph.h:260 | `a + b` on `size_t`: below 2^64, the exact sum when that fits, otherwise below `a`, and undone by subtracting `b` modulo 2^64 |
| Graph.IncrementWraps | src/multigraph.h:260 | the `size_t` sum `(2^64 - 1) + 1` wraps to 0, so the guard of IncrementAsWritten passes at the largest position |
| Graph.AdvanceWraps | src/multigraph.h:272 | the `size_t` sum `1 + (2^64 - 1)` wraps to 0, so the guard of AdvanceAsWritten passes from position 1 |
| Graph.VertexIterator.RetreatAsWritten | src/multigraph.h:282-291 | the guard never fires: the position always becomes the `size_t` difference |
| Graph.RetreatPastBeginWraps | src/multigraph.h:284-289 | moving back past the first vertex wraps the position to `2^64 - (k - position)`, beyond endV |
| Graph.VertexIterator.Retreat | src/multigraph.h:282-291 | as intended: moves back by `k`, or fails with `OutOfRange` and does not move when `k` exceeds the position |
| Graph.VertexIterator.Equals | src/multigraph.h:294-297 | the same graph and the same position; equal iterators read the same vertex or fail alike |
| Graph.VertexIterator.NotEquals | src/multigraph.h:300-303 | true exactly when `==` is false |
| Graph.VertexIterator.Current | src/multigraph.h:306-310 | the vertex at the position; an `OutOfRange` error exactly at or past endV |
| Graph.VertexIterator.IncomingEdges | src/multigraph.h:313-331 | the debts whose destination is the current vertex, in edge order; an error exactly at endV |
| Graph.VertexIterator.OutcomingEdges | src/multigraph.h:334-352 | the debts whose source is the current vertex, in edge order; an error exactly at endV |
| Graph.SizeDifference | src/multigraph.h:284 | `a - b` on `size_t`: a value below 2^64 that gives back `a` when `b` is added modulo 2^64 |
| EdgeList.IndexOf | src/multigraph.h:164-166 | the first position of the value, or the length exactly when the value is absent |
| EdgeList.DeleteAt | src/multigraph.h:172 | one element shorter; the elements before the position stay and those after it move down by one |
| EdgeList.RemoveFirst | src/multigraph.h:164-172 | the sequence itself when the value is absent; otherwise one element shorter, with one occurrence of the value fewer and the rest the same multiset |
| EdgeList.RemoveFirstOfDistinct | src/multigraph.h:164-172 | on distinct values, removing one keeps exactly the others |
| EdgeList.Detach | src/multigraph.h:174-180 | keeps exactly the debts that do not touch the vertex |
| EdgeList.DetachConcat | src/multigraph.h:174-180 | the filter distributes over concatenation, so kept debts keep their relative order |
| EdgeList.DetachUntouched | src/multigraph.h:192-197 | removing a vertex's debts changes nothing exactly when no debt touches it, that is, when `vertexIsIsolated` holds |
| EdgeList.Outgoing | src/multigraph.h:345-349 | exactly the debts whose source is the vertex |
| EdgeList.Incoming | src/multigraph.h:324-328 | exactly the debts whose destination is the vertex |
| EdgeList.OutgoingConcat | src/multigraph.h:345-349 | the outgoing filter keeps edge order (it distributes over concatenation) |
| EdgeList.IncomingConcat | src/multigraph.h:324-328 | the incoming filter keeps edge order |
| EdgeList.SetValueAt | src/edge.h:23 | replaces one edge's amount, keeps its endpoints and every other edge |
| EdgeList.DeleteAtMultiset | src/mainwindow.cpp:234 | deleting an item takes exactly that item out of the multiset |
| EdgeList.SetValueAtMultiset | src/mainwindow.cpp:230 | changing an amount swaps exactly that debt for its new form in the multiset |
| Text.NatToString | src/multigraph.h:76 | the written count is a non-empty run of digits |
| Text.ParseSize | src/multigraph.h:95 | `is >> size_t` on one token: it converts exactly when the token is an optional sign and a run of digits below 2^64, a `-` wrapping modulo 2^64; a malformed token stores 0 and an oversized one the largest `size_t`, and both fail the stream |
| Text.DigitsValueOfNatToString | src/multigraph.h:76 | the digits of a written count have that count's value |
| Text.ParseSizeOfNatToString | src/multigraph.h:76-95 | a count below 2^64 written and read back is the same count |
| Text.NegativeCountWraps | src/multigraph.h:95 | the count `-1` reads as 2^64 - 1 |
| Text.LargeCountSaturates | src/multigraph.h:95 | the count 2^64 fails and stores 2^64 - 1 |
| Text.NatToStringIsWord | src/multigraph.h:76 | a written count is a single token |
| Text.Tokens | src/multigraph.h:95-111 | every token the reader sees is non-empty and free of whitespace |
| Text.TokensOfLines | src/multigraph.h:76-111 | reading back lines of whitespace-free tokens gives the same tokens |
| GraphText.Encode | src/multigraph.h:74-88 | the writer's lines: vertex count, each vertex in order, edge count, then the edge tokens |
| GraphText.EdgeTokensAt | src/multigraph.h:80-85 | edge `i` is written as source, destination and amount at tokens 3i to 3i+2 |
| GraphText.EncodeLayout | src/multigraph.h:74-88 | where each edge's three tokens sit among all written lines |
| GraphText.EncodeWords | src/multigraph.h:74-88 | every written line is one token when every value is written as one |
| GraphText.Serialize | src/multigraph.h:74-88 | `os << graph`: when every written value is one token, the text splits back into exactly the tokens of `Encode` |
| GraphText.LinesOfWords | src/multigraph.h:74-88 | lines that are each one token split back into exactly those tokens |
| GraphText.ReadItem | src/multigraph.h:100 | `is >> x`: on an empty or failed stream `x` keeps its old value; a token that converts is stored and consumed; one that does not stores what the conversion stores, or nothing, and fails the stream |
| GraphText.ReadCount | src/multigraph.h:95 | `is >> size_t`: an empty or failed stream leaves the old count; any token gives a count below 2^64 |
| GraphText.Decode | src/multigraph.h:91-116 | `is >> graph`: the number of vertices pushed is the count read, or the uninitialised count when none is read |
| GraphText.DecodeZeroed | src/multigraph.h:91-116 | the reader with both counts set to 0, as intended: a stream without tokens appends nothing |
| GraphText.ReadVertices | src/multigraph.h:97-102 | the vertex loop pushes exactly the counted number of values |
| GraphText.ReadEdges | src/multigraph.h:104-113 | the edge loop pushes exactly the counted number of debts |
| GraphText.ReadVerticesOfEncoding | src/multigraph.h:97-102 | reading written vertices gives them back, leaves the rest of the stream, and leaves the last one in `obj` |
| GraphText.ReadEdgesOfEncoding | src/multigraph.h:104-113 | reading written edges gives them back |
| GraphText.DecodeOfSerialize | src/multigraph.h:74-116 | reading the text the writer produced gives the same vertices and debts in the same order, when every value is one token that reads back as itself |
| GraphText.DecodeOfEncoding | src/multigraph.h:91-116 | any text whose tokens are a graph's written lines reads back as that graph, whatever the uninitialised counts |
| GraphText.ReadCountOfWritten | src/multigraph.h:76-95 | a written count below 2^64 reads back as itself and is consumed |
| GraphText.EmptyInputRepeatsBlank | src/multigraph.h:93-107 | on an empty stream both counts keep their uninitialised values, and the loops push that many blank vertices and blank debts |
| GraphText.ReadGraph | src/multigraph.h:91-116 | `is >> graph` appends the decoded vertices and debts to what the graph held, unchecked |
| GraphText.PushVertices | src/multigraph.h:97-102 | the vertex loop appends the values `ReadVertices` gives and leaves the debts alone |
| GraphText.PushEdges | src/multigraph.h:104-113 | the edge loop appends the debts `ReadEdges` gives and leaves the vertices alone |
| GraphText.SaveAndLoad | tests/MDtests/tst_mdtests.cpp:237-267 | writing a graph, clearing it and reading the text back into it gives the same vertices and debts |
| GraphText.TruncatedInputRepeats | src/multigraph.h:95-113 | when the text ends before the counted vertices, the loop pushes the last value read again, and the edge loop runs as often as the uninitialised edge count says |
| GraphText.VertexStatements | src/multigraph.h:206-209 | empty exactly for no vertex; otherwise starts with the first vertex's line `"name";` and ends with a newline |
| GraphText.EdgeStatement | src/multigraph.h:213-218 | the line `"src"->"dst"[label="value"];`: the three values at their places, 18 characters of punctuation, a closing newline |
| GraphText.EdgeStatements | src/multigraph.h:211-219 | empty exactly for no debt; otherwise starts with the first debt's line and ends with a newline |
| GraphText.DotText | src/multigraph.h:201-222 | the Graphviz text opens with `digraph {` and a newline and ends with `}` |
| GraphText.VertexStatementLines | src/multigraph.h:206-209 | one line per vertex statement |
| GraphText.EdgeStatementLine | src/multigraph.h:213-218 | one edge statement is exactly one line |
| GraphText.EdgeStatementLines | src/multigraph.h:211-219 | one line per edge statement |
| GraphText.DotTextLines | src/multigraph.h:205-220 | the text has one newline for the header, one per vertex and one per debt; the closing brace ends an unterminated last line |
| Records.Vertex.constructor | src/vertex.h:40-44 | stores the value with both edge lists empty |
| Records.Vertex.SetData | src/vertex.h:59-62 | replaces the value and keeps both edge lists |
| Records.Vertex.AddIncomingEdge | src/vertex.h:76-85 | a null edge is refused with `NullEdge` and the list is kept; otherwise the edge is appended to the incoming list only, duplicates allowed |
| Records.Vertex.AddOutgoingEdge | src/vertex.h:87-96 | a null edge is refused with `NullEdge` and the list is kept; otherwise the edge is appended to the outgoing list only, duplicates allowed |
| Records.Vertex.DelIncomingEdge | tests/MDtests/tst_mdtests.cpp:89-105 | removes the first occurrence of the edge from the incoming list only |
| Records.Vertex.DelOutgoingEdge | tests/MDtests/tst_mdtests.cpp:107-123 | removes the first occurrence of the edge from the outgoing list only |
| Records.Edge.constructor | src/edge.h:13-16 | stores source, destination and amount as given, a loop or a null endpoint included |
| Records.Edge.SetValue | src/edge.h:23 | replaces the amount; the endpoints are constants |
| Records.DeleteOneOfTwoIncoming | tests/MDtests/tst_mdtests.cpp:89-105 | of two incoming edges, deleting the first keeps the second |
| Records.DeleteOneOfTwoOutgoing | tests/MDtests/tst_mdtests.cpp:107-123 | of two outgoing edges, deleting the first keeps the second |
| Records.AddTwice | src/vertex.h:84 | the same edge added twice sits twice in the list |
| Records.AddNull | src/vertex.h:79-83 | a null edge reports the error and leaves the lists empty |
| Records.LoopWithNegativeAmount | tests/MDtests/tst_mdtests.cpp:138-148 | an edge from a vertex to itself is accepted, and a negative amount is accepted by `setValue` |
| LegacyGraph.Multigraph.constructor | multigraph.h:16 | a new graph is empty |
| LegacyGraph.Multigraph.AddVertex | multigraph.h:26-39 | the scanning loop refuses a duplicate and changes nothing; otherwise the value is appended; debts are untouched |
| LegacyGraph.Multigraph.AddEdge | multigraph.h:41-71 | a missing source is refused before a missing destination; it succeeds exactly when both exist, loops included, and then appends exactly one debt; a refusal changes nothing |
| LegacyGraph.LoopAcceptedOnlyByLegacy | multigraph.h:41-71 | the same loop is stored by the earlier graph and refused with `SelfLoop` by the later one |
| MainWindow.ReplaceSpaces | src/mainwindow.cpp:87 | same length; every space becomes `_` and every other character stays; no space is left |
| MainWindow.ReplaceSpacesIdempotent | src/mainwindow.cpp:87 | sanitising twice is sanitising once |
| MainWindow.SanitisedNameIsWord | src/mainwindow.cpp:86-95 | a sanitised name is one token of the saved file exactly when it is non-empty and has no whitespace other than spaces |
| MainWindow.AddPerson | src/mainwindow.cpp:86-95 | an empty name is refused with `NamelessPerson`; otherwise the sanitised name is added by `addVertex`, refused when present; debts are untouched and the graph invariant is kept |
| MainWindow.AddBlankPerson | src/mainwindow.cpp:86-95 | a name of two spaces is accepted as `__` |
| Reduction.WeightConcat | src/mainwindow.cpp:216-280 | the total owed on a pair adds up over concatenated debt lists |
| Reduction.WeightDeleteAt | src/mainwindow.cpp:234 | deleting a debt lowers only its own pair's total, by its amount |
| Reduction.WeightSetValueAt | src/mainwindow.cpp:230 | changing an amount changes only its own pair's total, by the difference |
| Reduction.MergeKeepsWeights | src/mainwindow.cpp:226-235 | folding a parallel debt into the earlier one keeps every pair's total |
| Reduction.MergeKeepsShape | src/mainwindow.cpp:226-235 | a fold adds no parallel debt, no new pair, keeps amounts positive and keeps the debts already folded |
| Reduction.MergeStep | src/mainwindow.cpp:226-235 | a fold keeps what pass 1 keeps |
| Reduction.FoldStep | src/mainwindow.cpp:226-236 | folding debt `k` keeps the state of the inner loop |
| Reduction.FoldSkip | src/mainwindow.cpp:237 | skipping a debt to another creditor keeps the state of the inner loop |
| Reduction.Merge | src/mainwindow.cpp:229-235 | one debt fewer; the earlier debt keeps its pair and takes the sum; the debts before the later one stay and those after it move down; the multiset loses the two debts and gains the sum |
| Reduction.MergeAt | src/mainwindow.cpp:229-235 | the earlier debt takes the sum and the later one is deleted |
| Reduction.FoldInto | src/mainwindow.cpp:222-238 | the debt at `j` survives with its creditor; no later debt of `v` to that creditor is left; every pair's total is kept |
| Reduction.MergeParallel | src/mainwindow.cpp:219-239 | afterwards the vertex owes each creditor through at most one debt; totals, pairs and positive amounts are kept; a vertex with no parallel debt is left as it was |
| Reduction.NoParallelEverywhere | src/mainwindow.cpp:217-240 | no parallel debt at any vertex means none in the whole list |
| Reduction.MergeAllParallel | src/mainwindow.cpp:217-240 | pass 1 leaves no two debts on the same ordered pair and keeps every pair's total; a list without parallel debts is left as it was |
| Reduction.FindLink | src/mainwindow.cpp:249-255 | the first debt `a -> b`, or the length when there is none |
| Reduction.BalanceDeleteAt | src/mainwindow.cpp:265 | deleting a debt changes the net balance of its pair, in both directions, by its amount |
| Reduction.BalanceSetValueAt | src/mainwindow.cpp:264 | changing an amount changes the net balance of its pair by the difference |
| Reduction.CancelForwardBalances | src/mainwindow.cpp:262-266 | the larger debt keeping the difference and the smaller one going keeps every pair's net balance |
| Reduction.CancelBackwardBalances | src/mainwindow.cpp:268-272 | the same, with the debt running back the larger |
| Reduction.CancelBothBalances | src/mainwindow.cpp:273-277 | deleting two equal opposite debts keeps every pair's net balance |
| Reduction.CancelForwardShape | src/mainwindow.cpp:262-266 | the forward cancel invents no pair, adds no parallel debt or loop, and keeps amounts positive |
| Reduction.CancelBackwardShape | src/mainwindow.cpp:268-272 | the same for the backward cancel |
| Reduction.CancelBothShape | src/mainwindow.cpp:273-277 | the same for deleting both |
| Reduction.CancelForwardStep | src/mainwindow.cpp:262-266 | the forward cancel keeps the state of pass 2 and settles the debt it kept |
| Reduction.CancelBackwardStep | src/mainwindow.cpp:268-272 | the backward cancel keeps the state of pass 2 |
| Reduction.CancelBothStep | src/mainwindow.cpp:273-277 | deleting both keeps the state of pass 2 |
| Reduction.CancelSkip | src/mainwindow.cpp:257 | a debt with no debt running back is already settled |
| Reduction.CancelForward | src/mainwindow.cpp:262-266 | one debt fewer; the debt keeps its pair and the difference at its new place; the multiset swaps the two debts for the difference |
| Reduction.CancelBackward | src/mainwindow.cpp:268-272 | the same with the debt back keeping the difference |
| Reduction.CancelBoth | src/mainwindow.cpp:273-277 | two debts fewer: exactly the two opposing debts leave the multiset |
| Reduction.CancelForwardAt | src/mainwindow.cpp:262-266 | `setValue(outgoing - incoming)` on the debt, then `deleteEdge` of the debt back |
| Reduction.CancelBackwardAt | src/mainwindow.cpp:268-272 | `setValue(incoming - outgoing)` on the debt back, then `deleteEdge` of the debt |
| Reduction.CancelBothAt | src/mainwindow.cpp:273-277 | both debts deleted, the debt back first |
| Reduction.CancelAt | src/mainwindow.cpp:248-278 | one turn of pass 2 keeps its state and moves the scan on |
| Reduction.CancelOpposing | src/mainwindow.cpp:245-279 | afterwards nobody the vertex owes also owes it; every pair's net balance is kept |
| Reduction.NoOpposingEverywhere | src/mainwindow.cpp:243-280 | no opposing debt at any vertex means no pair owes in both directions |
| Reduction.CancelAllStep | src/mainwindow.cpp:243-280 | pass 2 at one vertex moves the whole-graph state on by one vertex |
| Reduction.CancelAllOpposing | src/mainwindow.cpp:243-280 | pass 2 leaves every vertex settled and keeps balances, uniqueness of pairs and positive amounts |
| Reduction.SameWeightsBalances | src/mainwindow.cpp:216-280 | keeping every pair's total keeps every pair's net balance |
| Reduction.ReduceEdges | src/mainwindow.cpp:212-284 | vertices unchanged; every pair's net balance kept; no pair joined by two debts and none owing both ways; no new pair appears; positive amounts stay positive; a graph already in that form is left as it is |
| Reduction.ReduceTwice | src/mainwindow.cpp:212-284 | the first reduction yields a list with no parallel and no opposing debts and the same net balances; a second reduction leaves exactly that list |
| Arithmetic.NumberFrom | mathparser.h:27-41 | the loop of `number` ends at the end of the text or at a non-digit |
| Arithmetic.PrimaryAt | mathparser.h:43-57 | `skobki` ends within the text, at or after its start |
| Arithmetic.FactorRest | mathparser.h:62-77 | the loop of `factor` stops only at the end or at a character other than `*` and `/` |
| Arithmetic.FactorAt | mathparser.h:59-78 | `factor` stops only at the end or at a character other than `*` and `/` |
| Arithmetic.ExprRest | mathparser.h:83-98 | the loop of `expr` stops only at the end or at a character that is no operator |
| Arithmetic.ExprAt | mathparser.h:80-99 | `expr` stops only at the end or at a character that is no operator |
| Arithmetic.MathParser.Get | mathparser.h:32 | the next character and one step on, or nothing at the end of the text |
| Arithmetic.MathParser.Putback | mathparser.h:37 | the character just read is unread; after the end nothing moves |
| Arithmetic.MathParser.Number | mathparser.h:27-41 | reads the value and stops where `NumberFrom` does, the first non-digit unread |
| Arithmetic.MathParser.Skobki | mathparser.h:43-57 | computes `PrimaryAt` from the current position and stops where it does |
| Arithmetic.MathParser.Factor | mathparser.h:59-78 | computes `FactorAt` from the current position and stops where it does |
| Arithmetic.MathParser.Expr | mathparser.h:80-99 | computes `ExprAt` from the current position and stops where it does |
| Arithmetic.MathParser.Calc | mathparser.h:20-24 | evaluates `ExprAt` of the new text from its start, whatever an earlier call left |
| Arithmetic.NumberFromRun | mathparser.h:29-40 | part way through a run of digits, the loop holds the value read so far and ends with the value of the whole run |
| Arithmetic.NumberOfDigits | mathparser.h:27-41 | a run of digits reads as its decimal value and stops at the first non-digit |
| Arithmetic.NumberOfNatToString | mathparser.h:27-41 | a number written in decimal reads back as itself |
| Arithmetic.FactorOfNumber | mathparser.h:59-78 | a `factor` that is a single number has that number's value |
| Arithmetic.ExprRestNumber | mathparser.h:91-93 | a `-` followed by a number subtracts it |
| Arithmetic.FactorGroupsLeft | mathparser.h:59-78 | `u*v/w` is `(u*v)/w` |
| Arithmetic.ExprGroupsLeft | mathparser.h:80-99 | `u-v+w` is `(u-v)+w` |
| Arithmetic.ProductBeforeSum | mathparser.h:80-99 | in `u+v*w` the product is the right operand of the sum |
| Arithmetic.LeadingMinus | mathparser.h:27-41 | a missing number reads as 0, so `-x` is the negation of `x` |
| Arithmetic.AnyCloser | mathparser.h:46-50 | the character after a bracketed expression is consumed unchecked, whatever it is |

## Findings

| source | as written | input that shows it | evidently intended | confidence | as-written member | corrected member |
|---|---|---|---|---|---|---|
| src/multigraph.h:260, src/multigraph.h:272 | `_position + 1` and `_position + k` are `size_t` sums, so the overflow guard of `++` and `+=` can be passed by a wrapped sum | an iterator at position 1 of a one-vertex graph and `+= 2^64 - 1`: the sum wraps to 0 and the position becomes 0 | the step fails with an error when it would pass endV | medium (not executed) | Graph.VertexIterator.AdvanceAsWritten, Graph.AdvanceWraps, Graph.VertexIterator.IncrementAsWritten, Graph.IncrementWraps | Graph.VertexIterator.Advance, Graph.VertexIterator.Increment |
| src/multigraph.h:93-95 | the counts `vertexesSize` and `edgesSize` are uninitialised, and a read from an empty or failed stream stores nothing in them | an empty file, or a file name that cannot be opened, loaded by the window (src/mainwindow.cpp:205-206): the loops run as often as the garbage counts say, pushing blank vertices and debts | a stream without counts appends nothing | medium (not executed) | GraphText.EmptyInputRepeatsBlank | GraphText.DecodeZeroed |
| src/multigraph.h:284 | `_position - k < 0` on `size_t` is never true, so `-=` never reports an error | an iterator at position 0 and `-= 1`: the position becomes 2^64 - 1 | `-= k` fails when `k` exceeds the position, like `++` and `+=` past endV | high (not executed) | Graph.VertexIterator.RetreatAsWritten, Graph.RetreatPastBeginWraps | Graph.VertexIterator.Retreat |

## Left out

- Graph.VertexIterator.IncomingEdges and OutcomingEdges return debts as values. The source returns pointers to copies local to the lambda, which dangle once the call returns.
- Graph.VertexIterator.IncomingEdges and OutcomingEdges do not model the null-pointer check on the vectors. The iterators here always have a graph.
- The iterator's copy constructor (src/multigraph.h:243-247) is not modelled. It copies the vertex pointer but leaves the edge pointer unset.
- `deleteEdge` is not defined in src/multigraph.h. It is modelled twice: by position as Graph.Multigraph.DeleteEdgeAt, for the pointer form the reduction uses, and by value as Graph.Multigraph.DeleteEdge, for the form the tests use.
- Records.Vertex.DelIncomingEdge and DelOutgoingEdge are not defined in src/vertex.h. They are modelled as the tests use them: removing the first occurrence.
- The vertex destructor, which deletes its outgoing edges (src/vertex.h:46-52), is not modelled. Memory is not modelled.
- Reduction works on the value-based graph. A vertex's outgoing edges are the debts with that source, in edge order, and an edge pointer is a position in the sequence.
- Reduction pass 1: erasing from the vector of outgoing edges invalidates the saved iterator `k` (src/mainwindow.cpp:233-235). The model continues with the debt after the deleted one, as intended.
- Reduction pass 2 iterates over a snapshot of each vertex's outgoing edges. The model rescans the live sequence in the same order. Pass 2 deletes only the debt in hand and debts of other vertices, so it meets the same debts.
- Reduction.ReduceEdges requires every endpoint to be a vertex and no debt to be a loop. The window's own `addVertex`/`addEdge` keep both, but its file loading (src/mainwindow.cpp:205-206) goes through the unchecked reader, so a loaded file can carry a loop or a debt with a stray endpoint. That path is outside the model of the reduction; on a loop, pass 2 would delete the same debt twice.
- Reduction: amounts are `real`. The rounding of `double` sums and differences is not modelled.
- Reduction: the exceptions caught by `MD_TRY`/`MD_CATCH` and the redraw in `updateGraph` are not modelled.
- Arithmetic.MathParser.Number: the accumulator `int res` is unbounded here. The source overflows past 2^31 - 1.
- Arithmetic: values are `real`. `double` rounding is not modelled.
- Arithmetic.Quotient: a division by zero gives `None`, and every later step on it stays `None`. In `double` a later step can make the value finite again; `1/(1/0)` is 0.
- Arithmetic.MathParser.Get: at the end of the text `get` returns EOF and fails the stream. The model gives `None`, and a putback of it does nothing.
- GraphText.Serialize and GraphText.DotText: how a `double` or other value is formatted as text is a parameter, not `ostream`'s formatting.
- GraphText.ReadGraph: the stream reader is modelled on whitespace-delimited tokens. Partial reads inside a token (reading a number from `12ab`) are not modelled.
- Text.ParseSize: a token is converted whole. A token with a valid numeric prefix (`12ab`) is rejected with 0 stored, whereas the stream would store 12 and leave `ab` for the next read.
- GraphText.ReadItem: the stored value of a failed conversion follows libstdc++ (0 for a malformed number, the maximum for an overflow, nothing on an empty or failed stream). How a vertex value or an amount is converted is a parameter.
- GraphText.Decode: the uninitialised counts are parameters (`vertexesSize`, `edgesSize`). Their actual value is whatever the stack held.
- Opening, writing and closing the output file of `generateDotText` are not modelled; only the text written is. The same goes for the save and load handlers of the window.
- The empty `readFromDotFile` (src/multigraph.h:224-228) is not modelled.
- The GUI is not modelled: widgets, message boxes, file dialogs, zoom handling, the call to the external `dot` renderer, and the evaluation of debt amounts by tinyexpr.
- MainWindow.AddPerson: the conversion of the name with `toLocal8Bit` is not modelled. Names are sequences of characters.
- Exception messages are not modelled, nor their line numbers and time stamps. Each exception is one `Error` value.
