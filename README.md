# Chain method for planar point location, modelled in Dafny

`ChainsMethod.java` splits a planar graph into monotone chains and then
locates a query point between two of them. The chains all run from the
lowest vertex (the source) to the highest (the sink). The program works in
these stages:

1. It sorts the vertices by ordinate.
2. It files every edge in the out-list of its start and the in-list of its
   end, with weight 1.
3. It balances the weights in two passes over the vertices, a forward pass
   and a backward pass.
4. It counts the chains as the weight leaving the source.
5. It extracts that many chains. Each chain walks from the source along the
   "top-left" out-edge that still has weight, spending one unit per edge.
6. It scans the chains for the first edge that has the query point on its
   left.

The model keeps the program's shape. Vertices become ranks `0 .. n-1` in
the sorted order. Edges live in an arena, `seq<Edge>`, addressed by index.
The shared, mutable `Edge.weight` field becomes one `array<int>` that the
methods update in place; specification functions see it as `seq<int>`. The
per-vertex lists hold edge indices.

Each loop of the program is a method with a loop. Its contract ties it to a
recursive specification function:
- `WalkFrom` is the walk of `createChain`;
- `ExtractFrom` is the extraction loop;
- `ForwardFrom` and `BackwardFrom` are the two balancing passes;
- `Locate` is `findPoint`.

The properties the chain method relies on are lemmas about those functions.

The backward pass takes a parameter `stop`: it visits the vertices from the
highest down to, but not including, `stop`. The loop as written,
`for (i = size - 1; i > 1; i--)`, is `stop = 1` (`Pipeline.WrittenStop`):
it never visits vertex 1. The balancing step of Preparata and Shamos' chain
method visits every interior vertex, which is `stop = 0`. The members that
take `stop` as a parameter hold for either bound:
- `Balancer.Balanced`, `Balancer.BackwardPass` and `Balancer.BalancedShape`;
- `Pipeline.BalancedNetwork` and `Pipeline.ChainsReachSink`;
- the methods `Pipeline.Balance`, `Pipeline.Extract` and `Pipeline.Run`.

With `stop = 1`, `main` as written, `Pipeline.ChainsReachSink` states:
- extraction never gets stuck;
- there are as many chains as the source sends;
- every chain is a path from the source to the sink;
- every edge lies on at most as many chains as its weight;
- the sink receives at least as much as the source sends.

With `stop = 0`, `Pipeline.ChainsCoverGraph` states the chain method's
promise: the same, but every edge lies on exactly as many chains as its
weight, which is at least 1, and the sink receives exactly what the source
sends. `Balancer.IntendedPassesBalance` and `Pipeline.NetworkDrains` also
need `stop = 0`. `## Findings` below shows a graph on which `stop = 1`
leaves an edge with weight unspent.

Two edge cases follow the code:
- A point left of chain 0 gets `Between(-1, 0)`, the message with chains
  `-1` and `0`; `Locate` does the same.
- When no out-edge has weight left, `topLeftEdge` falls back on the list's
  first edge (`edges.get(0)`), and `TopLeft` does the same. Only an empty
  list is a failure (`DeadEnd`).

Modules:
- `Sorting`: stable insertion sort, the model of `List.sort`.
- `Graph`: vertex order, ranks and adjacency lists.
- `Weights`: `summarizeWeight`, `topLeftEdge` and `sortEdges`.
- `Balancer`: the two balancing passes.
- `Extractor`: `createChain` and the extraction loop.
- `Flow`: why the chains cover the graph.
- `Locator`: `findPoint`.
- `Findings`: the counterexample for the backward bound.
- `Pipeline`: `main` from the vertex sort to the query.

## Model

| member | source | states |
|---|---|---|
| `Sorting.StableSort` | src/main/java/chains/ChainsMethod.java:97-100 | The sorted list is a permutation of the input: same length, same multiset. |
| `Sorting.StableSortOrders` | src/main/java/chains/ChainsMethod.java:97-100 | The result is ordered by the key. It is stable: for every key value, the elements with that key keep their input order (the guarantee of `List.sort`). |
| `Sorting.SortSortedIsIdentity` | src/main/java/chains/ChainsMethod.java:97-100 | Sorting a list already ordered by the key returns it unchanged. |
| `Sorting.SortIsIdempotent` | src/main/java/chains/ChainsMethod.java:97-100 | Sorting twice gives the same list as sorting once. |
| `Graph.SortVertices` | src/main/java/chains/ChainsMethod.java:136 | The vertex order is a permutation of the vertex handles. It is non-decreasing in ordinate and stable on equal ordinates. |
| `Graph.IndexOf` | src/main/java/chains/ChainsMethod.java:149-150 | Returns the first position holding `x`, with no earlier one, or -1 exactly when `x` is absent (`List.indexOf`). |
| `Graph.Ranks` | src/main/java/chains/ChainsMethod.java:149-150 | The rank of every vertex is a position in the sorted order, and the sorted order holds the vertex at that position. |
| `Graph.RisingEdgesClimb` | src/main/java/chains/ChainsMethod.java:136-150 | When every edge rises strictly in ordinate, every ranked edge goes from a lower rank to a higher one. |
| `Graph.AdjacencyListsFileEveryEdgeOnce` | src/main/java/chains/ChainsMethod.java:140-154 | The built lists file every edge exactly once: in the out-list of its start and in the in-list of its end, nowhere else, in input order. |
| `Graph.FiledListEmpty` | src/main/java/chains/ChainsMethod.java:148-154 | A vertex's list is empty exactly when no edge has that vertex as its endpoint. |
| `Graph.BuildAdjacency` | src/main/java/chains/ChainsMethod.java:140-154 | The loop returns the in- and out-lists the edges define and sets every weight to 1. |
| `Weights.SummarizeWeight` | src/main/java/chains/ChainsMethod.java:73-80 | The method returns the sum of the current weights over the list. |
| `Weights.SumPermutation` | src/main/java/chains/ChainsMethod.java:73-80 | A sum does not depend on the order of the list, so sorting a list keeps its sum. |
| `Weights.FirstPositive` | src/main/java/chains/ChainsMethod.java:83-92 | The result is the position where the scan stops: every earlier edge has no weight left, and the edge there, if any, has some. |
| `Weights.TopLeft` | src/main/java/chains/ChainsMethod.java:82-95 | The chosen edge is in the list. It has positive weight whenever some listed edge does. Every edge before it has none. When no edge has weight left it is the list's first edge. |
| `Weights.TopLeftEdge` | src/main/java/chains/ChainsMethod.java:82-95 | The while loop returns exactly `TopLeft` of the current weights. |
| `Weights.SortEdges` | src/main/java/chains/ChainsMethod.java:97-100 | `sortEdges` returns a permutation of its list. |
| `Weights.SortEdgesOrders` | src/main/java/chains/ChainsMethod.java:97-100 | The result is in descending rotation and stable on equal rotations. |
| `Weights.SortEdgesTwice` | src/main/java/chains/ChainsMethod.java:180-182 | Sorting an already sorted out-list again, as the copies do, changes nothing. |
| `Balancer.ForwardStepSumAt` | src/main/java/chains/ChainsMethod.java:157-163 | When every out-edge of `i` still weighs 1, one forward step leaves `i` sending the larger of what it receives and its out-degree. |
| `Balancer.ForwardVisit` | src/main/java/chains/ChainsMethod.java:157-163 | The loop body leaves exactly the state `ForwardStep` describes. |
| `Balancer.ForwardPass` | src/main/java/chains/ChainsMethod.java:156-164 | The loop over `1 .. size-2` leaves exactly the state `ForwardFrom(..., 1)` describes. |
| `Balancer.BackwardStepSumAt` | src/main/java/chains/ChainsMethod.java:167-173 | One backward step leaves `i` receiving the larger of what it received before the step and what it sends. |
| `Balancer.BackwardVisit` | src/main/java/chains/ChainsMethod.java:167-173 | The loop body leaves exactly the state `BackwardStep` describes. |
| `Balancer.BackwardPass` | src/main/java/chains/ChainsMethod.java:166-174 | The downward loop from `from` to just above `stop` leaves exactly the state `BackwardFrom` describes. |
| `Balancer.ForwardPassBalances` | src/main/java/chains/ChainsMethod.java:156-164 | After the forward pass, every interior vertex sends the larger of what it receives and its out-degree. No weight falls below 1. Only the first sorted out-edge of an interior vertex can weigh more than 1. |
| `Balancer.ForwardPassFeedsBackward` | src/main/java/chains/ChainsMethod.java:156-174 | After the forward pass, every vertex above `stop` that sends also receives, so the backward pass's `edgesIn.get(i).get(0)` never fails. |
| `Balancer.BackwardPassBalances` | src/main/java/chains/ChainsMethod.java:166-174 | Every visited vertex receives the larger of what it received and what it sends. The out-lists are kept. No weight drops. Only the first sorted in-edge of a visited vertex changes. |
| `Balancer.SinkSendsNothing` | src/main/java/chains/ChainsMethod.java:148-154 | Since every edge climbs, the highest vertex's out-list is empty. |
| `Balancer.Balanced` | src/main/java/chains/ChainsMethod.java:156-174 | Both passes, with the backward pass stopping above any `stop`, keep one list per vertex and one weight per edge. |
| `Balancer.BalancedShape` | src/main/java/chains/ChainsMethod.java:156-174 | After both passes, for any `stop`: every weight is at least 1. Every interior vertex above `stop` balances. Every interior vertex at or below `stop` receives no more than it sends. The out-lists are the sorted ones, and the lists still file every edge once. |
| `Balancer.IntendedPassesBalance` | src/main/java/chains/ChainsMethod.java:166-174 | When the backward loop runs down to vertex 1 inclusive, every interior vertex receives exactly what it sends. |
| `Extractor.WalkPath` | src/main/java/chains/ChainsMethod.java:102-111 | A walk that reaches the sink follows a path of edges from where it started to the sink, each edge leaving that vertex or one above it. |
| `Extractor.WalkSpends` | src/main/java/chains/ChainsMethod.java:106-108 | A finished walk lowers the weight of each of its edges by exactly 1 and leaves every other weight alone. |
| `Extractor.WalkDeadEnd` | src/main/java/chains/ChainsMethod.java:102-111 | A walk fails only at a vertex below the sink whose out-list is empty, where `edges.get(0)` throws. |
| `Extractor.WalkReachesSink` | src/main/java/chains/ChainsMethod.java:102-111 | With no empty out-list between the start and the sink, the walk reaches the sink. |
| `Extractor.WalkTakesTopLeft` | src/main/java/chains/ChainsMethod.java:106 | Every chain edge is `topLeftEdge` of its start's out-list under the weights before the walk, because a walk never returns to a vertex. |
| `Extractor.CreateChain` | src/main/java/chains/ChainsMethod.java:102-111 | The loop builds `WalkFrom`'s chain, leaves its weights in the array, and reports a stuck walk exactly when `WalkFrom` fails. |
| `Extractor.OrderCopies` | src/main/java/chains/ChainsMethod.java:179-182 | One sorted copy per out-list; the out-lists themselves are untouched. |
| `Extractor.ExtractFrom` | src/main/java/chains/ChainsMethod.java:184-187 | A successful extraction of `k` chains yields `max(k, 0)` chains and one weight per edge. |
| `Extractor.ExtractChains` | src/main/java/chains/ChainsMethod.java:184-187 | The loop of `chainsCount` calls of `createChain` yields exactly `ExtractFrom`'s chains and weights, or reports the failure `ExtractFrom` reports. |
| `Flow.WalkFollowsFlow` | src/main/java/chains/ChainsMethod.java:102-111 | In a network where every interior vertex sends at least what it receives (exactly that above `stop`), a walk with weight to send reaches the sink. It takes only edges of positive weight and keeps that flow condition. The source sends one unit less and the sink receives one unit less. |
| `Flow.ExtractionFollowsFlow` | src/main/java/chains/ChainsMethod.java:184-187 | Under the same flow condition, extracting `k` chains, with `k` at most what the source sends, succeeds. Every chain goes from source to sink. Each edge loses one unit per chain that holds it. The flow condition holds after. |
| `Flow.NoFlowLeft` | src/main/java/chains/ChainsMethod.java:177-187 | Once the source sends nothing in a network where every interior vertex sends exactly what it receives, every edge's weight is 0. |
| `Flow.ChainsSpendEverything` | src/main/java/chains/ChainsMethod.java:177-187 | In a network where every interior vertex sends exactly what it receives, extracting as many chains as the source sends spends every weight. Every edge lies on exactly as many chains as its weight. The sink receives what the source sends. |
| `Locator.CrossIsAngleOrder` | src/main/java/chains/ChainsMethod.java:118-122 | For two upward vectors, the cross product of the edge vector and the point vector is positive exactly when the point vector's cotangent `px / py` is below the edge vector's `ex / ey`. |
| `Locator.ChainHitMeans` | src/main/java/chains/ChainsMethod.java:117-126 | The inner loop finds a hit in a chain exactly when some edge of the chain spans the point's ordinate strictly and has the point on its left. |
| `Locator.LocateFindsFirstHit` | src/main/java/chains/ChainsMethod.java:113-129 | The answer is `Between(p - 1, p)` exactly when `p` is the first chain with a hit. It is `Outside` exactly when no chain has one. |
| `Locator.FindPoint` | src/main/java/chains/ChainsMethod.java:113-129 | The two nested loops return exactly `Locate`. |
| `Pipeline.DrawableRanks` | src/main/java/chains/ChainsMethod.java:136-150 | Ranking a drawable input gives one ranked vertex per point and an arena whose every endpoint is a rank below the vertex count; that the arena climbs and is regular for `stop` is carried over from `Drawable` unchanged. |
| `Pipeline.LoadedIsPrepared` | src/main/java/chains/ChainsMethod.java:140-154 | The loaded state files every edge once with weight 1, and a graph regular for `stop` gives both passes what lines 162 and 172 need: every interior vertex with an in-list has an out-list, and every vertex above `stop` with an out-list has an in-list. |
| `Pipeline.FiledStateRegular` | src/main/java/chains/ChainsMethod.java:148-174 | On lists that file every edge once, regularity for `stop` is exactly the non-empty lists that lines 162 and 172 read. |
| `Pipeline.BalancedNetwork` | src/main/java/chains/ChainsMethod.java:156-182 | After both passes, for any `stop`, the sorted copies and the in-lists form a network with non-negative weights in which every interior vertex sends at least what it receives, and exactly that above `stop`. The source sends over the copies what it sends over its list. |
| `Pipeline.NetworkCarriesChains` | src/main/java/chains/ChainsMethod.java:177-187 | Under that flow condition, extraction of as many chains as the source sends succeeds. Each chain runs from source to sink, each edge lies on at most as many chains as its weight, and the sink receives at least what the source sends. |
| `Pipeline.NetworkDrains` | src/main/java/chains/ChainsMethod.java:177-187 | Extraction over a network where every interior vertex sends exactly what it receives spends it completely, including the graph with no edges. |
| `Pipeline.ChainsReachSink` | src/main/java/chains/ChainsMethod.java:156-187 | After both passes with either bound, including `main`'s `stop = 1`: extraction succeeds with `chainsCount` chains. Each runs from the source to the sink. Each edge lies on at most as many chains as its weight. The sink receives at least what the source sends. |
| `Pipeline.ChainsCoverGraph` | src/main/java/chains/ChainsMethod.java:156-187 | After both passes with `stop = 0`: extraction succeeds with `chainsCount` chains. Each chain runs from the source to the sink. Each edge lies on exactly as many chains as its weight, which is at least 1. The sink receives what the source sends. |
| `Pipeline.Load` | src/main/java/chains/ChainsMethod.java:136-154 | The vertex sort and the adjacency loop give the ranked vertices and arena, a fresh weight array of ones, and the adjacency lists. The arena climbs and is regular for `stop`. |
| `Pipeline.Balance` | src/main/java/chains/ChainsMethod.java:156-174 | Both passes in place, the backward pass stopping above `stop`, give `Balanced(..., stop)`. |
| `Pipeline.Extract` | src/main/java/chains/ChainsMethod.java:176-187 | For either bound: `chainsCount` is the weight the source sends. The chains are the ones `ChainsOf(..., stop)` specifies, and extraction never reports a failure. |
| `Pipeline.BalanceAndExtract` | src/main/java/chains/ChainsMethod.java:156-187 | On a loaded graph, balancing and extraction give the weights of `BalancedLoad(..., stop)`, the chains of `ChainsOfLoad(..., stop)`, and the weight the source sends as `chainsCount`. |
| `Pipeline.LoadedChains` | src/main/java/chains/ChainsMethod.java:156-187 | On a loaded graph, for either bound: every balanced weight is at least 1, the source's list is its adjacency list, `chainsCount` chains are extracted, each a path from source to sink, each edge on at most its weight of them, and the sink receives at least `chainsCount`. With `stop = 0` both become equalities. |
| `Pipeline.PathsWithin` | src/main/java/chains/ChainsMethod.java:184-187 | Chains that are paths of climbing edges hold only edges of the arena. |
| `Pipeline.RunLoaded` | src/main/java/chains/ChainsMethod.java:156-191 | On a loaded graph, the result of `Run` past the adjacency loop: the same properties as `LoadedChains`, and the answer is `Locate` over the chains. |
| `Pipeline.Run` | src/main/java/chains/ChainsMethod.java:131-191 | For a drawable graph and either bound, `main` counts `chainsCount` chains, as many as the source sends. Every chain is a path from source to sink. Every edge lies on at most as many chains as its balanced weight, which is at least 1, and the sink receives at least `chainsCount`. With `stop = 0`, the chain method's bound, every edge lies on exactly as many chains as its weight and the sink receives exactly `chainsCount`. The answer for the query is `Locate` over those chains. |
| `Findings.AsWrittenLeavesVertexOneShort` | src/main/java/chains/ChainsMethod.java:166-174 | On the five-vertex `Diamond` graph, with the loop as written, vertex 1 receives 1 but sends 2. The source sends 1 chain, but 2 units reach the sink. |
| `Findings.AsWrittenExtractsOneChain` | src/main/java/chains/ChainsMethod.java:166-187 | On `Diamond`, with the loop as written, extraction succeeds with a single chain, and the edge 1 -> 2, of weight 2, lies on fewer chains than its weight. |
| `Findings.IntendedDiamondWeights` | src/main/java/chains/ChainsMethod.java:156-174 | With the backward loop down to vertex 1, both passes leave `Diamond` with weights `[2, 2, 1, 1, 1]`. |
| `Findings.IntendedBalancesDiamond` | src/main/java/chains/ChainsMethod.java:166-174 | With the corrected bound, every interior vertex of `Diamond` balances, and the source sends the 2 chains that reach the sink. |

## Left out

- Reading `verts.txt` and `edges.txt`, and printing: I/O. The points and
  edges are parameters of `Pipeline.Run`.
- The query point `(8, 18)`: also a parameter of `Pipeline.Run`, and the
  printed message becomes the `Location` value.
- `Math.atan2`: floating-point arithmetic.
  - An edge's rotation is an input value of the arena.
  - The side test in `findPoint` is the sign of the cross product. Both
    vectors point upwards there because of the strict ordinate test.
- Locator.CrossIsAngleOrder: proves that the sign of the cross product is
  the comparison of the cotangents `px / py < ex / ey`. That this is the
  `atan2` comparison, because `atan2` falls strictly as `x / y` grows for
  upward vectors, is not proved: the model has no trigonometry.
- Point coordinates as `double`: modelled as `real`. The order of
  `Double.compare` that `Comparator.comparingDouble` uses in the vertex sort
  (line 136), with -0.0 before 0.0 and NaN last, is not captured:
  `SortVertices` treats -0.0 and 0.0 as equal and keeps their input order.
  A NaN ordinate in the strict span test (line 118) is not captured either.
- Weights as `double`, and the `(int)` cast of `chainsCount`: weights are
  integers. Every weight the program computes is a whole number, so the
  cast is the identity.
- `List.sort` (TimSort): modelled as a stable insertion sort written as a
  function. Only the contract of `List.sort` matters: stable, ordered, a
  permutation.
- Pipeline.Run: requires a drawable graph for `stop`. Inputs outside it are
  not modelled. Drawable means:
  - at least one vertex (otherwise `edgesOut.get(0)` at line 177 throws);
  - every endpoint is one of the vertices (otherwise `indexOf` gives -1
    and `get` at line 151 or 152 throws). `Edge.readEdges` is not part of
    this model;
  - after ranking, every edge climbs from a lower rank to a higher one.
    `Graph.RisingEdgesClimb` shows that a strict rise in ordinate is
    enough. An edge the stable sort ranks downwards (a falling
    edge, or a horizontal edge whose end is loaded before its start) is
    excluded, and what Java does with it is not captured;
  - the graph is regular for `stop`: every interior vertex that receives
    an edge sends one, and every interior vertex above `stop` that sends
    an edge receives one. These are exactly the conditions under which
    `get(0)` at lines 162 and 172 does not throw (`FiledStateRegular`).
- `ExtractChains` and `CreateChain` do model the empty-out-list failure,
  as `failed`/`stuck`. `Pipeline.Extract` proves it never happens after
  balancing, for either bound.
- Object identity of `Point` objects, which `indexOf` relies on: each
  vertex is its position in the loaded list, so identical coordinates never
  merge.
- `wIn` and `wOut` fields of `Point`: kept as local sums. They are only
  read inside the step that computes them.
- The backward bound is a parameter: `main` as written is
  `Run(..., WrittenStop(|points|))`. With a single vertex neither bound
  visits anything, so `WrittenStop(1)` is 0.

## Findings

| source | as written | input that shows it | evidently intended | confidence | as-written member | corrected member |
|---|---|---|---|---|---|---|
| src/main/java/chains/ChainsMethod.java:166 | The backward loop `for (i = size - 1; i > 1; i--)` never visits vertex 1. Vertex 1 can then send more than it receives, and the source sends fewer chains than the sink receives. | Vertices 0..4 ranked by ordinate. Edges 0→1, 1→2, 2→3, 2→4, 3→4, with 2→3 left of 2→4. Vertex 2 raises edge 1→2 to 2, but the loop stops before vertex 1. `chainsCount` is then 1 although 2 units reach the sink. | The loop runs down to vertex 1 inclusive (`i >= 1`), as the balancing step of the chain method requires. Every interior vertex then balances. | not executed | `Findings.AsWrittenLeavesVertexOneShort` | `Balancer.IntendedPassesBalance` |
