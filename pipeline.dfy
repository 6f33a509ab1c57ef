/**
 * The whole of `main` after the input is read (lines 134-190): sort the
 * vertices, build the adjacency lists, balance the weights, count the
 * chains, extract them and locate the query point. The backward pass stops
 * above a vertex `stop`: `WrittenStop(n)` is the loop as written, 0 the
 * loop down to vertex 1 inclusive (see `Findings`). For either bound
 * `ChainsReachSink` proves that extraction succeeds with `chainsCount`
 * chains from the lowest vertex to the highest; for the bound 0
 * `ChainsCoverGraph` states what the chain method is for: every edge lies
 * on as many chains as its weight, which is at least one.
 */
module Pipeline {
  import opened Graph
  import opened Weights
  import opened Balancer
  import opened Extractor
  import opened Flow
  import opened Locator

  /** The copies `sortEdges(new ArrayList<>(v))` of every out-list (lines 180-182). */
  function SortedCopies(arena: seq<Edge>, lists: seq<seq<nat>>): seq<seq<nat>>
    requires forall v :: 0 <= v < |lists| ==> Within(lists[v], |arena|)
  {
    seq(|lists|, v requires 0 <= v < |lists| => SortEdges(arena, lists[v]))
  }

  /**
   * The bound of the backward loop as written, `i > 1` (line 166): it
   * stops above vertex 1, and with a single vertex it visits nothing, just
   * as a stop at vertex 0 would.
   */
  function WrittenStop(n: nat): (stop: nat)
    ensures n >= 1 ==> stop < n
    ensures n >= 2 ==> stop == 1
  {
    if n >= 2 then 1 else 0
  }

  /**
   * The graphs both passes run on without an exception when the backward
   * pass stops above `stop`: every interior vertex that receives an edge
   * sends one (line 162), and every interior vertex above `stop` that sends
   * an edge receives one (line 172).
   */
  predicate Regular(arena: seq<Edge>, n: nat, stop: int)
  {
    forall v :: 0 < v < n - 1 ==>
      && (Receives(arena, v) ==> Sends(arena, v))
      && (stop < v ==> Sends(arena, v) ==> Receives(arena, v))
  }

  /** Some edge ends at vertex `v`. */
  predicate Receives(arena: seq<Edge>, v: nat)
  {
    exists e :: 0 <= e < |arena| && arena[e].end == v
  }

  /** Some edge starts at vertex `v`. */
  predicate Sends(arena: seq<Edge>, v: nat)
  {
    exists e :: 0 <= e < |arena| && arena[e].start == v
  }

  /**
   * After both passes, the sorted copies of the out-lists and the in-lists
   * form a network with non-negative weights in which every interior vertex
   * above `stop` sends what it receives and every one at or below `stop`
   * sends at least that much; over the copies the lowest vertex sends what
   * it sends over its list.
   */
  lemma BalancedNetwork(arena: seq<Edge>, n: nat, st0: State, stop: int)
    requires PreparedFor(arena, n, st0, stop)
    ensures var b := Balanced(arena, n, st0, stop);
      var ordered := SortedCopies(arena, b.edgesOut);
      && Network(arena, n, b.edgesIn, ordered, b.weight) && NonNegative(b.weight)
      && Conserved(arena, n, b.edgesIn, ordered, b.weight, stop)
      && Sum(b.weight, ordered[0]) == Sum(b.weight, b.edgesOut[0])
  {
    var b := Balanced(arena, n, st0, stop);
    var ordered := SortedCopies(arena, b.edgesOut);
    BalancedShape(arena, n, st0, stop);
    FilesAfterReordering(arena, b.edgesOut, ordered, true);
    FiledEndpointsWithin(arena, b.edgesOut, b.edgesIn, n);
    forall v | 0 <= v < n ensures Sum(b.weight, ordered[v]) == Sum(b.weight, b.edgesOut[v]) {
      SumPermutation(b.weight, b.edgesOut[v], ordered[v]);
    }
  }

  /**
   * The chains `main` extracts (lines 177-187): as many walks from the
   * lowest vertex as the lowest vertex sends after both passes, over the
   * sorted copies of the out-lists.
   */
  ghost function ChainsOf(arena: seq<Edge>, n: nat, st0: State, stop: int): Extraction
    requires PreparedFor(arena, n, st0, stop)
  {
    var b := Balanced(arena, n, st0, stop);
    BalancedNetwork(arena, n, st0, stop);
    ExtractFrom(arena, n, SortedCopies(arena, b.edgesOut), b.weight, Sum(b.weight, b.edgesOut[0]))
  }

  /** An edge needs two vertices: it climbs from one to another. */
  lemma EdgesNeedTwoVertices(arena: seq<Edge>, n: nat, ins: seq<seq<nat>>, ordered: seq<seq<nat>>, w: seq<int>)
    requires Network(arena, n, ins, ordered, w) && |arena| > 0
    ensures n >= 2
  {
    assert arena[0].start < arena[0].end < n;
  }

  /**
   * Extraction over a network whose interior vertices each send at least
   * what they receive, with at least one vertex: as many chains as the
   * lowest vertex sends, each a path from the lowest vertex to the highest,
   * each edge on no more of them than its weight, and the highest vertex
   * receives at least what the lowest sends.
   */
  lemma NetworkCarriesChains(arena: seq<Edge>, n: nat, ins: seq<seq<nat>>, ordered: seq<seq<nat>>, w: seq<int>, stop: int, r: Extraction)
    requires Network(arena, n, ins, ordered, w) && NonNegative(w) && n >= 1
    requires Conserved(arena, n, ins, ordered, w, stop)
    requires r == ExtractFrom(arena, n, ordered, w, Sum(w, ordered[0]))
    ensures r.Extracted? && |r.chains| == Sum(w, ordered[0])
    ensures forall i :: 0 <= i < |r.chains| ==> Path(arena, r.chains[i], 0, n - 1)
    ensures forall x :: 0 <= x < |w| ==> Uses(r.chains, x) <= w[x]
    ensures Sum(w, ordered[0]) <= Sum(w, ins[n - 1])
  {
    if |arena| == 0 {
      FiledListEmpty(arena, ordered, true, 0);
      FiledListEmpty(arena, ins, false, n - 1);
    } else {
      EdgesNeedTwoVertices(arena, n, ins, ordered, w);
      var k := Sum(w, ordered[0]);
      SumNonNegative(w, ordered[0]);
      ExtractionFollowsFlow(arena, n, ins, ordered, w, stop, k, r);
      SumNonNegative(r.weight, ins[n - 1]);
    }
  }

  /**
   * Extraction over a conserving network with at least one vertex uses up
   * the flow: the flow out of the lowest vertex becomes that many chains
   * from the lowest vertex to the highest, each edge lies on as many of
   * them as its weight, and the highest vertex receives the same flow.
   */
  lemma NetworkDrains(arena: seq<Edge>, n: nat, ins: seq<seq<nat>>, ordered: seq<seq<nat>>, w: seq<int>, r: Extraction)
    requires Network(arena, n, ins, ordered, w) && NonNegative(w) && n >= 1
    requires Conserved(arena, n, ins, ordered, w, 0)
    requires r == ExtractFrom(arena, n, ordered, w, Sum(w, ordered[0]))
    ensures r.Extracted? && |r.chains| == Sum(w, ordered[0])
    ensures forall i :: 0 <= i < |r.chains| ==> Path(arena, r.chains[i], 0, n - 1)
    ensures forall x :: 0 <= x < |w| ==> Uses(r.chains, x) == w[x]
    ensures Sum(w, ins[n - 1]) == Sum(w, ordered[0])
  {
    if |arena| == 0 {
      FiledListEmpty(arena, ordered, true, 0);
      FiledListEmpty(arena, ins, false, n - 1);
    } else {
      EdgesNeedTwoVertices(arena, n, ins, ordered, w);
      ChainsSpendEverything(arena, n, ins, ordered, w, r);
    }
  }

  /**
   * For either bound of the backward pass, the program as written included:
   * extraction never gets stuck, there are as many chains as the lowest
   * vertex sends, each chain is a path from the lowest vertex to the
   * highest, no edge lies on more chains than its weight, and the highest
   * vertex receives at least what the lowest sends.
   */
  lemma ChainsReachSink(arena: seq<Edge>, n: nat, st0: State, stop: int)
    requires PreparedFor(arena, n, st0, stop)
    ensures var b, r := Balanced(arena, n, st0, stop), ChainsOf(arena, n, st0, stop);
      && r.Extracted? && |r.chains| == Sum(b.weight, b.edgesOut[0])
      && (forall i :: 0 <= i < |r.chains| ==> Path(arena, r.chains[i], 0, n - 1))
      && (forall x :: 0 <= x < |arena| ==> Uses(r.chains, x) <= b.weight[x])
      && Sum(b.weight, b.edgesOut[0]) <= Sum(b.weight, b.edgesIn[n - 1])
  {
    var b := Balanced(arena, n, st0, stop);
    BalancedNetwork(arena, n, st0, stop);
    NetworkCarriesChains(arena, n, b.edgesIn, SortedCopies(arena, b.edgesOut), b.weight, stop, ChainsOf(arena, n, st0, stop));
  }

  /**
   * What the chain method promises, with the backward pass run down to
   * vertex 1 inclusive: extraction never gets stuck, there are as many
   * chains as the lowest vertex sends, each chain is a path from the lowest
   * vertex to the highest, each edge lies on exactly as many chains as its
   * weight and so on at least one, and the highest vertex receives as much
   * as the lowest sends.
   */
  lemma ChainsCoverGraph(arena: seq<Edge>, n: nat, st0: State)
    requires PreparedFor(arena, n, st0, 0)
    ensures var b, r := Balanced(arena, n, st0, 0), ChainsOf(arena, n, st0, 0);
      && r.Extracted? && |r.chains| == Sum(b.weight, b.edgesOut[0])
      && (forall i :: 0 <= i < |r.chains| ==> Path(arena, r.chains[i], 0, n - 1))
      && (forall x :: 0 <= x < |arena| ==> Uses(r.chains, x) == b.weight[x] >= 1)
      && Sum(b.weight, b.edgesIn[n - 1]) == Sum(b.weight, b.edgesOut[0])
  {
    var b := Balanced(arena, n, st0, 0);
    BalancedNetwork(arena, n, st0, 0);
    BalancedShape(arena, n, st0, 0);
    NetworkDrains(arena, n, b.edgesIn, SortedCopies(arena, b.edgesOut), b.weight, ChainsOf(arena, n, st0, 0));
  }

  /**
   * The input the program can process when the backward pass stops above
   * `stop`: at least one vertex, every edge joining two loaded vertices,
   * and, once the vertices are ranked, every edge climbing from a lower
   * rank to a higher one and the graph regular for `stop`.
   */
  predicate Drawable(points: seq<Point>, edges: seq<Edge>, stop: int)
  {
    && |points| >= 1 && EndpointsWithin(edges, |points|) && 0 <= stop < |points|
    && Upward(Ranked(edges, Ranks(SortVertices(points))))
    && Regular(Ranked(edges, Ranks(SortVertices(points))), |points|, stop)
  }

  /** The state the adjacency loop (lines 140-154) leaves: the lists of every vertex and every weight 1. */
  function Loaded(arena: seq<Edge>, n: nat): State
  {
    State(seq(|arena|, _ => 1), AdjacencyLists(arena, n, false), AdjacencyLists(arena, n, true))
  }

  /** The adjacency loop of a graph of climbing edges, regular for `stop`, prepares both passes. */
  lemma LoadedIsPrepared(arena: seq<Edge>, n: nat, stop: int)
    requires EndpointsWithin(arena, n) && Upward(arena) && Regular(arena, n, stop) && 0 <= stop < n
    ensures PreparedFor(arena, n, Loaded(arena, n), stop)
  {
    var st := Loaded(arena, n);
    AdjacencyListsFileEveryEdgeOnce(arena, n);
    assert Filed(arena, n, st);
    FiledStateRegular(arena, n, stop, st);
  }

  /** On a state that files every edge once, regularity reads as which lists are empty. */
  lemma FiledStateRegular(arena: seq<Edge>, n: nat, stop: int, st: State)
    requires Regular(arena, n, stop) && Filed(arena, n, st) && 0 <= stop < n
    ensures forall v :: 0 < v < n - 1 ==> (st.edgesIn[v] != [] ==> st.edgesOut[v] != [])
    ensures ReceivesWhereSends(st, stop, n - 1)
  {
    SinkSendsNothing(arena, n, st);
    forall v | 0 < v < n - 1
      ensures st.edgesIn[v] != [] ==> st.edgesOut[v] != []
      ensures stop < v ==> st.edgesOut[v] != [] ==> st.edgesIn[v] != []
    {
      FiledListEmpty(arena, st.edgesIn, false, v);
      FiledListEmpty(arena, st.edgesOut, true, v);
      assert Receives(arena, v) ==> Sends(arena, v);
      assert stop < v ==> Sends(arena, v) ==> Receives(arena, v);
    }
  }

  /** Both passes over the loaded state. */
  function BalancedLoad(arena: seq<Edge>, n: nat, stop: int): State
    requires EndpointsWithin(arena, n) && Upward(arena) && Regular(arena, n, stop) && 0 <= stop < n
  {
    LoadedIsPrepared(arena, n, stop);
    Balanced(arena, n, Loaded(arena, n), stop)
  }

  /** The chains extracted after both passes over the loaded state. */
  ghost function ChainsOfLoad(arena: seq<Edge>, n: nat, stop: int): Extraction
    requires EndpointsWithin(arena, n) && Upward(arena) && Regular(arena, n, stop) && 0 <= stop < n
  {
    LoadedIsPrepared(arena, n, stop);
    ChainsOf(arena, n, Loaded(arena, n), stop)
  }

  /**
   * Lines 136-154: sort the vertices by ordinate, re-express every edge by
   * the ranks of its endpoints, and build the adjacency lists with every
   * weight 1.
   */
  method Load(points: seq<Point>, edges: seq<Edge>, ghost stop: int)
    returns (vertices: seq<Point>, arena: seq<Edge>, weight: array<int>, edgesIn: seq<seq<nat>>, edgesOut: seq<seq<nat>>)
    requires Drawable(points, edges, stop)
    ensures |vertices| == |points|
    ensures vertices == RankedVertices(points, SortVertices(points))
    ensures arena == Ranked(edges, Ranks(SortVertices(points)))
    ensures EndpointsWithin(arena, |vertices|) && Upward(arena) && Regular(arena, |vertices|, stop)
    ensures fresh(weight) && State(weight[..], edgesIn, edgesOut) == Loaded(arena, |vertices|)
  {
    var order := SortVertices(points);
    vertices := RankedVertices(points, order);
    arena := Ranked(edges, Ranks(order));
    DrawableRanks(points, edges, stop);
    weight := new int[|arena|];
    edgesIn, edgesOut := BuildAdjacency(arena, |vertices|, weight);
    assert weight[..] == seq(|arena|, _ => 1);
  }

  /** Ranking the vertices of a drawable graph gives a ranked arena whose endpoints are ranks. */
  lemma DrawableRanks(points: seq<Point>, edges: seq<Edge>, stop: int)
    requires Drawable(points, edges, stop)
    ensures var order := SortVertices(points);
      && |RankedVertices(points, order)| == |points|
      && var arena := Ranked(edges, Ranks(order));
      EndpointsWithin(arena, |points|) && Upward(arena) && Regular(arena, |points|, stop)
  {
    var order := SortVertices(points);
    var rank := Ranks(order);
    assert forall h :: 0 <= h < |rank| ==> rank[h] < |rank|;
  }

  /**
   * Lines 156-174: the forward pass, then the backward pass from the top
   * vertex down to, but not including, `stop`.
   */
  method Balance(arena: seq<Edge>, n: nat, weight: array<int>, edgesIn: seq<seq<nat>>, edgesOut: seq<seq<nat>>, stop: int)
    returns (sortedIn: seq<seq<nat>>, sortedOut: seq<seq<nat>>)
    requires PreparedFor(arena, n, State(weight[..], edgesIn, edgesOut), stop)
    modifies weight
    ensures State(weight[..], sortedIn, sortedOut) == Balanced(arena, n, State(old(weight[..]), edgesIn, edgesOut), stop)
  {
    ghost var st0 := State(weight[..], edgesIn, edgesOut);
    ForwardPassFeedsBackward(arena, n, st0, stop);
    sortedOut := ForwardPass(arena, n, weight, edgesIn, edgesOut);
    sortedIn := BackwardPass(arena, n, weight, edgesIn, sortedOut, n - 1, stop);
  }

  /**
   * Lines 177-187: count the chains as the weight the lowest vertex sends,
   * copy and sort every out-list, and extract that many chains. After both
   * passes extraction never gets stuck, whichever the bound.
   */
  method Extract(arena: seq<Edge>, n: nat, weight: array<int>, edgesOut: seq<seq<nat>>, ghost st0: State, ghost stop: int)
    returns (chains: seq<seq<nat>>, chainsCount: int)
    requires PreparedFor(arena, n, st0, stop)
    requires weight[..] == Balanced(arena, n, st0, stop).weight && edgesOut == Balanced(arena, n, st0, stop).edgesOut
    modifies weight
    ensures chainsCount == Sum(old(weight[..]), edgesOut[0])
    ensures ChainsOf(arena, n, st0, stop).Extracted? && chains == ChainsOf(arena, n, st0, stop).chains
  {
    BalancedNetwork(arena, n, st0, stop);
    chainsCount := SummarizeWeight(weight, edgesOut[0]);
    var ordered := OrderCopies(arena, edgesOut);
    assert ordered == SortedCopies(arena, edgesOut);
    ChainsReachSink(arena, n, st0, stop);
    var failed;
    chains, failed := ExtractChains(arena, n, ordered, weight, chainsCount);
    assert !failed;
  }

  /**
   * Lines 156-187 on a loaded graph: balance, then extract the chains; the
   * results are those of `BalancedLoad` and `ChainsOfLoad`.
   */
  method BalanceAndExtract(arena: seq<Edge>, n: nat, weight: array<int>, edgesIn: seq<seq<nat>>, edgesOut: seq<seq<nat>>, stop: int)
    returns (balanced: seq<int>, chains: seq<seq<nat>>, chainsCount: int)
    requires EndpointsWithin(arena, n) && Upward(arena) && Regular(arena, n, stop) && 0 <= stop < n
    requires State(weight[..], edgesIn, edgesOut) == Loaded(arena, n)
    modifies weight
    ensures balanced == BalancedLoad(arena, n, stop).weight
    ensures ChainsOfLoad(arena, n, stop).Extracted? && chains == ChainsOfLoad(arena, n, stop).chains
    ensures chainsCount == Sum(balanced, BalancedLoad(arena, n, stop).edgesOut[0])
  {
    LoadedIsPrepared(arena, n, stop);
    ghost var st0 := Loaded(arena, n);
    var sortedIn, sortedOut := Balance(arena, n, weight, edgesIn, edgesOut, stop);
    balanced := weight[..];
    chains, chainsCount := Extract(arena, n, weight, sortedOut, st0, stop);
  }

  /**
   * What both passes and the extraction leave on a loaded graph, for the
   * weights `balanced`, the chains `chains` and the count `chainsCount`
   * that `Run` computes.
   */
  lemma LoadedChains(arena: seq<Edge>, n: nat, stop: int, balanced: seq<int>, chains: seq<seq<nat>>, chainsCount: int)
    requires EndpointsWithin(arena, n) && Upward(arena) && Regular(arena, n, stop) && 0 <= stop < n
    requires balanced == BalancedLoad(arena, n, stop).weight
    requires ChainsOfLoad(arena, n, stop).Extracted? && chains == ChainsOfLoad(arena, n, stop).chains
    requires chainsCount == Sum(balanced, BalancedLoad(arena, n, stop).edgesOut[0])
    ensures |balanced| == |arena| && forall x :: 0 <= x < |arena| ==> balanced[x] >= 1
    ensures BalancedLoad(arena, n, stop).edgesOut[0] == AdjacencyLists(arena, n, true)[0]
    ensures chainsCount <= Sum(balanced, BalancedLoad(arena, n, stop).edgesIn[n - 1])
    ensures |chains| == chainsCount && ChainsWithin(chains, |arena|)
    ensures forall i :: 0 <= i < |chains| ==> Path(arena, chains[i], 0, n - 1)
    ensures forall x :: 0 <= x < |arena| ==> Uses(chains, x) <= balanced[x]
    ensures stop == 0 ==> chainsCount == Sum(balanced, BalancedLoad(arena, n, stop).edgesIn[n - 1])
    ensures stop == 0 ==> forall x :: 0 <= x < |arena| ==> Uses(chains, x) == balanced[x]
  {
    LoadedIsPrepared(arena, n, stop);
    var st0 := Loaded(arena, n);
    var b, r := Balanced(arena, n, st0, stop), ChainsOf(arena, n, st0, stop);
    assert BalancedLoad(arena, n, stop) == b && ChainsOfLoad(arena, n, stop) == r;
    BalancedShape(arena, n, st0, stop);
    ChainsReachSink(arena, n, st0, stop);
    if stop == 0 {
      ChainsCoverGraph(arena, n, st0);
    }
    PathsWithin(arena, n, r.chains);
  }

  /** Chains that are paths of climbing edges hold edges of the arena only. */
  lemma PathsWithin(arena: seq<Edge>, n: nat, chains: seq<seq<nat>>)
    requires Upward(arena) && n >= 1 && forall i :: 0 <= i < |chains| ==> Path(arena, chains[i], 0, n - 1)
    ensures ChainsWithin(chains, |arena|)
  {
    forall p | 0 <= p < |chains| ensures Within(chains[p], |arena|) {
      PathClimbs(arena, chains[p], 0, n - 1);
    }
  }

  /**
   * Lines 156-191 on a loaded graph: balance, extract the chains and locate
   * `query`, with the backward pass stopping above `stop`.
   */
  method RunLoaded(vertices: seq<Point>, arena: seq<Edge>, weight: array<int>, edgesIn: seq<seq<nat>>, edgesOut: seq<seq<nat>>, query: Point, stop: int)
    returns (balanced: seq<int>, chains: seq<seq<nat>>, chainsCount: int, loc: Location)
    requires EndpointsWithin(arena, |vertices|) && Upward(arena) && Regular(arena, |vertices|, stop) && 0 <= stop < |vertices|
    requires State(weight[..], edgesIn, edgesOut) == Loaded(arena, |vertices|)
    modifies weight
    ensures balanced == BalancedLoad(arena, |vertices|, stop).weight
    ensures ChainsOfLoad(arena, |vertices|, stop).Extracted? && chains == ChainsOfLoad(arena, |vertices|, stop).chains
    ensures |balanced| == |arena| && forall x :: 0 <= x < |arena| ==> balanced[x] >= 1
    ensures BalancedLoad(arena, |vertices|, stop).edgesOut[0] == AdjacencyLists(arena, |vertices|, true)[0]
    ensures chainsCount == Sum(balanced, BalancedLoad(arena, |vertices|, stop).edgesOut[0])
    ensures chainsCount <= Sum(balanced, BalancedLoad(arena, |vertices|, stop).edgesIn[|vertices| - 1])
    ensures |chains| == chainsCount && ChainsWithin(chains, |arena|)
    ensures forall i :: 0 <= i < |chains| ==> Path(arena, chains[i], 0, |vertices| - 1)
    ensures forall x :: 0 <= x < |arena| ==> Uses(chains, x) <= balanced[x]
    ensures stop == 0 ==> chainsCount == Sum(balanced, BalancedLoad(arena, |vertices|, stop).edgesIn[|vertices| - 1])
    ensures stop == 0 ==> forall x :: 0 <= x < |arena| ==> Uses(chains, x) == balanced[x]
    ensures loc == Locate(vertices, arena, chains, chainsCount, query, 0)
  {
    balanced, chains, chainsCount := BalanceAndExtract(arena, |vertices|, weight, edgesIn, edgesOut, stop);
    ghost var b, r := BalancedLoad(arena, |vertices|, stop), ChainsOfLoad(arena, |vertices|, stop);
    LoadedChains(arena, |vertices|, stop, balanced, chains, chainsCount);
    assert chainsCount <= Sum(balanced, b.edgesIn[|vertices| - 1]);
    assert stop == 0 ==> chainsCount == Sum(balanced, b.edgesIn[|vertices| - 1]);
    assert forall i :: 0 <= i < |chains| ==> Path(arena, chains[i], 0, |vertices| - 1);
    loc := FindPoint(vertices, arena, query, chains, chainsCount);
  }

  /**
   * `main` after the input is read (lines 134-191): load, balance with the
   * backward pass stopping above `stop`, extract the chains and locate
   * `query`. `main` as written is `stop = WrittenStop(|points|)`; the chain
   * method's bound is `stop = 0`, under which the chains also cover the
   * graph exactly.
   */
  method Run(points: seq<Point>, edges: seq<Edge>, query: Point, stop: int)
    returns (vertices: seq<Point>, arena: seq<Edge>, balanced: seq<int>, chains: seq<seq<nat>>, chainsCount: int, loc: Location)
    requires Drawable(points, edges, stop)
    ensures |vertices| == |points|
    ensures vertices == RankedVertices(points, SortVertices(points))
    ensures arena == Ranked(edges, Ranks(SortVertices(points)))
    ensures EndpointsWithin(arena, |vertices|) && Upward(arena) && Regular(arena, |vertices|, stop)
    ensures balanced == BalancedLoad(arena, |vertices|, stop).weight
    ensures ChainsOfLoad(arena, |vertices|, stop).Extracted? && chains == ChainsOfLoad(arena, |vertices|, stop).chains
    ensures |balanced| == |arena| && forall x :: 0 <= x < |arena| ==> balanced[x] >= 1
    ensures BalancedLoad(arena, |vertices|, stop).edgesOut[0] == AdjacencyLists(arena, |vertices|, true)[0]
    ensures chainsCount == Sum(balanced, BalancedLoad(arena, |vertices|, stop).edgesOut[0])
    ensures chainsCount <= Sum(balanced, BalancedLoad(arena, |vertices|, stop).edgesIn[|vertices| - 1])
    ensures |chains| == chainsCount && ChainsWithin(chains, |arena|)
    ensures forall i :: 0 <= i < |chains| ==> Path(arena, chains[i], 0, |vertices| - 1)
    ensures forall x :: 0 <= x < |arena| ==> Uses(chains, x) <= balanced[x]
    ensures stop == 0 ==> chainsCount == Sum(balanced, BalancedLoad(arena, |vertices|, stop).edgesIn[|vertices| - 1])
    ensures stop == 0 ==> forall x :: 0 <= x < |arena| ==> Uses(chains, x) == balanced[x]
    ensures loc == Locate(vertices, arena, chains, chainsCount, query, 0)
  {
    var weight, edgesIn, edgesOut;
    vertices, arena, weight, edgesIn, edgesOut := Load(points, edges, stop);
    balanced, chains, chainsCount, loc := RunLoaded(vertices, arena, weight, edgesIn, edgesOut, query, stop);
  }
}
