/**
 * A five-vertex graph on which the backward loop as written (lines 166-174,
 * which stops before vertex 1) leaves vertex 1 sending more than it
 * receives, so that the source sends out fewer chains than reach the sink;
 * extraction then yields that one chain, which leaves an edge of weight 2
 * used once. With the loop running down to vertex 1 inclusive the same
 * graph balances.
 */
module Findings {
  import opened Sorting
  import opened Graph
  import opened Weights
  import opened Balancer
  import opened Flow
  import opened Pipeline

  /**
   * The ranked arena: 0 -> 1 -> 2, then 2 -> 3 -> 4 on the left and 2 -> 4
   * on the right. Rotations are the angles of the edges, rounded.
   */
  function Diamond(): seq<Edge>
  {
    [Edge(0, 1, 1.57), Edge(1, 2, 1.57), Edge(2, 3, 2.36), Edge(2, 4, 1.57), Edge(3, 4, 0.79)]
  }

  /** Every weight 1, and the in- and out-lists of `Diamond`. */
  function DiamondStart(): State
  {
    State([1, 1, 1, 1, 1], [[], [0], [1], [2], [3, 4]], [[0], [1], [2, 3], [4], []])
  }

  lemma DiamondOutLists()
    ensures AdjacencyLists(Diamond(), 5, true) == DiamondStart().edgesOut
  {
    var a := Diamond();
    assert FiledUnder(a, 0, true, 5) == [0] && FiledUnder(a, 1, true, 5) == [1];
    assert FiledUnder(a, 2, true, 5) == [2, 3] && FiledUnder(a, 3, true, 5) == [4] && FiledUnder(a, 4, true, 5) == [];
  }

  lemma DiamondInLists()
    ensures AdjacencyLists(Diamond(), 5, false) == DiamondStart().edgesIn
  {
    var a := Diamond();
    assert FiledUnder(a, 0, false, 5) == [] && FiledUnder(a, 1, false, 5) == [0];
    assert FiledUnder(a, 2, false, 5) == [1] && FiledUnder(a, 3, false, 5) == [2] && FiledUnder(a, 4, false, 5) == [3, 4];
  }

  /** Every edge of `Diamond` climbs. */
  lemma DiamondClimbs()
    ensures EndpointsWithin(Diamond(), 5) && Upward(Diamond())
  {
    var a := Diamond();
    forall e | 0 <= e < |a| ensures a[e].start < a[e].end < 5 {
      assert e == 0 || e == 1 || e == 2 || e == 3 || e == 4;
    }
  }

  /** The lists of `DiamondStart` file every edge of `Diamond` once under each endpoint. */
  lemma DiamondFiles()
    ensures Files(Diamond(), DiamondStart().edgesOut, true) && Files(Diamond(), DiamondStart().edgesIn, false)
  {
    DiamondClimbs();
    DiamondOutLists();
    DiamondInLists();
    AdjacencyListsFileEveryEdgeOnce(Diamond(), 5);
  }

  /** `DiamondStart` is what the adjacency loop builds for `Diamond`, so the passes may run on it. */
  lemma DiamondPrepared(stop: int)
    requires 0 <= stop <= 1
    ensures PreparedFor(Diamond(), 5, DiamondStart(), stop)
  {
    var a, st := Diamond(), DiamondStart();
    DiamondClimbs();
    DiamondFiles();
    assert forall v :: 0 < v < 4 ==> st.edgesIn[v] != [] && st.edgesOut[v] != [];
    assert Fits(a, 5, st);
    assert ReceivesWhereSends(st, stop, 4);
  }

  /** Sorting a single edge leaves it as it is. */
  lemma SortedSingle(x: nat)
    requires x < 5
    ensures SortEdges(Diamond(), [x]) == [x]
  {
    assert [x][1..] == [];
  }

  /** The two two-edge lists the passes sort are already in descending rotation. */
  lemma SortedPairs()
    ensures SortEdges(Diamond(), [2, 3]) == [2, 3] && SortEdges(Diamond(), [3, 4]) == [3, 4]
  {
    SortedPair(2, 3);
    SortedPair(3, 4);
  }

  /** A pair of edges `x`, `y` of `Diamond` whose rotation keys are in order is left as it is. */
  lemma SortedPair(x: nat, y: nat)
    requires x < 5 && y < 5 && ByRotation(Diamond())(x) < ByRotation(Diamond())(y)
    ensures SortEdges(Diamond(), [x, y]) == [x, y]
  {
    var key := ByRotation(Diamond());
    SortedSingle(y);
    assert [x, y][1..] == [y];
    assert StableSort([x, y], key) == Insert(x, [y], key);
  }

  /** The weights after the backward pass has visited vertices 4, 3 and 2. */
  function AfterVertexTwo(): State
  {
    State([1, 2, 1, 1, 1], DiamondStart().edgesIn, DiamondStart().edgesOut)
  }

  /** The weights after the backward pass has visited vertex 1 as well. */
  function AfterVertexOne(): State
  {
    State([2, 2, 1, 1, 1], DiamondStart().edgesIn, DiamondStart().edgesOut)
  }

  lemma DiamondFits()
    ensures Fits(Diamond(), 5, DiamondStart())
    ensures Fits(Diamond(), 5, AfterVertexTwo()) && Fits(Diamond(), 5, AfterVertexOne())
  {
  }

  /** The sums over the lists of `Diamond`, for any weights. */
  lemma SumsOfDiamond(w: seq<int>)
    requires |w| == 5
    ensures forall x: nat :: x < 5 ==> Sum(w, [x]) == w[x]
    ensures Sum(w, [2, 3]) == w[2] + w[3] && Sum(w, [3, 4]) == w[3] + w[4]
  {
    assert [2, 3][1..] == [3] && [3, 4][1..] == [4];
    forall x: nat | x < 5 ensures Sum(w, [x]) == w[x] {
      assert [x][1..] == [];
    }
  }

  /** At vertex 1 the forward pass sorts a one-edge list and raises nothing. */
  lemma DiamondForwardAtOne()
    requires Fits(Diamond(), 5, DiamondStart()) && SendsWhereReceives(DiamondStart(), 1, 4)
    ensures ForwardFrom(Diamond(), 5, DiamondStart(), 1) == ForwardFrom(Diamond(), 5, DiamondStart(), 2)
    ensures SendsWhereReceives(DiamondStart(), 2, 4)
  {
    var a, st := Diamond(), DiamondStart();
    SumsOfDiamond(st.weight);
    SortedSingle(1);
    assert ForwardStep(a, 5, st, 1) == st;
    ForwardFromStep(a, 5, st, 1);
  }

  /** At vertex 2 the forward pass sorts a sorted pair and raises nothing. */
  lemma DiamondForwardAtTwo()
    requires Fits(Diamond(), 5, DiamondStart()) && SendsWhereReceives(DiamondStart(), 2, 4)
    ensures ForwardFrom(Diamond(), 5, DiamondStart(), 2) == ForwardFrom(Diamond(), 5, DiamondStart(), 3)
    ensures SendsWhereReceives(DiamondStart(), 3, 4)
  {
    var a, st := Diamond(), DiamondStart();
    SumsOfDiamond(st.weight);
    SortedPairs();
    assert ForwardStep(a, 5, st, 2) == st;
    ForwardFromStep(a, 5, st, 2);
  }

  /** At vertex 3 the forward pass sorts a one-edge list and raises nothing. */
  lemma DiamondForwardAtThree()
    requires Fits(Diamond(), 5, DiamondStart()) && SendsWhereReceives(DiamondStart(), 3, 4)
    ensures ForwardFrom(Diamond(), 5, DiamondStart(), 3) == DiamondStart()
  {
    var a, st := Diamond(), DiamondStart();
    SumsOfDiamond(st.weight);
    SortedSingle(4);
    assert ForwardStep(a, 5, st, 3) == st;
    ForwardFromStep(a, 5, st, 3);
  }

  /** The forward pass changes nothing on `Diamond`: every interior vertex already sends what it receives. */
  lemma DiamondForward()
    ensures Fits(Diamond(), 5, DiamondStart()) && SendsWhereReceives(DiamondStart(), 1, 4)
    ensures ForwardFrom(Diamond(), 5, DiamondStart(), 1) == DiamondStart()
  {
    DiamondFits();
    DiamondForwardAtOne();
    DiamondForwardAtTwo();
    DiamondForwardAtThree();
  }

  /** At the sink the backward pass sorts a sorted pair and raises nothing. */
  lemma DiamondBackwardAtFour(stop: int)
    requires 0 <= stop <= 1
    requires Fits(Diamond(), 5, DiamondStart()) && ReceivesWhereSends(DiamondStart(), stop, 4)
    ensures BackwardFrom(Diamond(), 5, DiamondStart(), 4, stop) == BackwardFrom(Diamond(), 5, DiamondStart(), 3, stop)
    ensures ReceivesWhereSends(DiamondStart(), stop, 3)
  {
    var a, st := Diamond(), DiamondStart();
    SumsOfDiamond(st.weight);
    SortedPairs();
    assert BackwardStep(a, 5, st, 4) == st;
    BackwardFromStep(a, 5, st, 4, stop);
  }

  /** At vertex 3 the backward pass sorts a one-edge list and raises nothing. */
  lemma DiamondBackwardAtThree(stop: int)
    requires 0 <= stop <= 1
    requires Fits(Diamond(), 5, DiamondStart()) && ReceivesWhereSends(DiamondStart(), stop, 3)
    ensures BackwardFrom(Diamond(), 5, DiamondStart(), 3, stop) == BackwardFrom(Diamond(), 5, DiamondStart(), 2, stop)
    ensures ReceivesWhereSends(DiamondStart(), stop, 2)
  {
    var a, st := Diamond(), DiamondStart();
    SumsOfDiamond(st.weight);
    SortedSingle(2);
    assert BackwardStep(a, 5, st, 3) == st;
    BackwardFromStep(a, 5, st, 3, stop);
  }

  /** Vertex 2, which sends 2 and receives 1, raises its only in-edge to 2. */
  lemma DiamondBackwardAtTwo(stop: int)
    requires 0 <= stop <= 1
    requires Fits(Diamond(), 5, DiamondStart()) && ReceivesWhereSends(DiamondStart(), stop, 2)
    ensures Fits(Diamond(), 5, AfterVertexTwo()) && ReceivesWhereSends(AfterVertexTwo(), stop, 1)
    ensures BackwardFrom(Diamond(), 5, DiamondStart(), 2, stop) == BackwardFrom(Diamond(), 5, AfterVertexTwo(), 1, stop)
  {
    var a, st := Diamond(), DiamondStart();
    DiamondFits();
    SumsOfDiamond(st.weight);
    SortedSingle(1);
    assert BackwardStep(a, 5, st, 2) == AfterVertexTwo();
    BackwardFromStep(a, 5, st, 2, stop);
  }

  /**
   * The backward pass down to vertex 2: vertices 4 and 3 need nothing, and
   * vertex 2, which sends 2 and receives 1, raises its only in-edge to 2.
   */
  lemma DiamondBackwardToTwo(stop: int)
    requires 0 <= stop <= 1
    ensures Fits(Diamond(), 5, DiamondStart()) && ReceivesWhereSends(DiamondStart(), stop, 4)
    ensures Fits(Diamond(), 5, AfterVertexTwo()) && ReceivesWhereSends(AfterVertexTwo(), stop, 1)
    ensures BackwardFrom(Diamond(), 5, DiamondStart(), 4, stop) == BackwardFrom(Diamond(), 5, AfterVertexTwo(), 1, stop)
  {
    DiamondFits();
    assert ReceivesWhereSends(DiamondStart(), stop, 4);
    DiamondBackwardAtFour(stop);
    DiamondBackwardAtThree(stop);
    DiamondBackwardAtTwo(stop);
  }

  /** Vertex 1, which sends 2 and receives 1, raises the source's edge to 2. */
  lemma DiamondBackwardAtOne()
    ensures Fits(Diamond(), 5, AfterVertexTwo()) && ReceivesWhereSends(AfterVertexTwo(), 0, 1)
    ensures BackwardFrom(Diamond(), 5, AfterVertexTwo(), 1, 0) == AfterVertexOne()
  {
    var a, st := Diamond(), AfterVertexTwo();
    DiamondFits();
    SumsOfDiamond(st.weight);
    SortedSingle(0);
    assert BackwardStep(a, 5, st, 1) == AfterVertexOne();
    BackwardFromStep(a, 5, st, 1, 0);
  }

  /**
   * As written, the backward loop stops before vertex 1, which goes on
   * receiving 1 while it sends 2; the source sends out a single chain
   * although two reach the sink.
   */
  lemma AsWrittenLeavesVertexOneShort()
    ensures PreparedFor(Diamond(), 5, DiamondStart(), 1)
    ensures var b := Balanced(Diamond(), 5, DiamondStart(), 1);
      && b.weight == [1, 2, 1, 1, 1]
      && Sum(b.weight, b.edgesIn[1]) == 1 && Sum(b.weight, b.edgesOut[1]) == 2
      && Sum(b.weight, b.edgesOut[0]) == 1 && Sum(b.weight, b.edgesIn[4]) == 2
  {
    DiamondForward();
    DiamondBackwardToTwo(1);
    SumsOfDiamond(AfterVertexTwo().weight);
    DiamondPrepared(1);
  }

  /** No edge lies on more chains than there are. */
  lemma {:induction false} UsesAtMostChains(chains: seq<seq<nat>>, x: nat)
    ensures Uses(chains, x) <= |chains|
  {
    if chains != [] {
      UsesAtMostChains(chains[1..], x);
    }
  }

  /**
   * As written, extraction on `Diamond` still succeeds, but with the single
   * chain the source sends: the edge 1 -> 2, of weight 2, lies on one chain
   * only, so the chains do not spend the weights.
   */
  lemma AsWrittenExtractsOneChain()
    ensures PreparedFor(Diamond(), 5, DiamondStart(), 1)
    ensures var b, r := Balanced(Diamond(), 5, DiamondStart(), 1), ChainsOf(Diamond(), 5, DiamondStart(), 1);
      && r.Extracted? && |r.chains| == 1 && b.weight[1] == 2 && Uses(r.chains, 1) < b.weight[1]
  {
    AsWrittenLeavesVertexOneShort();
    ChainsReachSink(Diamond(), 5, DiamondStart(), 1);
    UsesAtMostChains(ChainsOf(Diamond(), 5, DiamondStart(), 1).chains, 1);
  }

  /** Both passes, with the backward loop run down to vertex 1 inclusive, end in `AfterVertexOne`. */
  lemma IntendedDiamondWeights()
    ensures PreparedFor(Diamond(), 5, DiamondStart(), 0)
    ensures Balanced(Diamond(), 5, DiamondStart(), 0) == AfterVertexOne()
  {
    DiamondForward();
    DiamondBackwardToTwo(0);
    DiamondBackwardAtOne();
    DiamondPrepared(0);
  }

  /** In `AfterVertexOne` every interior vertex receives what it sends, and two chains leave the source and reach the sink. */
  lemma AfterVertexOneBalances()
    ensures var b := AfterVertexOne();
      && (forall v :: 0 < v < 4 ==> Sum(b.weight, b.edgesIn[v]) == Sum(b.weight, b.edgesOut[v]))
      && Sum(b.weight, b.edgesOut[0]) == 2 && Sum(b.weight, b.edgesIn[4]) == 2
  {
    var b := AfterVertexOne();
    SumsOfDiamond(b.weight);
    assert b.edgesIn[1] == [0] && b.edgesOut[1] == [1];
    assert b.edgesIn[2] == [1] && b.edgesOut[2] == [2, 3];
    assert b.edgesIn[3] == [2] && b.edgesOut[3] == [4];
  }

  /**
   * Run down to vertex 1 inclusive, the backward loop raises the source's
   * edge as well, every interior vertex receives what it sends, and the
   * source sends the two chains that reach the sink.
   */
  lemma IntendedBalancesDiamond()
    ensures PreparedFor(Diamond(), 5, DiamondStart(), 0)
    ensures var b := Balanced(Diamond(), 5, DiamondStart(), 0);
      && b.weight == [2, 2, 1, 1, 1]
      && (forall v :: 0 < v < 4 ==> Sum(b.weight, b.edgesIn[v]) == Sum(b.weight, b.edgesOut[v]))
      && Sum(b.weight, b.edgesOut[0]) == 2 && Sum(b.weight, b.edgesIn[4]) == 2
  {
    AfterVertexOneBalances();
    IntendedDiamondWeights();
  }
}
