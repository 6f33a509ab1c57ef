/**
 * Why the chains cover the graph. When every interior vertex sends at least
 * the weight it receives and no weight is negative, a walk from the source
 * always finds an edge with weight left (so `topLeftEdge` never has to fall
 * back on a spent edge), every walk reaches the sink, and as many chains as
 * the source sends can be extracted. When every interior vertex sends
 * exactly what it receives, the weights form a flow from the source to the
 * sink, and extracting as many chains as the source sends spends every edge
 * completely, so each edge lies on exactly as many chains as its weight.
 *
 * The parameter `stop` separates the two: interior vertices above `stop`
 * conserve the flow, those at or below it may send more than they receive.
 */
module Flow {
  import opened Graph
  import opened Weights
  import opened Extractor

  predicate NonNegative(w: seq<int>)
  {
    forall e :: 0 <= e < |w| ==> w[e] >= 0
  }

  /**
   * The lists a walk reads: the ordered out-lists and the in-lists, each
   * filing every edge once under its endpoint.
   */
  ghost predicate Network(arena: seq<Edge>, n: nat, ins: seq<seq<nat>>, ordered: seq<seq<nat>>, w: seq<int>)
  {
    && Walkable(arena, n, ordered, w) && Sized(arena, n, ins, ordered, w)
    && Files(arena, ordered, true) && Files(arena, ins, false)
  }

  /** One in- and one ordered out-list per vertex, holding edges of the arena, and one weight per edge. */
  predicate Sized(arena: seq<Edge>, n: nat, ins: seq<seq<nat>>, ordered: seq<seq<nat>>, w: seq<int>)
  {
    && |ins| == n && |ordered| == n && |w| == |arena|
    && (forall v :: 0 <= v < n ==> Within(ins[v], |arena|) && Within(ordered[v], |arena|))
  }

  /**
   * Every interior vertex above `stop` sends exactly what it receives, and
   * every interior vertex at or below `stop` sends at least that much;
   * vertex `v`, where a walk stands, counts as receiving one unit more.
   */
  predicate ConservedBut(arena: seq<Edge>, n: nat, ins: seq<seq<nat>>, ordered: seq<seq<nat>>, w: seq<int>, v: nat, stop: int)
    requires Sized(arena, n, ins, ordered, w)
  {
    forall u :: 0 < u < n - 1 ==>
      && Sum(w, ins[u]) + (if u == v then 1 else 0) <= Sum(w, ordered[u])
      && (stop < u ==> Sum(w, ordered[u]) == Sum(w, ins[u]) + if u == v then 1 else 0)
  }

  /**
   * Every interior vertex above `stop` sends exactly what it receives, and
   * every one at or below `stop` at least that much. With `stop = 0` every
   * interior vertex conserves the flow.
   */
  predicate Conserved(arena: seq<Edge>, n: nat, ins: seq<seq<nat>>, ordered: seq<seq<nat>>, w: seq<int>, stop: int)
    requires Sized(arena, n, ins, ordered, w)
  {
    ConservedBut(arena, n, ins, ordered, w, 0, stop)
  }

  /** The number of chains that hold edge `x`. */
  function Uses(chains: seq<seq<nat>>, x: nat): nat
  {
    if chains == [] then 0 else (if x in chains[0] then 1 else 0) + Uses(chains[1..], x)
  }

  /** A list of non-negative weights with a positive sum has an edge of positive weight. */
  lemma {:induction false} PositiveSumHasPositive(w: seq<int>, es: seq<nat>)
    requires Within(es, |w|) && NonNegative(w) && Sum(w, es) > 0
    ensures exists j :: 0 <= j < |es| && w[es[j]] > 0
  {
    if w[es[0]] <= 0 {
      PositiveSumHasPositive(w, es[1..]);
      var j :| 0 <= j < |es[1..]| && w[es[1..][j]] > 0;
      assert w[es[j + 1]] > 0;
    }
  }

  /** From a list with weight left, `topLeftEdge` picks an edge with weight left. */
  lemma PositiveTopLeft(w: seq<int>, es: seq<nat>)
    requires Within(es, |w|) && NonNegative(w) && Sum(w, es) > 0
    ensures es != [] && w[TopLeft(w, es)] > 0
  {
    PositiveSumHasPositive(w, es);
  }

  /** With non-negative weights, one edge weighs no more than the list that holds it. */
  lemma {:induction false} ElementBelowSum(w: seq<int>, es: seq<nat>, x: nat)
    requires Within(es, |w|) && NonNegative(w) && x in es
    ensures w[x] <= Sum(w, es)
  {
    SumNonNegative(w, es[1..]);
    if es[0] != x {
      ElementBelowSum(w, es[1..], x);
    }
  }

  /** A list of spent edges weighs nothing. */
  lemma {:induction false} SumOfZeros(w: seq<int>, es: seq<nat>)
    requires Within(es, |w|) && forall e :: e in es ==> w[e] == 0
    ensures Sum(w, es) == 0
  {
    if es != [] {
      SumOfZeros(w, es[1..]);
    }
  }

  /**
   * Spending one unit on edge `e` lowers the list of `e`'s endpoint by one
   * and leaves every other list as it is.
   */
  lemma SpendShifts(arena: seq<Edge>, lists: seq<seq<nat>>, outgoing: bool, w: seq<int>, e: nat, u: nat)
    requires Files(arena, lists, outgoing) && u < |lists| && e < |w| == |arena| && Within(lists[u], |w|)
    ensures Sum(w[e := w[e] - 1], lists[u]) == Sum(w, lists[u]) - if Endpoint(arena[e], outgoing) == u then 1 else 0
  {
    if Endpoint(arena[e], outgoing) == u {
      SumUpdate(w, lists[u], e, w[e] - 1);
    } else {
      FiledOnlyUnder(arena, lists, outgoing, u, e);
      SumSkips(w, lists[u], e, w[e] - 1);
    }
  }

  /** Spending one unit on `e` shifts the lists of `e`'s start and of `e`'s end, and no other. */
  lemma SpendShiftsAll(arena: seq<Edge>, n: nat, ins: seq<seq<nat>>, ordered: seq<seq<nat>>, w: seq<int>, e: nat)
    requires Sized(arena, n, ins, ordered, w) && Files(arena, ordered, true) && Files(arena, ins, false) && e < |arena|
    ensures forall u :: 0 <= u < n ==>
      && Sum(w[e := w[e] - 1], ordered[u]) == Sum(w, ordered[u]) - (if u == arena[e].start then 1 else 0)
      && Sum(w[e := w[e] - 1], ins[u]) == Sum(w, ins[u]) - (if u == arena[e].end then 1 else 0)
  {
    forall u | 0 <= u < n
      ensures Sum(w[e := w[e] - 1], ordered[u]) == Sum(w, ordered[u]) - (if u == arena[e].start then 1 else 0)
      ensures Sum(w[e := w[e] - 1], ins[u]) == Sum(w, ins[u]) - (if u == arena[e].end then 1 else 0)
    {
      SpendShifts(arena, ordered, true, w, e, u);
      SpendShifts(arena, ins, false, w, e, u);
    }
  }

  /**
   * Spending one unit on an edge moves the unit a walk still has to send
   * from the edge's start to its end.
   */
  lemma SpendMovesFlow(arena: seq<Edge>, n: nat, ins: seq<seq<nat>>, ordered: seq<seq<nat>>, w: seq<int>, e: nat, stop: int)
    requires Sized(arena, n, ins, ordered, w) && Files(arena, ordered, true) && Files(arena, ins, false)
    requires e < |arena| && arena[e].start != arena[e].end
    requires ConservedBut(arena, n, ins, ordered, w, arena[e].start, stop)
    ensures Sized(arena, n, ins, ordered, w[e := w[e] - 1])
    ensures ConservedBut(arena, n, ins, ordered, w[e := w[e] - 1], arena[e].end, stop)
  {
    var w1 := w[e := w[e] - 1];
    SpendShiftsAll(arena, n, ins, ordered, w, e);
    forall u | 0 < u < n - 1
      ensures Sum(w1, ins[u]) + (if u == arena[e].end then 1 else 0) <= Sum(w1, ordered[u])
      ensures stop < u ==> Sum(w1, ordered[u]) == Sum(w1, ins[u]) + if u == arena[e].end then 1 else 0
    {
      assert Sum(w, ins[u]) + (if u == arena[e].start then 1 else 0) <= Sum(w, ordered[u]);
    }
  }

  /** Spending one unit on an edge keeps the lists and the weight count as they are. */
  lemma SpendKeepsNetwork(arena: seq<Edge>, n: nat, ins: seq<seq<nat>>, ordered: seq<seq<nat>>, w: seq<int>, e: nat)
    requires Network(arena, n, ins, ordered, w) && NonNegative(w) && e < |w| && w[e] > 0
    ensures Network(arena, n, ins, ordered, w[e := w[e] - 1]) && NonNegative(w[e := w[e] - 1])
  {
  }

  /**
   * One step of a walk along an edge `e` of positive weight leaving `v`:
   * the flow condition moves from `v` to `e`'s end, which has weight left
   * to send unless it is the sink.
   */
  lemma FlowStep(arena: seq<Edge>, n: nat, ins: seq<seq<nat>>, ordered: seq<seq<nat>>, w: seq<int>, v: nat, e: nat, stop: int)
    requires Sized(arena, n, ins, ordered, w) && Files(arena, ordered, true) && Files(arena, ins, false)
    requires NonNegative(w) && v + 1 < n
    requires ConservedBut(arena, n, ins, ordered, w, v, stop)
    requires e < |arena| && arena[e].start == v && v < arena[e].end < n && w[e] > 0
    ensures Sized(arena, n, ins, ordered, w[e := w[e] - 1])
    ensures ConservedBut(arena, n, ins, ordered, w[e := w[e] - 1], arena[e].end, stop)
    ensures arena[e].end < n - 1 ==> Sum(w[e := w[e] - 1], ordered[arena[e].end]) > 0
  {
    SpendMovesFlow(arena, n, ins, ordered, w, e, stop);
    if arena[e].end < n - 1 {
      SumNonNegative(w[e := w[e] - 1], ins[arena[e].end]);
    }
  }

  /**
   * Spending one unit on `e` takes it from the source's sends when `e`
   * leaves the source and from the sink's receipts when `e` enters the sink.
   */
  lemma SpendAtEnds(arena: seq<Edge>, n: nat, ins: seq<seq<nat>>, ordered: seq<seq<nat>>, w: seq<int>, e: nat)
    requires Sized(arena, n, ins, ordered, w) && Files(arena, ordered, true) && Files(arena, ins, false)
    requires e < |arena| && n > 0
    ensures Sum(w[e := w[e] - 1], ordered[0]) == Sum(w, ordered[0]) - (if arena[e].start == 0 then 1 else 0)
    ensures Sum(w[e := w[e] - 1], ins[n - 1]) == Sum(w, ins[n - 1]) - (if arena[e].end == n - 1 then 1 else 0)
  {
    SpendShiftsAll(arena, n, ins, ordered, w, e);
  }

  /** The lists of a network do not depend on the weight values. */
  lemma NetworkReweighed(arena: seq<Edge>, n: nat, ins: seq<seq<nat>>, ordered: seq<seq<nat>>, w: seq<int>, w1: seq<int>)
    requires Network(arena, n, ins, ordered, w) && |w1| == |w|
    ensures Network(arena, n, ins, ordered, w1)
  {
  }

  /**
   * The first step of a walk from an interior vertex with weight left to
   * send: the edge `e` it takes, the weights `w1` after spending it and the
   * walk `r'` that continues from `e`'s end.
   */
  lemma FlowUnfold(arena: seq<Edge>, n: nat, ins: seq<seq<nat>>, ordered: seq<seq<nat>>, w: seq<int>, v: nat, stop: int)
    returns (e: nat, w1: seq<int>, r': Walk)
    requires Network(arena, n, ins, ordered, w) && NonNegative(w) && v + 1 < n
    requires ConservedBut(arena, n, ins, ordered, w, v, stop) && Sum(w, ordered[v]) > 0
    ensures e < |arena| && arena[e].start == v && v < arena[e].end < n && w[e] > 0
    ensures w1 == w[e := w[e] - 1] && Network(arena, n, ins, ordered, w1) && NonNegative(w1)
    ensures ConservedBut(arena, n, ins, ordered, w1, arena[e].end, stop)
    ensures arena[e].end < n - 1 ==> Sum(w1, ordered[arena[e].end]) > 0
    ensures Sum(w1, ordered[0]) == Sum(w, ordered[0]) - (if v == 0 then 1 else 0)
    ensures Sum(w1, ins[n - 1]) == Sum(w, ins[n - 1]) - (if arena[e].end == n - 1 then 1 else 0)
    ensures r' == WalkFrom(arena, n, ordered, w1, arena[e].end)
    ensures WalkFrom(arena, n, ordered, w, v) == Extend([e], r')
  {
    PositiveTopLeft(w, ordered[v]);
    e := TopLeft(w, ordered[v]);
    WalkStep(arena, n, ordered, w, v);
    w1 := w[e := w[e] - 1];
    r' := WalkFrom(arena, n, ordered, w1, arena[e].end);
    FlowStep(arena, n, ins, ordered, w, v, e, stop);
    SpendKeepsNetwork(arena, n, ins, ordered, w, e);
    SpendAtEnds(arena, n, ins, ordered, w, e);
  }

  /**
   * A walk that takes edge `e` of positive weight and goes on along edges
   * positive in the weights after spending `e` has only taken edges that
   * were positive before.
   */
  lemma ChainOfPositiveEdges(w: seq<int>, e: nat, w1: seq<int>, r': Walk, r: Walk)
    requires e < |w| && w[e] > 0 && w1 == w[e := w[e] - 1]
    requires r'.Reached? && r == Extend([e], r')
    requires forall k :: 0 <= k < |r'.chain| ==> r'.chain[k] < |w1| && w1[r'.chain[k]] > 0
    ensures r.Reached? && r.chain == [e] + r'.chain && r.weight == r'.weight
    ensures forall k :: 0 <= k < |r.chain| ==> r.chain[k] < |w| && w[r.chain[k]] > 0
  {
    forall k | 0 < k < |r.chain| ensures r.chain[k] < |w| && w[r.chain[k]] > 0 {
      assert r.chain[k] == r'.chain[k - 1];
    }
  }

  /**
   * A walk that starts where the flow condition leaves one unit to send
   * reaches the sink along edges of positive weight, spends that unit and
   * leaves the flow condition as it found it; it takes one
   * unit from the source if it starts there and brings one unit to the
   * sink unless it starts there.
   */
  lemma {:induction false} WalkFollowsFlow(arena: seq<Edge>, n: nat, ins: seq<seq<nat>>, ordered: seq<seq<nat>>, w: seq<int>, v: nat, stop: int, r: Walk)
    requires Network(arena, n, ins, ordered, w) && NonNegative(w) && v < n
    requires ConservedBut(arena, n, ins, ordered, w, v, stop)
    requires v < n - 1 ==> Sum(w, ordered[v]) > 0
    requires r == WalkFrom(arena, n, ordered, w, v)
    ensures r.Reached? && |r.weight| == |w|
    ensures Sized(arena, n, ins, ordered, r.weight) && NonNegative(r.weight)
    ensures Conserved(arena, n, ins, ordered, r.weight, stop)
    ensures forall k :: 0 <= k < |r.chain| ==> r.chain[k] < |w| && w[r.chain[k]] > 0
    ensures Sum(r.weight, ordered[0]) == Sum(w, ordered[0]) - (if v == 0 && v < n - 1 then 1 else 0)
    ensures Sum(r.weight, ins[n - 1]) == Sum(w, ins[n - 1]) - (if v < n - 1 then 1 else 0)
    decreases n - v
  {
    if v + 1 < n {
      var e, w1, r' := FlowUnfold(arena, n, ins, ordered, w, v, stop);
      WalkFollowsFlow(arena, n, ins, ordered, w1, arena[e].end, stop, r');
      ChainOfPositiveEdges(w, e, w1, r', r);
    } else {
      assert r.chain == [];
    }
  }

  /** The first walk of an extraction from a network meeting the flow condition with weight left at the source. */
  lemma FirstChainFlow(arena: seq<Edge>, n: nat, ins: seq<seq<nat>>, ordered: seq<seq<nat>>, w: seq<int>, stop: int, k: int, j: int, r: Extraction)
    returns (c: Walk, r': Extraction)
    requires Network(arena, n, ins, ordered, w) && NonNegative(w) && n >= 2
    requires Conserved(arena, n, ins, ordered, w, stop) && 0 < k <= Sum(w, ordered[0])
    requires r == ExtractFrom(arena, n, ordered, w, k) && j == k - 1
    ensures c.Reached? && |c.weight| == |w|
    ensures Network(arena, n, ins, ordered, c.weight) && NonNegative(c.weight)
    ensures Conserved(arena, n, ins, ordered, c.weight, stop)
    ensures Sum(c.weight, ordered[0]) == Sum(w, ordered[0]) - 1
    ensures Sum(c.weight, ins[n - 1]) == Sum(w, ins[n - 1]) - 1
    ensures Path(arena, c.chain, 0, n - 1)
    ensures forall x :: 0 <= x < |w| ==> c.weight[x] == w[x] - if x in c.chain then 1 else 0
    ensures r' == ExtractFrom(arena, n, ordered, c.weight, j) && r == Prepend(c.chain, r')
  {
    c := WalkFrom(arena, n, ordered, w, 0);
    WalkFollowsFlow(arena, n, ins, ordered, w, 0, stop, c);
    WalkPath(arena, n, ordered, w, 0, c);
    WalkSpends(arena, n, ordered, w, 0, c);
    NetworkReweighed(arena, n, ins, ordered, w, c.weight);
    ExtractStep(arena, n, ordered, w, k, j, c.chain, c.weight);
    r' := ExtractFrom(arena, n, ordered, c.weight, j);
  }

  /** One more chain uses each of its edges once more. */
  lemma {:induction false} UsesAppend(chains: seq<seq<nat>>, c: seq<nat>, x: nat)
    ensures Uses(chains + [c], x) == Uses(chains, x) + if x in c then 1 else 0
  {
    if chains != [] {
      assert (chains + [c])[1..] == chains[1..] + [c];
      UsesAppend(chains[1..], c, x);
    } else {
      assert ([c])[1..] == [];
    }
  }

  lemma PrependMore(r: Extraction, chains: seq<seq<nat>>, rest: Extraction, c: seq<nat>, r': Extraction)
    requires r == PrependAll(chains, rest) && rest == Prepend(c, r')
    ensures r == PrependAll(chains + [c], r')
  {
    PrependTwice(chains, c, r');
  }

  /**
   * The weights `cur` left after `k - left` of `k` chains were taken from
   * the weights `w`: still meeting the flow condition, with `left` units or more
   * leaving the source, and `k - left` units fewer leaving the source and
   * reaching the sink.
   */
  ghost predicate FlowSoFar(arena: seq<Edge>, n: nat, ins: seq<seq<nat>>, ordered: seq<seq<nat>>, w: seq<int>, stop: int, k: nat, cur: seq<int>, left: nat)
  {
    && 0 <= left <= k && |cur| == |w| && n >= 2
    && Network(arena, n, ins, ordered, cur) && NonNegative(cur) && Conserved(arena, n, ins, ordered, cur, stop)
    && left <= Sum(cur, ordered[0])
    && Sum(cur, ordered[0]) == Sum(w, ordered[0]) - (k - left)
    && Sum(cur, ins[n - 1]) == Sum(w, ins[n - 1]) - (k - left)
  }

  /**
   * The chains taken so far are paths from the source to the sink, and
   * each edge has lost one unit of weight per chain that holds it.
   */
  predicate TakenSoFar(arena: seq<Edge>, n: nat, w: seq<int>, cur: seq<int>, chains: seq<seq<nat>>)
  {
    && |cur| == |w| && n >= 2
    && (forall i :: 0 <= i < |chains| ==> Path(arena, chains[i], 0, n - 1))
    && (forall x :: 0 <= x < |w| ==> cur[x] == w[x] - Uses(chains, x))
  }

  /**
   * Where the extraction stands after `k - left` chains: `chains` is what
   * has been taken so far, `cur` the weights left and `rest` the extraction
   * of the remaining `left` chains.
   */
  ghost predicate ExtractedSoFar(arena: seq<Edge>, n: nat, ins: seq<seq<nat>>, ordered: seq<seq<nat>>, w: seq<int>, stop: int, k: nat, r: Extraction,
                                 cur: seq<int>, chains: seq<seq<nat>>, left: nat, rest: Extraction)
  {
    && FlowSoFar(arena, n, ins, ordered, w, stop, k, cur, left)
    && TakenSoFar(arena, n, w, cur, chains)
    && rest == ExtractFrom(arena, n, ordered, cur, left)
    && r == PrependAll(chains, rest)
  }

  /** Every chain of `chains + [c]` is a path from the source to the sink. */
  lemma PathsAppend(arena: seq<Edge>, n: nat, chains: seq<seq<nat>>, c: seq<nat>)
    requires n >= 2 && forall i :: 0 <= i < |chains| ==> Path(arena, chains[i], 0, n - 1)
    requires Path(arena, c, 0, n - 1)
    ensures forall i :: 0 <= i < |chains + [c]| ==> Path(arena, (chains + [c])[i], 0, n - 1)
  {
    forall i | 0 <= i < |chains| + 1 ensures Path(arena, (chains + [c])[i], 0, n - 1) {
      if i < |chains| {
        assert (chains + [c])[i] == chains[i];
      }
    }
  }

  /** Each edge of `c` is used once more, and loses one more unit of weight. */
  lemma UsesStep(w: seq<int>, cur: seq<int>, c: Walk, chains: seq<seq<nat>>)
    requires c.Reached? && |cur| == |w| && |c.weight| == |w|
    requires forall x :: 0 <= x < |w| ==> cur[x] == w[x] - Uses(chains, x)
    requires forall x :: 0 <= x < |cur| ==> c.weight[x] == cur[x] - if x in c.chain then 1 else 0
    ensures forall x :: 0 <= x < |w| ==> c.weight[x] == w[x] - Uses(chains + [c.chain], x)
  {
    forall x | 0 <= x < |w| ensures c.weight[x] == w[x] - Uses(chains + [c.chain], x) {
      UsesAppend(chains, c.chain, x);
    }
  }

  /** The next walk of the extraction reaches the sink and leaves a network one unit lighter. */
  lemma FlowNext(arena: seq<Edge>, n: nat, ins: seq<seq<nat>>, ordered: seq<seq<nat>>, w: seq<int>, stop: int, k: nat,
                 cur: seq<int>, left: nat, rest: Extraction, j: nat)
    returns (c: Walk, r': Extraction)
    requires FlowSoFar(arena, n, ins, ordered, w, stop, k, cur, left)
    requires rest == ExtractFrom(arena, n, ordered, cur, left) && left > 0 && j == left - 1
    ensures c.Reached? && |c.weight| == |cur| && FlowSoFar(arena, n, ins, ordered, w, stop, k, c.weight, j)
    ensures Path(arena, c.chain, 0, n - 1)
    ensures forall x :: 0 <= x < |cur| ==> c.weight[x] == cur[x] - if x in c.chain then 1 else 0
    ensures r' == ExtractFrom(arena, n, ordered, c.weight, j) && rest == Prepend(c.chain, r')
  {
    c, r' := FirstChainFlow(arena, n, ins, ordered, cur, stop, left, j, rest);
  }

  /** Taking walk `c` adds one path and takes one unit from each of its edges. */
  lemma TakenNext(arena: seq<Edge>, n: nat, w: seq<int>, cur: seq<int>, chains: seq<seq<nat>>, c: Walk)
    requires TakenSoFar(arena, n, w, cur, chains)
    requires c.Reached? && |c.weight| == |cur| && Path(arena, c.chain, 0, n - 1)
    requires forall x :: 0 <= x < |cur| ==> c.weight[x] == cur[x] - if x in c.chain then 1 else 0
    ensures TakenSoFar(arena, n, w, c.weight, chains + [c.chain])
  {
    UsesStep(w, cur, c, chains);
    PathsAppend(arena, n, chains, c.chain);
  }

  /** Taking one more chain keeps the extraction on course. */
  lemma ExtractionNext(arena: seq<Edge>, n: nat, ins: seq<seq<nat>>, ordered: seq<seq<nat>>, w: seq<int>, stop: int, k: nat, r: Extraction,
                       cur: seq<int>, chains: seq<seq<nat>>, left: nat, rest: Extraction, j: nat)
    returns (cur': seq<int>, chains': seq<seq<nat>>, rest': Extraction)
    requires ExtractedSoFar(arena, n, ins, ordered, w, stop, k, r, cur, chains, left, rest)
    requires left > 0 && j == left - 1
    ensures ExtractedSoFar(arena, n, ins, ordered, w, stop, k, r, cur', chains', j, rest')
  {
    var c, r' := FlowNext(arena, n, ins, ordered, w, stop, k, cur, left, rest, j);
    TakenNext(arena, n, w, cur, chains, c);
    PrependMore(r, chains, rest, c.chain, r');
    cur', chains', rest' := c.weight, chains + [c.chain], r';
  }

  /** With no chain left to take, the extraction has succeeded with what was taken. */
  lemma ExtractionDone(arena: seq<Edge>, n: nat, ins: seq<seq<nat>>, ordered: seq<seq<nat>>, w: seq<int>, stop: int, k: nat, r: Extraction,
                       cur: seq<int>, chains: seq<seq<nat>>, rest: Extraction)
    requires ExtractedSoFar(arena, n, ins, ordered, w, stop, k, r, cur, chains, 0, rest)
    ensures r == Extracted(chains, cur)
  {
    assert rest == Extracted([], cur);
    assert chains + [] == chains;
  }

  /**
   * Extracting `k` chains from a network whose interior vertices each send
   * at least what they receive, and whose source still sends at least `k`
   * units, succeeds: every chain is a path from the source to the sink,
   * each edge loses one unit of weight per chain that holds it, the source
   * sends and the sink receives `k` units less, and the flow condition
   * still holds.
   */
  lemma ExtractionFollowsFlow(arena: seq<Edge>, n: nat, ins: seq<seq<nat>>, ordered: seq<seq<nat>>, w: seq<int>, stop: int, k: nat, r: Extraction)
    requires Network(arena, n, ins, ordered, w) && NonNegative(w) && n >= 2
    requires Conserved(arena, n, ins, ordered, w, stop) && k <= Sum(w, ordered[0])
    requires r == ExtractFrom(arena, n, ordered, w, k)
    ensures r.Extracted? && |r.weight| == |w|
    ensures Network(arena, n, ins, ordered, r.weight) && NonNegative(r.weight)
    ensures Conserved(arena, n, ins, ordered, r.weight, stop)
    ensures Sum(r.weight, ordered[0]) == Sum(w, ordered[0]) - k
    ensures Sum(r.weight, ins[n - 1]) == Sum(w, ins[n - 1]) - k
    ensures forall i :: 0 <= i < |r.chains| ==> Path(arena, r.chains[i], 0, n - 1)
    ensures forall x :: 0 <= x < |w| ==> r.weight[x] == w[x] - Uses(r.chains, x)
  {
    var cur, chains, left, rest := w, [], k, r;
    PrependNothing(r);
    forall x | 0 <= x < |w| ensures cur[x] == w[x] - Uses(chains, x) {
    }
    while left > 0
      invariant ExtractedSoFar(arena, n, ins, ordered, w, stop, k, r, cur, chains, left, rest)
      decreases left
    {
      var j := left - 1;
      cur, chains, rest := ExtractionNext(arena, n, ins, ordered, w, stop, k, r, cur, chains, left, rest, j);
      left := j;
    }
    ExtractionDone(arena, n, ins, ordered, w, stop, k, r, cur, chains, rest);
  }

  /**
   * Once the source sends nothing, no interior vertex sends anything
   * either: everything it receives comes from vertices ranked below it.
   */
  lemma {:induction false} DrainedBelow(arena: seq<Edge>, n: nat, ins: seq<seq<nat>>, ordered: seq<seq<nat>>, w: seq<int>, u: nat)
    requires Network(arena, n, ins, ordered, w) && NonNegative(w) && Conserved(arena, n, ins, ordered, w, 0)
    requires u < n - 1 && Sum(w, ordered[0]) == 0
    ensures Sum(w, ordered[u]) == 0
    decreases u
  {
    if u > 0 {
      forall i | 0 <= i < |ins[u]| ensures w[ins[u][i]] == 0 {
        var x := ins[u][i];
        var s := arena[x].start;
        DrainedBelow(arena, n, ins, ordered, w, s);
        assert multiset(ordered[s])[x] == 1;
        ElementBelowSum(w, ordered[s], x);
      }
      SumOfZeros(w, ins[u]);
    }
  }

  /** Once the source sends nothing, every edge is spent. */
  lemma NoFlowLeft(arena: seq<Edge>, n: nat, ins: seq<seq<nat>>, ordered: seq<seq<nat>>, w: seq<int>)
    requires Network(arena, n, ins, ordered, w) && NonNegative(w) && Conserved(arena, n, ins, ordered, w, 0)
    requires n >= 1 && Sum(w, ordered[0]) == 0
    ensures forall x :: 0 <= x < |w| ==> w[x] == 0
  {
    forall x | 0 <= x < |w| ensures w[x] == 0 {
      var s := arena[x].start;
      DrainedBelow(arena, n, ins, ordered, w, s);
      assert multiset(ordered[s])[x] == 1;
      ElementBelowSum(w, ordered[s], x);
    }
  }

  /**
   * Extracting as many chains as the source sends spends every edge: each
   * edge lies on exactly as many chains as its weight, and the sink
   * receives exactly as many units as the source sends.
   */
  lemma ChainsSpendEverything(arena: seq<Edge>, n: nat, ins: seq<seq<nat>>, ordered: seq<seq<nat>>, w: seq<int>, r: Extraction)
    requires Network(arena, n, ins, ordered, w) && NonNegative(w) && n >= 2
    requires Conserved(arena, n, ins, ordered, w, 0)
    requires r == ExtractFrom(arena, n, ordered, w, Sum(w, ordered[0]))
    ensures r.Extracted? && |r.chains| == Sum(w, ordered[0])
    ensures forall i :: 0 <= i < |r.chains| ==> Path(arena, r.chains[i], 0, n - 1)
    ensures forall x :: 0 <= x < |w| ==> Uses(r.chains, x) == w[x]
    ensures Sum(w, ins[n - 1]) == Sum(w, ordered[0])
  {
    var k := Sum(w, ordered[0]);
    SumNonNegative(w, ordered[0]);
    ExtractionFollowsFlow(arena, n, ins, ordered, w, 0, k, r);
    NoFlowLeft(arena, n, ins, ordered, r.weight);
    SumOfZeros(r.weight, ins[n - 1]);
    AllSpent(w, r.weight, r.chains);
  }

  /** Weights spent down to zero, one unit per chain, count the chains on each edge. */
  lemma AllSpent(w: seq<int>, w': seq<int>, chains: seq<seq<nat>>)
    requires |w'| == |w|
    requires forall x :: 0 <= x < |w| ==> w'[x] == w[x] - Uses(chains, x)
    requires forall x :: 0 <= x < |w'| ==> w'[x] == 0
    ensures forall x :: 0 <= x < |w| ==> Uses(chains, x) == w[x]
  {
  }
}
