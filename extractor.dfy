/**
 * Chain extraction (`createChain`, lines 102-111, and the extraction loop of
 * `main`, lines 177-187). A walk starts at the source, takes the top-left
 * edge of the current vertex's ordered out-list, spends one unit of its
 * weight and moves to the edge's end, until it reaches the sink.
 *
 * The walk is specified by the recursive function `WalkFrom`, the loop of
 * chains by `ExtractFrom`; the methods are proved to compute them.
 */
module Extractor {
  import opened Graph
  import opened Weights

  /**
   * What one walk yields: the chain and the weights after it, or the
   * vertex whose ordered out-list is empty, where `topLeftEdge` fails on
   * `edges.get(0)` and the program stops.
   */
  datatype Walk = Reached(chain: seq<nat>, weight: seq<int>) | DeadEnd(vertex: nat)

  /**
   * What a walk relies on: every edge climbs and joins two of the `n`
   * vertices, and the ordered out-list of vertex `v` holds edges leaving `v`.
   */
  predicate Walkable(arena: seq<Edge>, n: nat, ordered: seq<seq<nat>>, w: seq<int>)
  {
    && Upward(arena) && EndpointsWithin(arena, n) && |ordered| == n && |w| == |arena|
    && ListsHold(arena, ordered, true)
    && (forall v :: 0 <= v < n ==> Within(ordered[v], |arena|))
  }

  /** `c` is a path of edges from vertex `from` to vertex `to`, each edge starting where the last one ended. */
  predicate Path(arena: seq<Edge>, c: seq<nat>, from: nat, to: nat)
    decreases |c|
  {
    if c == [] then from == to
    else c[0] < |arena| && arena[c[0]].start == from && Path(arena, c[1..], arena[c[0]].end, to)
  }

  /** Puts the edges of `prefix` in front of the chain of a walk that reached the sink. */
  function Extend(prefix: seq<nat>, r: Walk): Walk
  {
    match r
    case Reached(c, w) => Reached(prefix + c, w)
    case DeadEnd(u) => DeadEnd(u)
  }

  /** Extending twice is extending by both prefixes. */
  lemma ExtendTwice(a: seq<nat>, b: seq<nat>, r: Walk)
    ensures Extend(a, Extend(b, r)) == Extend(a + b, r)
  {
    if r.Reached? {
      assert a + (b + r.chain) == (a + b) + r.chain;
    }
  }

  /** The edge the walk takes at `v` leaves `v` and climbs. */
  lemma ChosenClimbs(arena: seq<Edge>, n: nat, ordered: seq<seq<nat>>, w: seq<int>, v: nat)
    requires Walkable(arena, n, ordered, w) && v < n && ordered[v] != []
    ensures var e := TopLeft(w, ordered[v]);
      e < |arena| && arena[e].start == v && v < arena[e].end < n
  {
    var e := TopLeft(w, ordered[v]);
    var k :| 0 <= k < |ordered[v]| && ordered[v][k] == e;
  }

  /**
   * The walk of `createChain` from vertex `v` with weights `w`: at the sink
   * it stops; otherwise it takes the top-left edge of the ordered out-list,
   * lowers its weight by one and goes on from the edge's end.
   */
  function WalkFrom(arena: seq<Edge>, n: nat, ordered: seq<seq<nat>>, w: seq<int>, v: nat): (r: Walk)
    requires Walkable(arena, n, ordered, w) && v < n
    ensures r.Reached? ==> |r.weight| == |w|
    decreases n - v
  {
    if v == n - 1 then Reached([], w)
    else if ordered[v] == [] then DeadEnd(v)
    else
      var e := TopLeft(w, ordered[v]);
      ChosenClimbs(arena, n, ordered, w, v);
      Extend([e], WalkFrom(arena, n, ordered, w[e := w[e] - 1], arena[e].end))
  }

  /** One step of the walk, unfolded once. */
  lemma WalkStep(arena: seq<Edge>, n: nat, ordered: seq<seq<nat>>, w: seq<int>, v: nat)
    requires Walkable(arena, n, ordered, w) && v + 1 < n && ordered[v] != []
    ensures var e := TopLeft(w, ordered[v]);
      && e < |arena| && arena[e].start == v && v < arena[e].end < n
      && Walkable(arena, n, ordered, w[e := w[e] - 1])
      && WalkFrom(arena, n, ordered, w, v) == Extend([e], WalkFrom(arena, n, ordered, w[e := w[e] - 1], arena[e].end))
  {
    ChosenClimbs(arena, n, ordered, w, v);
  }

  /**
   * A walk from below the sink that reached the sink, split into its first
   * edge `e` and the walk `r'` from `e`'s end with `e` spent.
   */
  lemma WalkUnfold(arena: seq<Edge>, n: nat, ordered: seq<seq<nat>>, w: seq<int>, v: nat, r: Walk)
    returns (e: nat, w1: seq<int>, r': Walk)
    requires Walkable(arena, n, ordered, w) && v + 1 < n
    requires r == WalkFrom(arena, n, ordered, w, v) && r.Reached?
    ensures ordered[v] != [] && e == TopLeft(w, ordered[v])
    ensures e < |arena| && arena[e].start == v && v < arena[e].end < n
    ensures w1 == w[e := w[e] - 1] && Walkable(arena, n, ordered, w1)
    ensures r' == WalkFrom(arena, n, ordered, w1, arena[e].end) && r'.Reached?
    ensures r.chain == [e] + r'.chain && r.weight == r'.weight
  {
    e := TopLeft(w, ordered[v]);
    WalkStep(arena, n, ordered, w, v);
    w1 := w[e := w[e] - 1];
    r' := WalkFrom(arena, n, ordered, w1, arena[e].end);
    assert r == Extend([e], r');
  }

  /** Along a path of climbing edges, every edge leaves `from` or a vertex above it. */
  lemma {:induction false} PathClimbs(arena: seq<Edge>, c: seq<nat>, from: nat, to: nat)
    requires Upward(arena) && Path(arena, c, from, to)
    ensures forall k :: 0 <= k < |c| ==> c[k] < |arena| && from <= arena[c[k]].start
    decreases |c|
  {
    if c != [] {
      PathClimbs(arena, c[1..], arena[c[0]].end, to);
      assert forall k :: 0 < k < |c| ==> c[k] == c[1..][k - 1];
    }
  }

  /** A walk that reaches the sink has followed a path from `v` to the sink. */
  lemma {:induction false} WalkIsPath(arena: seq<Edge>, n: nat, ordered: seq<seq<nat>>, w: seq<int>, v: nat, r: Walk)
    requires Walkable(arena, n, ordered, w) && v < n
    requires r == WalkFrom(arena, n, ordered, w, v) && r.Reached?
    ensures Path(arena, r.chain, v, n - 1)
    decreases n - v
  {
    if v + 1 < n {
      var e, w1, r' := WalkUnfold(arena, n, ordered, w, v, r);
      WalkIsPath(arena, n, ordered, w1, arena[e].end, r');
      PathCons(arena, e, r'.chain, v, n - 1);
    } else {
      assert r.chain == [];
    }
  }

  /** A walk that reaches the sink has followed a path from `v` to the sink, climbing from `v` on. */
  lemma WalkPath(arena: seq<Edge>, n: nat, ordered: seq<seq<nat>>, w: seq<int>, v: nat, r: Walk)
    requires Walkable(arena, n, ordered, w) && v < n
    requires r == WalkFrom(arena, n, ordered, w, v) && r.Reached?
    ensures Path(arena, r.chain, v, n - 1)
    ensures forall k :: 0 <= k < |r.chain| ==> r.chain[k] < |arena| && v <= arena[r.chain[k]].start
  {
    WalkIsPath(arena, n, ordered, w, v, r);
    PathClimbs(arena, r.chain, v, n - 1);
  }

  /** An edge from `from` followed by a path from its end is a path from `from`. */
  lemma PathCons(arena: seq<Edge>, e: nat, c: seq<nat>, from: nat, to: nat)
    requires e < |arena| && arena[e].start == from && Path(arena, c, arena[e].end, to)
    ensures Path(arena, [e] + c, from, to)
  {
    assert ([e] + c)[1..] == c;
  }

  /** A walk that reaches the sink spends one unit of weight on each of its edges and nothing on any other. */
  lemma {:induction false} WalkSpends(arena: seq<Edge>, n: nat, ordered: seq<seq<nat>>, w: seq<int>, v: nat, r: Walk)
    requires Walkable(arena, n, ordered, w) && v < n
    requires r == WalkFrom(arena, n, ordered, w, v) && r.Reached?
    ensures forall x :: 0 <= x < |w| ==> r.weight[x] == w[x] - if x in r.chain then 1 else 0
    decreases n - v
  {
    if v + 1 < n {
      var e, w1, r' := WalkUnfold(arena, n, ordered, w, v, r);
      WalkSpends(arena, n, ordered, w1, arena[e].end, r');
      WalkPath(arena, n, ordered, w1, arena[e].end, r');
      assert e !in r'.chain;
      SpendOneMore(w, e, r'.chain, r'.weight);
    }
  }

  /** Spending one unit on `e` before a walk that spends one unit on each edge of `c`, which avoids `e`. */
  lemma SpendOneMore(w: seq<int>, e: nat, c: seq<nat>, w': seq<int>)
    requires e < |w| && e !in c && |w'| == |w|
    requires forall x :: 0 <= x < |w| ==> w'[x] == w[e := w[e] - 1][x] - if x in c then 1 else 0
    ensures forall x :: 0 <= x < |w| ==> w'[x] == w[x] - if x in [e] + c then 1 else 0
  {
    forall x | 0 <= x < |w| ensures w'[x] == w[x] - if x in [e] + c then 1 else 0 {
      if x == e {
        assert x in [e] + c;
      } else {
        assert (x in [e] + c) == (x in c);
      }
    }
  }

  /** A walk fails only at a vertex below the sink, at or above `v`, whose ordered out-list is empty. */
  lemma {:induction false} WalkDeadEnd(arena: seq<Edge>, n: nat, ordered: seq<seq<nat>>, w: seq<int>, v: nat, r: Walk)
    requires Walkable(arena, n, ordered, w) && v < n
    requires r == WalkFrom(arena, n, ordered, w, v) && r.DeadEnd?
    ensures v <= r.vertex < n - 1 && ordered[r.vertex] == []
    decreases n - v
  {
    if v != n - 1 && ordered[v] != [] {
      var e := TopLeft(w, ordered[v]);
      WalkStep(arena, n, ordered, w, v);
      var w1 := w[e := w[e] - 1];
      var r' := WalkFrom(arena, n, ordered, w1, arena[e].end);
      assert r == Extend([e], r');
      WalkDeadEnd(arena, n, ordered, w1, arena[e].end, r');
    }
  }

  /** Without an empty out-list between `v` and the sink, the walk reaches the sink. */
  lemma WalkReachesSink(arena: seq<Edge>, n: nat, ordered: seq<seq<nat>>, w: seq<int>, v: nat)
    requires Walkable(arena, n, ordered, w) && v < n
    requires forall u :: v <= u < n - 1 ==> ordered[u] != []
    ensures WalkFrom(arena, n, ordered, w, v).Reached?
  {
    var r := WalkFrom(arena, n, ordered, w, v);
    if r.DeadEnd? {
      WalkDeadEnd(arena, n, ordered, w, v, r);
    }
  }

  /**
   * Every edge of a chain is the top-left edge of its start's ordered
   * out-list under the weights the walk started with: a walk never comes
   * back to a vertex, so the weights it has spent are never among those it
   * reads.
   */
  lemma {:induction false} WalkTakesTopLeft(arena: seq<Edge>, n: nat, ordered: seq<seq<nat>>, w: seq<int>, v: nat, r: Walk)
    requires Walkable(arena, n, ordered, w) && v < n
    requires r == WalkFrom(arena, n, ordered, w, v) && r.Reached?
    ensures forall k :: 0 <= k < |r.chain| ==>
      r.chain[k] < |arena| && arena[r.chain[k]].start < n && ordered[arena[r.chain[k]].start] != []
      && r.chain[k] == TopLeft(w, ordered[arena[r.chain[k]].start])
    decreases n - v
  {
    if v + 1 < n {
      var e, w1, r' := WalkUnfold(arena, n, ordered, w, v, r);
      WalkTakesTopLeft(arena, n, ordered, w1, arena[e].end, r');
      WalkPath(arena, n, ordered, w1, arena[e].end, r');
      var c := r.chain;
      forall k | 0 < k < |c|
        ensures c[k] < |arena| && arena[c[k]].start < n && ordered[arena[c[k]].start] != []
        ensures c[k] == TopLeft(w, ordered[arena[c[k]].start])
      {
        assert c[k] == r'.chain[k - 1];
        TopLeftUnspent(arena, ordered, w, e, arena[c[k]].start);
      }
    }
  }

  /** Spending a unit on an edge that does not leave `s` does not change the choice at `s`. */
  lemma TopLeftUnspent(arena: seq<Edge>, ordered: seq<seq<nat>>, w: seq<int>, e: nat, s: nat)
    requires ListsHold(arena, ordered, true) && e < |w| == |arena| && e < |arena| && s < |ordered|
    requires ordered[s] != [] && Within(ordered[s], |w|) && arena[e].start != s
    ensures TopLeft(w[e := w[e] - 1], ordered[s]) == TopLeft(w, ordered[s])
  {
    forall y | y in ordered[s] ensures w[e := w[e] - 1][y] == w[y] {
      FiledOnlyUnder(arena, ordered, true, s, e);
    }
    TopLeftAgrees(w[e := w[e] - 1], w, ordered[s]);
  }

  /**
   * `createChain` (lines 102-111): walks from the source, adding each
   * chosen edge to the chain and lowering its weight in place. It reports
   * `stuck` where the program would fail on an empty out-list.
   */
  method CreateChain(arena: seq<Edge>, n: nat, ordered: seq<seq<nat>>, weight: array<int>)
    returns (chain: seq<nat>, stuck: bool)
    requires n >= 1 && Walkable(arena, n, ordered, weight[..])
    modifies weight
    ensures var r := WalkFrom(arena, n, ordered, old(weight[..]), 0);
      if stuck then r.DeadEnd? else r == Reached(chain, weight[..])
  {
    ghost var start := weight[..];
    var vertex := 0;
    chain := [];
    while vertex != n - 1
      invariant vertex < n
      invariant Walkable(arena, n, ordered, weight[..])
      invariant WalkFrom(arena, n, ordered, start, 0) == Extend(chain, WalkFrom(arena, n, ordered, weight[..], vertex))
      decreases n - vertex
    {
      if ordered[vertex] == [] {
        return chain, true;
      }
      ghost var before := weight[..];
      var e := TopLeftEdge(weight, ordered[vertex]);
      ghost var spent := before[e := before[e] - 1];
      WalkAdvance(arena, n, ordered, start, chain, before, vertex, e, spent);
      chain := chain + [e];
      weight[e] := weight[e] - 1;
      assert weight[..] == spent;
      vertex := arena[e].end;
    }
    assert chain + [] == chain;
    stuck := false;
  }

  /** The walk from `start` so far is `chain`; taking the top-left edge `e` at `v` extends it by `e`. */
  lemma WalkAdvance(arena: seq<Edge>, n: nat, ordered: seq<seq<nat>>, start: seq<int>, chain: seq<nat>,
                    w: seq<int>, v: nat, e: nat, spent: seq<int>)
    requires n >= 1 && Walkable(arena, n, ordered, start) && Walkable(arena, n, ordered, w)
    requires v < n && v != n - 1 && ordered[v] != [] && e == TopLeft(w, ordered[v])
    requires WalkFrom(arena, n, ordered, start, 0) == Extend(chain, WalkFrom(arena, n, ordered, w, v))
    requires e < |w| && spent == w[e := w[e] - 1]
    ensures e < |arena| && v < arena[e].end < n && Walkable(arena, n, ordered, spent)
    ensures WalkFrom(arena, n, ordered, start, 0) == Extend(chain + [e], WalkFrom(arena, n, ordered, spent, arena[e].end))
  {
    WalkStep(arena, n, ordered, w, v);
    ExtendTwice(chain, [e], WalkFrom(arena, n, ordered, spent, arena[e].end));
  }

  /**
   * The ordered copies of lines 180-182: every out-list copied and sorted
   * by descending rotation, leaving the lists themselves as they are.
   */
  method OrderCopies(arena: seq<Edge>, edgesOut: seq<seq<nat>>) returns (ordered: seq<seq<nat>>)
    requires forall v :: 0 <= v < |edgesOut| ==> Within(edgesOut[v], |arena|)
    ensures |ordered| == |edgesOut|
    ensures forall v :: 0 <= v < |edgesOut| ==> ordered[v] == SortEdges(arena, edgesOut[v])
  {
    ordered := [];
    for v := 0 to |edgesOut|
      invariant |ordered| == v
      invariant forall u :: 0 <= u < v ==> ordered[u] == SortEdges(arena, edgesOut[u])
    {
      ordered := ordered + [SortEdges(arena, edgesOut[v])];
    }
  }

  /**
   * What the extraction loop yields: the chains and the weights after
   * them, or the vertex where a walk failed.
   */
  datatype Extraction = Extracted(chains: seq<seq<nat>>, weight: seq<int>) | Failed(vertex: nat)

  /** Puts `chain` in front of the chains of an extraction that succeeded. */
  function Prepend(chain: seq<nat>, r: Extraction): Extraction
  {
    match r
    case Extracted(cs, w) => Extracted([chain] + cs, w)
    case Failed(u) => Failed(u)
  }

  /** Puts the chains of `prefix` in front of the chains of an extraction that succeeded. */
  function PrependAll(prefix: seq<seq<nat>>, r: Extraction): Extraction
  {
    match r
    case Extracted(cs, w) => Extracted(prefix + cs, w)
    case Failed(u) => Failed(u)
  }

  /**
   * The extraction loop (lines 184-187) with `k` chains still to extract and
   * weights `w`: each chain is a walk from the source with the weights the
   * previous walks left; a failed walk stops the program.
   */
  function ExtractFrom(arena: seq<Edge>, n: nat, ordered: seq<seq<nat>>, w: seq<int>, k: int): (r: Extraction)
    requires n >= 1 && Walkable(arena, n, ordered, w)
    ensures r.Extracted? ==> |r.weight| == |w| && |r.chains| == if k > 0 then k else 0
    decreases k
  {
    if k <= 0 then Extracted([], w)
    else match WalkFrom(arena, n, ordered, w, 0)
      case DeadEnd(u) => Failed(u)
      case Reached(c, w1) => Prepend(c, ExtractFrom(arena, n, ordered, w1, k - 1))
  }

  /**
   * The extraction loop (lines 184-187): `count` calls of `createChain` on
   * the shared weights, each adding one chain. It reports `failed` where the
   * program would stop on an empty out-list.
   */
  method ExtractChains(arena: seq<Edge>, n: nat, ordered: seq<seq<nat>>, weight: array<int>, count: int)
    returns (chains: seq<seq<nat>>, failed: bool)
    requires n >= 1 && Walkable(arena, n, ordered, weight[..])
    modifies weight
    ensures var r := ExtractFrom(arena, n, ordered, old(weight[..]), count);
      if failed then r.Failed? else r == Extracted(chains, weight[..])
  {
    ghost var start := weight[..];
    chains := [];
    var j := 0;
    ghost var left := count;
    PrependNothing(ExtractFrom(arena, n, ordered, start, count));
    while j < count
      invariant 0 <= j && (j <= count || count <= 0) && left == count - j
      invariant Walkable(arena, n, ordered, weight[..])
      invariant ExtractFrom(arena, n, ordered, start, count) == PrependAll(chains, ExtractFrom(arena, n, ordered, weight[..], left))
    {
      ghost var before := weight[..];
      var chain, stuck := CreateChain(arena, n, ordered, weight);
      if stuck {
        return chains, true;
      }
      ghost var next := left - 1;
      ExtractStep(arena, n, ordered, before, left, next, chain, weight[..]);
      PrependTwice(chains, chain, ExtractFrom(arena, n, ordered, weight[..], next));
      chains := chains + [chain];
      j, left := j + 1, next;
    }
    assert ExtractFrom(arena, n, ordered, weight[..], left) == Extracted([], weight[..]);
    assert chains + [] == chains;
    failed := false;
  }

  /** One more chain brings the extraction from `k` chains to `k - 1`. */
  lemma ExtractStep(arena: seq<Edge>, n: nat, ordered: seq<seq<nat>>, w: seq<int>, k: int, j: int, c: seq<nat>, w1: seq<int>)
    requires n >= 1 && Walkable(arena, n, ordered, w) && k > 0 && j == k - 1
    requires WalkFrom(arena, n, ordered, w, 0) == Reached(c, w1)
    ensures Walkable(arena, n, ordered, w1)
    ensures ExtractFrom(arena, n, ordered, w, k) == Prepend(c, ExtractFrom(arena, n, ordered, w1, j))
  {
  }

  lemma PrependNothing(r: Extraction)
    ensures PrependAll([], r) == r
  {
    if r.Extracted? {
      assert [] + r.chains == r.chains;
    }
  }

  lemma PrependTwice(prefix: seq<seq<nat>>, chain: seq<nat>, r: Extraction)
    ensures PrependAll(prefix, Prepend(chain, r)) == PrependAll(prefix + [chain], r)
  {
    if r.Extracted? {
      assert prefix + ([chain] + r.chains) == (prefix + [chain]) + r.chains;
    }
  }
}
