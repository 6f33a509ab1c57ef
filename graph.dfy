/**
 * The graph model of the chain method: points, edges held in an arena and
 * addressed by index, the stable sort of the vertices by ordinate, the rank
 * of every vertex in that order, and the in- and out-lists of every vertex.
 */
module Graph {
  import opened Sorting

  /** A point; the `double` coordinates of the program are exact reals here. */
  datatype Point = Point(x: real, y: real)

  /**
   * A directed edge between two vertices. `start` and `end` name vertices;
   * `rotation` stands for atan2(end.y - start.y, end.x - start.x), computed
   * once when the edge is built. Its weight is kept apart, in a weight array
   * indexed like the arena, because it is the only part that changes.
   */
  datatype Edge = Edge(start: nat, end: nat, rotation: real)

  /** Every edge of the arena joins two of the first `n` vertices. */
  predicate EndpointsWithin(edges: seq<Edge>, n: nat)
  {
    forall e :: 0 <= e < |edges| ==> edges[e].start < n && edges[e].end < n
  }

  /** Every element of the list names an edge of an arena of `m` edges. */
  predicate Within(es: seq<nat>, m: nat)
  {
    forall i :: 0 <= i < |es| ==> es[i] < m
  }

  /** The handles 0 .. n-1 of the vertices in the order they were loaded. */
  function Handles(n: nat): (hs: seq<nat>)
    ensures |hs| == n
    ensures forall i :: 0 <= i < n ==> hs[i] == i
  {
    seq(n, i => i)
  }

  /** The ordinate of the vertex with handle `h`. */
  function Ordinate(points: seq<Point>): nat -> real
  {
    h => if 0 <= h < |points| then points[h].y else 0.0
  }

  /**
   * `vertices.sort(Comparator.comparingDouble(point -> point.y))`: the
   * handles of the vertices, listed by non-decreasing ordinate, vertices of
   * equal ordinate in the order they were loaded.
   */
  function SortVertices(points: seq<Point>): (order: seq<nat>)
    ensures |order| == |points|
    ensures multiset(order) == multiset(Handles(|points|))
    ensures forall k :: 0 <= k < |order| ==> order[k] < |points|
    ensures forall i, j :: 0 <= i < j < |order| ==> points[order[i]].y <= points[order[j]].y
    ensures StableWith(order, Handles(|points|), Ordinate(points))
  {
    var order := StableSort<nat>(Handles(|points|), Ordinate(points));
    assert forall k :: 0 <= k < |order| ==> order[k] < |points| by {
      forall k | 0 <= k < |order| ensures order[k] < |points| {
        assert order[k] in multiset(Handles(|points|));
      }
    }
    StableSortOrders(Handles(|points|), Ordinate(points));
    assert forall i, j :: 0 <= i < j < |order| ==> points[order[i]].y <= points[order[j]].y by {
      forall i, j | 0 <= i < j < |order| ensures points[order[i]].y <= points[order[j]].y {
        assert Ordinate(points)(order[i]) <= Ordinate(points)(order[j]);
      }
    }
    order
  }

  /** `List.indexOf`: the first position of `x` in `s`, or -1 when it is absent. */
  function IndexOf(s: seq<nat>, x: nat): (k: int)
    ensures -1 <= k < |s|
    ensures k == -1 <==> x !in s
    ensures 0 <= k ==> s[k] == x && x !in s[..k]
  {
    if s == [] then -1
    else if s[0] == x then 0
    else
      var k := IndexOf(s[1..], x);
      if k == -1 then -1
      else
        assert s[..k + 1] == [s[0]] + s[1..][..k];
        k + 1
  }

  /**
   * The rank of every vertex: the position of vertex `h` in the sorted
   * order, which is what `vertices.indexOf` finds after the sort.
   */
  function Ranks(order: seq<nat>): (rank: seq<nat>)
    requires multiset(order) == multiset(Handles(|order|))
    ensures |rank| == |order|
    ensures forall h :: 0 <= h < |order| ==> rank[h] < |order| && order[rank[h]] == h
  {
    assert forall h :: 0 <= h < |order| ==> h in order by {
      forall h | 0 <= h < |order| ensures h in order {
        assert Handles(|order|)[h] == h;
        assert h in multiset(Handles(|order|));
      }
    }
    seq(|order|, h requires 0 <= h < |order| => IndexOf(order, h) as nat)
  }

  /** The points in rank order: `vertices` after the sort. */
  function RankedVertices(points: seq<Point>, order: seq<nat>): (vertices: seq<Point>)
    requires forall k :: 0 <= k < |order| ==> order[k] < |points|
    ensures |vertices| == |order|
  {
    seq(|order|, k requires 0 <= k < |order| => points[order[k]])
  }

  /** The arena with every endpoint replaced by the rank of that vertex. */
  function Ranked(edges: seq<Edge>, rank: seq<nat>): (arena: seq<Edge>)
    requires EndpointsWithin(edges, |rank|)
    ensures |arena| == |edges|
    ensures (forall h :: 0 <= h < |rank| ==> rank[h] < |rank|) ==> EndpointsWithin(arena, |rank|)
  {
    seq(|edges|, e requires 0 <= e < |edges| =>
      Edge(rank[edges[e].start], rank[edges[e].end], edges[e].rotation))
  }

  /** Every edge climbs: it ends at a vertex of higher rank than the one it leaves. */
  predicate Upward(arena: seq<Edge>)
  {
    forall e :: 0 <= e < |arena| ==> arena[e].start < arena[e].end
  }

  /**
   * Ranking really follows the geometry: an edge that rises strictly ends at
   * a vertex ranked above its start, whatever the order of ties.
   */
  lemma RisingEdgesClimb(points: seq<Point>, edges: seq<Edge>)
    requires EndpointsWithin(edges, |points|)
    requires forall e :: 0 <= e < |edges| ==> points[edges[e].start].y < points[edges[e].end].y
    ensures Upward(Ranked(edges, Ranks(SortVertices(points))))
  {
    var order := SortVertices(points);
    var rank := Ranks(order);
    var arena := Ranked(edges, rank);
    forall e | 0 <= e < |arena| ensures arena[e].start < arena[e].end {
      RankRises(points, order, rank[edges[e].start], rank[edges[e].end]);
    }
  }

  /** In an order by ordinate, a vertex strictly above another comes after it. */
  lemma RankRises(points: seq<Point>, order: seq<nat>, i: nat, j: nat)
    requires forall k :: 0 <= k < |order| ==> order[k] < |points|
    requires forall i, j :: 0 <= i < j < |order| ==> points[order[i]].y <= points[order[j]].y
    requires i < |order| && j < |order| && points[order[i]].y < points[order[j]].y
    ensures i < j
  {
  }

  /** The ids of the list grow strictly: edges are in the order they were loaded. */
  predicate Increasing(s: seq<nat>)
  {
    forall i, j :: 0 <= i < j < |s| ==> s[i] < s[j]
  }

  /** The vertex an edge is filed under: its start in out-lists, its end in in-lists. */
  function Endpoint(e: Edge, outgoing: bool): nat
  {
    if outgoing then e.start else e.end
  }

  /** Every edge that `lists` holds under vertex `v` has `v` as its start (`outgoing`) or its end. */
  predicate ListsHold(arena: seq<Edge>, lists: seq<seq<nat>>, outgoing: bool)
  {
    forall v, i :: 0 <= v < |lists| && 0 <= i < |lists[v]| ==>
      lists[v][i] < |arena| && Endpoint(arena[lists[v][i]], outgoing) == v
  }

  /** `lists` holds every edge of the arena exactly once under its endpoint. */
  ghost predicate HoldsOnce(arena: seq<Edge>, lists: seq<seq<nat>>, outgoing: bool)
  {
    forall e :: 0 <= e < |arena| ==>
      Endpoint(arena[e], outgoing) < |lists| && multiset(lists[Endpoint(arena[e], outgoing)])[e] == 1
  }

  /**
   * `lists` files every edge of the arena exactly once, under its start
   * (`outgoing`) or under its end, and holds nothing else.
   */
  ghost predicate Files(arena: seq<Edge>, lists: seq<seq<nat>>, outgoing: bool)
  {
    ListsHold(arena, lists, outgoing) && HoldsOnce(arena, lists, outgoing)
  }

  /** Reordering every list keeps every edge filed once. */
  lemma FilesAfterReordering(arena: seq<Edge>, lists: seq<seq<nat>>, lists': seq<seq<nat>>, outgoing: bool)
    requires Files(arena, lists, outgoing) && |lists'| == |lists|
    requires forall v :: 0 <= v < |lists| ==> multiset(lists'[v]) == multiset(lists[v])
    ensures Files(arena, lists', outgoing)
  {
    forall u, i | 0 <= u < |lists'| && 0 <= i < |lists'[u]|
      ensures lists'[u][i] < |arena| && Endpoint(arena[lists'[u][i]], outgoing) == u
    {
      assert lists'[u][i] in multiset(lists[u]);
      assert lists'[u][i] in lists[u];
    }
    forall e | 0 <= e < |arena|
      ensures Endpoint(arena[e], outgoing) < |lists'| && multiset(lists'[Endpoint(arena[e], outgoing)])[e] == 1
    {
      var u := Endpoint(arena[e], outgoing);
      assert multiset(lists[u])[e] == 1;
    }
  }

  /** Reordering one list keeps every edge filed once. */
  lemma FilesAfterReorder(arena: seq<Edge>, lists: seq<seq<nat>>, v: nat, s: seq<nat>, outgoing: bool)
    requires Files(arena, lists, outgoing) && v < |lists| && multiset(s) == multiset(lists[v])
    ensures Files(arena, lists[v := s], outgoing)
  {
    FilesAfterReordering(arena, lists, lists[v := s], outgoing);
  }

  /** Lists that file every edge under its endpoint keep every endpoint among the `n` vertices. */
  lemma FiledEndpointsWithin(arena: seq<Edge>, outs: seq<seq<nat>>, ins: seq<seq<nat>>, n: nat)
    requires Files(arena, outs, true) && Files(arena, ins, false) && |outs| == n && |ins| == n
    ensures EndpointsWithin(arena, n)
  {
    forall e | 0 <= e < |arena| ensures arena[e].start < n && arena[e].end < n {
      assert Endpoint(arena[e], true) < |outs| && Endpoint(arena[e], false) < |ins|;
    }
  }

  /** An edge is filed only under its own endpoint. */
  lemma FiledOnlyUnder(arena: seq<Edge>, lists: seq<seq<nat>>, outgoing: bool, v: nat, e: nat)
    requires ListsHold(arena, lists, outgoing) && v < |lists| && e < |arena| && Endpoint(arena[e], outgoing) != v
    ensures e !in lists[v]
  {
  }

  /** A list that files the edges under vertex `v` is empty exactly when no edge has `v` as its endpoint. */
  lemma FiledListEmpty(arena: seq<Edge>, lists: seq<seq<nat>>, outgoing: bool, v: nat)
    requires Files(arena, lists, outgoing) && v < |lists|
    ensures lists[v] != [] <==> exists e :: 0 <= e < |arena| && Endpoint(arena[e], outgoing) == v
  {
    if lists[v] != [] {
      assert lists[v][0] in lists[v];
    }
    if e :| 0 <= e < |arena| && Endpoint(arena[e], outgoing) == v {
      assert multiset(lists[v])[e] == 1;
      assert e in multiset(lists[v]);
      assert e in lists[v];
    }
  }

  /** The first `k` edges of the arena that are filed under vertex `v`, in input order. */
  function FiledUnder(arena: seq<Edge>, v: nat, outgoing: bool, k: nat): seq<nat>
    requires k <= |arena|
  {
    if k == 0 then []
    else FiledUnder(arena, v, outgoing, k - 1) + (if Endpoint(arena[k - 1], outgoing) == v then [k - 1] else [])
  }

  /** The out-lists (`outgoing`) or in-lists of the `n` vertices that the adjacency loop builds. */
  function AdjacencyLists(arena: seq<Edge>, n: nat, outgoing: bool): (lists: seq<seq<nat>>)
    ensures |lists| == n
  {
    seq(n, v requires 0 <= v < n => FiledUnder(arena, v, outgoing, |arena|))
  }

  lemma {:induction false} FiledUnderContents(arena: seq<Edge>, v: nat, outgoing: bool, k: nat)
    requires k <= |arena|
    ensures Increasing(FiledUnder(arena, v, outgoing, k))
    ensures forall e: nat :: e in FiledUnder(arena, v, outgoing, k) <==> e < k && Endpoint(arena[e], outgoing) == v
  {
    if k > 0 {
      FiledUnderContents(arena, v, outgoing, k - 1);
      var prev := FiledUnder(arena, v, outgoing, k - 1);
      assert forall i :: 0 <= i < |prev| ==> prev[i] < k - 1 by {
        forall i | 0 <= i < |prev| ensures prev[i] < k - 1 {
          assert prev[i] in prev;
        }
      }
    }
  }

  lemma {:induction false} IncreasingHoldsOnce(s: seq<nat>, e: nat)
    requires Increasing(s) && e in s
    ensures multiset(s)[e] == 1
  {
    assert s == [s[0]] + s[1..];
    if s[0] == e {
      assert e !in s[1..];
    } else {
      IncreasingHoldsOnce(s[1..], e);
    }
  }

  /**
   * The adjacency lists file every edge exactly once under its start and
   * once under its end, each list in input order.
   */
  lemma AdjacencyListsFileEveryEdgeOnce(arena: seq<Edge>, n: nat)
    requires EndpointsWithin(arena, n)
    ensures Files(arena, AdjacencyLists(arena, n, true), true)
    ensures Files(arena, AdjacencyLists(arena, n, false), false)
    ensures forall v :: 0 <= v < n ==> Increasing(AdjacencyLists(arena, n, true)[v])
    ensures forall v :: 0 <= v < n ==> Increasing(AdjacencyLists(arena, n, false)[v])
  {
    forall v, outgoing | 0 <= v < n
      ensures Increasing(FiledUnder(arena, v, outgoing, |arena|))
      ensures forall e: nat :: e in FiledUnder(arena, v, outgoing, |arena|) <==> e < |arena| && Endpoint(arena[e], outgoing) == v
    {
      FiledUnderContents(arena, v, outgoing, |arena|);
    }
    forall v, i, outgoing | 0 <= v < n && 0 <= i < |AdjacencyLists(arena, n, outgoing)[v]|
      ensures AdjacencyLists(arena, n, outgoing)[v][i] < |arena|
      ensures Endpoint(arena[AdjacencyLists(arena, n, outgoing)[v][i]], outgoing) == v
    {
      assert AdjacencyLists(arena, n, outgoing)[v][i] in AdjacencyLists(arena, n, outgoing)[v];
    }
    forall e, outgoing | 0 <= e < |arena|
      ensures multiset(AdjacencyLists(arena, n, outgoing)[Endpoint(arena[e], outgoing)])[e] == 1
    {
      IncreasingHoldsOnce(AdjacencyLists(arena, n, outgoing)[Endpoint(arena[e], outgoing)], e);
    }
  }

  /**
   * Lines 140-154: one pass over the edges in input order appends each edge
   * to the out-list of its start and to the in-list of its end, and sets
   * its weight to 1.
   */
  method BuildAdjacency(arena: seq<Edge>, n: nat, weight: array<int>)
    returns (edgesIn: seq<seq<nat>>, edgesOut: seq<seq<nat>>)
    requires weight.Length == |arena|
    requires EndpointsWithin(arena, n)
    modifies weight
    ensures edgesOut == AdjacencyLists(arena, n, true)
    ensures edgesIn == AdjacencyLists(arena, n, false)
    ensures forall e :: 0 <= e < weight.Length ==> weight[e] == 1
  {
    edgesIn := seq(n, _ => []);
    edgesOut := seq(n, _ => []);
    var k := 0;
    while k < |arena|
      invariant 0 <= k <= |arena|
      invariant |edgesIn| == n && |edgesOut| == n
      invariant forall v :: 0 <= v < n ==> edgesOut[v] == FiledUnder(arena, v, true, k)
      invariant forall v :: 0 <= v < n ==> edgesIn[v] == FiledUnder(arena, v, false, k)
      invariant forall e :: 0 <= e < k ==> weight[e] == 1
    {
      var from, to := arena[k].start, arena[k].end;
      edgesOut := edgesOut[from := edgesOut[from] + [k]];
      edgesIn := edgesIn[to := edgesIn[to] + [k]];
      weight[k] := 1;
      k := k + 1;
    }
  }
}
