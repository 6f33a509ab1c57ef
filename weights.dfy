/**
 * The three helpers of the chain method that read edge lists:
 * `summarizeWeight`, `topLeftEdge` and `sortEdges`, together with the
 * facts about sums of weights that the balancing proofs use.
 */
module Weights {
  import opened Sorting
  import opened Graph

  /** The total weight of the edges of `es`, counted with repetition. */
  function Sum(w: seq<int>, es: seq<nat>): int
    requires Within(es, |w|)
  {
    if es == [] then 0 else w[es[0]] + Sum(w, es[1..])
  }

  lemma {:induction false} SumAppend(w: seq<int>, a: seq<nat>, b: seq<nat>)
    requires Within(a, |w|) && Within(b, |w|)
    ensures Sum(w, a + b) == Sum(w, a) + Sum(w, b)
  {
    if a == [] {
      assert a + b == b;
    } else {
      assert (a + b)[1..] == a[1..] + b;
      SumAppend(w, a[1..], b);
    }
  }

  /** A sum depends only on the weights of the edges summed. */
  lemma {:induction false} SumAgrees(w: seq<int>, w': seq<int>, es: seq<nat>)
    requires Within(es, |w|) && Within(es, |w'|)
    requires forall e :: e in es ==> w[e] == w'[e]
    ensures Sum(w, es) == Sum(w', es)
  {
    if es != [] {
      SumAgrees(w, w', es[1..]);
    }
  }

  /** Changing the weight of an edge that is not listed leaves the sum as it is. */
  lemma SumSkips(w: seq<int>, es: seq<nat>, x: nat, value: int)
    requires Within(es, |w|) && x < |w| && x !in es
    ensures Sum(w[x := value], es) == Sum(w, es)
  {
    SumAgrees(w, w[x := value], es);
  }

  /** A list of edges that all weigh 1 weighs its length. */
  lemma {:induction false} SumOfOnes(w: seq<int>, es: seq<nat>)
    requires Within(es, |w|)
    requires forall e :: e in es ==> w[e] == 1
    ensures Sum(w, es) == |es|
  {
    if es != [] {
      SumOfOnes(w, es[1..]);
    }
  }

  /** Raising weights never lowers a sum. */
  lemma {:induction false} SumGrows(w: seq<int>, w': seq<int>, es: seq<nat>)
    requires Within(es, |w|) && Within(es, |w'|)
    requires forall e :: e in es ==> w[e] <= w'[e]
    ensures Sum(w, es) <= Sum(w', es)
  {
    if es != [] {
      SumGrows(w, w', es[1..]);
    }
  }

  /** Positive weights make a non-negative sum. */
  lemma {:induction false} SumNonNegative(w: seq<int>, es: seq<nat>)
    requires Within(es, |w|)
    requires forall e :: e in es ==> w[e] >= 0
    ensures Sum(w, es) >= 0
  {
    if es != [] {
      SumNonNegative(w, es[1..]);
    }
  }

  /** Taking the k-th edge out of a list takes its weight out of the sum. */
  lemma SumWithout(w: seq<int>, b: seq<nat>, k: nat)
    requires Within(b, |w|) && k < |b|
    ensures Within(b[..k] + b[k + 1..], |w|)
    ensures Sum(w, b) == w[b[k]] + Sum(w, b[..k] + b[k + 1..])
    ensures multiset(b[..k] + b[k + 1..]) == multiset(b) - multiset{b[k]}
  {
    assert b == b[..k] + b[k..];
    assert b[k..] == [b[k]] + b[k + 1..];
    SumAppend(w, b[..k], b[k..]);
    SumAppend(w, b[..k], b[k + 1..]);
  }

  /** A list with the same elements as one within `m` is within `m`. */
  lemma WithinPermutation(a: seq<nat>, b: seq<nat>, m: nat)
    requires Within(a, m) && multiset(a) == multiset(b)
    ensures Within(b, m)
  {
    forall i | 0 <= i < |b| ensures b[i] < m {
      assert b[i] in multiset(a);
    }
  }

  /** The tail of a list holds its elements but the head. */
  lemma MultisetTail(a: seq<nat>)
    requires a != []
    ensures multiset(a[1..]) == multiset(a) - multiset{a[0]}
  {
    assert a == [a[0]] + a[1..];
  }

  /** The order of the edges does not matter to their sum. */
  lemma {:induction false} SumPermutation(w: seq<int>, a: seq<nat>, b: seq<nat>)
    requires Within(a, |w|) && multiset(a) == multiset(b)
    ensures Within(b, |w|)
    ensures Sum(w, a) == Sum(w, b)
  {
    WithinPermutation(a, b, |w|);
    if a != [] {
      var x := a[0];
      assert x in multiset(b);
      var k :| 0 <= k < |b| && b[k] == x;
      var rest := b[..k] + b[k + 1..];
      SumWithout(w, b, k);
      MultisetTail(a);
      SumPermutation(w, a[1..], rest);
    }
  }

  /** Changing the weight of an edge listed once changes the sum by the difference. */
  lemma {:induction false} SumUpdate(w: seq<int>, es: seq<nat>, x: nat, value: int)
    requires Within(es, |w|) && x < |w| && multiset(es)[x] == 1
    ensures Sum(w[x := value], es) == Sum(w, es) - w[x] + value
  {
    assert es == [es[0]] + es[1..];
    if es[0] == x {
      assert x !in es[1..];
      SumAgrees(w, w[x := value], es[1..]);
    } else {
      SumUpdate(w, es[1..], x, value);
    }
  }

  /**
   * `summarizeWeight` (lines 73-80): adds up the weights of the list in one
   * pass and changes nothing.
   */
  method SummarizeWeight(weight: array<int>, edges: seq<nat>) returns (result: int)
    requires Within(edges, weight.Length)
    ensures result == Sum(weight[..], edges)
  {
    result := 0;
    for i := 0 to |edges|
      invariant result == Sum(weight[..], edges[..i])
    {
      assert edges[..i + 1] == edges[..i] + [edges[i]];
      SumAppend(weight[..], edges[..i], [edges[i]]);
      result := result + weight[edges[i]];
    }
    assert edges[..|edges|] == edges;
  }

  /** The position of the first edge of `es` with positive weight, or |es| if there is none. */
  function FirstPositive(w: seq<int>, es: seq<nat>): (k: nat)
    requires Within(es, |w|)
    ensures k <= |es|
    ensures forall j :: 0 <= j < k ==> w[es[j]] <= 0
    ensures k < |es| ==> w[es[k]] > 0
  {
    if es == [] then 0
    else if w[es[0]] > 0 then 0
    else 1 + FirstPositive(w, es[1..])
  }

  /**
   * The edge `topLeftEdge` picks: the first edge of the list with positive
   * weight, and the list's first edge when no edge has any weight left.
   */
  function TopLeft(w: seq<int>, es: seq<nat>): (e: nat)
    requires |es| > 0 && Within(es, |w|)
    ensures e in es
    ensures (exists j :: 0 <= j < |es| && w[es[j]] > 0) ==> w[e] > 0
    ensures (forall j :: 0 <= j < |es| ==> w[es[j]] <= 0) ==> e == es[0]
    ensures exists k :: 0 <= k < |es| && es[k] == e && forall j :: 0 <= j < k ==> w[es[j]] <= 0
  {
    var k := FirstPositive(w, es);
    if k < |es| then es[k] else es[0]
  }

  /** `TopLeft` looks only at the weights of the listed edges. */
  lemma TopLeftAgrees(w: seq<int>, w': seq<int>, es: seq<nat>)
    requires |es| > 0 && Within(es, |w|) && Within(es, |w'|)
    requires forall e :: e in es ==> w[e] == w'[e]
    ensures TopLeft(w, es) == TopLeft(w', es)
  {
    var k, k' := FirstPositive(w, es), FirstPositive(w', es);
  }

  /**
   * `topLeftEdge` (lines 82-95): scans the list from the front and stops at
   * the first edge with positive weight; it starts from the first element,
   * so a list with no weight left yields its first edge.
   */
  method TopLeftEdge(weight: array<int>, edges: seq<nat>) returns (result: nat)
    requires |edges| > 0 && Within(edges, weight.Length)
    ensures result == TopLeft(weight[..], edges)
  {
    var i := 0;
    result := edges[0];
    while i < |edges|
      invariant 0 <= i <= |edges|
      invariant result == edges[0]
      invariant forall j :: 0 <= j < i ==> weight[edges[j]] <= 0
    {
      if weight[edges[i]] > 0 {
        result := edges[i];
        break;
      }
      i := i + 1;
    }
    assert i == FirstPositive(weight[..], edges);
  }

  /** The sort key of an edge: its rotation, negated so that ascending key is descending rotation. */
  function ByRotation(arena: seq<Edge>): nat -> real
  {
    e => if 0 <= e < |arena| then -arena[e].rotation else 0.0
  }

  /**
   * `sortEdges` (lines 97-100): `List.sort` with the comparator
   * `Double.compare(edge2.rotation, edge1.rotation)`, i.e. by descending
   * rotation; the library sort is stable.
   */
  function SortEdges(arena: seq<Edge>, es: seq<nat>): (r: seq<nat>)
    requires Within(es, |arena|)
    ensures |r| == |es| && multiset(r) == multiset(es)
    ensures Within(r, |arena|)
  {
    var r := StableSort<nat>(es, ByRotation(arena));
    assert Within(r, |arena|) by {
      forall i | 0 <= i < |r| ensures r[i] < |arena| {
        assert r[i] in multiset(es);
      }
    }
    r
  }

  /**
   * `SortEdges` orders a list by descending rotation, and edges of equal
   * rotation keep their relative order.
   */
  lemma SortEdgesOrders(arena: seq<Edge>, es: seq<nat>)
    requires Within(es, |arena|)
    ensures forall i, j :: 0 <= i < j < |es| ==>
      arena[SortEdges(arena, es)[i]].rotation >= arena[SortEdges(arena, es)[j]].rotation
    ensures StableWith(SortEdges(arena, es), es, ByRotation(arena))
  {
    var r := SortEdges(arena, es);
    StableSortOrders(es, ByRotation(arena));
    forall i, j | 0 <= i < j < |es| ensures arena[r[i]].rotation >= arena[r[j]].rotation {
      assert ByRotation(arena)(r[i]) <= ByRotation(arena)(r[j]);
    }
  }

  /** A list that `sortEdges` already ordered is left as it is by sorting it again. */
  lemma SortEdgesTwice(arena: seq<Edge>, es: seq<nat>)
    requires Within(es, |arena|)
    ensures SortEdges(arena, SortEdges(arena, es)) == SortEdges(arena, es)
  {
    SortIsIdempotent(es, ByRotation(arena));
  }
}
