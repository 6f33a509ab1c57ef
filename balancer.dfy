/**
 * The two balancing passes of `main` (lines 156-174). The forward pass walks
 * the vertices bottom-up and makes each interior vertex send out at least as
 * much weight as it receives; the backward pass walks them top-down and lets
 * each vertex receive as much as it sends out. Both passes also leave the
 * list they weigh sorted by descending rotation.
 *
 * The passes are specified by folds of one step (`ForwardFrom`,
 * `BackwardFrom`); the methods are proved to compute the folds, and the
 * lemmas prove what the folds achieve.
 */
module Balancer {
  import opened Sorting
  import opened Graph
  import opened Weights

  /** What the passes change: the weight of every edge and the in- and out-lists of every vertex. */
  datatype State = State(weight: seq<int>, edgesIn: seq<seq<nat>>, edgesOut: seq<seq<nat>>)

  /** The state has one weight per edge of the arena and one in- and one out-list per vertex. */
  predicate Fits(arena: seq<Edge>, n: nat, st: State)
  {
    && |st.weight| == |arena| && |st.edgesIn| == n && |st.edgesOut| == n
    && (forall v :: 0 <= v < n ==> Within(st.edgesIn[v], |arena|) && Within(st.edgesOut[v], |arena|))
  }

  /** Every vertex `v` with `lo <= v < hi` that receives an edge also sends one. */
  predicate SendsWhereReceives(st: State, lo: int, hi: int)
    requires hi <= |st.edgesIn| && hi <= |st.edgesOut|
  {
    forall v :: lo <= v < hi && 0 <= v ==> (st.edgesIn[v] != [] ==> st.edgesOut[v] != [])
  }

  /** Every vertex `v` with `lo < v <= hi` that sends an edge also receives one. */
  predicate ReceivesWhereSends(st: State, lo: int, hi: int)
    requires hi < |st.edgesIn| && hi < |st.edgesOut|
  {
    forall v :: lo < v <= hi && 0 <= v ==> (st.edgesOut[v] != [] ==> st.edgesIn[v] != [])
  }

  function Max(a: int, b: int): int
  {
    if a >= b then a else b
  }

  /**
   * Every edge of the arena climbs, and the state files each edge once in
   * the out-list of its start and once in the in-list of its end.
   */
  ghost predicate Filed(arena: seq<Edge>, n: nat, st: State)
  {
    && Fits(arena, n, st) && Upward(arena)
    && Files(arena, st.edgesOut, true) && Files(arena, st.edgesIn, false)
  }

  /**
   * The state as the adjacency loop leaves it, as far as the forward pass
   * needs: every weight is 1, and an interior vertex that receives an edge
   * also sends one (otherwise `edgesOut.get(i).get(0)` at line 162 fails).
   */
  ghost predicate Prepared(arena: seq<Edge>, n: nat, st: State)
  {
    && Filed(arena, n, st)
    && (forall e :: 0 <= e < |arena| ==> st.weight[e] == 1)
    && (forall v :: 0 < v < n - 1 ==> (st.edgesIn[v] != [] ==> st.edgesOut[v] != []))
  }

  /**
   * What both passes need when the backward pass stops above `stop`: the
   * state is prepared, and every vertex above `stop` that sends an edge
   * also receives one (otherwise `edgesIn.get(i).get(0)` at line 172 fails).
   */
  ghost predicate PreparedFor(arena: seq<Edge>, n: nat, st: State, stop: int)
  {
    && Prepared(arena, n, st) && 0 <= stop < n
    && ReceivesWhereSends(st, stop, n - 1)
  }

  /**
   * One step of the forward pass (lines 157-163) at vertex `i`: sort the
   * out-list, and when the vertex receives more than it sends, set the
   * weight of the first sorted out-edge to the difference plus one.
   */
  function ForwardStep(arena: seq<Edge>, n: nat, st: State, i: nat): (r: State)
    requires Fits(arena, n, st) && i < n
    requires Sum(st.weight, st.edgesIn[i]) > Sum(st.weight, st.edgesOut[i]) ==> st.edgesOut[i] != []
    ensures Fits(arena, n, r)
    ensures r.edgesIn == st.edgesIn && r.edgesOut == st.edgesOut[i := SortEdges(arena, st.edgesOut[i])]
  {
    var wIn := Sum(st.weight, st.edgesIn[i]);
    var wOut := Sum(st.weight, st.edgesOut[i]);
    var sorted := SortEdges(arena, st.edgesOut[i]);
    var edgesOut := st.edgesOut[i := sorted];
    if wIn > wOut then State(st.weight[sorted[0] := wIn - wOut + 1], st.edgesIn, edgesOut)
    else State(st.weight, st.edgesIn, edgesOut)
  }

  /** The effect of one forward step, computed once. */
  lemma ForwardStepEffect(arena: seq<Edge>, n: nat, st: State, i: nat)
    requires Fits(arena, n, st) && i < n
    requires Sum(st.weight, st.edgesIn[i]) > Sum(st.weight, st.edgesOut[i]) ==> st.edgesOut[i] != []
    ensures var r, s := ForwardStep(arena, n, st, i), SortEdges(arena, st.edgesOut[i]);
      var wIn, wOut := Sum(st.weight, st.edgesIn[i]), Sum(st.weight, st.edgesOut[i]);
      && r.edgesIn == st.edgesIn && r.edgesOut == st.edgesOut[i := s]
      && r.weight == if wIn > wOut then st.weight[s[0] := wIn - wOut + 1] else st.weight
  {
  }

  /** The forward pass from vertex `i` up to, but not including, the sink `n - 1`. */
  function ForwardFrom(arena: seq<Edge>, n: nat, st: State, i: nat): (r: State)
    requires Fits(arena, n, st)
    requires SendsWhereReceives(st, i, n - 1)
    ensures Fits(arena, n, r)
    decreases n - i
  {
    if i + 1 >= n then st else ForwardFrom(arena, n, ForwardStep(arena, n, st, i), i + 1)
  }

  /**
   * One step of the backward pass (lines 167-173) at vertex `i`: sort the
   * in-list, and when the vertex sends more than it receives, add the
   * difference to the weight of the first sorted in-edge.
   */
  function BackwardStep(arena: seq<Edge>, n: nat, st: State, i: nat): (r: State)
    requires Fits(arena, n, st) && i < n
    requires Sum(st.weight, st.edgesOut[i]) > Sum(st.weight, st.edgesIn[i]) ==> st.edgesIn[i] != []
    ensures Fits(arena, n, r)
    ensures r.edgesOut == st.edgesOut && r.edgesIn == st.edgesIn[i := SortEdges(arena, st.edgesIn[i])]
  {
    var wIn := Sum(st.weight, st.edgesIn[i]);
    var wOut := Sum(st.weight, st.edgesOut[i]);
    var sorted := SortEdges(arena, st.edgesIn[i]);
    var edgesIn := st.edgesIn[i := sorted];
    if wOut > wIn then State(st.weight[sorted[0] := wOut - wIn + st.weight[sorted[0]]], edgesIn, st.edgesOut)
    else State(st.weight, edgesIn, st.edgesOut)
  }

  /** The backward pass from vertex `i` down to, but not including, vertex `stop` (and never below vertex 0). */
  function BackwardFrom(arena: seq<Edge>, n: nat, st: State, i: int, stop: int): (r: State)
    requires Fits(arena, n, st) && i < n
    requires ReceivesWhereSends(st, stop, i)
    ensures Fits(arena, n, r)
    decreases i - stop
  {
    if i <= stop || i < 0 then st else BackwardFrom(arena, n, BackwardStep(arena, n, st, i), i - 1, stop)
  }

  /** One more step of the forward pass brings the fold from `i` to `i + 1`. */
  lemma ForwardFromStep(arena: seq<Edge>, n: nat, st: State, i: nat)
    requires Fits(arena, n, st) && i + 1 < n
    requires SendsWhereReceives(st, i, n - 1)
    ensures Sum(st.weight, st.edgesIn[i]) > Sum(st.weight, st.edgesOut[i]) ==> st.edgesOut[i] != []
    ensures ForwardFrom(arena, n, st, i) == ForwardFrom(arena, n, ForwardStep(arena, n, st, i), i + 1)
    ensures SendsWhereReceives(ForwardStep(arena, n, st, i), i + 1, n - 1)
  {
  }

  /** One more step of the backward pass brings the fold from `i` to `i - 1`. */
  lemma BackwardFromStep(arena: seq<Edge>, n: nat, st: State, i: nat, stop: int)
    requires Fits(arena, n, st) && stop < i < n
    requires ReceivesWhereSends(st, stop, i)
    ensures Sum(st.weight, st.edgesOut[i]) > Sum(st.weight, st.edgesIn[i]) ==> st.edgesIn[i] != []
    ensures BackwardFrom(arena, n, st, i, stop) == BackwardFrom(arena, n, BackwardStep(arena, n, st, i), i - 1, stop)
    ensures ReceivesWhereSends(BackwardStep(arena, n, st, i), stop, i - 1)
  {
  }

  /** The body of the forward loop (lines 157-163) at vertex `i`. */
  method ForwardVisit(arena: seq<Edge>, n: nat, weight: array<int>, edgesIn: seq<seq<nat>>, edgesOut: seq<seq<nat>>, i: nat)
    returns (sortedOut: seq<seq<nat>>)
    requires Fits(arena, n, State(weight[..], edgesIn, edgesOut)) && i < n
    requires Sum(weight[..], edgesIn[i]) > Sum(weight[..], edgesOut[i]) ==> edgesOut[i] != []
    modifies weight
    ensures State(weight[..], edgesIn, sortedOut) == ForwardStep(arena, n, State(old(weight[..]), edgesIn, edgesOut), i)
    ensures sortedOut == edgesOut[i := SortEdges(arena, edgesOut[i])]
  {
    var wIn := SummarizeWeight(weight, edgesIn[i]);
    var wOut := SummarizeWeight(weight, edgesOut[i]);
    var sorted := SortEdges(arena, edgesOut[i]);
    sortedOut := edgesOut[i := sorted];
    if wIn > wOut {
      weight[sorted[0]] := wIn - wOut + 1;
    }
  }

  /**
   * The forward loop (lines 156-164). It updates the weights in place and
   * returns the out-lists with the sorted lists stored back.
   */
  method ForwardPass(arena: seq<Edge>, n: nat, weight: array<int>, edgesIn: seq<seq<nat>>, edgesOut: seq<seq<nat>>)
    returns (sortedOut: seq<seq<nat>>)
    requires Fits(arena, n, State(weight[..], edgesIn, edgesOut))
    requires SendsWhereReceives(State(weight[..], edgesIn, edgesOut), 1, n - 1)
    modifies weight
    ensures State(weight[..], edgesIn, sortedOut) == ForwardFrom(arena, n, State(old(weight[..]), edgesIn, edgesOut), 1)
  {
    ghost var start := State(weight[..], edgesIn, edgesOut);
    sortedOut := edgesOut;
    var i := 1;
    while i < n - 1
      invariant 1 <= i && (i <= n - 1 || n <= 1)
      invariant Fits(arena, n, State(weight[..], edgesIn, sortedOut))
      invariant SendsWhereReceives(State(weight[..], edgesIn, sortedOut), i, n - 1)
      invariant ForwardFrom(arena, n, State(weight[..], edgesIn, sortedOut), i) == ForwardFrom(arena, n, start, 1)
    {
      ForwardFromStep(arena, n, State(weight[..], edgesIn, sortedOut), i);
      sortedOut := ForwardVisit(arena, n, weight, edgesIn, sortedOut, i);
      i := i + 1;
    }
  }

  /** The body of the backward loop (lines 167-173) at vertex `i`. */
  method BackwardVisit(arena: seq<Edge>, n: nat, weight: array<int>, edgesIn: seq<seq<nat>>, edgesOut: seq<seq<nat>>, i: nat)
    returns (sortedIn: seq<seq<nat>>)
    requires Fits(arena, n, State(weight[..], edgesIn, edgesOut)) && i < n
    requires Sum(weight[..], edgesOut[i]) > Sum(weight[..], edgesIn[i]) ==> edgesIn[i] != []
    modifies weight
    ensures State(weight[..], sortedIn, edgesOut) == BackwardStep(arena, n, State(old(weight[..]), edgesIn, edgesOut), i)
    ensures sortedIn == edgesIn[i := SortEdges(arena, edgesIn[i])]
  {
    var wIn := SummarizeWeight(weight, edgesIn[i]);
    var wOut := SummarizeWeight(weight, edgesOut[i]);
    var sorted := SortEdges(arena, edgesIn[i]);
    sortedIn := edgesIn[i := sorted];
    if wOut > wIn {
      weight[sorted[0]] := wOut - wIn + weight[sorted[0]];
    }
  }

  /**
   * The backward loop (lines 166-174), from vertex `from` down to, but not
   * including, vertex `stop`; the program runs it with `from = n - 1` and
   * `stop = 1`, where the extra guard `i >= 0` never fires.
   */
  method BackwardPass(arena: seq<Edge>, n: nat, weight: array<int>, edgesIn: seq<seq<nat>>, edgesOut: seq<seq<nat>>,
                      from: int, stop: int)
    returns (sortedIn: seq<seq<nat>>)
    requires Fits(arena, n, State(weight[..], edgesIn, edgesOut)) && from < n
    requires ReceivesWhereSends(State(weight[..], edgesIn, edgesOut), stop, from)
    modifies weight
    ensures State(weight[..], sortedIn, edgesOut) == BackwardFrom(arena, n, State(old(weight[..]), edgesIn, edgesOut), from, stop)
  {
    ghost var start := State(weight[..], edgesIn, edgesOut);
    sortedIn := edgesIn;
    var i := from;
    while i > stop && i >= 0
      invariant i <= from
      invariant Fits(arena, n, State(weight[..], sortedIn, edgesOut))
      invariant ReceivesWhereSends(State(weight[..], sortedIn, edgesOut), stop, i)
      invariant BackwardFrom(arena, n, State(weight[..], sortedIn, edgesOut), i, stop) == BackwardFrom(arena, n, start, from, stop)
    {
      BackwardFromStep(arena, n, State(weight[..], sortedIn, edgesOut), i, stop);
      sortedIn := BackwardVisit(arena, n, weight, sortedIn, edgesOut, i);
      i := i - 1;
    }
  }

  /**
   * What holds once the forward pass has visited the interior vertices
   * below `i`: the in-lists are untouched, the visited out-lists are sorted,
   * every weight is at least 1, a weight other than 1 sits only on the first
   * sorted out-edge of a visited vertex, and every visited vertex sends out
   * the larger of what it receives and what it sent before.
   */
  ghost predicate ForwardDone(arena: seq<Edge>, n: nat, st0: State, st: State, i: nat)
  {
    && Prepared(arena, n, st0) && Filed(arena, n, st)
    && ForwardLists(arena, n, st0, st, i)
    && ForwardWeights(arena, n, st, i)
    && ForwardSums(n, st0, st, i)
  }

  ghost predicate ForwardLists(arena: seq<Edge>, n: nat, st0: State, st: State, i: nat)
    requires Fits(arena, n, st0) && Fits(arena, n, st)
  {
    && st.edgesIn == st0.edgesIn
    && (forall v :: 0 <= v < n ==>
          st.edgesOut[v] == if 0 < v < i && v < n - 1 then SortEdges(arena, st0.edgesOut[v]) else st0.edgesOut[v])
  }

  ghost predicate ForwardWeights(arena: seq<Edge>, n: nat, st: State, i: nat)
    requires Fits(arena, n, st)
  {
    forall e :: 0 <= e < |arena| ==>
      && st.weight[e] >= 1
      && (st.weight[e] != 1 ==>
            0 < arena[e].start < i && arena[e].start < n - 1 &&
            st.edgesOut[arena[e].start] != [] && e == st.edgesOut[arena[e].start][0])
  }

  ghost predicate ForwardSums(n: nat, st0: State, st: State, i: nat)
    requires |st0.edgesOut| == n && |st.edgesIn| == n && |st.edgesOut| == n
    requires forall v :: 0 <= v < n ==> Within(st.edgesIn[v], |st.weight|) && Within(st.edgesOut[v], |st.weight|)
  {
    forall v :: 0 < v < i && v < n - 1 ==>
      Sum(st.weight, st.edgesOut[v]) == Max(Sum(st.weight, st.edgesIn[v]), |st0.edgesOut[v]|)
  }

  lemma ForwardListsStep(arena: seq<Edge>, n: nat, st0: State, st: State, i: nat)
    requires Fits(arena, n, st0) && Filed(arena, n, st) && ForwardLists(arena, n, st0, st, i)
    requires 0 < i && i + 1 < n
    requires Sum(st.weight, st.edgesIn[i]) > Sum(st.weight, st.edgesOut[i]) ==> st.edgesOut[i] != []
    ensures Filed(arena, n, ForwardStep(arena, n, st, i))
    ensures ForwardLists(arena, n, st0, ForwardStep(arena, n, st, i), i + 1)
  {
    ForwardStepEffect(arena, n, st, i);
    FilesAfterReorder(arena, st.edgesOut, i, SortEdges(arena, st.edgesOut[i]), true);
  }

  lemma ForwardWeightsStep(arena: seq<Edge>, n: nat, st: State, i: nat)
    requires Fits(arena, n, st) && ListsHold(arena, st.edgesOut, true) && ForwardWeights(arena, n, st, i)
    requires 0 < i && i + 1 < n
    requires Sum(st.weight, st.edgesIn[i]) > Sum(st.weight, st.edgesOut[i]) ==> st.edgesOut[i] != []
    ensures ForwardWeights(arena, n, ForwardStep(arena, n, st, i), i + 1)
  {
    ForwardStepEffect(arena, n, st, i);
    var r, s := ForwardStep(arena, n, st, i), SortEdges(arena, st.edgesOut[i]);
    if Sum(st.weight, st.edgesIn[i]) > Sum(st.weight, st.edgesOut[i]) {
      assert s[0] in multiset(st.edgesOut[i]);
      SetKeepsWeights(arena, n, st, r, i, s[0]);
    } else {
      assert r.weight == st.weight;
    }
  }

  /**
   * Setting the weight of the first out-edge `x` of vertex `i`, whose
   * out-list alone changes, to at least 1 keeps what `ForwardWeights` says
   * one vertex further up.
   */
  lemma SetKeepsWeights(arena: seq<Edge>, n: nat, st: State, r: State, i: nat, x: nat)
    requires Fits(arena, n, st) && Fits(arena, n, r) && 0 < i && i + 1 < n
    requires ForwardWeights(arena, n, st, i)
    requires x < |arena| && arena[x].start == i && r.edgesOut[i] != [] && r.edgesOut[i][0] == x
    requires forall v :: 0 <= v < n && v != i ==> r.edgesOut[v] == st.edgesOut[v]
    requires r.weight == st.weight[x := r.weight[x]] && r.weight[x] >= 1
    ensures ForwardWeights(arena, n, r, i + 1)
  {
    forall e | 0 <= e < |arena|
      ensures r.weight[e] >= 1
      ensures r.weight[e] != 1 ==>
        0 < arena[e].start < i + 1 && arena[e].start < n - 1 &&
        r.edgesOut[arena[e].start] != [] && e == r.edgesOut[arena[e].start][0]
    {
      if e != x {
        assert r.weight[e] == st.weight[e];
      }
    }
  }

  /** Before the forward pass visits vertex `i`, its out-edges still weigh 1 each. */
  lemma UnvisitedOutWeighsDegree(arena: seq<Edge>, n: nat, st: State, i: nat)
    requires Fits(arena, n, st) && ListsHold(arena, st.edgesOut, true) && ForwardWeights(arena, n, st, i)
    requires i < n
    ensures forall e :: e in st.edgesOut[i] ==> st.weight[e] == 1
    ensures Sum(st.weight, st.edgesOut[i]) == |st.edgesOut[i]|
  {
    forall e | e in st.edgesOut[i] ensures st.weight[e] == 1 {
      assert arena[e].start == i;
    }
    SumOfOnes(st.weight, st.edgesOut[i]);
  }

  /**
   * Changing the weight of an edge from `i` to a vertex above it changes no
   * sum over the in-lists of the vertices up to `i`, nor over the out-lists
   * of the other vertices.
   */
  lemma ReweighOutEdge(arena: seq<Edge>, n: nat, st: State, i: nat, x: nat, value: int)
    requires Fits(arena, n, st) && Upward(arena)
    requires ListsHold(arena, st.edgesOut, true) && ListsHold(arena, st.edgesIn, false)
    requires x < |arena| && arena[x].start == i
    ensures forall v :: 0 <= v <= i && v < n ==> Sum(st.weight[x := value], st.edgesIn[v]) == Sum(st.weight, st.edgesIn[v])
    ensures forall v :: 0 <= v < n && v != i ==> Sum(st.weight[x := value], st.edgesOut[v]) == Sum(st.weight, st.edgesOut[v])
  {
    forall v | 0 <= v <= i && v < n
      ensures Sum(st.weight[x := value], st.edgesIn[v]) == Sum(st.weight, st.edgesIn[v])
    {
      FiledOnlyUnder(arena, st.edgesIn, false, v, x);
      SumSkips(st.weight, st.edgesIn[v], x, value);
    }
    forall v | 0 <= v < n && v != i
      ensures Sum(st.weight[x := value], st.edgesOut[v]) == Sum(st.weight, st.edgesOut[v])
    {
      FiledOnlyUnder(arena, st.edgesOut, true, v, x);
      SumSkips(st.weight, st.edgesOut[v], x, value);
    }
  }

  /** As every edge climbs, no edge leaves and enters the same vertex. */
  lemma InAndOutDisjoint(arena: seq<Edge>, n: nat, st: State, i: nat)
    requires Fits(arena, n, st) && Upward(arena) && i < n
    requires ListsHold(arena, st.edgesOut, true) && ListsHold(arena, st.edgesIn, false)
    ensures forall e :: e in st.edgesOut[i] ==> e !in st.edgesIn[i]
  {
    forall e | e in st.edgesOut[i] ensures e !in st.edgesIn[i] {
      assert arena[e].start == i;
      FiledOnlyUnder(arena, st.edgesIn, false, i, e);
    }
  }

  /**
   * The arithmetic of one forward step: when the out-edges all weigh 1 and
   * the first of them (in the sorted order `s`) is raised to the surplus of
   * the in-weight plus one, the out-list weighs the larger of the in-weight
   * and the out-degree.
   */
  lemma ForwardBalanceAt(w: seq<int>, ins: seq<nat>, outs: seq<nat>, s: seq<nat>)
    requires Within(ins, |w|) && Within(outs, |w|) && multiset(s) == multiset(outs)
    requires forall e :: e in outs ==> w[e] == 1 && e !in ins
    requires Sum(w, ins) > Sum(w, outs) ==> s != [] && multiset(s)[s[0]] == 1
    ensures Within(s, |w|)
    ensures var w' := if Sum(w, ins) > Sum(w, outs) then w[s[0] := Sum(w, ins) - Sum(w, outs) + 1] else w;
      Sum(w', s) == Max(Sum(w', ins), |outs|)
  {
    SumOfOnes(w, outs);
    SumPermutation(w, outs, s);
    var wIn := Sum(w, ins);
    if wIn > |outs| {
      var x := s[0];
      assert x in multiset(outs);
      assert x in outs;
      SumUpdate(w, s, x, wIn - |outs| + 1);
      SumSkips(w, ins, x, wIn - |outs| + 1);
    }
  }

  /** After the step at `i`, vertex `i` sends the larger of what it receives and its out-degree. */
  lemma ForwardStepSumAt(arena: seq<Edge>, n: nat, st: State, r: State, i: nat)
    requires Fits(arena, n, st) && i < n
    requires forall e :: e in st.edgesOut[i] ==> st.weight[e] == 1 && e !in st.edgesIn[i]
    requires Sum(st.weight, st.edgesIn[i]) > Sum(st.weight, st.edgesOut[i]) ==> st.edgesOut[i] != []
    requires var s := SortEdges(arena, st.edgesOut[i]); s != [] ==> multiset(s)[s[0]] == 1
    requires r == ForwardStep(arena, n, st, i)
    ensures Sum(r.weight, r.edgesOut[i]) == Max(Sum(r.weight, r.edgesIn[i]), |st.edgesOut[i]|)
  {
    ForwardStepEffect(arena, n, st, i);
    var s := SortEdges(arena, st.edgesOut[i]);
    ForwardBalanceAt(st.weight, st.edgesIn[i], st.edgesOut[i], s);
    assert r.edgesOut[i] == s && r.edgesIn[i] == st.edgesIn[i];
  }

  /** The step at `i` leaves the sums of the vertices below `i` as they were. */
  lemma ForwardStepSumsBelow(arena: seq<Edge>, n: nat, st: State, r: State, i: nat)
    requires Fits(arena, n, st) && Fits(arena, n, r) && Upward(arena)
    requires ListsHold(arena, st.edgesOut, true) && ListsHold(arena, st.edgesIn, false)
    requires 0 < i && i + 1 < n
    requires Sum(st.weight, st.edgesIn[i]) > Sum(st.weight, st.edgesOut[i]) ==> st.edgesOut[i] != []
    requires r.edgesIn == st.edgesIn && r.edgesOut == st.edgesOut[i := SortEdges(arena, st.edgesOut[i])]
    requires var s, wIn, wOut := SortEdges(arena, st.edgesOut[i]), Sum(st.weight, st.edgesIn[i]), Sum(st.weight, st.edgesOut[i]);
      r.weight == if wIn > wOut then st.weight[s[0] := wIn - wOut + 1] else st.weight
    ensures forall v :: 0 <= v < i ==>
      Sum(r.weight, r.edgesOut[v]) == Sum(st.weight, st.edgesOut[v]) && Sum(r.weight, r.edgesIn[v]) == Sum(st.weight, st.edgesIn[v])
  {
    var s := SortEdges(arena, st.edgesOut[i]);
    if Sum(st.weight, st.edgesIn[i]) > Sum(st.weight, st.edgesOut[i]) {
      assert s[0] in multiset(st.edgesOut[i]);
      ReweighOutEdge(arena, n, st, i, s[0], r.weight[s[0]]);
    }
  }

  /** The sums of `ForwardDone` carry over from `st` to `r` given how the step changed them. */
  lemma ForwardSumsStep(n: nat, st0: State, st: State, r: State, i: nat)
    requires |st0.edgesOut| == n && |st.edgesIn| == n && |st.edgesOut| == n && |r.edgesIn| == n && |r.edgesOut| == n
    requires forall v :: 0 <= v < n ==> Within(st.edgesIn[v], |st.weight|) && Within(st.edgesOut[v], |st.weight|)
    requires forall v :: 0 <= v < n ==> Within(r.edgesIn[v], |r.weight|) && Within(r.edgesOut[v], |r.weight|)
    requires 0 < i && i + 1 < n && ForwardSums(n, st0, st, i)
    requires Sum(r.weight, r.edgesOut[i]) == Max(Sum(r.weight, r.edgesIn[i]), |st0.edgesOut[i]|)
    requires forall v :: 0 <= v < i ==>
      Sum(r.weight, r.edgesOut[v]) == Sum(st.weight, st.edgesOut[v]) && Sum(r.weight, r.edgesIn[v]) == Sum(st.weight, st.edgesIn[v])
    ensures ForwardSums(n, st0, r, i + 1)
  {
  }

  lemma ForwardStepKeeps(arena: seq<Edge>, n: nat, st0: State, st: State, i: nat)
    requires ForwardDone(arena, n, st0, st, i) && 0 < i && i + 1 < n
    ensures Sum(st.weight, st.edgesIn[i]) > Sum(st.weight, st.edgesOut[i]) ==> st.edgesOut[i] != []
    ensures ForwardDone(arena, n, st0, ForwardStep(arena, n, st, i), i + 1)
  {
    assert st.edgesOut[i] == st0.edgesOut[i];
    ForwardListsStep(arena, n, st0, st, i);
    ForwardWeightsStep(arena, n, st, i);
    ForwardStepEffect(arena, n, st, i);
    var s := SortEdges(arena, st.edgesOut[i]);
    if s != [] {
      assert s[0] in multiset(st.edgesOut[i]);
    }
    UnvisitedOutWeighsDegree(arena, n, st, i);
    InAndOutDisjoint(arena, n, st, i);
    ForwardStepSumAt(arena, n, st, ForwardStep(arena, n, st, i), i);
    ForwardStepSumsBelow(arena, n, st, ForwardStep(arena, n, st, i), i);
    ForwardSumsStep(n, st0, st, ForwardStep(arena, n, st, i), i);
  }

  lemma {:induction false} ForwardFromKeeps(arena: seq<Edge>, n: nat, st0: State, st: State, i: nat)
    requires ForwardDone(arena, n, st0, st, i) && 0 < i
    requires SendsWhereReceives(st, i, n - 1)
    ensures ForwardDone(arena, n, st0, ForwardFrom(arena, n, st, i), Max(i, n - 1))
    decreases n - i
  {
    if i + 1 < n {
      ForwardFromStep(arena, n, st, i);
      ForwardStepKeeps(arena, n, st0, st, i);
      ForwardFromKeeps(arena, n, st0, ForwardStep(arena, n, st, i), i + 1);
    }
  }

  /**
   * The forward pass over a freshly built state: the in-lists are kept, the
   * out-lists of the interior vertices are sorted, every interior vertex
   * sends out the larger of what it receives and its out-degree (the weight
   * it had before), every weight stays at least 1, and only the first sorted
   * out-edge of an interior vertex can weigh more than 1.
   */
  lemma ForwardPassBalances(arena: seq<Edge>, n: nat, st0: State)
    requires Prepared(arena, n, st0)
    ensures var r := ForwardFrom(arena, n, st0, 1);
      && Filed(arena, n, r)
      && r.edgesIn == st0.edgesIn
      && (forall v :: 0 <= v < n ==>
            r.edgesOut[v] == if 0 < v < n - 1 then SortEdges(arena, st0.edgesOut[v]) else st0.edgesOut[v])
      && (forall v :: 0 < v < n - 1 ==>
            Sum(r.weight, r.edgesOut[v]) == Max(Sum(r.weight, r.edgesIn[v]), Sum(st0.weight, st0.edgesOut[v])))
      && (forall e :: 0 <= e < |arena| ==> r.weight[e] >= 1)
      && (forall e :: 0 <= e < |arena| && r.weight[e] != 1 ==>
            0 < arena[e].start < n - 1 && r.edgesOut[arena[e].start] != [] && e == r.edgesOut[arena[e].start][0])
  {
    ForwardFromKeeps(arena, n, st0, st0, 1);
    ForwardDoneMeans(arena, n, st0, ForwardFrom(arena, n, st0, 1));
  }

  /** What `ForwardDone` says once the forward pass has visited every interior vertex. */
  lemma ForwardDoneMeans(arena: seq<Edge>, n: nat, st0: State, r: State)
    requires ForwardDone(arena, n, st0, r, Max(1, n - 1))
    ensures && Filed(arena, n, r)
      && r.edgesIn == st0.edgesIn
      && (forall v :: 0 <= v < n ==>
            r.edgesOut[v] == if 0 < v < n - 1 then SortEdges(arena, st0.edgesOut[v]) else st0.edgesOut[v])
      && (forall v :: 0 < v < n - 1 ==>
            Sum(r.weight, r.edgesOut[v]) == Max(Sum(r.weight, r.edgesIn[v]), Sum(st0.weight, st0.edgesOut[v])))
      && (forall e :: 0 <= e < |arena| ==> r.weight[e] >= 1)
      && (forall e :: 0 <= e < |arena| && r.weight[e] != 1 ==>
            0 < arena[e].start < n - 1 && r.edgesOut[arena[e].start] != [] && e == r.edgesOut[arena[e].start][0])
  {
    forall v | 0 < v < n - 1 ensures Sum(st0.weight, st0.edgesOut[v]) == |st0.edgesOut[v]| {
      SumOfOnes(st0.weight, st0.edgesOut[v]);
    }
  }

  /** The effect of one backward step, computed once. */
  lemma BackwardStepEffect(arena: seq<Edge>, n: nat, st: State, i: nat)
    requires Fits(arena, n, st) && i < n
    requires Sum(st.weight, st.edgesOut[i]) > Sum(st.weight, st.edgesIn[i]) ==> st.edgesIn[i] != []
    ensures var r, s := BackwardStep(arena, n, st, i), SortEdges(arena, st.edgesIn[i]);
      var wIn, wOut := Sum(st.weight, st.edgesIn[i]), Sum(st.weight, st.edgesOut[i]);
      && r.edgesOut == st.edgesOut && r.edgesIn == st.edgesIn[i := s]
      && r.weight == if wOut > wIn then st.weight[s[0] := wOut - wIn + st.weight[s[0]]] else st.weight
  {
  }

  /**
   * What holds once the backward pass has visited the vertices `v` with
   * `i < v <= hi`: the out-lists and the in-lists not yet visited are
   * untouched, no weight has dropped, a weight has changed only on the first
   * in-edge of a visited vertex, and every visited vertex receives the larger
   * of what it received before and what it sends out. (`BackwardLists` says
   * what became of the visited in-lists.)
   */
  ghost predicate BackwardDone(arena: seq<Edge>, n: nat, st0: State, st: State, i: int, hi: int)
  {
    && Filed(arena, n, st0) && Filed(arena, n, st) && hi < n
    && BackwardUnvisited(n, st0, st, i)
    && BackwardWeights(arena, n, st0, st, i, hi)
    && BackwardSums(n, st0, st, i, hi)
  }

  ghost predicate BackwardUnvisited(n: nat, st0: State, st: State, i: int)
    requires |st0.edgesIn| == n && |st.edgesIn| == n
  {
    && st.edgesOut == st0.edgesOut
    && (forall v :: 0 <= v <= i && v < n ==> st.edgesIn[v] == st0.edgesIn[v])
  }

  /** The in-lists of the vertices `v` with `i < v <= hi` are sorted, and the others are untouched. */
  ghost predicate BackwardLists(arena: seq<Edge>, n: nat, st0: State, st: State, i: int, hi: int)
    requires Fits(arena, n, st0) && Fits(arena, n, st)
  {
    && st.edgesOut == st0.edgesOut
    && (forall v :: 0 <= v < n ==>
          st.edgesIn[v] == if i < v <= hi then SortEdges(arena, st0.edgesIn[v]) else st0.edgesIn[v])
  }

  ghost predicate BackwardWeights(arena: seq<Edge>, n: nat, st0: State, st: State, i: int, hi: int)
    requires Fits(arena, n, st0) && Fits(arena, n, st) && hi < n
  {
    forall e :: 0 <= e < |arena| ==>
      && st.weight[e] >= st0.weight[e]
      && (st.weight[e] != st0.weight[e] ==>
            i < arena[e].end <= hi && st.edgesIn[arena[e].end] != [] && e == st.edgesIn[arena[e].end][0])
  }

  ghost predicate BackwardSums(n: nat, st0: State, st: State, i: int, hi: int)
    requires |st0.edgesIn| == n && |st.edgesIn| == n && |st.edgesOut| == n && hi < n
    requires forall v :: 0 <= v < n ==> Within(st0.edgesIn[v], |st0.weight|)
    requires forall v :: 0 <= v < n ==> Within(st.edgesIn[v], |st.weight|) && Within(st.edgesOut[v], |st.weight|)
  {
    forall v :: i < v <= hi && 0 <= v ==>
      Sum(st.weight, st.edgesIn[v]) == Max(Sum(st0.weight, st0.edgesIn[v]), Sum(st.weight, st.edgesOut[v]))
  }

  lemma BackwardFiledStep(arena: seq<Edge>, n: nat, st0: State, st: State, i: nat)
    requires Fits(arena, n, st0) && Filed(arena, n, st) && BackwardUnvisited(n, st0, st, i)
    requires i < n
    requires Sum(st.weight, st.edgesOut[i]) > Sum(st.weight, st.edgesIn[i]) ==> st.edgesIn[i] != []
    ensures Filed(arena, n, BackwardStep(arena, n, st, i))
    ensures BackwardUnvisited(n, st0, BackwardStep(arena, n, st, i), i - 1)
  {
    BackwardStepEffect(arena, n, st, i);
    FilesAfterReorder(arena, st.edgesIn, i, SortEdges(arena, st.edgesIn[i]), false);
  }

  lemma BackwardListsStep(arena: seq<Edge>, n: nat, st0: State, st: State, i: nat, hi: int)
    requires Fits(arena, n, st0) && Fits(arena, n, st) && BackwardLists(arena, n, st0, st, i, hi)
    requires i <= hi < n
    requires Sum(st.weight, st.edgesOut[i]) > Sum(st.weight, st.edgesIn[i]) ==> st.edgesIn[i] != []
    ensures BackwardLists(arena, n, st0, BackwardStep(arena, n, st, i), i - 1, hi)
  {
    BackwardStepEffect(arena, n, st, i);
  }

  lemma BackwardWeightsStep(arena: seq<Edge>, n: nat, st0: State, st: State, i: nat, hi: int)
    requires Fits(arena, n, st0) && Fits(arena, n, st) && ListsHold(arena, st.edgesIn, false)
    requires i <= hi < n && BackwardWeights(arena, n, st0, st, i, hi)
    requires Sum(st.weight, st.edgesOut[i]) > Sum(st.weight, st.edgesIn[i]) ==> st.edgesIn[i] != []
    ensures BackwardWeights(arena, n, st0, BackwardStep(arena, n, st, i), i - 1, hi)
  {
    BackwardStepEffect(arena, n, st, i);
    var r, s := BackwardStep(arena, n, st, i), SortEdges(arena, st.edgesIn[i]);
    if Sum(st.weight, st.edgesOut[i]) > Sum(st.weight, st.edgesIn[i]) {
      assert s[0] in multiset(st.edgesIn[i]);
      RaiseKeepsWeights(arena, n, st0, st, r, i, hi, s[0]);
    } else {
      assert r.weight == st.weight;
    }
  }

  /**
   * Raising the weight of the first in-edge `x` of vertex `i`, whose
   * in-list alone changes, keeps what `BackwardWeights` says one vertex
   * further down.
   */
  lemma RaiseKeepsWeights(arena: seq<Edge>, n: nat, st0: State, st: State, r: State, i: nat, hi: int, x: nat)
    requires Fits(arena, n, st0) && Fits(arena, n, st) && Fits(arena, n, r) && i <= hi < n
    requires BackwardWeights(arena, n, st0, st, i, hi)
    requires x < |arena| && arena[x].end == i && r.edgesIn[i] != [] && r.edgesIn[i][0] == x
    requires forall v :: 0 <= v < n && v != i ==> r.edgesIn[v] == st.edgesIn[v]
    requires r.weight == st.weight[x := r.weight[x]] && r.weight[x] > st.weight[x]
    ensures BackwardWeights(arena, n, st0, r, i - 1, hi)
  {
    forall e | 0 <= e < |arena|
      ensures r.weight[e] >= st0.weight[e]
      ensures r.weight[e] != st0.weight[e] ==>
        i - 1 < arena[e].end <= hi && r.edgesIn[arena[e].end] != [] && e == r.edgesIn[arena[e].end][0]
    {
      if e != x {
        assert r.weight[e] == st.weight[e];
      }
    }
  }

  /**
   * Changing the weight of an edge into `i` changes no sum over the
   * in-lists of the other vertices, nor over the out-lists of `i` and the
   * vertices above it.
   */
  lemma ReweighInEdge(arena: seq<Edge>, n: nat, st: State, i: nat, x: nat, value: int)
    requires Fits(arena, n, st) && Upward(arena)
    requires ListsHold(arena, st.edgesOut, true) && ListsHold(arena, st.edgesIn, false)
    requires x < |arena| && arena[x].end == i
    ensures forall v :: 0 <= v < n && v != i ==> Sum(st.weight[x := value], st.edgesIn[v]) == Sum(st.weight, st.edgesIn[v])
    ensures forall v :: i <= v < n ==> Sum(st.weight[x := value], st.edgesOut[v]) == Sum(st.weight, st.edgesOut[v])
  {
    forall v | 0 <= v < n && v != i
      ensures Sum(st.weight[x := value], st.edgesIn[v]) == Sum(st.weight, st.edgesIn[v])
    {
      FiledOnlyUnder(arena, st.edgesIn, false, v, x);
      SumSkips(st.weight, st.edgesIn[v], x, value);
    }
    forall v | i <= v < n
      ensures Sum(st.weight[x := value], st.edgesOut[v]) == Sum(st.weight, st.edgesOut[v])
    {
      FiledOnlyUnder(arena, st.edgesOut, true, v, x);
      SumSkips(st.weight, st.edgesOut[v], x, value);
    }
  }

  /**
   * After the step at `i`, vertex `i` receives the larger of what it
   * received before the pass and what it sends out.
   */
  lemma BackwardStepSumAt(arena: seq<Edge>, n: nat, st0: State, st: State, r: State, i: nat)
    requires Fits(arena, n, st0) && Fits(arena, n, st)
    requires i < n && Sum(st.weight, st.edgesIn[i]) == Sum(st0.weight, st0.edgesIn[i])
    requires forall e :: e in st.edgesOut[i] ==> e !in st.edgesIn[i]
    requires Sum(st.weight, st.edgesOut[i]) > Sum(st.weight, st.edgesIn[i]) ==> st.edgesIn[i] != []
    requires var s := SortEdges(arena, st.edgesIn[i]); s != [] ==> multiset(s)[s[0]] == 1
    requires r == BackwardStep(arena, n, st, i)
    ensures Sum(r.weight, r.edgesIn[i]) == Max(Sum(st0.weight, st0.edgesIn[i]), Sum(r.weight, r.edgesOut[i]))
  {
    BackwardStepEffect(arena, n, st, i);
    BackwardRaiseSum(arena, n, st0, st, r, i);
  }

  /** The sums at `i` once its in-list is sorted and, if it sends more, its first in-edge raised. */
  lemma BackwardRaiseSum(arena: seq<Edge>, n: nat, st0: State, st: State, r: State, i: nat)
    requires Fits(arena, n, st0) && Fits(arena, n, st) && Fits(arena, n, r)
    requires i < n && Sum(st.weight, st.edgesIn[i]) == Sum(st0.weight, st0.edgesIn[i])
    requires forall e :: e in st.edgesOut[i] ==> e !in st.edgesIn[i]
    requires Sum(st.weight, st.edgesOut[i]) > Sum(st.weight, st.edgesIn[i]) ==> st.edgesIn[i] != []
    requires var s := SortEdges(arena, st.edgesIn[i]); s != [] ==> multiset(s)[s[0]] == 1
    requires r.edgesOut == st.edgesOut && r.edgesIn == st.edgesIn[i := SortEdges(arena, st.edgesIn[i])]
    requires var s, wIn, wOut := SortEdges(arena, st.edgesIn[i]), Sum(st.weight, st.edgesIn[i]), Sum(st.weight, st.edgesOut[i]);
      r.weight == if wOut > wIn then st.weight[s[0] := wOut - wIn + st.weight[s[0]]] else st.weight
    ensures Sum(r.weight, r.edgesIn[i]) == Max(Sum(st0.weight, st0.edgesIn[i]), Sum(r.weight, r.edgesOut[i]))
  {
    var w := st.weight;
    var inList := st.edgesIn[i];
    var s := SortEdges(arena, inList);
    SumPermutation(w, inList, s);
    var wIn := Sum(w, inList);
    var wOut := Sum(w, st.edgesOut[i]);
    if wOut > wIn {
      var x := s[0];
      assert x in multiset(inList);
      assert x in inList;
      SumUpdate(w, s, x, wOut - wIn + w[x]);
      SumSkips(w, st.edgesOut[i], x, wOut - wIn + w[x]);
      assert Sum(r.weight, r.edgesIn[i]) == wOut == Sum(r.weight, r.edgesOut[i]);
    } else {
      assert r.weight == w;
      assert Sum(r.weight, r.edgesIn[i]) == wIn;
    }
  }

  /** The step at `i` leaves the sums of the vertices above `i` as they were. */
  lemma BackwardStepSumsAbove(arena: seq<Edge>, n: nat, st: State, r: State, i: nat)
    requires Fits(arena, n, st) && Fits(arena, n, r) && Upward(arena)
    requires ListsHold(arena, st.edgesOut, true) && ListsHold(arena, st.edgesIn, false)
    requires i < n
    requires Sum(st.weight, st.edgesOut[i]) > Sum(st.weight, st.edgesIn[i]) ==> st.edgesIn[i] != []
    requires r.edgesOut == st.edgesOut && r.edgesIn == st.edgesIn[i := SortEdges(arena, st.edgesIn[i])]
    requires var s, wIn, wOut := SortEdges(arena, st.edgesIn[i]), Sum(st.weight, st.edgesIn[i]), Sum(st.weight, st.edgesOut[i]);
      r.weight == if wOut > wIn then st.weight[s[0] := wOut - wIn + st.weight[s[0]]] else st.weight
    ensures forall v :: i < v < n ==>
      Sum(r.weight, r.edgesIn[v]) == Sum(st.weight, st.edgesIn[v]) && Sum(r.weight, r.edgesOut[v]) == Sum(st.weight, st.edgesOut[v])
  {
    var s := SortEdges(arena, st.edgesIn[i]);
    if Sum(st.weight, st.edgesOut[i]) > Sum(st.weight, st.edgesIn[i]) {
      assert s[0] in multiset(st.edgesIn[i]);
      ReweighInEdge(arena, n, st, i, s[0], r.weight[s[0]]);
    }
  }

  /** The sums of `BackwardDone` carry over from `st` to `r` given how the step changed them. */
  lemma BackwardSumsStep(n: nat, st0: State, st: State, r: State, i: nat, hi: int)
    requires |st0.edgesIn| == n && |st.edgesIn| == n && |st.edgesOut| == n && |r.edgesIn| == n && |r.edgesOut| == n
    requires forall v :: 0 <= v < n ==> Within(st0.edgesIn[v], |st0.weight|)
    requires forall v :: 0 <= v < n ==> Within(st.edgesIn[v], |st.weight|) && Within(st.edgesOut[v], |st.weight|)
    requires forall v :: 0 <= v < n ==> Within(r.edgesIn[v], |r.weight|) && Within(r.edgesOut[v], |r.weight|)
    requires i <= hi < n && BackwardSums(n, st0, st, i, hi)
    requires Sum(r.weight, r.edgesIn[i]) == Max(Sum(st0.weight, st0.edgesIn[i]), Sum(r.weight, r.edgesOut[i]))
    requires forall v :: i < v < n ==>
      Sum(r.weight, r.edgesIn[v]) == Sum(st.weight, st.edgesIn[v]) && Sum(r.weight, r.edgesOut[v]) == Sum(st.weight, st.edgesOut[v])
    ensures BackwardSums(n, st0, r, i - 1, hi)
  {
  }

  /** Before the backward pass visits vertex `i`, its in-edges still weigh what they weighed at the start. */
  lemma UnvisitedInKeepsWeight(arena: seq<Edge>, n: nat, st0: State, st: State, i: nat, hi: int)
    requires Fits(arena, n, st0) && Fits(arena, n, st) && ListsHold(arena, st.edgesIn, false)
    requires i <= hi < n && BackwardWeights(arena, n, st0, st, i, hi)
    ensures Sum(st.weight, st.edgesIn[i]) == Sum(st0.weight, st.edgesIn[i])
  {
    forall e | e in st.edgesIn[i] ensures st.weight[e] == st0.weight[e] {
      assert arena[e].end == i;
    }
    SumAgrees(st.weight, st0.weight, st.edgesIn[i]);
  }

  lemma BackwardStepKeeps(arena: seq<Edge>, n: nat, st0: State, st: State, i: nat, hi: int)
    requires BackwardDone(arena, n, st0, st, i, hi) && i <= hi
    requires Sum(st.weight, st.edgesOut[i]) > Sum(st.weight, st.edgesIn[i]) ==> st.edgesIn[i] != []
    ensures BackwardDone(arena, n, st0, BackwardStep(arena, n, st, i), i - 1, hi)
  {
    assert st.edgesIn[i] == st0.edgesIn[i];
    BackwardFiledStep(arena, n, st0, st, i);
    BackwardWeightsStep(arena, n, st0, st, i, hi);
    BackwardStepEffect(arena, n, st, i);
    var s := SortEdges(arena, st.edgesIn[i]);
    if s != [] {
      assert s[0] in multiset(st.edgesIn[i]);
    }
    UnvisitedInKeepsWeight(arena, n, st0, st, i, hi);
    InAndOutDisjoint(arena, n, st, i);
    BackwardStepSumAt(arena, n, st0, st, BackwardStep(arena, n, st, i), i);
    BackwardStepSumsAbove(arena, n, st, BackwardStep(arena, n, st, i), i);
    BackwardSumsStep(n, st0, st, BackwardStep(arena, n, st, i), i, hi);
  }

  /**
   * The state after one more backward step, with what the backward loop
   * carries on: `target` is the state the fold from `i` reaches, and so the
   * state the fold from `j = i - 1` reaches from the next state.
   */
  lemma BackwardNext(arena: seq<Edge>, n: nat, f: State, st: State, i: int, j: int, stop: int, target: State)
    returns (next: State)
    requires BackwardDone(arena, n, f, st, i, n - 1) && BackwardLists(arena, n, f, st, i, n - 1)
    requires 0 <= stop < i < n && j == i - 1 && ReceivesWhereSends(st, stop, i)
    requires target == BackwardFrom(arena, n, st, i, stop)
    ensures BackwardDone(arena, n, f, next, j, n - 1) && BackwardLists(arena, n, f, next, j, n - 1)
    ensures ReceivesWhereSends(next, stop, j)
    ensures target == BackwardFrom(arena, n, next, j, stop)
  {
    BackwardFromStepTo(arena, n, st, i, j, stop);
    BackwardNextDone(arena, n, f, st, i, j, stop);
    BackwardNextLists(arena, n, f, st, i, j, stop);
    next := BackwardStep(arena, n, st, i);
  }

  /** `BackwardFromStep` with the next vertex `j` named. */
  lemma BackwardFromStepTo(arena: seq<Edge>, n: nat, st: State, i: nat, j: int, stop: int)
    requires Fits(arena, n, st) && stop < i < n && j == i - 1
    requires ReceivesWhereSends(st, stop, i)
    ensures Sum(st.weight, st.edgesOut[i]) > Sum(st.weight, st.edgesIn[i]) ==> st.edgesIn[i] != []
    ensures ReceivesWhereSends(BackwardStep(arena, n, st, i), stop, j)
    ensures BackwardFrom(arena, n, st, i, stop) == BackwardFrom(arena, n, BackwardStep(arena, n, st, i), j, stop)
  {
    BackwardFromStep(arena, n, st, i, stop);
  }

  lemma BackwardNextDone(arena: seq<Edge>, n: nat, f: State, st: State, i: int, j: int, stop: int)
    requires BackwardDone(arena, n, f, st, i, n - 1) && 0 <= stop < i < n && j == i - 1
    requires ReceivesWhereSends(st, stop, i)
    ensures BackwardDone(arena, n, f, BackwardStep(arena, n, st, i), j, n - 1)
  {
    BackwardFromStep(arena, n, st, i, stop);
    BackwardStepKeeps(arena, n, f, st, i, n - 1);
  }

  lemma BackwardNextLists(arena: seq<Edge>, n: nat, f: State, st: State, i: int, j: int, stop: int)
    requires Fits(arena, n, f) && Fits(arena, n, st) && BackwardLists(arena, n, f, st, i, n - 1)
    requires 0 <= stop < i < n && j == i - 1 && ReceivesWhereSends(st, stop, i)
    ensures BackwardLists(arena, n, f, BackwardStep(arena, n, st, i), j, n - 1)
  {
    BackwardFromStep(arena, n, st, i, stop);
    BackwardListsStep(arena, n, f, st, i, n - 1);
  }

  /**
   * The backward fold from the sink down to `stop`, step by step: what
   * `BackwardDone` and `BackwardLists` say holds at every step.
   */
  lemma BackwardFromHolds(arena: seq<Edge>, n: nat, f: State, stop: int)
    requires Filed(arena, n, f) && 0 <= stop < n
    requires ReceivesWhereSends(f, stop, n - 1)
    ensures var b := BackwardFrom(arena, n, f, n - 1, stop);
      BackwardDone(arena, n, f, b, stop, n - 1) && BackwardLists(arena, n, f, b, stop, n - 1)
  {
    var target := BackwardFrom(arena, n, f, n - 1, stop);
    var st, i := f, n - 1;
    while i > stop
      invariant stop <= i < n
      invariant BackwardDone(arena, n, f, st, i, n - 1) && BackwardLists(arena, n, f, st, i, n - 1)
      invariant ReceivesWhereSends(st, stop, i)
      invariant target == BackwardFrom(arena, n, st, i, stop)
      decreases i
    {
      var j := i - 1;
      st := BackwardNext(arena, n, f, st, i, j, stop, target);
      i := j;
    }
  }

  /**
   * The backward pass from the sink down to, but not including, `stop`: the
   * out-lists are kept, the visited in-lists are sorted, every visited
   * vertex receives the larger of what it received before and what it now
   * sends, no weight drops, and a weight changes only on the first sorted
   * in-edge of a visited vertex.
   */
  lemma BackwardPassBalances(arena: seq<Edge>, n: nat, f: State, stop: int)
    requires Filed(arena, n, f) && 0 <= stop < n
    requires ReceivesWhereSends(f, stop, n - 1)
    ensures var b := BackwardFrom(arena, n, f, n - 1, stop);
      && Filed(arena, n, b)
      && b.edgesOut == f.edgesOut
      && (forall v :: 0 <= v < n ==> b.edgesIn[v] == if stop < v then SortEdges(arena, f.edgesIn[v]) else f.edgesIn[v])
      && (forall v :: stop < v < n ==>
            Sum(b.weight, b.edgesIn[v]) == Max(Sum(f.weight, f.edgesIn[v]), Sum(b.weight, b.edgesOut[v])))
      && (forall e :: 0 <= e < |arena| ==> b.weight[e] >= f.weight[e])
      && (forall e :: 0 <= e < |arena| && b.weight[e] != f.weight[e] ==>
            stop < arena[e].end && b.edgesIn[arena[e].end] != [] && e == b.edgesIn[arena[e].end][0])
  {
    BackwardFromHolds(arena, n, f, stop);
  }

  /** No edge leaves the top vertex, since every edge climbs. */
  lemma SinkSendsNothing(arena: seq<Edge>, n: nat, st: State)
    requires Filed(arena, n, st) && n >= 1
    ensures st.edgesOut[n - 1] == []
  {
    forall e | 0 <= e < |arena| ensures arena[e].start != n - 1 {
      assert arena[e].end < n;
    }
    FiledListEmpty(arena, st.edgesOut, true, n - 1);
  }

  /**
   * After the forward pass, every vertex above `stop` that sends an edge
   * also receives one, so the backward pass can always raise an in-edge.
   */
  lemma ForwardPassFeedsBackward(arena: seq<Edge>, n: nat, st0: State, stop: int)
    requires PreparedFor(arena, n, st0, stop)
    ensures var f := ForwardFrom(arena, n, st0, 1);
      Filed(arena, n, f) && ReceivesWhereSends(f, stop, n - 1)
  {
    var f := ForwardFrom(arena, n, st0, 1);
    ForwardPassBalances(arena, n, st0);
    SinkSendsNothing(arena, n, f);
  }

  /**
   * Both balancing loops of `main` (lines 156-174): the forward pass over the
   * interior vertices, then the backward pass from the sink down to, but not
   * including, `stop`. The program stops at `stop = 1`; the chain method
   * needs `stop = 0` (see `IntendedPassesBalance`).
   */
  function Balanced(arena: seq<Edge>, n: nat, st0: State, stop: int): (b: State)
    requires PreparedFor(arena, n, st0, stop)
    ensures Fits(arena, n, b)
  {
    ForwardPassFeedsBackward(arena, n, st0, stop);
    BackwardFrom(arena, n, ForwardFrom(arena, n, st0, 1), n - 1, stop)
  }

  /**
   * What both passes leave, for either bound: the out-lists of the interior
   * vertices are sorted and the other out-lists untouched, every weight is
   * at least 1, every vertex `v` with `stop < v < n - 1` receives exactly
   * what it sends, and a vertex at or below `stop` sends at least what it
   * receives.
   */
  lemma BalancedShape(arena: seq<Edge>, n: nat, st0: State, stop: int)
    requires PreparedFor(arena, n, st0, stop)
    ensures var b := Balanced(arena, n, st0, stop);
      && Filed(arena, n, b)
      && (forall v :: 0 <= v < n ==>
            b.edgesOut[v] == if 0 < v < n - 1 then SortEdges(arena, st0.edgesOut[v]) else st0.edgesOut[v])
      && (forall e :: 0 <= e < |arena| ==> b.weight[e] >= 1)
      && (forall v :: stop < v < n - 1 ==> Sum(b.weight, b.edgesIn[v]) == Sum(b.weight, b.edgesOut[v]))
      && (forall v :: 0 < v <= stop && v < n - 1 ==> Sum(b.weight, b.edgesIn[v]) <= Sum(b.weight, b.edgesOut[v]))
  {
    BalancedLists(arena, n, st0, stop);
    BalancedWeights(arena, n, st0, stop);
    BalancedAbove(arena, n, st0, stop);
    BalancedBelow(arena, n, st0, stop);
  }

  /** Both passes keep every edge filed once; only the interior out-lists get sorted. */
  lemma BalancedLists(arena: seq<Edge>, n: nat, st0: State, stop: int)
    requires PreparedFor(arena, n, st0, stop)
    ensures var b := Balanced(arena, n, st0, stop);
      && Filed(arena, n, b)
      && (forall v :: 0 <= v < n ==>
            b.edgesOut[v] == if 0 < v < n - 1 then SortEdges(arena, st0.edgesOut[v]) else st0.edgesOut[v])
  {
    var f := ForwardFrom(arena, n, st0, 1);
    ForwardPassBalances(arena, n, st0);
    ForwardPassFeedsBackward(arena, n, st0, stop);
    BackwardPassBalances(arena, n, f, stop);
  }

  /** Both passes leave every weight at least 1. */
  lemma BalancedWeights(arena: seq<Edge>, n: nat, st0: State, stop: int)
    requires PreparedFor(arena, n, st0, stop)
    ensures var b := Balanced(arena, n, st0, stop);
      forall e :: 0 <= e < |arena| ==> b.weight[e] >= 1
  {
    var f := ForwardFrom(arena, n, st0, 1);
    ForwardPassBalances(arena, n, st0);
    ForwardPassFeedsBackward(arena, n, st0, stop);
    BackwardPassBalances(arena, n, f, stop);
  }

  /** Every interior vertex the backward pass visits receives exactly what it sends. */
  lemma BalancedAbove(arena: seq<Edge>, n: nat, st0: State, stop: int)
    requires PreparedFor(arena, n, st0, stop)
    ensures var b := Balanced(arena, n, st0, stop);
      forall v :: stop < v < n - 1 ==> Sum(b.weight, b.edgesIn[v]) == Sum(b.weight, b.edgesOut[v])
  {
    var f := ForwardFrom(arena, n, st0, 1);
    ForwardPassBalances(arena, n, st0);
    ForwardPassFeedsBackward(arena, n, st0, stop);
    BackwardPassBalances(arena, n, f, stop);
    PassSumsAbove(arena, n, st0, f, BackwardFrom(arena, n, f, n - 1, stop), stop);
  }

  /**
   * The sums behind `BalancedAbove`: after the forward pass a vertex sends
   * at least what it receives, and the backward pass raises what it receives
   * to what it sends without lowering what it sends.
   */
  lemma PassSumsAbove(arena: seq<Edge>, n: nat, st0: State, f: State, b: State, stop: int)
    requires Fits(arena, n, st0) && Fits(arena, n, f) && Fits(arena, n, b) && 0 <= stop
    requires b.edgesOut == f.edgesOut
    requires forall v :: 0 < v < n - 1 ==>
      Sum(f.weight, f.edgesOut[v]) == Max(Sum(f.weight, f.edgesIn[v]), Sum(st0.weight, st0.edgesOut[v]))
    requires forall v :: stop < v < n ==>
      Sum(b.weight, b.edgesIn[v]) == Max(Sum(f.weight, f.edgesIn[v]), Sum(b.weight, b.edgesOut[v]))
    requires forall e :: 0 <= e < |arena| ==> b.weight[e] >= f.weight[e]
    ensures forall v :: stop < v < n - 1 ==> Sum(b.weight, b.edgesIn[v]) == Sum(b.weight, b.edgesOut[v])
  {
    forall v | stop < v < n - 1
      ensures Sum(b.weight, b.edgesIn[v]) == Sum(b.weight, b.edgesOut[v])
    {
      SumGrows(f.weight, b.weight, f.edgesOut[v]);
    }
  }

  /** Every interior vertex the backward pass skips sends at least what it receives. */
  lemma BalancedBelow(arena: seq<Edge>, n: nat, st0: State, stop: int)
    requires PreparedFor(arena, n, st0, stop)
    ensures var b := Balanced(arena, n, st0, stop);
      forall v :: 0 < v <= stop && v < n - 1 ==> Sum(b.weight, b.edgesIn[v]) <= Sum(b.weight, b.edgesOut[v])
  {
    var f := ForwardFrom(arena, n, st0, 1);
    ForwardPassBalances(arena, n, st0);
    ForwardPassFeedsBackward(arena, n, st0, stop);
    BackwardPassBalances(arena, n, f, stop);
    PassSumsBelow(arena, n, st0, f, BackwardFrom(arena, n, f, n - 1, stop), stop);
  }

  /**
   * The sums behind `BalancedBelow`: the backward pass leaves the in-lists
   * and the in-edge weights of the vertices it skips as they were, and only
   * raises what they send.
   */
  lemma PassSumsBelow(arena: seq<Edge>, n: nat, st0: State, f: State, b: State, stop: int)
    requires Fits(arena, n, st0) && Fits(arena, n, f) && Fits(arena, n, b) && Files(arena, b.edgesIn, false)
    requires b.edgesOut == f.edgesOut
    requires forall v :: 0 <= v < n ==> b.edgesIn[v] == if stop < v then SortEdges(arena, f.edgesIn[v]) else f.edgesIn[v]
    requires forall v :: 0 < v < n - 1 ==>
      Sum(f.weight, f.edgesOut[v]) == Max(Sum(f.weight, f.edgesIn[v]), Sum(st0.weight, st0.edgesOut[v]))
    requires forall e :: 0 <= e < |arena| ==> b.weight[e] >= f.weight[e]
    requires forall e :: 0 <= e < |arena| && b.weight[e] != f.weight[e] ==>
      stop < arena[e].end && b.edgesIn[arena[e].end] != [] && e == b.edgesIn[arena[e].end][0]
    ensures forall v :: 0 < v <= stop && v < n - 1 ==> Sum(b.weight, b.edgesIn[v]) <= Sum(b.weight, b.edgesOut[v])
  {
    forall v | 0 < v <= stop && v < n - 1
      ensures Sum(b.weight, b.edgesIn[v]) <= Sum(b.weight, b.edgesOut[v])
    {
      SumGrows(f.weight, b.weight, f.edgesOut[v]);
      forall e | e in b.edgesIn[v] ensures b.weight[e] == f.weight[e] {
        assert arena[e].end == v;
      }
      SumAgrees(b.weight, f.weight, b.edgesIn[v]);
    }
  }

  /** With the bound the chain method needs, every interior vertex receives exactly what it sends. */
  lemma IntendedPassesBalance(arena: seq<Edge>, n: nat, st0: State)
    requires PreparedFor(arena, n, st0, 0)
    ensures var b := Balanced(arena, n, st0, 0);
      forall v :: 0 < v < n - 1 ==> Sum(b.weight, b.edgesIn[v]) == Sum(b.weight, b.edgesOut[v])
  {
    BalancedShape(arena, n, st0, 0);
  }
}
