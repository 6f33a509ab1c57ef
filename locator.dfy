/**
 * The query of the chain method, `findPoint` (lines 113-129): scan the
 * chains in order and, inside each chain, its edges from the source up; the
 * first edge whose ordinate range strictly contains the point's ordinate
 * and that has the point on its left names the answer "between chains p - 1
 * and p"; when no edge does, the point is outside.
 */
module Locator {
  import opened Graph

  /** What `findPoint` reports: the pair of neighbouring chain numbers, or that the point is outside. */
  datatype Location = Between(left: int, right: int) | Outside

  /** The z-component of the cross product of (ux, uy) and (vx, vy). */
  function Cross(ux: real, uy: real, vx: real, vy: real): real
  {
    ux * vy - uy * vx
  }

  /**
   * The comparison `atan2(pointV) > atan2(edgeV)` for two vectors that
   * both point upwards. Such a vector (x, y) has angle arccot(x / y), which
   * falls strictly as x / y grows, so the first angle is the larger exactly
   * when its cotangent is the smaller; and that is exactly when the cross
   * product of the edge vector and the point vector is positive.
   */
  lemma CrossIsAngleOrder(ex: real, ey: real, px: real, py: real)
    requires ey > 0.0 && py > 0.0
    ensures Cross(ex, ey, px, py) > 0.0 <==> px / py < ex / ey
  {
    var a, b := px / py, ex / ey;
    assert px == a * py && ex == b * ey;
    assert Cross(ex, ey, px, py) == (b - a) * (ey * py);
    if b - a > 0.0 {
      assert (b - a) * (ey * py) > 0.0;
    } else {
      assert (a - b) * (ey * py) >= 0.0;
    }
  }

  /**
   * Edge `e` is the one `findPoint` stops at for point `q`: its start lies
   * strictly below `q` and its end strictly above, and `q` lies to the left
   * of the line from its start to its end.
   */
  predicate Crosses(vertices: seq<Point>, arena: seq<Edge>, e: nat, q: Point)
    requires EndpointsWithin(arena, |vertices|) && e < |arena|
  {
    var s, t := vertices[arena[e].start], vertices[arena[e].end];
    s.y < q.y < t.y && Cross(t.x - s.x, t.y - s.y, q.x - s.x, q.y - s.y) > 0.0
  }

  /** Every chain lists edges of the arena. */
  predicate ChainsWithin(chains: seq<seq<nat>>, m: nat)
  {
    forall p :: 0 <= p < |chains| ==> Within(chains[p], m)
  }

  /** Some edge of `chain` is one `findPoint` stops at. */
  predicate ChainHit(vertices: seq<Point>, arena: seq<Edge>, chain: seq<nat>, q: Point)
    requires EndpointsWithin(arena, |vertices|) && Within(chain, |arena|)
    decreases |chain|
  {
    chain != [] && (Crosses(vertices, arena, chain[0], q) || ChainHit(vertices, arena, chain[1..], q))
  }

  lemma {:induction false} ChainHitMeans(vertices: seq<Point>, arena: seq<Edge>, chain: seq<nat>, q: Point)
    requires EndpointsWithin(arena, |vertices|) && Within(chain, |arena|)
    ensures ChainHit(vertices, arena, chain, q) <==> exists i :: 0 <= i < |chain| && Crosses(vertices, arena, chain[i], q)
    decreases |chain|
  {
    if chain != [] {
      ChainHitMeans(vertices, arena, chain[1..], q);
      if ChainHit(vertices, arena, chain[1..], q) {
        var i :| 0 <= i < |chain[1..]| && Crosses(vertices, arena, chain[1..][i], q);
        assert chain[i + 1] == chain[1..][i];
      }
      if i :| 0 <= i < |chain| && Crosses(vertices, arena, chain[i], q) {
        if i > 0 {
          assert chain[1..][i - 1] == chain[i];
        }
      }
    }
  }

  /** The answer of `findPoint` when the scan starts at chain `p`. */
  function Locate(vertices: seq<Point>, arena: seq<Edge>, chains: seq<seq<nat>>, count: int, q: Point, p: nat): Location
    requires EndpointsWithin(arena, |vertices|) && ChainsWithin(chains, |arena|) && count <= |chains|
    decreases count - p
  {
    if p >= count then Outside
    else if ChainHit(vertices, arena, chains[p], q) then Between(p - 1, p)
    else Locate(vertices, arena, chains, count, q, p + 1)
  }

  /**
   * `findPoint` answers "between p - 1 and p" exactly when chain `p` is the
   * first chain, from `start` on, with an edge it stops at, and answers
   * "outside" exactly when no chain has one.
   */
  lemma {:induction false} LocateFindsFirstHit(vertices: seq<Point>, arena: seq<Edge>, chains: seq<seq<nat>>, count: int, q: Point, start: nat)
    requires EndpointsWithin(arena, |vertices|) && ChainsWithin(chains, |arena|) && count <= |chains|
    ensures forall l, r :: Locate(vertices, arena, chains, count, q, start) == Between(l, r) <==>
      && start <= r < count && l == r - 1
      && ChainHit(vertices, arena, chains[r], q)
      && forall p :: start <= p < r ==> !ChainHit(vertices, arena, chains[p], q)
    ensures Locate(vertices, arena, chains, count, q, start) == Outside <==>
      forall p :: start <= p < count ==> !ChainHit(vertices, arena, chains[p], q)
    decreases count - start
  {
    if start < count && !ChainHit(vertices, arena, chains[start], q) {
      LocateFindsFirstHit(vertices, arena, chains, count, q, start + 1);
    }
  }

  /**
   * `findPoint` (lines 113-129): the outer loop over the first
   * `chainsNumber` chains, the inner loop over the edges of each chain, and
   * the side test, which is `CrossIsAngleOrder`'s reading of the comparison
   * of the two angles.
   */
  method FindPoint(vertices: seq<Point>, arena: seq<Edge>, q: Point, chains: seq<seq<nat>>, chainsNumber: int)
    returns (loc: Location)
    requires EndpointsWithin(arena, |vertices|) && ChainsWithin(chains, |arena|) && chainsNumber <= |chains|
    ensures loc == Locate(vertices, arena, chains, chainsNumber, q, 0)
  {
    var p := 0;
    while p < chainsNumber
      invariant 0 <= p
      invariant Locate(vertices, arena, chains, chainsNumber, q, p) == Locate(vertices, arena, chains, chainsNumber, q, 0)
    {
      var chain := chains[p];
      for i := 0 to |chain|
        invariant forall k :: 0 <= k < i ==> !Crosses(vertices, arena, chain[k], q)
      {
        var start, end := vertices[arena[chain[i]].start], vertices[arena[chain[i]].end];
        if start.y < q.y && q.y < end.y {
          var pointX, pointY := q.x - start.x, q.y - start.y;
          var edgeX, edgeY := end.x - start.x, end.y - start.y;
          if Cross(edgeX, edgeY, pointX, pointY) > 0.0 {
            ChainHitMeans(vertices, arena, chain, q);
            return Between(p - 1, p);
          }
        }
      }
      ChainHitMeans(vertices, arena, chain, q);
      p := p + 1;
    }
    loc := Outside;
  }
}
