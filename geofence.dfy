/**
 * The server-side service-area test of routes/api.mysql.js: even-odd ray
 * casting over a GeoJSON ring whose positions are `[lng, lat]`.
 */
module Geofence {

  /** A GeoJSON position (section 3.1.1 of RFC 7946): longitude, latitude, then optional extra numbers. */
  type Position = p: seq<real> | |p| >= 2 witness [0.0, 0.0]

  /** What `pointInPolygon` is handed: null, a value that is not an array, or an array of positions. */
  datatype Polygon = Null | NotAnArray | Ring(positions: seq<Position>)

  /** The partner `j` of index `i` in the loop: the previous position, and the last one when i = 0. */
  function Prev(n: nat, i: nat): (j: nat)
    requires i < n
    ensures j < n
    ensures i > 0 ==> j + 1 == i
  {
    if i == 0 then n - 1 else i - 1
  }

  /**
   * The loop's `intersect` for the edge from `pi` to `pj`: index 1 is read as
   * the latitude, index 0 as the longitude. The edge counts when its end points
   * lie on different sides of the point's latitude and it meets that latitude
   * east of the point. When the first conjunct holds the latitudes differ, so
   * the division is never by zero.
   */
  predicate Crosses(lat: real, lng: real, pi: Position, pj: Position) {
    var xi, yi := pi[1], pi[0];
    var xj, yj := pj[1], pj[0];
    (xi > lat) != (xj > lat) && lng < (yj - yi) * (lat - xi) / (xj - xi) + yi
  }

  predicate EdgeCrosses(lat: real, lng: real, ring: seq<Position>, i: nat)
    requires i < |ring|
  {
    Crosses(lat, lng, ring[i], ring[Prev(|ring|, i)])
  }

  /** The number of the edges 0 .. k-1 of the ring that cross the eastward ray from the point. */
  function CrossingCount(lat: real, lng: real, ring: seq<Position>, k: nat): (c: nat)
    requires k <= |ring|
    ensures c <= k
  {
    if k == 0 then 0
    else CrossingCount(lat, lng, ring, k - 1) + (if EdgeCrosses(lat, lng, ring, k - 1) then 1 else 0)
  }

  /** The even-odd rule: the point is inside exactly when an odd number of edges cross. */
  predicate Inside(lat: real, lng: real, polygon: Polygon) {
    polygon.Ring? && CrossingCount(lat, lng, polygon.positions, |polygon.positions|) % 2 == 1
  }

  /** `pointInPolygon(lat, lng, polygon)` */
  method PointInPolygon(lat: real, lng: real, polygon: Polygon) returns (inside: bool)
    ensures inside <==> Inside(lat, lng, polygon)
    ensures !polygon.Ring? || polygon.positions == [] ==> !inside
  {
    if !polygon.Ring? {
      return false;
    }
    var ring := polygon.positions;
    inside := false;
    var i, j := 0, |ring| - 1;
    while i < |ring|
      invariant 0 <= i <= |ring|
      invariant i < |ring| ==> j == Prev(|ring|, i)
      invariant inside <==> CrossingCount(lat, lng, ring, i) % 2 == 1
    {
      var intersect := Crosses(lat, lng, ring[i], ring[j]);
      assert intersect == EdgeCrosses(lat, lng, ring, i);
      assert CrossingCount(lat, lng, ring, i + 1) == CrossingCount(lat, lng, ring, i) + (if intersect then 1 else 0);
      if intersect {
        inside := !inside;
      }
      j, i := i, i + 1;
    }
  }

  /** An edge whose end points share a latitude never counts. */
  lemma {:induction false} HorizontalEdgeNeverCrosses(lat: real, lng: real, pi: Position, pj: Position)
    requires pi[1] == pj[1]
    ensures !Crosses(lat, lng, pi, pj)
  {
  }

  /** The direction in which an edge is walked does not matter. */
  lemma {:induction false} CrossesSymmetric(lat: real, lng: real, pi: Position, pj: Position)
    ensures Crosses(lat, lng, pi, pj) == Crosses(lat, lng, pj, pi)
  {
    var xi, yi := pi[1], pi[0];
    var xj, yj := pj[1], pj[0];
    if (xi > lat) != (xj > lat) {
      var d := xj - xi;
      assert d != 0.0;
      var a := (yj - yi) * (lat - xi) / d;
      assert (yi - yj) * (lat - xj) / (xi - xj) == (yj - yi) * (lat - xj) / d;
      assert (yj - yi) * (lat - xj) == (yj - yi) * (lat - xi) - (yj - yi) * d;
      assert ((yj - yi) * (lat - xi) - (yj - yi) * d) / d == a - (yj - yi);
      assert (yi - yj) * (lat - xj) / (xi - xj) + yj == a + yi;
    }
  }

  /** A ring of at most two positions encloses nothing: its edges cancel in pairs. */
  lemma {:induction false} DegenerateRingOutside(lat: real, lng: real, ring: seq<Position>)
    requires |ring| <= 2
    ensures !Inside(lat, lng, Ring(ring))
  {
    if |ring| == 2 {
      CrossesSymmetric(lat, lng, ring[0], ring[1]);
      assert CrossingCount(lat, lng, ring, 1) == (if EdgeCrosses(lat, lng, ring, 0) then 1 else 0);
    } else if |ring| == 1 {
      HorizontalEdgeNeverCrosses(lat, lng, ring[0], ring[0]);
      assert CrossingCount(lat, lng, ring, 1) == 0;
    }
  }

  /** Edges 1 .. k-1 of a closed ring and of the ring without its closing position coincide. */
  lemma {:induction false} ClosedPrefixCount(lat: real, lng: real, ring: seq<Position>, k: nat)
    requires |ring| >= 2 && ring[|ring| - 1] == ring[0]
    requires 1 <= k <= |ring| - 1
    ensures CrossingCount(lat, lng, ring, k) + (if EdgeCrosses(lat, lng, ring[..|ring| - 1], 0) then 1 else 0)
            == CrossingCount(lat, lng, ring[..|ring| - 1], k)
  {
    var open := ring[..|ring| - 1];
    if k == 1 {
      HorizontalEdgeNeverCrosses(lat, lng, ring[0], ring[0]);
      assert !EdgeCrosses(lat, lng, ring, 0);
    } else {
      ClosedPrefixCount(lat, lng, ring, k - 1);
      assert ring[k - 1] == open[k - 1] && ring[k - 2] == open[k - 2];
      assert EdgeCrosses(lat, lng, ring, k - 1) == EdgeCrosses(lat, lng, open, k - 1);
    }
  }

  /**
   * GeoJSON closes a ring by repeating its first position at the end
   * (section 3.1.6 of RFC 7946). The repeated position adds a zero-length
   * closing edge, so the test gives the same answer with or without it.
   */
  lemma {:induction false} ClosingPositionIrrelevant(lat: real, lng: real, ring: seq<Position>)
    requires |ring| >= 1 && ring[|ring| - 1] == ring[0]
    ensures Inside(lat, lng, Ring(ring)) == Inside(lat, lng, Ring(ring[..|ring| - 1]))
  {
    var n := |ring|;
    var open := ring[..n - 1];
    if n == 1 {
      HorizontalEdgeNeverCrosses(lat, lng, ring[0], ring[0]);
      assert CrossingCount(lat, lng, ring, 1) == 0;
    } else {
      ClosedPrefixCount(lat, lng, ring, n - 1);
      assert ring[n - 1] == open[0] && ring[n - 2] == open[n - 2];
      assert EdgeCrosses(lat, lng, ring, n - 1) == EdgeCrosses(lat, lng, open, 0);
    }
  }

  /** The ring of the rectangle [lng0, lng1] x [lat0, lat1], walked counter-clockwise from its south-west corner. */
  function Rectangle(lat0: real, lat1: real, lng0: real, lng1: real): (ring: seq<Position>)
    ensures |ring| == 4
  {
    [[lng0, lat0], [lng1, lat0], [lng1, lat1], [lng0, lat1]]
  }

  /**
   * On a rectangle the test is a half-open box: the southern and western
   * sides are inside, the northern and eastern sides outside.
   */
  lemma {:induction false} RectangleIsHalfOpenBox(lat: real, lng: real, lat0: real, lat1: real, lng0: real, lng1: real)
    requires lat0 < lat1 && lng0 < lng1
    ensures Inside(lat, lng, Ring(Rectangle(lat0, lat1, lng0, lng1)))
            <==> lat0 <= lat < lat1 && lng0 <= lng < lng1
  {
    var ring := Rectangle(lat0, lat1, lng0, lng1);
    HorizontalEdgeNeverCrosses(lat, lng, ring[1], ring[0]);
    HorizontalEdgeNeverCrosses(lat, lng, ring[3], ring[2]);
    assert ring[Prev(4, 0)] == [lng0, lat1] && ring[0] == [lng0, lat0];
    assert ring[Prev(4, 2)] == [lng1, lat0] && ring[2] == [lng1, lat1];
    MeridianEdge(lat, lng, ring[0], ring[3]);
    MeridianEdge(lat, lng, ring[2], ring[1]);
    assert (lat0 > lat) != (lat1 > lat) <==> lat0 <= lat < lat1;
    assert CrossingCount(lat, lng, ring, 2) == (if EdgeCrosses(lat, lng, ring, 0) then 1 else 0);
    assert CrossingCount(lat, lng, ring, 4)
        == (if EdgeCrosses(lat, lng, ring, 0) then 1 else 0) + (if EdgeCrosses(lat, lng, ring, 2) then 1 else 0);
  }

  /** An edge along a meridian crosses exactly when it spans the point's latitude and lies east of the point. */
  lemma {:induction false} MeridianEdge(lat: real, lng: real, pi: Position, pj: Position)
    requires pi[0] == pj[0]
    ensures Crosses(lat, lng, pi, pj) <==> (pi[1] > lat) != (pj[1] > lat) && lng < pi[0]
  {
    if (pi[1] > lat) != (pj[1] > lat) {
      var d := pj[1] - pi[1];
      assert (pj[0] - pi[0]) * (lat - pi[1]) == 0.0;
      assert 0.0 / d == 0.0;
    }
  }
}
