/** The geometry kernel: the cumulative-distance table of a route and the
    nearest-sample search over it (data-generator/event-generators.js). */
module Geometry {
  import opened Events

  /** Great-circle distance in km between two samples. The haversine formula
      itself is not modelled; callers pass it in. */
  type Distance = (Coord, Coord) -> real

  ghost predicate NonNegative(dist: Distance) {
    forall a: Coord, b: Coord :: dist(a, b) >= 0.0
  }

  function Last(d: seq<real>): real
    requires |d| > 0
  {
    d[|d| - 1]
  }

  /** The table the source builds: [0] followed by the running sum of segment
      distances. A route of zero or one samples gives [0]. */
  function Cumulative(coords: seq<Coord>, dist: Distance): (d: seq<real>)
    ensures |d| == if |coords| == 0 then 1 else |coords|
    ensures d[0] == 0.0
    decreases |coords|
  {
    if |coords| <= 1 then [0.0]
    else
      var p := Cumulative(coords[..|coords| - 1], dist);
      p + [Last(p) + dist(coords[|coords| - 2], coords[|coords| - 1])]
  }

  /** Route length summed from the front: an independent definition of the total. */
  function PathLength(coords: seq<Coord>, dist: Distance): real
    decreases |coords|
  {
    if |coords| <= 1 then 0.0 else dist(coords[0], coords[1]) + PathLength(coords[1..], dist)
  }

  /** Each entry adds the segment that ends at its sample to the entry before it. */
  lemma {:induction false} CumulativeStep(coords: seq<Coord>, dist: Distance, i: nat)
    requires 1 <= i < |coords|
    ensures Cumulative(coords, dist)[i] == Cumulative(coords, dist)[i - 1] + dist(coords[i - 1], coords[i])
    decreases |coords|
  {
    var front := coords[..|coords| - 1];
    if i < |coords| - 1 {
      CumulativeStep(front, dist, i);
      assert front[i - 1] == coords[i - 1] && front[i] == coords[i];
    }
  }

  /** With non-negative segments the table never decreases. */
  lemma {:induction false} CumulativeMonotone(coords: seq<Coord>, dist: Distance, i: nat, j: nat)
    requires NonNegative(dist)
    requires i <= j < |coords|
    ensures Cumulative(coords, dist)[i] <= Cumulative(coords, dist)[j]
    decreases j - i
  {
    if i < j {
      CumulativeMonotone(coords, dist, i, j - 1);
      CumulativeStep(coords, dist, j);
    }
  }

  lemma {:induction false} PathLengthSnoc(coords: seq<Coord>, dist: Distance)
    requires |coords| >= 2
    ensures PathLength(coords, dist)
         == PathLength(coords[..|coords| - 1], dist) + dist(coords[|coords| - 2], coords[|coords| - 1])
    decreases |coords|
  {
    if |coords| > 2 {
      var tail := coords[1..];
      PathLengthSnoc(tail, dist);
      assert tail[..|tail| - 1] == coords[..|coords| - 1][1..];
    }
  }

  /** The last entry of the table is the length of the whole route. */
  lemma {:induction false} CumulativeTotal(coords: seq<Coord>, dist: Distance)
    requires |coords| >= 1
    ensures Last(Cumulative(coords, dist)) == PathLength(coords, dist)
    decreases |coords|
  {
    if |coords| >= 2 {
      CumulativeTotal(coords[..|coords| - 1], dist);
      PathLengthSnoc(coords, dist);
    }
  }

  /** calculateCumulativeDistances: the loop with a running total. */
  method CalculateCumulativeDistances(coords: seq<Coord>, dist: Distance)
    returns (distances: seq<real>, totalDistance: real)
    ensures distances == Cumulative(coords, dist)
    ensures totalDistance == Last(distances)
  {
    distances := [0.0];
    totalDistance := 0.0;
    var i := 1;
    while i < |coords|
      invariant 1 <= i && (|coords| > 0 ==> i <= |coords|)
      invariant distances == Cumulative(coords[..if |coords| == 0 then 0 else i], dist)
      invariant totalDistance == Last(distances)
    {
      var segmentDistance := dist(coords[i - 1], coords[i]);
      totalDistance := totalDistance + segmentDistance;
      distances := distances + [totalDistance];
      assert coords[..i + 1][..i] == coords[..i];
      i := i + 1;
    }
    assert coords[..if |coords| == 0 then 0 else i] == coords;
  }

  /** The sample at index c is no farther from target than any other, and strictly
      closer than every sample before it: the first sample that attains the minimum. */
  ghost predicate IsFirstNearest(d: seq<real>, target: real, c: nat) {
    && c < |d|
    && (forall j :: 0 <= j < |d| ==> Abs(d[c] - target) <= Abs(d[j] - target))
    && (forall j :: 0 <= j < c ==> Abs(d[c] - target) < Abs(d[j] - target))
  }

  /** The source's scan from sample i on, holding the best index so far; it moves
      only on a strictly smaller difference. */
  function NearestFrom(d: seq<real>, target: real, i: nat, best: nat): (c: nat)
    requires best < i <= |d|
    ensures c < |d|
    decreases |d| - i
  {
    if i == |d| then best
    else if Abs(d[i] - target) < Abs(d[best] - target) then NearestFrom(d, target, i + 1, i)
    else NearestFrom(d, target, i + 1, best)
  }

  function Nearest(d: seq<real>, target: real): (c: nat)
    requires |d| > 0
    ensures c < |d|
  {
    NearestFrom(d, target, 1, 0)
  }

  lemma {:induction false} NearestFromIsFirstNearest(d: seq<real>, target: real, i: nat, best: nat)
    requires best < i <= |d|
    requires IsFirstNearest(d[..i], target, best)
    ensures IsFirstNearest(d, target, NearestFrom(d, target, i, best))
    decreases |d| - i
  {
    if i == |d| {
      assert d[..i] == d;
    } else {
      var next := if Abs(d[i] - target) < Abs(d[best] - target) then i else best;
      assert IsFirstNearest(d[..i + 1], target, next) by {
        forall j | 0 <= j < i + 1
          ensures Abs(d[next] - target) <= Abs(d[j] - target)
        {
          if j < i { assert d[..i][j] == d[j]; }
        }
        forall j | 0 <= j < next
          ensures Abs(d[next] - target) < Abs(d[j] - target)
        {
          assert d[..i][j] == d[j];
        }
      }
      NearestFromIsFirstNearest(d, target, i + 1, next);
    }
  }

  /** The scan finds the first sample closest to the target (ties go to the smaller index). */
  lemma NearestIsFirstNearest(d: seq<real>, target: real)
    requires |d| > 0
    ensures IsFirstNearest(d, target, Nearest(d, target))
  {
    NearestFromIsFirstNearest(d, target, 1, 0);
  }

  /** The nearest-sample loop written out in the distance-milestone and the
      scheduled-stop generators. */
  method FindNearest(distances: seq<real>, target: real) returns (closestIndex: nat)
    requires |distances| > 0
    ensures IsFirstNearest(distances, target, closestIndex)
    ensures closestIndex == Nearest(distances, target)
  {
    closestIndex := 0;
    var minDiff := Abs(distances[0] - target);
    var i := 1;
    while i < |distances|
      invariant 1 <= i <= |distances|
      invariant closestIndex < i && minDiff == Abs(distances[closestIndex] - target)
      invariant forall j :: 0 <= j < i ==> minDiff <= Abs(distances[j] - target)
      invariant forall j :: 0 <= j < closestIndex ==> minDiff < Abs(distances[j] - target)
      invariant NearestFrom(distances, target, i, closestIndex) == Nearest(distances, target)
    {
      var diff := Abs(distances[i] - target);
      if diff < minDiff {
        minDiff := diff;
        closestIndex := i;
      }
      i := i + 1;
    }
  }
}
