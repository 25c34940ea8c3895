/**
 * The chart tooltip: a linear scan for the plotted point horizontally closest
 * to the cursor, taken for the tooltip only when it is nearer than 30 pixels.
 */
module Tooltip {
  import opened Wrappers
  import opened PriceSeries
  import opened Chart

  const MaxDistance: real := 30.0

  function Abs(r: real): (a: real)
    ensures a >= 0.0 && (a == r || a == -r)
  {
    if r < 0.0 then -r else r
  }

  /** Horizontal distance from the `k`-th point to the cursor. */
  function Distance(points: seq<PlotPoint>, k: nat, queryX: real): (d: real)
    requires k < |points|
    ensures d >= 0.0
    ensures d == 0.0 <==> points[k].x == queryX
    ensures d == points[k].x - queryX || d == queryX - points[k].x
  {
    Abs(points[k].x - queryX)
  }

  /** `k` is the closest point to `queryX`, and no earlier point is as close (the first wins ties). */
  predicate IsNearest(points: seq<PlotPoint>, queryX: real, k: nat)
  {
    && k < |points|
    && (forall j :: 0 <= j < |points| ==> Distance(points, k, queryX) <= Distance(points, j, queryX))
    && (forall j :: 0 <= j < k ==> Distance(points, k, queryX) < Distance(points, j, queryX))
  }

  /** The scan: a point replaces the best one so far only when it is strictly closer. */
  method FindClosest(points: seq<PlotPoint>, queryX: real) returns (closest: Option<nat>)
    ensures closest.None? <==> |points| == 0
    ensures closest.Some? ==> IsNearest(points, queryX, closest.value)
  {
    closest := None;
    var minDistance := 0.0;
    var i := 0;
    while i < |points|
      invariant 0 <= i <= |points|
      invariant closest.None? <==> i == 0
      invariant closest.Some? ==> closest.value < i && minDistance == Distance(points, closest.value, queryX)
      invariant closest.Some? ==> forall j :: 0 <= j < i ==> minDistance <= Distance(points, j, queryX)
      invariant closest.Some? ==> forall j :: 0 <= j < closest.value ==> minDistance < Distance(points, j, queryX)
    {
      var distance := Distance(points, i, queryX);
      if closest.None? || distance < minDistance {
        minDistance := distance;
        closest := Some(i);
      }
      i := i + 1;
    }
  }

  /**
   * A cursor move to `queryX` while the tooltip shows `previous` (None when
   * hidden). When the closest point is nearer than 30 pixels, `chosen` is its
   * index and the tooltip shows it. Otherwise nothing is chosen and the tooltip
   * stays as it was, visible with its old content or hidden.
   */
  method ShowTooltip(points: seq<PlotPoint>, queryX: real, previous: Option<PlotPoint>)
    returns (chosen: Option<nat>, tooltip: Option<PlotPoint>)
    ensures chosen.Some? ==> IsNearest(points, queryX, chosen.value) && Distance(points, chosen.value, queryX) < MaxDistance
    ensures chosen.None? <==> forall j :: 0 <= j < |points| ==> Distance(points, j, queryX) >= MaxDistance
    ensures chosen.Some? ==> tooltip == Some(points[chosen.value])
    ensures chosen.None? ==> tooltip == previous
  {
    var closest := FindClosest(points, queryX);
    if closest.Some? && Distance(points, closest.value, queryX) < MaxDistance {
      chosen := closest;
      tooltip := Some(points[closest.value]);
    } else {
      chosen := None;
      tooltip := previous;
    }
  }

  /** The first-wins tie-break makes the nearest point unique. */
  lemma NearestUnique(points: seq<PlotPoint>, queryX: real, k: nat, m: nat)
    requires IsNearest(points, queryX, k) && IsNearest(points, queryX, m)
    ensures k == m
  {
    assert Distance(points, k, queryX) == Distance(points, m, queryX);
  }

  /**
   * Querying at a point's own x finds that point, provided no earlier point
   * shares its x.
   */
  lemma NearestAtOwnX(points: seq<PlotPoint>, k: nat)
    requires k < |points|
    requires forall j :: 0 <= j < k ==> points[j].x != points[k].x
    ensures IsNearest(points, points[k].x, k)
    ensures Distance(points, k, points[k].x) < MaxDistance
  {
  }

  /**
   * Round trip through the chart: with a positive plotting width, a cursor at
   * the x of a projected point shows exactly that point.
   */
  lemma ProjectThenQuery(prices: seq<PriceRecord>, g: Geometry, k: nat)
    requires |prices| >= 2 && g.graphWidth > 0.0 && k < |prices|
    ensures IsNearest(Project(prices, g), Project(prices, g)[k].x, k)
    ensures forall m :: IsNearest(Project(prices, g), Project(prices, g)[k].x, m) ==> m == k
    ensures Distance(Project(prices, g), k, Project(prices, g)[k].x) < MaxDistance
  {
    var pts := Project(prices, g);
    forall j | 0 <= j < k
      ensures pts[j].x != pts[k].x
    {
      ProjectXIncreasing(prices, g, j, k);
    }
    NearestAtOwnX(pts, k);
    forall m | IsNearest(pts, pts[k].x, m)
      ensures m == k
    {
      NearestUnique(pts, pts[k].x, k, m);
    }
  }
}
