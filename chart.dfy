/**
 * The price chart's data: every record becomes a point whose height is its
 * bath cost, spread evenly across the plotting width and scaled into the
 * plotting height with higher costs drawn higher (smaller y).
 */
module Chart {
  import opened CostModel
  import opened PriceSeries
  import opened RealFacts

  datatype Padding = Padding(top: real, right: real, bottom: real, left: real)

  /** Canvas size, margins and the plotting area left between them. */
  datatype Geometry = Geometry(width: real, height: real, padding: Padding, graphWidth: real, graphHeight: real)

  /** One plotted record: the record itself, its bath cost, and its canvas coordinates. */
  datatype PlotPoint = PlotPoint(price: PriceRecord, cost: real, x: real, y: real)

  const MobileBreakpoint: real := 768.0
  const ContainerPadding: real := 32.0

  /**
   * The canvas geometry for a container of the given width; windows narrower
   * than 768 pixels get the mobile height and margins.
   */
  function Layout(containerWidth: real, windowWidth: real): (g: Geometry)
    ensures g.width == containerWidth - ContainerPadding
    ensures g.height == (if windowWidth < MobileBreakpoint then 250.0 else 300.0)
    ensures g.padding.left + g.graphWidth + g.padding.right == g.width
    ensures g.padding.top + g.graphHeight + g.padding.bottom == g.height
    ensures g.graphHeight > 0.0
    ensures g.graphWidth > 0.0 <==> containerWidth > (if windowWidth < MobileBreakpoint then 82.0 else 102.0)
  {
    var isMobile := windowWidth < MobileBreakpoint;
    var width := containerWidth - ContainerPadding;
    var height := if isMobile then 250.0 else 300.0;
    var padding := if isMobile then Padding(15.0, 10.0, 35.0, 40.0) else Padding(20.0, 20.0, 40.0, 50.0);
    Geometry(width, height, padding,
      width - padding.left - padding.right,
      height - padding.top - padding.bottom)
  }

  /** The bath cost of every record, in order. */
  function BathCosts(prices: seq<PriceRecord>): (c: seq<real>)
    ensures |c| == |prices|
    ensures forall i :: 0 <= i < |prices| ==> c[i] == BathCost(prices[i].sekPerKwh)
  {
    seq(|prices|, i requires 0 <= i < |prices| => BathCost(prices[i].sekPerKwh))
  }

  /** The spread of the costs, with 1 in place of a zero spread so that it can always divide. */
  function CostRange(costs: seq<real>): (r: real)
    requires |costs| > 0
    ensures r > 0.0
    ensures SeqMin(costs) < SeqMax(costs) ==> r == SeqMax(costs) - SeqMin(costs)
    ensures SeqMin(costs) == SeqMax(costs) ==> r == 1.0
  {
    var spread := SeqMax(costs) - SeqMin(costs);
    if spread == 0.0 then 1.0 else spread
  }

  /** Horizontal position of the `i`-th of `n` points. */
  function SlotX(g: Geometry, n: nat, i: nat): (x: real)
    requires n >= 2
    ensures i == 0 ==> x == g.padding.left
    ensures i == n - 1 ==> x == g.padding.left + g.graphWidth
  {
    g.padding.left + (g.graphWidth / (n - 1) as real) * i as real
  }

  /** Vertical position of a cost: the least cost at the plot's bottom edge, higher costs above it. */
  function ScaleY(g: Geometry, cost: real, minCost: real, costRange: real): (y: real)
    requires costRange != 0.0
    ensures cost == minCost ==> y == g.padding.top + g.graphHeight
    ensures cost - minCost == costRange ==> y == g.padding.top
  {
    g.padding.top + g.graphHeight - ((cost - minCost) / costRange) * g.graphHeight
  }

  /** The plotted points of a series of at least two records. */
  function Project(prices: seq<PriceRecord>, g: Geometry): (pts: seq<PlotPoint>)
    requires |prices| >= 2
    ensures |pts| == |prices|
    ensures forall i :: 0 <= i < |prices| ==>
      && pts[i].price == prices[i]
      && pts[i].cost == BathCost(prices[i].sekPerKwh)
      && pts[i].x == SlotX(g, |prices|, i)
      && pts[i].y == ScaleY(g, pts[i].cost, SeqMin(BathCosts(prices)), CostRange(BathCosts(prices)))
  {
    var costs := BathCosts(prices);
    var minCost, costRange := SeqMin(costs), CostRange(costs);
    seq(|prices|, i requires 0 <= i < |prices| =>
      PlotPoint(prices[i], costs[i], SlotX(g, |prices|, i), ScaleY(g, costs[i], minCost, costRange)))
  }

  /** The first point sits on the left edge of the plot and the last on its right edge. */
  lemma ProjectXEnds(prices: seq<PriceRecord>, g: Geometry)
    requires |prices| >= 2
    ensures Project(prices, g)[0].x == g.padding.left
    ensures Project(prices, g)[|prices| - 1].x == g.padding.left + g.graphWidth
  {
  }

  /** With a positive plotting width, x strictly increases with the index. */
  lemma ProjectXIncreasing(prices: seq<PriceRecord>, g: Geometry, i: nat, j: nat)
    requires |prices| >= 2 && g.graphWidth > 0.0
    requires i < j < |prices|
    ensures Project(prices, g)[i].x < Project(prices, g)[j].x
  {
    SlotXIncreasing(g, |prices|, i, j);
  }

  lemma SlotXIncreasing(g: Geometry, n: nat, i: nat, j: nat)
    requires n >= 2 && g.graphWidth > 0.0 && i < j
    ensures SlotX(g, n, i) < SlotX(g, n, j)
  {
    var step := g.graphWidth / (n - 1) as real;
    assert step > 0.0;
    MulStrict(i as real, j as real, step);
    assert SlotX(g, n, i) == g.padding.left + step * i as real;
    assert SlotX(g, n, j) == g.padding.left + step * j as real;
  }

  /** A larger cost is drawn no lower, for a non-negative plotting height. */
  lemma ScaleYAntitone(g: Geometry, c1: real, c2: real, lo: real, r: real)
    requires r > 0.0 && g.graphHeight >= 0.0 && c1 <= c2
    ensures ScaleY(g, c2, lo, r) <= ScaleY(g, c1, lo, r)
  {
    DivWeak(c1 - lo, c2 - lo, r);
    MulWeak((c1 - lo) / r, (c2 - lo) / r, g.graphHeight);
  }

  /** A cost between `lo` and `lo + r` is drawn inside the plot's vertical extent. */
  lemma ScaleYBounds(g: Geometry, c: real, lo: real, r: real)
    requires r > 0.0 && g.graphHeight >= 0.0 && lo <= c <= lo + r
    ensures g.padding.top <= ScaleY(g, c, lo, r) <= g.padding.top + g.graphHeight
  {
    DivWeak(0.0, c - lo, r);
    DivWeak(c - lo, r, r);
    assert r / r == 1.0;
    MulWeak(0.0, (c - lo) / r, g.graphHeight);
    MulWeak((c - lo) / r, 1.0, g.graphHeight);
  }

  /** The least cost of the day is the bath cost of its least price, and likewise for the greatest. */
  lemma ExtremeCosts(prices: seq<PriceRecord>)
    requires |prices| > 0
    ensures SeqMin(BathCosts(prices)) == BathCost(SeqMin(PriceValues(prices)))
    ensures SeqMax(BathCosts(prices)) == BathCost(SeqMax(PriceValues(prices)))
  {
  }

  /** With a non-negative plotting height, every point lies within the plot's vertical extent. */
  lemma ProjectYBounds(prices: seq<PriceRecord>, g: Geometry, i: nat)
    requires |prices| >= 2 && g.graphHeight >= 0.0 && i < |prices|
    ensures g.padding.top <= Project(prices, g)[i].y <= g.padding.top + g.graphHeight
  {
    var costs := BathCosts(prices);
    var lo, r := SeqMin(costs), CostRange(costs);
    assert lo <= costs[i] <= SeqMax(costs);
    assert costs[i] <= lo + r;
    ScaleYBounds(g, costs[i], lo, r);
  }

  /** With a non-negative plotting height, a higher cost is never drawn lower (larger y). */
  lemma ProjectYAntitone(prices: seq<PriceRecord>, g: Geometry, i: nat, j: nat)
    requires |prices| >= 2 && g.graphHeight >= 0.0
    requires i < |prices| && j < |prices|
    requires Project(prices, g)[i].cost <= Project(prices, g)[j].cost
    ensures Project(prices, g)[j].y <= Project(prices, g)[i].y
  {
    var costs := BathCosts(prices);
    ScaleYAntitone(g, costs[i], costs[j], SeqMin(costs), CostRange(costs));
  }

  /** The record with the day's least price is drawn on the plot's bottom edge. */
  lemma ProjectCheapestAtBottom(prices: seq<PriceRecord>, g: Geometry, i: nat)
    requires |prices| >= 2 && i < |prices|
    requires prices[i].sekPerKwh == SeqMin(PriceValues(prices))
    ensures Project(prices, g)[i].y == g.padding.top + g.graphHeight
  {
    ExtremeCosts(prices);
  }

  /**
   * When the prices are not all equal, the record with the day's greatest price
   * is drawn on the plot's top edge.
   */
  lemma ProjectDearestAtTop(prices: seq<PriceRecord>, g: Geometry, i: nat)
    requires |prices| >= 2 && i < |prices|
    requires SeqMin(PriceValues(prices)) < SeqMax(PriceValues(prices))
    requires prices[i].sekPerKwh == SeqMax(PriceValues(prices))
    ensures Project(prices, g)[i].y == g.padding.top
  {
    ExtremeCosts(prices);
    var costs := BathCosts(prices);
    BathCostOrder(SeqMin(PriceValues(prices)), SeqMax(PriceValues(prices)));
    assert costs[i] - SeqMin(costs) == CostRange(costs);
  }

  /**
   * When every price is the same, the spread is replaced by 1 and every point
   * lies on the plot's bottom edge.
   */
  lemma ProjectFlatSeries(prices: seq<PriceRecord>, g: Geometry, i: nat)
    requires |prices| >= 2 && i < |prices|
    requires SeqMin(PriceValues(prices)) == SeqMax(PriceValues(prices))
    ensures CostRange(BathCosts(prices)) == 1.0
    ensures Project(prices, g)[i].y == g.padding.top + g.graphHeight
  {
    ExtremeCosts(prices);
    var costs := BathCosts(prices);
    assert SeqMin(costs) <= costs[i] <= SeqMax(costs);
  }
}
