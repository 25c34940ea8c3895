/**
 * The derivation behind the dashboard cards: the current hour's record, the
 * day's range, the shower and bath costs now / at the cheapest / at the most
 * expensive hour, the tier badge and the savings shown as insights.
 */
module Dashboard {
  import opened Wrappers
  import opened CostModel
  import opened Badge
  import opened PriceSeries

  /** One scenario's card: costs now, at the cheapest and at the most expensive hour, those hours' start times, and the badge. */
  datatype Card = Card(
    now: real, cheapest: real, mostExpensive: real,
    cheapestTime: string, mostExpensiveTime: string, badge: Tier)

  /** What waiting for the cheapest hour saves; the savings sentence is shown only when some saving is positive. */
  datatype Insights = Insights(showerSavings: real, bathSavings: real, mentionSavings: bool)

  datatype View = View(current: PriceRecord, range: PriceRange, bath: Card, shower: Card, insights: Insights)

  /** A card whose three costs come from `cost` at the current, least and greatest price. */
  predicate CardFor(c: Card, cost: real -> real, prices: seq<PriceRecord>, now: real, rg: PriceRange)
  {
    && rg.minIndex < |prices| && rg.maxIndex < |prices|
    && c.now == cost(now) && c.cheapest == cost(rg.minPrice) && c.mostExpensive == cost(rg.maxPrice)
    && c.cheapestTime == prices[rg.minIndex].timeStart
    && c.mostExpensiveTime == prices[rg.maxIndex].timeStart
    && c.badge == BadgeClass(now, rg.minPrice, rg.maxPrice)
  }

  /**
   * Derives the dashboard for `prices` at local hour `currentHour`. When no
   * record starts in the current hour the result is None and nothing else is
   * derived.
   */
  method UpdateUI(prices: seq<PriceRecord>, currentHour: int, localHour: string -> int) returns (r: Option<View>)
    ensures r.None? <==> forall j :: 0 <= j < |prices| ==> !InHour(prices[j], currentHour, localHour)
    ensures r.Some? ==>
      var found := FindCurrentHour(prices, currentHour, localHour);
      found.Some? && r.value.current == prices[found.value]
    ensures r.Some? ==>
      var values := PriceValues(prices);
      |values| > 0
      && r.value.range.minPrice == SeqMin(values) && r.value.range.maxPrice == SeqMax(values)
      && r.value.range.minIndex == IndexOf(values, SeqMin(values))
      && r.value.range.maxIndex == IndexOf(values, SeqMax(values))
    ensures r.Some? ==>
      var v := r.value;
      && CardFor(v.bath, BathCost, prices, v.current.sekPerKwh, v.range)
      && CardFor(v.shower, ShowerCost, prices, v.current.sekPerKwh, v.range)
    ensures r.Some? ==>
      var v := r.value;
      && v.shower.cheapest <= v.shower.now <= v.shower.mostExpensive
      && v.bath.cheapest <= v.bath.now <= v.bath.mostExpensive
    ensures r.Some? ==>
      var v := r.value;
      && v.insights.showerSavings == v.shower.now - v.shower.cheapest >= 0.0
      && v.insights.bathSavings == v.bath.now - v.bath.cheapest >= 0.0
      && (v.insights.mentionSavings <==> v.range.minPrice < v.current.sekPerKwh)
  {
    var found := FindCurrentHour(prices, currentHour, localHour);
    if found.None? {
      return None;
    }
    var current := prices[found.value];
    var values := PriceValues(prices);
    var analyzed := AnalyzeRange(values);
    var rg := analyzed.value;
    var now := current.sekPerKwh;
    assert values[found.value] == now;

    var showerNow, showerCheap, showerExpensive := ShowerCost(now), ShowerCost(rg.minPrice), ShowerCost(rg.maxPrice);
    var bathNow, bathCheap, bathExpensive := BathCost(now), BathCost(rg.minPrice), BathCost(rg.maxPrice);
    var badge := BadgeClass(now, rg.minPrice, rg.maxPrice);
    var cheapTime, expensiveTime := prices[rg.minIndex].timeStart, prices[rg.maxIndex].timeStart;

    SavingsNonNegative(now, rg.minPrice);
    SavingsNonNegative(rg.maxPrice, now);
    var showerSavings, bathSavings := showerNow - showerCheap, bathNow - bathCheap;
    var insights := Insights(showerSavings, bathSavings, showerSavings > 0.0 || bathSavings > 0.0);

    r := Some(View(current, rg,
      Card(bathNow, bathCheap, bathExpensive, cheapTime, expensiveTime, badge),
      Card(showerNow, showerCheap, showerExpensive, cheapTime, expensiveTime, badge),
      insights));
  }
}
