/** The relative tier of the current price within the day's range, shown as a badge. */
module Badge {

  datatype Tier = Cheap | Normal | Expensive {
    /** Order of the tiers: cheap < normal < expensive. */
    function Rank(): nat
    {
      match this
      case Cheap => 0
      case Normal => 1
      case Expensive => 2
    }

    /** The class name `getBadgeClass` returns and the badge carries; distinct tiers have distinct names. */
    function ClassName(): (name: string)
      ensures name in {"cheap", "normal", "expensive"}
    {
      match this
      case Cheap => "cheap"
      case Normal => "normal"
      case Expensive => "expensive"
    }

    /** The Swedish badge text, chosen from the class name as the card update does. */
    function Label(): (text: string)
      ensures text == BadgeText(ClassName())
    {
      match this
      case Cheap => "Billigt"
      case Normal => "Normalt"
      case Expensive => "Dyrt"
    }
  }

  /** The badge text for a class name: 'cheap' and 'expensive' have their own words, anything else is normal. */
  function BadgeText(badgeClass: string): string
  {
    if badgeClass == "cheap" then "Billigt"
    else if badgeClass == "expensive" then "Dyrt"
    else "Normalt"
  }

  /** Distinct tiers have distinct class names and distinct texts. */
  lemma TierNamesDistinct(a: Tier, b: Tier)
    ensures a.ClassName() == b.ClassName() ==> a == b
    ensures a.Label() == b.Label() ==> a == b
  {
  }

  const CheapBelow: real := 0.33
  const ExpensiveAbove: real := 0.67

  /**
   * Tier of `price` by its position in [minPrice, maxPrice]. A zero range is
   * always normal; both thresholds are strict, so positions of exactly 0.33
   * and 0.67 are normal.
   */
  function BadgeClass(price: real, minPrice: real, maxPrice: real): (t: Tier)
    ensures maxPrice == minPrice ==> t == Normal
  {
    var range := maxPrice - minPrice;
    if range == 0.0 then Normal
    else
      var position := (price - minPrice) / range;
      if position < CheapBelow then Cheap
      else if position > ExpensiveAbove then Expensive
      else Normal
  }

  /** For a positive range, comparing the position with a threshold is comparing the offset with the scaled range. */
  lemma PositionScaled(offset: real, range: real, threshold: real)
    requires range > 0.0
    ensures offset / range < threshold <==> offset < threshold * range
    ensures offset / range > threshold <==> offset > threshold * range
  {
  }

  /**
   * For a non-degenerate range, the tier is decided without division: cheap
   * exactly when the price is less than 33% of the range above the minimum,
   * expensive exactly when it is more than 67% of the range above it.
   */
  lemma BadgeThresholds(price: real, minPrice: real, maxPrice: real)
    requires minPrice < maxPrice
    ensures BadgeClass(price, minPrice, maxPrice) == Cheap
        <==> price - minPrice < CheapBelow * (maxPrice - minPrice)
    ensures BadgeClass(price, minPrice, maxPrice) == Expensive
        <==> price - minPrice > ExpensiveAbove * (maxPrice - minPrice)
  {
    PositionScaled(price - minPrice, maxPrice - minPrice, CheapBelow);
    PositionScaled(price - minPrice, maxPrice - minPrice, ExpensiveAbove);
  }

  /** For a fixed non-degenerate range, a larger price never gets a lower tier. */
  lemma BadgeMonotone(p: real, q: real, minPrice: real, maxPrice: real)
    requires minPrice < maxPrice && p <= q
    ensures BadgeClass(p, minPrice, maxPrice).Rank() <= BadgeClass(q, minPrice, maxPrice).Rank()
  {
    BadgeThresholds(p, minPrice, maxPrice);
    BadgeThresholds(q, minPrice, maxPrice);
  }

  /** The exact threshold positions are classified as normal, because the comparisons are strict. */
  lemma ThresholdsAreNormal(minPrice: real, maxPrice: real)
    requires minPrice < maxPrice
    ensures BadgeClass(minPrice + CheapBelow * (maxPrice - minPrice), minPrice, maxPrice) == Normal
    ensures BadgeClass(minPrice + ExpensiveAbove * (maxPrice - minPrice), minPrice, maxPrice) == Normal
  {
    BadgeThresholds(minPrice + CheapBelow * (maxPrice - minPrice), minPrice, maxPrice);
    BadgeThresholds(minPrice + ExpensiveAbove * (maxPrice - minPrice), minPrice, maxPrice);
  }

  /** The day's cheapest price is cheap and the most expensive is expensive. */
  lemma ExtremesClassified(minPrice: real, maxPrice: real)
    requires minPrice < maxPrice
    ensures BadgeClass(minPrice, minPrice, maxPrice) == Cheap
    ensures BadgeClass(maxPrice, minPrice, maxPrice) == Expensive
  {
  }
}
