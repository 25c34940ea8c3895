# Electricity spot-price dashboard: verified model of the price-to-cost core

The dashboard fetches one day's hourly spot prices for a Swedish price area
(SE1–SE4) and shows what a shower (6 kWh) and a bath (8 kWh plus 160 litres of
water at 30 kr/m³) cost now, at the cheapest hour and at the most expensive
hour. It also shows a cheap/normal/expensive badge for the current price and a
chart of the bath cost over the day with a cursor-following tooltip.

This project models the logic in `script.js` that turns the price records into
those numbers. Prices, costs and canvas coordinates are exact `real`s.

- `CostModel` (cost_model.dfy): water, shower and bath costs.
- `Badge` (badge.dfy): the price tier.
- `Area` (area.dfy): latitude to price area.
- `PriceSeries` (price_series.dfy): the price record, current-hour matching, `Math.min`/`Math.max`/`indexOf`, and the one-scan range analysis.
- `Dashboard` (dashboard.dfy): the `updateUI` derivation. It stops with `None` when no record is for the current hour.
- `Chart` (chart.dfy): the canvas layout and the stored plot points of `drawPriceGraph`.
- `Tooltip` (tooltip.dfy): the closest-point scan and the 30-pixel acceptance of `showTooltip`.
- `RealFacts` (real_facts.dfy): order facts about real multiplication and division.
- `Wrappers` (wrappers.dfy): `Option`.

The local hour of an instant comes from a time-zone library in the source. Here
it is a parameter `localHour: string -> int`, and the current hour is an `int`
input. The window and container widths are inputs to `Chart.Layout`, and the
cursor's x is an input to the tooltip.

The model follows the code exactly in these edge cases:
- Nothing checks for an empty series before the range analysis. An empty series has no current-hour record, so `updateUI` stops first. `PriceSeries.AnalyzeRange` still answers `None` for an empty input.
- A one-record series gets no "centred" point. The code divides by `prices.length - 1`, so `Chart.Project` requires at least two records.
- A point is taken for the tooltip only at a distance strictly below 30. A point exactly 30 pixels away is not taken.
- When no point is taken, the tooltip is left as it was. A tooltip already on screen keeps its old content; it is hidden only by the mouse-leave and touch-end handlers.
- The current-hour search returns the record's position. The record is `prices[index]`.

## Model

| member | source | states |
|---|---|---|
| CostModel.Cost | script.js:67-69 | for a positive energy amount, the cost is negative exactly when the price is, and zero exactly when the price is |
| CostModel.WaterCost | script.js:61-64 | the bath water costs 0.16 m³ × 30 kr = 4.80 kr, whatever the electricity price |
| CostModel.BathCost | script.js:72-76 | bath cost is 8 × price + 4.80, i.e. the 8 kWh electricity cost plus exactly the water cost |
| CostModel.ShowerCost | script.js:127-129 | shower cost is 6 × price and is negative when the price is negative |
| CostModel.BathAtTwoKronor | script.js:72-76 | at 2 kr/kWh a bath costs 20.80 kr and a shower 12 kr |
| CostModel.CostMonotone | script.js:67-69 | for a non-negative energy amount, cost never decreases with price; for a positive amount it is strictly increasing |
| CostModel.SavingsNonNegative | script.js:261-262 | when the current price is at least the cheapest, shower and bath savings are ≥ 0, and each is > 0 exactly when the current price is above the cheapest |
| CostModel.BathCostOrder | script.js:72-76 | bath cost preserves and reflects the order and equality of prices |
| Badge.Tier.ClassName | script.js:84-92 | the class name is one of the three strings "cheap", "normal", "expensive" that getBadgeClass returns |
| Badge.Tier.Label | script.js:207 | the badge text is what the card update picks from the class name: Billigt for cheap, Dyrt for expensive, Normalt otherwise |
| Badge.TierNamesDistinct | script.js:206-207 | distinct tiers have distinct class names and distinct badge texts |
| Badge.BadgeClass | script.js:84-86 | a zero range (max equals min) always gives the normal tier |
| Badge.BadgeThresholds | script.js:88-91 | for min < max: cheap exactly when price − min < 0.33 × range, expensive exactly when price − min > 0.67 × range |
| Badge.BadgeMonotone | script.js:88-91 | for min < max, a larger price never gets a lower tier (cheap < normal < expensive) |
| Badge.ThresholdsAreNormal | script.js:89-91 | positions exactly 0.33 and 0.67 are normal, because both comparisons are strict |
| Badge.ExtremesClassified | script.js:88-91 | for min < max, the minimum price is cheap and the maximum is expensive |
| Area.PriceArea.Code | script.js:536-544 | the area code is "SE" followed by the area's number |
| Area.AreaCodesDistinct | script.js:536-544 | distinct areas have distinct codes |
| Area.LatToArea | script.js:530-545 | SE1 exactly for latitude ≥ 63, SE2 for [60, 63), SE3 for [58, 60), SE4 below 58 |
| Area.AreaNonIncreasing | script.js:536-544 | a more northern latitude never gives a higher area number |
| PriceSeries.PriceValues | script.js:120 | one price per record, in order: position i holds record i's price |
| PriceSeries.FindCurrentHour | script.js:102-112 | returns the first record whose local hour equals the current hour; None exactly when no record matches |
| PriceSeries.FindInFullDay | script.js:102-112 | for a day whose records are at local hours 0, 1, 2, …, hour h finds the record at position h, and an uncovered hour is not found |
| PriceSeries.SeqMin | script.js:121 | the minimum is one of the prices and is ≤ every price |
| PriceSeries.SeqMax | script.js:122 | the maximum is one of the prices and is ≥ every price |
| PriceSeries.IndexOf | script.js:123-124 | −1 exactly when the value is absent; otherwise the first position holding the value |
| PriceSeries.AnalyzeRange | script.js:120-124 | one scan gives min ≤ every price ≤ max, with prices[minIndex] = min and prices[maxIndex] = max at their first occurrences; it equals Math.min, Math.max and indexOf, and is None for an empty series |
| PriceSeries.RangeExample | script.js:120-124 | for prices [5, 1, 9, 1], min is 1 at index 1 (first occurrence) and max is 9 at index 2 |
| Dashboard.UpdateUI | script.js:95-140 | None exactly when no record is for the current hour; otherwise the current record is the first match, and both cards hold the costs at the current, min and max price, the min/max records' start times and the badge; cheapest ≤ now ≤ most expensive; savings ≥ 0, and the savings sentence appears exactly when the current price is above the minimum |
| Chart.Layout | script.js:298-307 | margins plus plotting area fill the canvas both ways; plotting height is always positive; plotting width is positive exactly when the container is wider than 82 px (mobile) or 102 px (desktop) |
| Chart.BathCosts | script.js:314 | one bath cost per record, in order |
| Chart.CostRange | script.js:315-317 | the divisor is always positive: the cost spread when it is non-zero, and 1 when it is zero |
| Chart.SlotX | script.js:437 | index 0 is at padding.left and index n − 1 at padding.left + graphWidth |
| Chart.ScaleY | script.js:438 | the least cost is drawn at padding.top + graphHeight, and a cost one full divisor above it at padding.top |
| Chart.Project | script.js:434-440 | one point per record, in order, each with its record and that record's bath cost |
| Chart.ProjectXEnds | script.js:437 | the first point is at padding.left and the last at padding.left + graphWidth |
| Chart.ProjectXIncreasing | script.js:437 | with a positive plotting width, x strictly increases with the index |
| Chart.ExtremeCosts | script.js:314-316 | the least and greatest bath cost are the bath costs of the least and greatest price |
| Chart.ProjectYBounds | script.js:438 | with a non-negative plotting height, every y lies in [padding.top, padding.top + graphHeight] |
| Chart.ProjectYAntitone | script.js:438 | a higher cost never gives a larger y |
| Chart.ProjectCheapestAtBottom | script.js:438 | a record at the day's minimum price has y = padding.top + graphHeight |
| Chart.ProjectDearestAtTop | script.js:438 | when prices are not all equal, a record at the day's maximum price has y = padding.top |
| Chart.ProjectFlatSeries | script.js:317 | when all prices are equal the divisor is 1 and every point lies on the bottom edge |
| Tooltip.Distance | script.js:482 | the horizontal distance is non-negative, is one of the two differences, and is zero exactly at the point's own x |
| Tooltip.FindClosest | script.js:478-487 | None exactly for no points; otherwise the point minimising the horizontal distance, the earliest among equals |
| Tooltip.ShowTooltip | script.js:489-495 | takes the closest point only when its distance is below 30, and nothing exactly when every point is 30 or more away; a taken point becomes the tooltip's content, otherwise the tooltip stays as it was |
| Tooltip.NearestUnique | script.js:481-487 | because the earliest point wins ties, the closest point is unique |
| Tooltip.NearestAtOwnX | script.js:481-489 | a query at a point's own x finds that point when no earlier point has the same x, and it is within the tooltip distance |
| Tooltip.ProjectThenQuery | script.js:478-489 | for projected points with a positive plotting width, a query at point k's x finds exactly point k and shows its tooltip |

## Left out

- `fetchPrices`, `loadPrices` and `getTodayDate` (script.js:23-58, 621-633): network I/O and the wall clock. The model starts from a sequence of records.
- `getSelectedArea` and `saveSelectedArea` (script.js:12-20): browser storage.
- `detectElområde` (script.js:548-618): the geolocation callbacks, the error-code messages and the button state. Only its pure `latToElområde` is modelled.
- `getCurrentHour` and the `Intl.DateTimeFormat` conversions: a foreign time-zone library. The local hour is the `localHour` parameter, and the current hour is an input.
- Floating point: the model uses exact reals. IEEE rounding is not modelled, including that 0.33 and 0.67 are not exact binary fractions. NaN and infinities are not modelled either.
- `PriceSeries.AnalyzeRange`: `Math.min`/`Math.max` over an empty array (Infinity/−Infinity) and `indexOf` giving −1 are not modelled. The model answers `None`, which `updateUI` never reaches.
- `Chart.Project`: the one-record series, where the source's x is not finite, is excluded by requiring at least two records.
- All DOM and canvas work: `updateDashboardCard`'s element updates and fade, `showStatus`, `showError`, the skeleton helpers, the `updateInsights` HTML, grid, axis and label drawing, the current-hour highlight, tooltip positioning, event listeners and the resize debounce.
- The tooltip's DOM state: `hideTooltip` on mouse-leave, mouse-out and 1 s after touch end (script.js:505-526), and positioning (script.js:498-501). `Tooltip.ShowTooltip` takes the current tooltip content as an input and returns it unchanged when no point is taken. The model has no hide event, so it does not say when a stale tooltip disappears.
- `resizeCanvas` (script.js:447-461): its re-match of the current hour with a fallback to the first record only picks the highlighted point, which is drawing.
- String rendering: `formatPrice`, `formatPriceForGraph` and `formatTime` (`toFixed`, `Math.round`, `padStart`).
- The `priceDiff` percentage (script.js:263). It divides by the minimum price, which can be zero or negative, and only feeds display text.
- The cursor position from mouse or touch events (script.js:474-475). The query x is an input.
- update-version.js: a build-time script that runs `git` and rewrites HTML files.
