/**
 * One day's hourly spot prices: matching the current local hour, and the
 * minimum and maximum price with the first position of each.
 */
module PriceSeries {
  import opened Wrappers

  /** One hour's record from the price feed: start instant (ISO-8601 text) and price in kr/kWh, possibly negative. */
  datatype PriceRecord = PriceRecord(timeStart: string, sekPerKwh: real)

  /** The day's extremes and the index of the first record holding each. */
  datatype PriceRange = PriceRange(minPrice: real, maxPrice: real, minIndex: nat, maxIndex: nat)

  /** The prices of the records, in order. */
  function PriceValues(prices: seq<PriceRecord>): (v: seq<real>)
    ensures |v| == |prices|
    ensures forall i :: 0 <= i < |prices| ==> v[i] == prices[i].sekPerKwh
  {
    seq(|prices|, i requires 0 <= i < |prices| => prices[i].sekPerKwh)
  }

  /** True when the record starts in local hour `hour`; `localHour` is the time-zone conversion. */
  predicate InHour(r: PriceRecord, hour: int, localHour: string -> int)
  {
    localHour(r.timeStart) == hour
  }

  /**
   * The position of the first record whose local hour is `hour`, or None when
   * no record of the series starts in that hour.
   */
  function FindCurrentHour(prices: seq<PriceRecord>, hour: int, localHour: string -> int): (r: Option<nat>)
    ensures r.None? <==> forall j :: 0 <= j < |prices| ==> !InHour(prices[j], hour, localHour)
    ensures r.Some? ==> r.value < |prices| && InHour(prices[r.value], hour, localHour)
    ensures r.Some? ==> forall j :: 0 <= j < r.value ==> !InHour(prices[j], hour, localHour)
  {
    if |prices| == 0 then None
    else if InHour(prices[0], hour, localHour) then Some(0)
    else match FindCurrentHour(prices[1..], hour, localHour)
      case None => None
      case Some(k) => Some(k + 1)
  }

  /**
   * A day whose records start in local hours 0, 1, 2, ... in order: the query
   * for hour `hour` finds the record at that position, and an hour the day does
   * not cover is not found.
   */
  lemma FindInFullDay(prices: seq<PriceRecord>, hour: int, localHour: string -> int)
    requires forall i :: 0 <= i < |prices| ==> localHour(prices[i].timeStart) == i
    ensures 0 <= hour < |prices| ==> FindCurrentHour(prices, hour, localHour) == Some(hour)
    ensures !(0 <= hour < |prices|) ==> FindCurrentHour(prices, hour, localHour) == None
  {
    if 0 <= hour < |prices| {
      assert InHour(prices[hour], hour, localHour);
    }
  }

  /** The least value of a non-empty sequence (`Math.min`). */
  function SeqMin(s: seq<real>): (m: real)
    requires |s| > 0
    ensures m in s
    ensures forall i :: 0 <= i < |s| ==> m <= s[i]
  {
    if |s| == 1 then s[0]
    else
      var rest := SeqMin(s[1..]);
      if s[0] <= rest then s[0] else rest
  }

  /** The greatest value of a non-empty sequence (`Math.max`). */
  function SeqMax(s: seq<real>): (m: real)
    requires |s| > 0
    ensures m in s
    ensures forall i :: 0 <= i < |s| ==> s[i] <= m
  {
    if |s| == 1 then s[0]
    else
      var rest := SeqMax(s[1..]);
      if s[0] >= rest then s[0] else rest
  }

  /** The first position of `v` in `s`, or -1 when it does not occur (`indexOf`). */
  function IndexOf(s: seq<real>, v: real): (i: int)
    ensures i == -1 <==> v !in s
    ensures i != -1 ==> 0 <= i < |s| && s[i] == v
    ensures i != -1 ==> forall j :: 0 <= j < i ==> s[j] != v
  {
    if |s| == 0 then -1
    else if s[0] == v then 0
    else
      var k := IndexOf(s[1..], v);
      if k == -1 then -1 else k + 1
  }

  /**
   * One scan of the prices that finds the least and greatest price and the first
   * index of each; None for an empty series.
   */
  method AnalyzeRange(prices: seq<real>) returns (r: Option<PriceRange>)
    ensures r.None? <==> |prices| == 0
    ensures r.Some? ==> r.value.minIndex < |prices| && r.value.maxIndex < |prices|
    ensures r.Some? ==> prices[r.value.minIndex] == r.value.minPrice && prices[r.value.maxIndex] == r.value.maxPrice
    ensures r.Some? ==> forall i :: 0 <= i < |prices| ==> r.value.minPrice <= prices[i] <= r.value.maxPrice
    ensures r.Some? ==> forall j :: 0 <= j < r.value.minIndex ==> prices[j] != r.value.minPrice
    ensures r.Some? ==> forall j :: 0 <= j < r.value.maxIndex ==> prices[j] != r.value.maxPrice
    ensures r.Some? ==> r.value.minPrice == SeqMin(prices) && r.value.maxPrice == SeqMax(prices)
    ensures r.Some? ==> r.value.minIndex == IndexOf(prices, SeqMin(prices))
    ensures r.Some? ==> r.value.maxIndex == IndexOf(prices, SeqMax(prices))
  {
    if |prices| == 0 {
      return None;
    }
    var lo, hi := prices[0], prices[0];
    var loIndex, hiIndex := 0, 0;
    var i := 1;
    while i < |prices|
      invariant 1 <= i <= |prices|
      invariant loIndex < i && hiIndex < i
      invariant prices[loIndex] == lo && prices[hiIndex] == hi
      invariant forall j :: 0 <= j < i ==> lo <= prices[j] <= hi
      invariant forall j :: 0 <= j < loIndex ==> prices[j] > lo
      invariant forall j :: 0 <= j < hiIndex ==> prices[j] < hi
    {
      if prices[i] < lo {
        lo, loIndex := prices[i], i;
      }
      if prices[i] > hi {
        hi, hiIndex := prices[i], i;
      }
      i := i + 1;
    }
    FirstOccurrence(prices, loIndex);
    FirstOccurrence(prices, hiIndex);
    r := Some(PriceRange(lo, hi, loIndex, hiIndex));
  }

  /** A position holding a value that no earlier position holds is where `indexOf` finds it. */
  lemma FirstOccurrence(s: seq<real>, k: nat)
    requires k < |s|
    requires forall j :: 0 <= j < k ==> s[j] != s[k]
    ensures IndexOf(s, s[k]) == k
  {
  }

  /** The worked series [5, 1, 9, 1]: the first 1 (index 1) is the minimum and 9 (index 2) the maximum. */
  lemma RangeExample()
    ensures SeqMin([5.0, 1.0, 9.0, 1.0]) == 1.0 && IndexOf([5.0, 1.0, 9.0, 1.0], 1.0) == 1
    ensures SeqMax([5.0, 1.0, 9.0, 1.0]) == 9.0 && IndexOf([5.0, 1.0, 9.0, 1.0], 9.0) == 2
  {
  }
}
