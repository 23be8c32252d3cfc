/*
 * The point tests of the pattern scanner (rs_algo_scanner/src/patterns/highs_lows.rs).
 * A window holds alternating turning points; "top" tests read the points at
 * positions 0, 2 and 4, "bottom" tests those at 1 and 3, so a top test needs
 * five points and a bottom test four (fewer panics in the source).
 *
 * The shared comparison helpers `percentage_change` and `is_equal` are passed
 * in, and so is the `EQUAL_THRESHOLD` setting.
 */
module HighsLows {
  import opened Shared

  /** The foreign comparison helpers the pattern tests use. */
  datatype Comparators = Comparators(
    percentageChange: (real, real) -> real,
    isEqual: (real, real, real) -> bool,
    isEqualDistance: ((real, real), (real, real)) -> bool,
    isEqualDistanceWithin: ((real, real), (real, real), real) -> bool)

  predicate TopReadable(data: seq<Point>) { |data| >= 5 }

  predicate BottomReadable(data: seq<Point>) { |data| >= 4 }

  /** The prices of the top points rise. */
  predicate TopsRise(data: seq<Point>)
    requires TopReadable(data)
  {
    data[0].price < data[2].price < data[4].price
  }

  /** The prices of the top points fall. */
  predicate TopsFall(data: seq<Point>)
    requires TopReadable(data)
  {
    data[0].price > data[2].price > data[4].price
  }

  function IsHigherHighsTop(data: seq<Point>): (r: bool)
    requires TopReadable(data)
    ensures r <==> TopsRise(data)
  {
    if data[0].price < data[2].price && data[2].price < data[4].price then true else false
  }

  /** The same test as `IsHigherHighsTop`, under another name. */
  function IsHigherLowsTop(data: seq<Point>): (r: bool)
    requires TopReadable(data)
    ensures r <==> TopsRise(data)
  {
    if data[0].price < data[2].price && data[2].price < data[4].price then true else false
  }

  function IsHigherLowsBottom(data: seq<Point>): (r: bool)
    requires BottomReadable(data)
    ensures r <==> data[1].price < data[3].price
  {
    if data[1].price < data[3].price then true else false
  }

  function TwoIncrements(data: seq<Point>): (r: bool)
    requires BottomReadable(data)
    ensures r <==> data[1].price > data[3].price
  {
    if data[1].price > data[3].price then true else false
  }

  function IsHigherHighsBottom(data: seq<Point>): (r: bool)
    requires BottomReadable(data)
    ensures r <==> data[1].price < data[3].price
  {
    if data[1].price < data[3].price then true else false
  }

  function IsLowerHighsTop(data: seq<Point>): (r: bool)
    requires TopReadable(data)
    ensures r <==> TopsFall(data)
  {
    if data[0].price > data[2].price && data[2].price > data[4].price then true else false
  }

  function IsLowerHighsBottom(data: seq<Point>): (r: bool)
    requires BottomReadable(data)
    ensures r <==> data[1].price > data[3].price
  {
    if data[1].price > data[3].price then true else false
  }

  function IsLowerLowsTop(data: seq<Point>): (r: bool)
    requires TopReadable(data)
    ensures r <==> TopsFall(data)
  {
    if data[0].price > data[2].price && data[2].price > data[4].price then true else false
  }

  function IsLowerLowsBottom(data: seq<Point>): (r: bool)
    requires BottomReadable(data)
    ensures r <==> data[1].price > data[3].price
  {
    if data[1].price > data[3].price then true else false
  }

  /** The tops are level: points 0, 2 and 4 equal within the percentage change
      from point 0 to point 4, scaled by the threshold. */
  function UpperBandIsEqualTop(data: seq<Point>, cmp: Comparators, equalThreshold: real): (r: bool)
    requires TopReadable(data)
    ensures var threshold := cmp.percentageChange(data[4].price, data[0].price) * equalThreshold;
      r <==> cmp.isEqual(data[0].price, data[2].price, threshold) && cmp.isEqual(data[2].price, data[4].price, threshold)
  {
    var threshold := cmp.percentageChange(data[4].price, data[0].price) * equalThreshold;
    if cmp.isEqual(data[0].price, data[2].price, threshold) && cmp.isEqual(data[2].price, data[4].price, threshold)
    then true else false
  }

  /** The bottoms are level: points 3 and 1 equal within the scaled change between them. */
  function UpperBandIsEqualBottom(data: seq<Point>, cmp: Comparators, equalThreshold: real): (r: bool)
    requires BottomReadable(data)
    ensures r <==> cmp.isEqual(data[3].price, data[1].price,
                               cmp.percentageChange(data[3].price, data[1].price) * equalThreshold)
  {
    var threshold := cmp.percentageChange(data[3].price, data[1].price) * equalThreshold;
    if cmp.isEqual(data[3].price, data[1].price, threshold) then true else false
  }

  function LowerBandIsEqualBottom(data: seq<Point>, cmp: Comparators, equalThreshold: real): (r: bool)
    requires BottomReadable(data)
    ensures r <==> cmp.isEqual(data[3].price, data[1].price,
                               cmp.percentageChange(data[3].price, data[1].price) * equalThreshold)
  {
    var threshold := cmp.percentageChange(data[3].price, data[1].price) * equalThreshold;
    if cmp.isEqual(data[3].price, data[1].price, threshold) then true else false
  }

  function LowerBandIsEqualTop(data: seq<Point>, cmp: Comparators, equalThreshold: real): (r: bool)
    requires TopReadable(data)
    ensures var threshold := cmp.percentageChange(data[4].price, data[0].price) * equalThreshold;
      r <==> cmp.isEqual(data[0].price, data[2].price, threshold) && cmp.isEqual(data[2].price, data[4].price, threshold)
  {
    var threshold := cmp.percentageChange(data[4].price, data[0].price) * equalThreshold;
    if cmp.isEqual(data[0].price, data[2].price, threshold) && cmp.isEqual(data[2].price, data[4].price, threshold)
    then true else false
  }

  /** Pairs of tests that the source names differently but computes alike. */
  lemma SynonymousTests(data: seq<Point>, cmp: Comparators, equalThreshold: real)
    requires TopReadable(data)
    ensures IsHigherHighsTop(data) == IsHigherLowsTop(data)
    ensures IsLowerHighsTop(data) == IsLowerLowsTop(data)
    ensures IsHigherLowsBottom(data) == IsHigherHighsBottom(data)
    ensures TwoIncrements(data) == IsLowerHighsBottom(data) == IsLowerLowsBottom(data)
    ensures UpperBandIsEqualTop(data, cmp, equalThreshold) == LowerBandIsEqualTop(data, cmp, equalThreshold)
    ensures UpperBandIsEqualBottom(data, cmp, equalThreshold) == LowerBandIsEqualBottom(data, cmp, equalThreshold)
  {
  }

  /** Rising and falling tests exclude each other, for tops and for bottoms. */
  lemma RiseAndFallExclusive(data: seq<Point>)
    requires TopReadable(data)
    ensures !(IsHigherHighsTop(data) && IsLowerHighsTop(data))
    ensures !(IsHigherLowsBottom(data) && IsLowerLowsBottom(data))
    ensures !(IsHigherHighsBottom(data) && TwoIncrements(data))
  {
  }
}
