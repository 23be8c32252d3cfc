/*
 * Rectangle shapes of the pattern scanner (rs_algo_scanner/src/patterns/rectangle.rs):
 * level tops and level bottoms, with equally spaced first two pairs judged by
 * the foreign `is_equal_distance` at the `EQUAL_THRESHOLD` setting, the same
 * setting the level tests scale by.
 */
module Rectangle {
  import opened Shared
  import opened HighsLows

  function IsRectangleTop(data: seq<Point>, cmp: Comparators, equalThreshold: real): (r: bool)
    requires TopReadable(data)
    ensures r <==> UpperBandIsEqualTop(data, cmp, equalThreshold) && LowerBandIsEqualBottom(data, cmp, equalThreshold)
                   && cmp.isEqualDistanceWithin((data[0].price, data[1].price), (data[2].price, data[3].price), equalThreshold)
  {
    var threshold := equalThreshold;
    if UpperBandIsEqualTop(data, cmp, equalThreshold) && LowerBandIsEqualBottom(data, cmp, equalThreshold)
       && cmp.isEqualDistanceWithin((data[0].price, data[1].price), (data[2].price, data[3].price), threshold)
    then true else false
  }

  function IsRectangleBottom(data: seq<Point>, cmp: Comparators, equalThreshold: real): (r: bool)
    requires TopReadable(data)
    ensures r <==> UpperBandIsEqualBottom(data, cmp, equalThreshold) && LowerBandIsEqualTop(data, cmp, equalThreshold)
                   && cmp.isEqualDistanceWithin((data[0].price, data[1].price), (data[2].price, data[3].price), equalThreshold)
  {
    var threshold := equalThreshold;
    if UpperBandIsEqualBottom(data, cmp, equalThreshold) && LowerBandIsEqualTop(data, cmp, equalThreshold)
       && cmp.isEqualDistanceWithin((data[0].price, data[1].price), (data[2].price, data[3].price), threshold)
    then true else false
  }

  /** The top and bottom tests coincide: both ask for level tops, level
      bottoms and equal spacing. */
  lemma TopIffBottom(data: seq<Point>, cmp: Comparators, equalThreshold: real)
    requires TopReadable(data)
    ensures IsRectangleTop(data, cmp, equalThreshold) == IsRectangleBottom(data, cmp, equalThreshold)
  {
    SynonymousTests(data, cmp, equalThreshold);
  }
}
