/*
 * Channel shapes of the pattern scanner (rs_algo_scanner/src/patterns/channel.rs):
 * an ascending (descending) channel has rising (falling) points and equally
 * spaced first two pairs, as judged by the foreign `is_equal_distance`.
 */
module Channel {
  import opened Shared
  import opened HighsLows

  /** `is_equal_distance((d0, d1), (d2, d3))`. */
  predicate EquallySpaced(data: seq<Point>, cmp: Comparators)
    requires BottomReadable(data)
  {
    cmp.isEqualDistance((data[0].price, data[1].price), (data[2].price, data[3].price))
  }

  function IsAscendantTop(data: seq<Point>, cmp: Comparators): (r: bool)
    requires TopReadable(data)
    ensures r <==> data[0].price < data[2].price < data[4].price && EquallySpaced(data, cmp)
  {
    if IsHigherHighsTop(data) && IsHigherLowsTop(data)
       && cmp.isEqualDistance((data[0].price, data[1].price), (data[2].price, data[3].price))
    then true else false
  }

  function IsAscendantBottom(data: seq<Point>, cmp: Comparators): (r: bool)
    requires BottomReadable(data)
    ensures r <==> data[1].price < data[3].price && EquallySpaced(data, cmp)
  {
    if IsHigherHighsBottom(data) && IsHigherLowsBottom(data)
       && cmp.isEqualDistance((data[0].price, data[1].price), (data[2].price, data[3].price))
    then true else false
  }

  function IsDescendantTop(data: seq<Point>, cmp: Comparators): (r: bool)
    requires TopReadable(data)
    ensures r <==> data[0].price > data[2].price > data[4].price && EquallySpaced(data, cmp)
  {
    if IsLowerHighsTop(data) && IsLowerLowsTop(data)
       && cmp.isEqualDistance((data[0].price, data[1].price), (data[2].price, data[3].price))
    then true else false
  }

  function IsDescendantBottom(data: seq<Point>, cmp: Comparators): (r: bool)
    requires BottomReadable(data)
    ensures r <==> data[1].price > data[3].price && EquallySpaced(data, cmp)
  {
    if IsLowerHighsBottom(data) && IsLowerLowsBottom(data)
       && cmp.isEqualDistance((data[0].price, data[1].price), (data[2].price, data[3].price))
    then true else false
  }

  /** A window is never both an ascending and a descending channel, and every
      channel needs equally spaced pairs. */
  lemma ChannelsExclusive(data: seq<Point>, cmp: Comparators)
    requires TopReadable(data)
    ensures !(IsAscendantTop(data, cmp) && IsDescendantTop(data, cmp))
    ensures !(IsAscendantBottom(data, cmp) && IsDescendantBottom(data, cmp))
    ensures (IsAscendantTop(data, cmp) || IsAscendantBottom(data, cmp)
             || IsDescendantTop(data, cmp) || IsDescendantBottom(data, cmp)) ==> EquallySpaced(data, cmp)
  {
  }
}
