/*
 * The backend's compaction of a stored instrument into the record the screener
 * lists (rs_algo_backend/src/db/helpers.rs, `compact_instrument`). Every
 * indicator is cut down to its last value and its value at a "second last"
 * index, the pattern lists to their last three entries and the divergences to
 * their last three, newest first. Only the fields the compaction reads or
 * copies are modelled; values it copies unchanged keep their own type.
 */
module Compaction {
  import opened Shared
  import Candles
  import PatternDetection

  datatype Status = Default | Bullish | Bearish | Neutral

  datatype DivergenceType = BullishDivergence | BearishDivergence | NoDivergence

  datatype StoredCandle = StoredCandle(candleType: Candles.CandleType, open: real, high: real, low: real, close: real)

  /** A stored pattern; `change` and `status` are the fields of its `active` part. */
  datatype StoredPattern = StoredPattern(patternType: PatternDetection.PatternType, date: int, change: real, status: Status)

  datatype Patterns = Patterns(local: seq<StoredPattern>, extrema: seq<StoredPattern>)

  datatype Divergence = Divergence(indicator: string, date: int, divergenceType: DivergenceType, points: seq<Point>)

  datatype CompactDivergence = CompactDivergence(indicator: string, date: int, divergenceType: DivergenceType)

  datatype HorizontalLevels = HorizontalLevels(highs: seq<real>, lows: seq<real>)

  /** The indicator series of a stored instrument; each one's `a` and `b` are its `data_a` and `data_b`. */
  datatype Indicators = Indicators(
    macd: Indicator, atr: Indicator, kc: Indicator, rsi: Indicator, stoch: Indicator,
    emaA: Indicator, emaB: Indicator, emaC: Indicator,
    temaA: Indicator, temaB: Indicator, temaC: Indicator)

  datatype StoredInstrument = StoredInstrument(
    symbol: string, date: int, timeFrame: string, currentPrice: real, currentCandle: Candles.CandleType,
    data: seq<StoredCandle>, indicators: Indicators, patterns: Patterns,
    horizontalLevels: HorizontalLevels, divergences: seq<Divergence>)

  datatype CompactIndicator = CompactIndicator(currentA: real, currentB: real, prevA: real, prevB: real, status: Status)

  datatype CompactIndicators = CompactIndicators(
    macd: CompactIndicator, atr: CompactIndicator, kc: CompactIndicator, rsi: CompactIndicator,
    stoch: CompactIndicator, emaA: CompactIndicator, emaB: CompactIndicator, emaC: CompactIndicator,
    temaA: CompactIndicator, temaB: CompactIndicator, temaC: CompactIndicator)

  datatype CompactInstrument = CompactInstrument(
    symbol: string, date: int, timeFrame: string, currentPrice: real, prevPrice: real,
    currentCandle: Candles.CandleType, prevCandle: Candles.CandleType,
    indicators: CompactIndicators, patterns: Patterns,
    horizontalLevels: HorizontalLevels, divergences: seq<CompactDivergence>)

  function Min(a: nat, b: nat): nat {
    if a <= b then a else b
  }

  /** The "second last" index of a series of `len` candles: the one before the
      last when there are more than two, the last one when there are exactly
      two, and one past the end (so that the lookup fails) below two. */
  function SecondLast(len: nat): (i: nat)
    ensures i < len <==> len >= 2
    ensures len > 2 ==> i + 2 == len
    ensures len == 2 ==> i + 1 == len
  {
    if len > 2 then len - 2
    else if len == 2 then len - 1
    else len
  }

  predicate SeriesReadable(s: seq<real>, i: nat) {
    0 < |s| && i < |s|
  }

  /** Every lookup of `compact_instrument` succeeds: the candle and each series
      used have an entry at the second-last index (and so a last entry). The
      source unwraps these lookups, so anything else panics. */
  predicate Compactable(doc: StoredInstrument) {
    var i := SecondLast(|doc.data|);
    var ind := doc.indicators;
    i < |doc.data|
    && SeriesReadable(ind.macd.a, i) && SeriesReadable(ind.macd.b, i)
    && SeriesReadable(ind.atr.a, i)
    && SeriesReadable(ind.kc.a, i) && SeriesReadable(ind.kc.b, i)
    && SeriesReadable(ind.rsi.a, i)
    && SeriesReadable(ind.stoch.a, i) && SeriesReadable(ind.stoch.b, i)
    && SeriesReadable(ind.emaA.a, i) && SeriesReadable(ind.emaB.a, i) && SeriesReadable(ind.emaC.a, i)
    && SeriesReadable(ind.temaA.a, i) && SeriesReadable(ind.temaB.a, i) && SeriesReadable(ind.temaC.a, i)
  }

  function Last(s: seq<real>): real
    requires |s| > 0
  {
    s[|s| - 1]
  }

  /** A two-line indicator, summarised by both lines. */
  function CompactPair(ind: Indicator, i: nat): CompactIndicator
    requires SeriesReadable(ind.a, i) && SeriesReadable(ind.b, i)
  {
    CompactIndicator(Last(ind.a), Last(ind.b), ind.a[i], ind.b[i], Default)
  }

  /** A single-line indicator: the second line is zero. */
  function CompactSingle(ind: Indicator, i: nat): CompactIndicator
    requires SeriesReadable(ind.a, i)
  {
    CompactIndicator(Last(ind.a), 0.0, ind.a[i], 0.0, Default)
  }

  /** What a compact indicator promises about the series it summarises. */
  predicate Summarises(c: CompactIndicator, ind: Indicator, i: nat, twoLines: bool)
    requires SeriesReadable(ind.a, i) && (twoLines ==> SeriesReadable(ind.b, i))
  {
    c.status == Default
    && c.currentA == ind.a[|ind.a| - 1] && c.prevA == ind.a[i]
    && (if twoLines then c.currentB == ind.b[|ind.b| - 1] && c.prevB == ind.b[i]
        else c.currentB == 0.0 && c.prevB == 0.0)
  }

  /** Iterator `take`. */
  function Take<T>(s: seq<T>, n: nat): seq<T> {
    if |s| <= n then s else s[..n]
  }

  /** The pattern lists are cut with `rev().take(3).rev()`. */
  function KeptPatterns(s: seq<StoredPattern>): seq<StoredPattern> {
    Reverse(Take(Reverse(s), 3))
  }

  /** ... which keeps the last three patterns (all of them when there are
      fewer), in their original order. */
  lemma KeptPatternsAreTheLatest(s: seq<StoredPattern>)
    ensures KeptPatterns(s) == s[|s| - Min(3, |s|)..]
  {
    ReverseMirrors(s);
    var t := Take(Reverse(s), 3);
    ReverseMirrors(t);
    var suffix := s[|s| - Min(3, |s|)..];
    assert |KeptPatterns(s)| == |suffix|;
    forall k | 0 <= k < |suffix|
      ensures KeptPatterns(s)[k] == suffix[k]
    {
      assert KeptPatterns(s)[k] == t[|t| - 1 - k] == Reverse(s)[|t| - 1 - k];
    }
  }

  function CompactDivergenceOf(d: Divergence): CompactDivergence {
    CompactDivergence(d.indicator, d.date, d.divergenceType)
  }

  /** The divergences are cut with `rev().take(3)` (the second `rev` is
      commented out in the source) and then mapped to their compact form. */
  function KeptDivergences(s: seq<Divergence>): seq<CompactDivergence> {
    var t := Take(Reverse(s), 3);
    seq(|t|, k requires 0 <= k < |t| => CompactDivergenceOf(t[k]))
  }

  /** ... which keeps the last three divergences newest first. */
  lemma KeptDivergencesNewestFirst(s: seq<Divergence>)
    ensures |KeptDivergences(s)| == Min(3, |s|)
    ensures forall k :: 0 <= k < |KeptDivergences(s)| ==>
              KeptDivergences(s)[k] == CompactDivergenceOf(s[|s| - 1 - k])
  {
    ReverseMirrors(s);
  }

  /** `compact_instrument`. The source always answers `Ok`; the lookups it
      unwraps are the precondition. */
  function Compact(doc: StoredInstrument): (c: CompactInstrument)
    requires Compactable(doc)
    ensures c.symbol == doc.symbol && c.date == doc.date && c.timeFrame == doc.timeFrame
    ensures c.currentPrice == doc.currentPrice && c.currentCandle == doc.currentCandle
    ensures c.horizontalLevels == doc.horizontalLevels
    ensures |doc.data| > 2 ==> c.prevPrice == doc.data[|doc.data| - 2].close
                               && c.prevCandle == doc.data[|doc.data| - 2].candleType
    ensures |doc.data| == 2 ==> c.prevPrice == doc.data[1].close && c.prevCandle == doc.data[1].candleType
    ensures var i := SecondLast(|doc.data|);
            var ind := doc.indicators;
            var ci := c.indicators;
            Summarises(ci.macd, ind.macd, i, true) && Summarises(ci.atr, ind.atr, i, false)
            && Summarises(ci.kc, ind.kc, i, true) && Summarises(ci.rsi, ind.rsi, i, false)
            && Summarises(ci.stoch, ind.stoch, i, true)
            && Summarises(ci.emaA, ind.emaA, i, false) && Summarises(ci.emaB, ind.emaB, i, false)
            && Summarises(ci.emaC, ind.emaC, i, false)
            && Summarises(ci.temaA, ind.temaA, i, false) && Summarises(ci.temaB, ind.temaB, i, false)
            && Summarises(ci.temaC, ind.temaC, i, false)
    ensures var local := doc.patterns.local;
            c.patterns.local == local[|local| - Min(3, |local|)..]
    ensures var extrema := doc.patterns.extrema;
            c.patterns.extrema == extrema[|extrema| - Min(3, |extrema|)..]
    ensures |c.divergences| == Min(3, |doc.divergences|)
    ensures forall k :: 0 <= k < |c.divergences| ==>
              c.divergences[k] == CompactDivergenceOf(doc.divergences[|doc.divergences| - 1 - k])
  {
    KeptPatternsAreTheLatest(doc.patterns.local);
    KeptPatternsAreTheLatest(doc.patterns.extrema);
    KeptDivergencesNewestFirst(doc.divergences);
    var i := SecondLast(|doc.data|);
    var ind := doc.indicators;
    CompactInstrument(
      doc.symbol, doc.date, doc.timeFrame, doc.currentPrice, doc.data[i].close,
      doc.currentCandle, doc.data[i].candleType,
      CompactIndicators(
        CompactPair(ind.macd, i), CompactSingle(ind.atr, i), CompactPair(ind.kc, i),
        CompactSingle(ind.rsi, i), CompactPair(ind.stoch, i),
        CompactSingle(ind.emaA, i), CompactSingle(ind.emaB, i), CompactSingle(ind.emaC, i),
        CompactSingle(ind.temaA, i), CompactSingle(ind.temaB, i), CompactSingle(ind.temaC, i)),
      Patterns(KeptPatterns(doc.patterns.local), KeptPatterns(doc.patterns.extrema)),
      doc.horizontalLevels,
      KeptDivergences(doc.divergences))
  }

  /** Cutting an already cut pattern list changes nothing, so compacting a
      compact record's patterns again is harmless. */
  lemma KeptPatternsIdempotent(s: seq<StoredPattern>)
    ensures KeptPatterns(KeptPatterns(s)) == KeptPatterns(s)
  {
    KeptPatternsAreTheLatest(s);
    var t := KeptPatterns(s);
    KeptPatternsAreTheLatest(t);
    assert |t| <= 3;
    assert t[|t| - Min(3, |t|)..] == t;
  }
}
