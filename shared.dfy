/*
 * Value types shared by the backtest strategies and the driver: the strategy
 * kinds, the stop-loss record, trade records and the instrument view the
 * strategies read (candles plus parallel indicator series), together with the
 * extrema over a window of candles that several strategies and the profit
 * helpers compute.
 */
module Shared {

  datatype Option<T> = None | Some(value: T)

  /** The strategy kinds. The source spells the multi-timeframe variants both
      `...MTF` and `...MultiTF` in different versions; they are one variant here. */
  datatype StrategyType =
    | OnlyLong
    | OnlyShort
    | LongShort
    | OnlyLongMTF
    | OnlyShortMTF
    | LongShortMTF

  /** The three kinds for which the strategies delegate their short hooks to the long ones. */
  predicate DelegatesShort(t: StrategyType) {
    t == LongShort || t == LongShortMTF || t == OnlyShort
  }

  datatype StopLossType =
    | NoStop
    | Atr
    | Price(price: real)
    | Percentage(percentage: real)
    | Pips(pips: real)
    | Trailing

  /** The stop-loss record. Its values are produced only by the foreign helpers
      `init_stop_loss` and `update_stop_loss_values`. */
  datatype StopLoss = StopLoss(stopType: StopLossType, price: real, value: real)

  /** The foreign stop-loss helpers, passed as total functions. */
  datatype StopLossHelpers = StopLossHelpers(
    initStopLoss: (StopLossType, real) -> StopLoss,
    updateStopLossValues: (StopLoss, StopLossType, real) -> StopLoss)

  datatype TradeType = EntryLong | EntryShort | ExitLong | ExitShort

  datatype TradeIn = TradeIn(index: nat, priceIn: real, tradeType: TradeType)

  /** For the strategies that resolve their own trades: the arguments of the
      foreign call `resolve_trade_in(index, instrument, entry_condition, stop_loss)`. */
  datatype TradeInRequest = TradeInRequest(index: nat, entryCondition: bool, stopLoss: real)

  /** The arguments of `resolve_trade_out(index, instrument, trade_in, exit_condition)`. */
  datatype TradeOutRequest = TradeOutRequest(index: nat, tradeIn: TradeIn, exitCondition: bool)

  datatype TradeOut = TradeOut(
    indexIn: nat, priceIn: real, indexOut: nat, priceOut: real,
    profit: real, profitPer: real, runUp: real, runUpPer: real,
    drawDown: real, drawDownPer: real)

  /** The chart patterns the strategies test against (`scanner::pattern::PatternType`);
      every other kind is `OtherPattern`. */
  datatype PatternKind =
    | ChannelUp
    | ChannelDown
    | HigherHighsHigherLows
    | LowerHighsLowerLows
    | NoPattern
    | OtherPattern(name: string)

  /** A turning point of the price series: candle index and price. */
  datatype Point = Point(index: nat, price: real)

  datatype Candle = Candle(open: real, high: real, low: real, close: real)

  /** One indicator: up to three parallel series (`data_a`, `data_b`, `data_c`). */
  datatype Indicator = Indicator(a: seq<real>, b: seq<real>, c: seq<real>)

  datatype Instrument = Instrument(
    data: seq<Candle>,
    macd: Indicator, stoch: Indicator, bb: Indicator, rsi: Indicator,
    emaA: Indicator, emaB: Indicator, emaC: Indicator)

  /** The highest `high` of a non-empty run of candles. */
  function MaxHigh(s: seq<Candle>): (m: real)
    requires |s| > 0
    ensures forall i :: 0 <= i < |s| ==> s[i].high <= m
    ensures exists i :: 0 <= i < |s| && s[i].high == m
  {
    if |s| == 1 then s[0].high
    else
      var rest := MaxHigh(s[1..]);
      assert forall i :: 1 <= i < |s| ==> s[i] == s[1..][i - 1];
      if s[0].high >= rest then s[0].high else rest
  }

  /** The lowest `low` of a non-empty run of candles. */
  function MinLow(s: seq<Candle>): (m: real)
    requires |s| > 0
    ensures forall i :: 0 <= i < |s| ==> m <= s[i].low
    ensures exists i :: 0 <= i < |s| && s[i].low == m
  {
    if |s| == 1 then s[0].low
    else
      var rest := MinLow(s[1..]);
      assert forall i :: 1 <= i < |s| ==> s[i] == s[1..][i - 1];
      if s[0].low <= rest then s[0].low else rest
  }

  /** The position that `Iterator::max_by` on `high` picks: a maximum, and the
      last one when several candles share the highest `high`. */
  function LastMaxHighIndex(s: seq<Candle>): (k: nat)
    requires |s| > 0
    ensures k < |s|
    ensures forall i :: 0 <= i < |s| ==> s[i].high <= s[k].high
    ensures forall i :: k < i < |s| ==> s[i].high < s[k].high
  {
    if |s| == 1 then 0
    else
      var k := LastMaxHighIndex(s[..|s| - 1]);
      assert forall i :: 0 <= i < |s| - 1 ==> s[i] == s[..|s| - 1][i];
      if s[|s| - 1].high >= s[k].high then |s| - 1 else k
  }

  /** The position that `Iterator::min_by` on `high` picks: a minimum, and the
      first one when several candles share the lowest `high`. */
  function FirstMinHighIndex(s: seq<Candle>): (k: nat)
    requires |s| > 0
    ensures k < |s|
    ensures forall i :: 0 <= i < |s| ==> s[k].high <= s[i].high
    ensures forall i :: 0 <= i < k ==> s[k].high < s[i].high
  {
    if |s| == 1 then 0
    else
      var k := FirstMinHighIndex(s[..|s| - 1]);
      assert forall i :: 0 <= i < |s| - 1 ==> s[i] == s[..|s| - 1][i];
      if s[|s| - 1].high < s[k].high then |s| - 1 else k
  }

  /** Candle tests against a fixed level, for counting. */
  function HighAbove(level: real): Candle -> bool { (c: Candle) => c.high > level }
  function CloseBelow(level: real): Candle -> bool { (c: Candle) => c.close < level }
  function LowBelow(level: real): Candle -> bool { (c: Candle) => c.low < level }

  /** The number of candles in `data[lo..hi]` that satisfy `p`. */
  function CountWhere(data: seq<Candle>, lo: nat, hi: nat, p: Candle -> bool): (n: nat)
    requires lo <= hi <= |data|
    ensures n <= hi - lo
    decreases hi - lo
  {
    if lo == hi then 0 else CountWhere(data, lo + 1, hi, p) + (if p(data[lo]) then 1 else 0)
  }

  /** The higher-timeframe candle that `get_htf_data` hands to its closure: the
      higher-timeframe instrument with the index matching the current candle and
      the index before it. The helper's mapping from the current index is not
      modelled; both closures of one hook see the same point. */
  datatype HtfPoint = HtfPoint(inst: Instrument, idx: nat, prev: nat)

  predicate HtfMacdIdxReadable(h: HtfPoint) {
    h.idx < |h.inst.macd.a| && h.idx < |h.inst.macd.b|
  }

  predicate HtfMacdReadable(h: HtfPoint) {
    var m := h.inst.macd;
    h.idx < |m.a| && h.idx < |m.b| && h.prev < |m.a| && h.prev < |m.b|
  }

  /** The higher-timeframe MACD line has just crossed above its signal line. */
  predicate HtfMacdCrossesUp(h: HtfPoint)
    requires HtfMacdReadable(h)
  {
    var m := h.inst.macd;
    m.a[h.idx] > m.b[h.idx] && m.b[h.prev] >= m.a[h.prev]
  }

  /** The higher-timeframe MACD line has just crossed below its signal line. */
  predicate HtfMacdCrossesDown(h: HtfPoint)
    requires HtfMacdReadable(h)
  {
    var m := h.inst.macd;
    m.a[h.idx] < m.b[h.idx] && m.a[h.prev] >= m.b[h.prev]
  }

  predicate HtfMacdAbove(h: HtfPoint)
    requires HtfMacdIdxReadable(h)
  {
    h.inst.macd.a[h.idx] > h.inst.macd.b[h.idx]
  }

  predicate HtfMacdBelow(h: HtfPoint)
    requires HtfMacdIdxReadable(h)
  {
    h.inst.macd.a[h.idx] < h.inst.macd.b[h.idx]
  }

  /** A fresh upward cross is in particular an "above", and it excludes a fresh downward cross. */
  lemma HtfCrossUpIsAbove(h: HtfPoint)
    requires HtfMacdReadable(h)
    ensures HtfMacdCrossesUp(h) ==> HtfMacdAbove(h) && !HtfMacdCrossesDown(h) && !HtfMacdBelow(h)
    ensures HtfMacdCrossesDown(h) ==> HtfMacdBelow(h)
  {
  }

  function Abs(x: real): (r: real)
    ensures r >= 0.0 && (r == x || r == -x)
  {
    if x < 0.0 then -x else x
  }

  lemma MulNonNegative(x: real, y: real)
    requires x >= 0.0 && y >= 0.0
    ensures x * y >= 0.0
  {
  }

  /** `reverse` on a vector, and `rev` on an iterator that is collected. */
  function Reverse<T>(s: seq<T>): seq<T> {
    if |s| == 0 then [] else [s[|s| - 1]] + Reverse(s[..|s| - 1])
  }

  lemma {:induction false} ReverseMirrors<T>(s: seq<T>)
    ensures |Reverse(s)| == |s|
    ensures forall i :: 0 <= i < |s| ==> Reverse(s)[i] == s[|s| - 1 - i]
  {
    if |s| > 0 {
      ReverseMirrors(s[..|s| - 1]);
    }
  }
}
