/*
 * The EMA scalping strategy (rs_algo_backtest/src/strategies/ema_scalping.rs),
 * written against the latest version of the strategy trait: hooks return a
 * `Position` and take the instrument's pricing. A long entry arms a buy order
 * a margin above the highest high of the last six candles, a stop a margin
 * under the current low and a take-profit at `risk_reward_ratio` times the
 * risk; the short entry mirrors it. Exits never fire.
 *
 * Time frames are kept by name (the parsing done by `TimeFrame::new` is not
 * modelled). `toPips` is the foreign `to_pips` helper for the instrument's
 * pricing, and `spread` the pricing's spread.
 */
module EmaScalping {
  import opened Shared

  datatype TradeDirection = Long | Short | NoDirection

  datatype OrderDirection = Up | Down

  datatype OrderType =
    | BuyOrderLong(direction: OrderDirection, size: real, price: real)
    | SellOrderLong(direction: OrderDirection, size: real, price: real)
    | StopLossLong(direction: OrderDirection, stop: StopLossType)
    | BuyOrderShort(direction: OrderDirection, size: real, price: real)
    | SellOrderShort(direction: OrderDirection, size: real, price: real)
    | StopLossShort(direction: OrderDirection, stop: StopLossType)

  /** The hook result of this trait version; these hooks only produce these two kinds. */
  datatype Position = NoPosition | Order(orders: seq<OrderType>)

  /** The process settings `new` reads. */
  datatype Settings = Settings(
    riskRewardRatio: real, profitTarget: real, timeFrame: string, orderSize: real, higherTimeFrame: string)

  /** The entry, stop and take-profit prices of one order set. */
  datatype OrderPrices = OrderPrices(buy: real, stop: real, sell: real)

  /** Long prices: buy a margin over the highest high, stop a margin under the
      current low, target the risk (spread included) times the ratio above the buy. */
  function LongPrices(highestBar: real, low: real, margin: real, spread: real, riskRewardRatio: real): (p: OrderPrices)
    ensures p.buy == highestBar + margin && p.stop == low - margin
    ensures p.buy - p.stop == highestBar - low + 2.0 * margin
    ensures p.sell - p.buy == (p.buy + spread - p.stop) * riskRewardRatio
  {
    var buyPrice := highestBar + margin;
    var stopLossPrice := low - margin;
    var risk := buyPrice + spread - stopLossPrice;
    OrderPrices(buyPrice, stopLossPrice, buyPrice + risk * riskRewardRatio)
  }

  /** Short prices: the mirror image of `LongPrices` around the lowest low and the current high. */
  function ShortPrices(lowestBar: real, high: real, margin: real, spread: real, riskRewardRatio: real): (p: OrderPrices)
    ensures p.buy == lowestBar - margin && p.stop == high + margin
    ensures p.stop - p.buy == high - lowestBar + 2.0 * margin
    ensures p.buy - p.sell == (p.stop + spread - p.buy) * riskRewardRatio
  {
    var buyPrice := lowestBar - margin;
    var stopLossPrice := high + margin;
    var risk := stopLossPrice + spread - buyPrice;
    OrderPrices(buyPrice, stopLossPrice, buyPrice - risk * riskRewardRatio)
  }

  /** With a non-negative spread and ratio, a positive margin and a window
      extreme on the right side of the current candle, the stop lies on the
      losing side of the buy and the target on the winning side. */
  lemma PricesAreOrdered(extreme: real, candle: real, margin: real, spread: real, riskRewardRatio: real)
    requires spread >= 0.0 && margin > 0.0 && riskRewardRatio >= 0.0
    ensures extreme >= candle ==>
      var p := LongPrices(extreme, candle, margin, spread, riskRewardRatio);
      p.stop < p.buy <= p.sell
    ensures extreme <= candle ==>
      var p := ShortPrices(extreme, candle, margin, spread, riskRewardRatio);
      p.sell <= p.buy < p.stop
  {
    if extreme >= candle {
      var p := LongPrices(extreme, candle, margin, spread, riskRewardRatio);
      MulNonNegative(p.buy + spread - p.stop, riskRewardRatio);
    }
    if extreme <= candle {
      var p := ShortPrices(extreme, candle, margin, spread, riskRewardRatio);
      MulNonNegative(p.stop + spread - p.buy, riskRewardRatio);
    }
  }

  predicate EntryReadable(inst: Instrument, index: nat, prev: nat) {
    5 <= index && index < |inst.data| && prev < |inst.data|
    && index < |inst.emaA.a| && prev < |inst.emaA.a|
    && index < |inst.emaB.a| && prev < |inst.emaB.a|
    && index < |inst.emaC.a| && prev < |inst.emaC.a|
  }

  predicate HtfEmaReadable(h: HtfPoint) {
    h.idx < |h.inst.emaA.a| && h.idx < |h.inst.emaB.a| && h.idx < |h.inst.emaC.a| && h.idx < |h.inst.data|
  }

  predicate HtfLong(h: HtfPoint)
    requires HtfEmaReadable(h)
  {
    h.inst.emaA.a[h.idx] > h.inst.emaC.a[h.idx] && h.inst.data[h.idx].low > h.inst.emaC.a[h.idx]
  }

  predicate HtfShort(h: HtfPoint)
    requires HtfEmaReadable(h)
  {
    h.inst.emaA.a[h.idx] < h.inst.emaC.a[h.idx] && h.inst.data[h.idx].high < h.inst.emaC.a[h.idx]
  }

  /** The closure `trading_direction` hands to `get_htf_trading_direction`. */
  function HtfDirection(h: HtfPoint): (d: TradeDirection)
    requires HtfEmaReadable(h)
    ensures d == Long <==> HtfLong(h)
    ensures d == Short <==> HtfShort(h)
    ensures d == NoDirection <==> !HtfLong(h) && !HtfShort(h)
  {
    var isLong := HtfLong(h);
    var isShort := HtfShort(h);
    if isLong then Long else if isShort then Short else NoDirection
  }

  class EmaScalping {
    const name: string
    const timeFrame: string
    const higherTimeFrame: Option<string>
    const strategyType: StrategyType
    var tradingDirection: TradeDirection
    const orderSize: real
    const riskRewardRatio: real
    const profitTarget: real

    /** `new`: the kind defaults to long-only multi-timeframe; the higher time
        frame is the given one, else the configured one for multi-timeframe
        kinds, else none. */
    constructor (timeFrameArg: Option<string>, higherTimeFrameArg: Option<string>, strategyTypeArg: Option<StrategyType>,
                 settings: Settings, isMultiTimeframe: StrategyType -> bool)
      ensures name == "Ema_Scalping"
      ensures strategyType == if strategyTypeArg.Some? then strategyTypeArg.value else OnlyLongMTF
      ensures timeFrame == if timeFrameArg.Some? then timeFrameArg.value else settings.timeFrame
      ensures higherTimeFrame.Some? <==> higherTimeFrameArg.Some? || isMultiTimeframe(strategyType)
      ensures higherTimeFrame == if higherTimeFrameArg.Some? then higherTimeFrameArg
                                 else if isMultiTimeframe(strategyType) then Some(settings.higherTimeFrame)
                                 else None
      ensures tradingDirection == Long
      ensures orderSize == settings.orderSize && riskRewardRatio == settings.riskRewardRatio
      ensures profitTarget == settings.profitTarget
    {
      var stype := match strategyTypeArg { case Some(t) => t case None => OnlyLongMTF };
      name := "Ema_Scalping";
      timeFrame := match timeFrameArg { case Some(tf) => tf case None => settings.timeFrame };
      higherTimeFrame := match higherTimeFrameArg {
        case Some(htf) => Some(htf)
        case None => if isMultiTimeframe(stype) then Some(settings.higherTimeFrame) else None
      };
      strategyType := stype;
      tradingDirection := Long;
      orderSize := settings.orderSize;
      riskRewardRatio := settings.riskRewardRatio;
      profitTarget := settings.profitTarget;
    }

    /** `trading_direction`: stores and returns the higher-timeframe direction. */
    method TradingDirection(inst: Instrument, index: nat, htf: HtfPoint) returns (d: TradeDirection)
      requires index < |inst.data| && HtfEmaReadable(htf)
      modifies this
      ensures tradingDirection == d && d == HtfDirection(htf)
    {
      tradingDirection := HtfDirection(htf);
      d := tradingDirection;
    }

    function EntryLong(inst: Instrument, index: nat, prev: nat, spread: real, toPips: real -> real): (r: Position)
      requires EntryReadable(inst, index, prev)
      ensures r.Order? <==> inst.data[index].low < inst.emaA.a[index] && inst.data[index].close > inst.emaC.a[index]
      ensures r.Order? ==>
        var p := LongPrices(MaxHigh(inst.data[index - 5..index + 1]), inst.data[index].low, toPips(3.0),
                            spread, riskRewardRatio);
        r.orders == [BuyOrderLong(Up, orderSize, p.buy), SellOrderLong(Up, orderSize, p.sell),
                     StopLossLong(Down, Price(p.stop))]
    {
      var candle := inst.data[index];
      var triggerPrice := candle.low;
      var entryCondition := triggerPrice < inst.emaA.a[index] && candle.close > inst.emaC.a[index];
      var pipsMargin := 3.0;
      var previousBars := 5;
      var highestBar := MaxHigh(inst.data[index - previousBars..index + 1]);
      var p := LongPrices(highestBar, triggerPrice, toPips(pipsMargin), spread, riskRewardRatio);
      if entryCondition then
        Order([BuyOrderLong(Up, orderSize, p.buy), SellOrderLong(Up, orderSize, p.sell),
               StopLossLong(Down, Price(p.stop))])
      else NoPosition
    }

    function EntryShort(inst: Instrument, index: nat, prev: nat, spread: real, toPips: real -> real): (r: Position)
      requires EntryReadable(inst, index, prev)
      ensures r.Order? <==> inst.data[index].high > inst.emaA.a[index] && inst.data[index].close < inst.emaC.a[index]
      ensures r.Order? ==>
        var p := ShortPrices(MinLow(inst.data[index - 5..index + 1]), inst.data[index].high, toPips(3.0),
                             spread, riskRewardRatio);
        r.orders == [BuyOrderShort(Down, orderSize, p.buy), SellOrderShort(Down, orderSize, p.sell),
                     StopLossShort(Up, Price(p.stop))]
    {
      var candle := inst.data[index];
      var triggerPrice := candle.high;
      var entryCondition := triggerPrice > inst.emaA.a[index] && candle.close < inst.emaC.a[index];
      var pipsMargin := 3.0;
      var previousBars := 5;
      var lowestBar := MinLow(inst.data[index - previousBars..index + 1]);
      var p := ShortPrices(lowestBar, triggerPrice, toPips(pipsMargin), spread, riskRewardRatio);
      if entryCondition then
        Order([BuyOrderShort(Down, orderSize, p.buy), SellOrderShort(Down, orderSize, p.sell),
               StopLossShort(Up, Price(p.stop))])
      else NoPosition
    }

    /** On a well-formed current candle (high at or above low), with a
        non-negative spread and ratio and a positive three-pip margin, the
        armed long orders put the stop below the buy and the target above it,
        and the short orders the other way round. */
    lemma EntryOrdersAreOrdered(inst: Instrument, index: nat, prev: nat, spread: real, toPips: real -> real)
      requires EntryReadable(inst, index, prev)
      requires inst.data[index].high >= inst.data[index].low
      requires spread >= 0.0 && toPips(3.0) > 0.0 && riskRewardRatio >= 0.0
      ensures var r := EntryLong(inst, index, prev, spread, toPips);
        r.Order? ==> r.orders[2].stop.price < r.orders[0].price <= r.orders[1].price
      ensures var r := EntryShort(inst, index, prev, spread, toPips);
        r.Order? ==> r.orders[1].price <= r.orders[0].price < r.orders[2].stop.price
    {
      var window := inst.data[index - 5..index + 1];
      assert window[5] == inst.data[index];
      PricesAreOrdered(MaxHigh(window), inst.data[index].low, toPips(3.0), spread, riskRewardRatio);
      PricesAreOrdered(MinLow(window), inst.data[index].high, toPips(3.0), spread, riskRewardRatio);
    }

    function ExitLong(index: nat, inst: Instrument, tradeIn: TradeIn): (r: Position)
      ensures r == NoPosition
    {
      NoPosition
    }

    function ExitShort(index: nat, inst: Instrument, tradeIn: TradeIn): (r: Position)
      ensures r == NoPosition
    {
      NoPosition
    }
  }
}
