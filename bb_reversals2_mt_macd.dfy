/*
 * The multi-timeframe Bollinger-band reversal strategy gated by the
 * higher-timeframe MACD (rs_algo_backtest/src/strategies/bollinger_bands_reversals2_mt_macd.rs),
 * written against the version of the strategy trait whose hooks return `bool`.
 * It enters long on a fresh higher-timeframe MACD cross, or on a bullish candle
 * closing back over the low band after a bearish one closed under it while the
 * higher-timeframe MACD is above its signal. Its exit never closes the trade:
 * it only trails the stop at the candle's low after a bullish close over the
 * top band is followed by a bearish candle back under it.
 */
module BollingerReversals2MtMacd {
  import opened Shared

  predicate EntryReadable(inst: Instrument, index: nat, prev: nat) {
    index < |inst.data| && prev < |inst.data|
    && index < |inst.bb.b| && prev < |inst.bb.b|
    && index < |inst.bb.c| && prev < |inst.bb.c|
  }

  predicate ExitReadable(inst: Instrument, index: nat, prev: nat) {
    index < |inst.data| && prev < |inst.data|
    && index < |inst.bb.a| && prev < |inst.bb.a|
  }

  /** The test under which `exit_long` trails the stop. */
  predicate TrailCondition(inst: Instrument, index: nat, prev: nat)
    requires ExitReadable(inst, index, prev)
  {
    var candle := inst.data[index];
    var prevCandle := inst.data[prev];
    prevCandle.close > prevCandle.open
    && prevCandle.close > inst.bb.a[prev]
    && candle.close <= inst.bb.a[index]
    && candle.close <= candle.open
  }

  class MutiTimeFrameBollingerBands {
    const name: string
    const strategyType: StrategyType
    var stopLoss: StopLoss

    constructor (atrStopLoss: real, sl: StopLossHelpers)
      ensures name == "Bollinger_Bands_Reversals2_MT_Macd" && strategyType == OnlyLongMTF
      ensures stopLoss == sl.initStopLoss(Atr, atrStopLoss)
    {
      stopLoss := sl.initStopLoss(Atr, atrStopLoss);
      name := "Bollinger_Bands_Reversals2_MT_Macd";
      strategyType := OnlyLongMTF;
    }

    method UpdateStopLoss(sl: StopLossHelpers, stopType: StopLossType, price: real) returns (r: StopLoss)
      modifies this
      ensures stopLoss == sl.updateStopLossValues(old(stopLoss), stopType, price)
      ensures r == stopLoss
    {
      stopLoss := sl.updateStopLossValues(stopLoss, stopType, price);
      r := stopLoss;
    }

    function EntryLong(inst: Instrument, index: nat, prev: nat, htf: HtfPoint): (r: bool)
      requires EntryReadable(inst, index, prev) && HtfMacdReadable(htf)
      ensures HtfMacdCrossesUp(htf) ==> r
      ensures r && !HtfMacdCrossesUp(htf) ==> HtfMacdAbove(htf) && inst.data[index].close >= inst.bb.b[index]
      ensures r <==> (HtfMacdCrossesUp(htf)
                      || (HtfMacdAbove(htf)
                          && inst.data[prev].close < inst.data[prev].open
                          && inst.data[prev].close < inst.bb.b[prev]
                          && inst.data[index].close >= inst.bb.b[index]
                          && inst.data[index].close >= inst.data[index].open))
    {
      var firstWeeklyEntry := HtfMacdCrossesUp(htf);
      var upperMacd := HtfMacdAbove(htf);
      var openPrice := inst.data[index].open;
      var closePrice := inst.data[index].close;
      var prevOpen := inst.data[prev].open;
      var prevClose := inst.data[prev].close;
      var lowBand := inst.bb.b[index];
      var prevLowBand := inst.bb.b[prev];
      firstWeeklyEntry
      || (upperMacd
          && prevClose < prevOpen
          && prevClose < prevLowBand
          && closePrice >= lowBand
          && closePrice >= openPrice)
    }

    /** `exit_long`: never asks to close; trails the stop at the low when the
        trail condition holds and leaves it alone otherwise. */
    method ExitLong(sl: StopLossHelpers, inst: Instrument, index: nat, prev: nat, htf: HtfPoint) returns (r: bool)
      requires ExitReadable(inst, index, prev) && HtfMacdReadable(htf)
      modifies this
      ensures !r
      ensures stopLoss == if TrailCondition(inst, index, prev)
                          then sl.updateStopLossValues(old(stopLoss), Trailing, inst.data[index].low)
                          else old(stopLoss)
    {
      var lowPrice := inst.data[index].low;
      var openPrice := inst.data[index].open;
      var closePrice := inst.data[index].close;
      var prevOpen := inst.data[prev].open;
      var prevClose := inst.data[prev].close;
      var topBand := inst.bb.a[index];
      var prevTopBand := inst.bb.a[prev];
      var exitCondition := prevClose > prevOpen
        && prevClose > prevTopBand
        && closePrice <= topBand
        && closePrice <= openPrice;
      if exitCondition {
        var _ := UpdateStopLoss(sl, Trailing, lowPrice);
      }
      r := false;
    }

    /** `entry_short` delegates to `exit_long`, so it is false for every kind;
        for the long/short-capable kinds it may still trail the stop. */
    method EntryShort(sl: StopLossHelpers, inst: Instrument, index: nat, prev: nat, htf: HtfPoint) returns (r: bool)
      requires DelegatesShort(strategyType) ==> (ExitReadable(inst, index, prev) && HtfMacdReadable(htf))
      modifies this
      ensures !r
      ensures stopLoss == if DelegatesShort(strategyType) && TrailCondition(inst, index, prev)
                          then sl.updateStopLossValues(old(stopLoss), Trailing, inst.data[index].low)
                          else old(stopLoss)
    {
      match strategyType {
        case LongShort => r := ExitLong(sl, inst, index, prev, htf);
        case LongShortMTF => r := ExitLong(sl, inst, index, prev, htf);
        case OnlyShort => r := ExitLong(sl, inst, index, prev, htf);
        case _ => r := false;
      }
    }

    function ExitShort(inst: Instrument, index: nat, prev: nat, htf: HtfPoint): (r: bool)
      requires DelegatesShort(strategyType) ==> (EntryReadable(inst, index, prev) && HtfMacdReadable(htf))
      ensures r == (DelegatesShort(strategyType) && EntryLong(inst, index, prev, htf))
    {
      match strategyType
      case LongShort => EntryLong(inst, index, prev, htf)
      case LongShortMTF => EntryLong(inst, index, prev, htf)
      case OnlyShort => EntryLong(inst, index, prev, htf)
      case _ => false
    }
  }
}
