/*
 * The multi-timeframe Bollinger-band continuation strategy gated by the
 * higher-timeframe MACD (rs_algo_backtest/src/strategies/bollinger_bands_reversals_continuation_ls_mt_macd.rs),
 * written against the version of the strategy trait whose hooks return `bool`.
 * It enters long on a fresh higher-timeframe MACD cross, or when the close
 * falls through the low band while the higher-timeframe MACD is above its
 * signal. Its exit never closes the trade: outside a rising pattern it trails
 * the stop at the low when the close breaks the top band while the
 * higher-timeframe MACD is below its signal. `pattern` is what
 * `get_current_pattern` returns for `index`.
 */
module BollingerContinuationMtMacd {
  import opened Shared

  predicate EntryReadable(inst: Instrument, index: nat, prev: nat) {
    index < |inst.data| && prev < |inst.data|
    && index < |inst.bb.b| && prev < |inst.bb.b|
  }

  predicate ExitReadable(inst: Instrument, index: nat, prev: nat) {
    index < |inst.data| && prev < |inst.data|
    && index < |inst.bb.a| && prev < |inst.bb.a|
    && index < |inst.bb.b| && prev < |inst.bb.b|
  }

  /** The exit condition `exit_long` computes, as the two branches the source assigns it in. */
  function ExitCondition(inst: Instrument, index: nat, prev: nat, htf: HtfPoint, pattern: PatternKind): (r: bool)
    requires ExitReadable(inst, index, prev) && HtfMacdIdxReadable(htf)
    ensures pattern == ChannelUp || pattern == HigherHighsHigherLows ==> !r
    ensures r <==> !(pattern == ChannelUp || pattern == HigherHighsHigherLows) && HtfMacdBelow(htf)
                   && inst.data[prev].close <= inst.bb.a[prev] && inst.data[index].close > inst.bb.a[index]
  {
    if pattern == ChannelUp || pattern == HigherHighsHigherLows then false
    else HtfMacdBelow(htf) && inst.data[index].close > inst.bb.a[index]
         && inst.data[prev].close <= inst.bb.a[prev]
  }

  class MutiTimeFrameBollingerBands {
    const name: string
    const strategyType: StrategyType
    var stopLoss: StopLoss

    constructor (atrStopLoss: real, sl: StopLossHelpers)
      ensures name == "Bollinger_Bands_Reversals_Continuation_MT_Macd" && strategyType == LongShortMTF
      ensures stopLoss == sl.initStopLoss(Atr, atrStopLoss)
    {
      stopLoss := sl.initStopLoss(Atr, atrStopLoss);
      name := "Bollinger_Bands_Reversals_Continuation_MT_Macd";
      strategyType := LongShortMTF;
    }

    method UpdateStopLoss(sl: StopLossHelpers, stopType: StopLossType, price: real) returns (r: StopLoss)
      modifies this
      ensures stopLoss == sl.updateStopLossValues(old(stopLoss), stopType, price)
      ensures r == stopLoss
    {
      stopLoss := sl.updateStopLossValues(stopLoss, stopType, price);
      r := stopLoss;
    }

    function EntryLong(inst: Instrument, index: nat, prev: nat, htf: HtfPoint): (r: bool)
      requires EntryReadable(inst, index, prev) && HtfMacdReadable(htf)
      ensures HtfMacdCrossesUp(htf) ==> r
      ensures r <==> (HtfMacdCrossesUp(htf)
                      || (HtfMacdAbove(htf)
                          && inst.data[index].close < inst.bb.b[index]
                          && inst.data[prev].close >= inst.bb.b[prev]))
    {
      var firstWeeklyEntry := HtfMacdCrossesUp(htf);
      var upperMacd := HtfMacdAbove(htf);
      var closePrice := inst.data[index].close;
      var prevClose := inst.data[prev].close;
      var lowBand := inst.bb.b[index];
      var prevLowBand := inst.bb.b[prev];
      firstWeeklyEntry || (upperMacd && closePrice < lowBand && prevClose >= prevLowBand)
    }

    /** `exit_long`: never asks to close; trails the stop at the low exactly
        when the exit condition holds. */
    method ExitLong(sl: StopLossHelpers, inst: Instrument, index: nat, prev: nat, htf: HtfPoint, pattern: PatternKind)
      returns (r: bool)
      requires ExitReadable(inst, index, prev) && HtfMacdIdxReadable(htf)
      modifies this
      ensures !r
      ensures stopLoss == if ExitCondition(inst, index, prev, htf, pattern)
                          then sl.updateStopLossValues(old(stopLoss), Trailing, inst.data[index].low)
                          else old(stopLoss)
    {
      var upperMacd := HtfMacdBelow(htf);
      var closePrice := inst.data[index].close;
      var lowPrice := inst.data[index].low;
      var prevClose := inst.data[prev].close;
      var topBand := inst.bb.a[index];
      var prevTopBand := inst.bb.a[prev];
      var exitCondition := false;
      if pattern == ChannelUp || pattern == HigherHighsHigherLows {
        exitCondition := false;
      } else {
        exitCondition := upperMacd && closePrice > topBand && prevClose <= prevTopBand;
      }
      if exitCondition {
        var _ := UpdateStopLoss(sl, Trailing, lowPrice);
      }
      r := false;
    }

    /** `entry_short` delegates to `exit_long`: false for every kind, and for
        the long/short-capable kinds (the constructed one among them) it may trail the stop. */
    method EntryShort(sl: StopLossHelpers, inst: Instrument, index: nat, prev: nat, htf: HtfPoint, pattern: PatternKind)
      returns (r: bool)
      requires DelegatesShort(strategyType) ==> (ExitReadable(inst, index, prev) && HtfMacdIdxReadable(htf))
      modifies this
      ensures !r
      ensures stopLoss == if DelegatesShort(strategyType) && ExitCondition(inst, index, prev, htf, pattern)
                          then sl.updateStopLossValues(old(stopLoss), Trailing, inst.data[index].low)
                          else old(stopLoss)
    {
      match strategyType {
        case LongShort => r := ExitLong(sl, inst, index, prev, htf, pattern);
        case LongShortMTF => r := ExitLong(sl, inst, index, prev, htf, pattern);
        case OnlyShort => r := ExitLong(sl, inst, index, prev, htf, pattern);
        case _ => r := false;
      }
    }

    function ExitShort(inst: Instrument, index: nat, prev: nat, htf: HtfPoint): (r: bool)
      requires DelegatesShort(strategyType) ==> (EntryReadable(inst, index, prev) && HtfMacdReadable(htf))
      ensures r == (DelegatesShort(strategyType) && EntryLong(inst, index, prev, htf))
    {
      match strategyType
      case LongShort => EntryLong(inst, index, prev, htf)
      case LongShortMTF => EntryLong(inst, index, prev, htf)
      case OnlyShort => EntryLong(inst, index, prev, htf)
      case _ => false
    }

    /** As constructed (long/short, multi-timeframe) the short exit is the long entry. */
    lemma ConstructedShortExitIsLongEntry(inst: Instrument, index: nat, prev: nat, htf: HtfPoint)
      requires EntryReadable(inst, index, prev) && HtfMacdReadable(htf)
      requires strategyType == LongShortMTF
      ensures ExitShort(inst, index, prev, htf) == EntryLong(inst, index, prev, htf)
    {
    }
  }
}
