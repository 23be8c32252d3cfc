/*
 * The dual-timeframe MACD strategy (rs_algo_backtest/src/strategies/macd_dual.rs).
 * It enters long on a fresh MACD cross on the higher timeframe, or on a MACD
 * cross on the current timeframe while the higher-timeframe MACD is above its
 * signal; it leaves on the mirror image and then trails its stop at the
 * candle's low. Both hooks read the previous "signal" value from the MACD line
 * series (`data_a`) rather than from the signal series, which makes their
 * previous-candle test always true; the lemmas below state what that leaves.
 */
module MacdDual {
  import opened Shared

  predicate MacdReadable(inst: Instrument, index: nat, prev: nat) {
    var m := inst.macd;
    index < |m.a| && prev < |m.a| && index < |m.b| && prev < |m.b|
  }

  class MacdDual {
    const name: string
    const strategyType: StrategyType
    var stopLoss: StopLoss

    constructor (atrStopLoss: real, sl: StopLossHelpers)
      ensures name == "MacD_Dual" && strategyType == OnlyLongMTF
      ensures stopLoss == sl.initStopLoss(Atr, atrStopLoss)
    {
      stopLoss := sl.initStopLoss(Atr, atrStopLoss);
      name := "MacD_Dual";
      strategyType := OnlyLongMTF;
    }

    method UpdateStopLoss(sl: StopLossHelpers, stopType: StopLossType, price: real) returns (r: StopLoss)
      modifies this
      ensures stopLoss == sl.updateStopLossValues(old(stopLoss), stopType, price)
      ensures r == stopLoss
    {
      stopLoss := sl.updateStopLossValues(stopLoss, stopType, price);
      r := stopLoss;
    }

    /** `entry_long`. Because the previous signal value is read from the MACD
        line, the local test is only "MACD above signal now". */
    function EntryLong(inst: Instrument, index: nat, prev: nat, htf: HtfPoint): (r: bool)
      requires MacdReadable(inst, index, prev) && HtfMacdReadable(htf)
      ensures HtfMacdCrossesUp(htf) ==> r
      ensures r <==> (HtfMacdCrossesUp(htf) || (HtfMacdAbove(htf) && inst.macd.a[index] > inst.macd.b[index]))
    {
      var firstWeeklyEntry := HtfMacdCrossesUp(htf);
      var upperMacd := HtfMacdAbove(htf);
      var m := inst.macd;
      var prevMacdA := m.a[prev];
      var prevMacdB := m.a[prev];
      firstWeeklyEntry || (upperMacd && m.a[index] > m.b[index] && prevMacdB >= prevMacdA)
    }

    /** The exit condition of `exit_long`; by the same reading of `data_a` it is
        "fresh higher-timeframe cross down, or MACD below signal now". */
    function ExitCondition(inst: Instrument, index: nat, prev: nat, htf: HtfPoint): (r: bool)
      requires MacdReadable(inst, index, prev) && HtfMacdReadable(htf)
      ensures r <==> (HtfMacdCrossesDown(htf) || inst.macd.a[index] < inst.macd.b[index])
    {
      var firstWeeklyExit := HtfMacdCrossesDown(htf);
      var m := inst.macd;
      var prevMacdA := m.a[prev];
      var prevMacdB := m.a[prev];
      firstWeeklyExit || (m.a[index] < m.b[index] && prevMacdB <= prevMacdA)
    }

    /** `exit_long`: reports the exit condition and, when it holds, trails the
        stop at the candle's low. */
    method ExitLong(sl: StopLossHelpers, inst: Instrument, index: nat, prev: nat, htf: HtfPoint) returns (r: bool)
      requires MacdReadable(inst, index, prev) && HtfMacdReadable(htf) && index < |inst.data|
      modifies this
      ensures r == ExitCondition(inst, index, prev, htf)
      ensures stopLoss == if r then sl.updateStopLossValues(old(stopLoss), Trailing, inst.data[index].low)
                          else old(stopLoss)
    {
      var lowPrice := inst.data[index].low;
      var exitCondition := ExitCondition(inst, index, prev, htf);
      if exitCondition {
        var _ := UpdateStopLoss(sl, Trailing, lowPrice);
      }
      r := exitCondition;
    }

    /** `entry_short`: delegates to `exit_long` (stop update included) for the
        long/short-capable kinds, and is false without effect otherwise. */
    method EntryShort(sl: StopLossHelpers, inst: Instrument, index: nat, prev: nat, htf: HtfPoint) returns (r: bool)
      requires DelegatesShort(strategyType) ==> (MacdReadable(inst, index, prev) && HtfMacdReadable(htf) && index < |inst.data|)
      modifies this
      ensures r == (DelegatesShort(strategyType) && ExitCondition(inst, index, prev, htf))
      ensures stopLoss == if r then sl.updateStopLossValues(old(stopLoss), Trailing, inst.data[index].low)
                          else old(stopLoss)
    {
      match strategyType {
        case LongShort => r := ExitLong(sl, inst, index, prev, htf);
        case LongShortMTF => r := ExitLong(sl, inst, index, prev, htf);
        case OnlyShort => r := ExitLong(sl, inst, index, prev, htf);
        case _ => r := false;
      }
    }

    function ExitShort(inst: Instrument, index: nat, prev: nat, htf: HtfPoint): (r: bool)
      requires DelegatesShort(strategyType) ==> (MacdReadable(inst, index, prev) && HtfMacdReadable(htf))
      ensures r == (DelegatesShort(strategyType) && EntryLong(inst, index, prev, htf))
    {
      match strategyType
      case LongShort => EntryLong(inst, index, prev, htf)
      case LongShortMTF => EntryLong(inst, index, prev, htf)
      case OnlyShort => EntryLong(inst, index, prev, htf)
      case _ => false
    }

    /** As constructed (long only, multi-timeframe) the short hooks never fire. */
    lemma LongOnlyNeverShorts(inst: Instrument, index: nat, prev: nat, htf: HtfPoint)
      requires MacdReadable(inst, index, prev) && HtfMacdReadable(htf)
      requires strategyType == OnlyLongMTF
      ensures !ExitShort(inst, index, prev, htf)
    {
    }
  }
}
