/*
 * The stochastic long/short strategy (rs_algo_backtest/src/strategies/stoch_ls.rs),
 * written against the version of the strategy trait whose hooks return `bool`.
 * Enter long when %K (`stoch.a`) crosses above %D (`stoch.b`) while at or below 20;
 * leave when it crosses below while at or above 70. `prev` is the index
 * `get_prev_index` returns for `index`; the higher-timeframe instrument the
 * hooks receive is never read, so it is not a parameter.
 */
module StochLs {
  import opened Shared

  predicate StochReadable(inst: Instrument, index: nat, prev: nat) {
    var k := inst.stoch;
    index < |k.a| && prev < |k.a| && index < |k.b| && prev < |k.b|
  }

  class Stoch {
    const name: string
    const strategyType: StrategyType
    var stopLoss: StopLoss

    /** `new`: a long/short strategy with an ATR stop of `atrStopLoss` (the `ATR_STOP_LOSS` setting). */
    constructor (atrStopLoss: real, sl: StopLossHelpers)
      ensures name == "Stoch" && strategyType == LongShort
      ensures stopLoss == sl.initStopLoss(Atr, atrStopLoss)
    {
      stopLoss := sl.initStopLoss(Atr, atrStopLoss);
      name := "Stoch";
      strategyType := LongShort;
    }

    method UpdateStopLoss(sl: StopLossHelpers, stopType: StopLossType, price: real) returns (r: StopLoss)
      modifies this
      ensures stopLoss == sl.updateStopLossValues(old(stopLoss), stopType, price)
      ensures r == stopLoss
    {
      stopLoss := sl.updateStopLossValues(stopLoss, stopType, price);
      r := stopLoss;
    }

    function EntryLong(inst: Instrument, index: nat, prev: nat): (r: bool)
      requires StochReadable(inst, index, prev)
      ensures r <==> (inst.stoch.a[index] <= 20.0
                      && inst.stoch.a[index] > inst.stoch.b[index]
                      && inst.stoch.a[prev] <= inst.stoch.b[prev])
    {
      var k := inst.stoch;
      k.a[index] <= 20.0 && k.a[index] > k.b[index] && k.a[prev] <= k.b[prev]
    }

    function ExitLong(inst: Instrument, index: nat, prev: nat): (r: bool)
      requires StochReadable(inst, index, prev)
      ensures r <==> (inst.stoch.a[index] >= 70.0
                      && inst.stoch.a[index] < inst.stoch.b[index]
                      && inst.stoch.a[prev] >= inst.stoch.b[prev])
    {
      var k := inst.stoch;
      k.a[index] >= 70.0 && k.a[index] < k.b[index] && k.a[prev] >= k.b[prev]
    }

    /** Short entries are the long exits, for the three long/short-capable kinds only. */
    function EntryShort(inst: Instrument, index: nat, prev: nat): (r: bool)
      requires DelegatesShort(strategyType) ==> StochReadable(inst, index, prev)
      ensures r == (DelegatesShort(strategyType) && ExitLong(inst, index, prev))
    {
      match strategyType
      case LongShort => ExitLong(inst, index, prev)
      case LongShortMTF => ExitLong(inst, index, prev)
      case OnlyShort => ExitLong(inst, index, prev)
      case _ => false
    }

    /** Short exits are the long entries for the same kinds. The source has a
        second `OnlyShort` arm, delegating to `exit_long`, after the first one;
        it is never reached, which the `assert false` in its place records. */
    function ExitShort(inst: Instrument, index: nat, prev: nat): (r: bool)
      requires DelegatesShort(strategyType) ==> StochReadable(inst, index, prev)
      ensures r == (DelegatesShort(strategyType) && EntryLong(inst, index, prev))
    {
      if strategyType == LongShort then EntryLong(inst, index, prev)
      else if strategyType == LongShortMTF then EntryLong(inst, index, prev)
      else if strategyType == OnlyShort then EntryLong(inst, index, prev)
      else if strategyType == OnlyShort then assert false; false
      else false
    }

    /** A long entry and a long exit never fire on the same candle. */
    lemma EntryExitExclusive(inst: Instrument, index: nat, prev: nat)
      requires StochReadable(inst, index, prev)
      ensures !(EntryLong(inst, index, prev) && ExitLong(inst, index, prev))
      ensures !(EntryShort(inst, index, prev) && ExitShort(inst, index, prev))
    {
    }
  }
}
