/*
 * The EMA-200 strategy (rs_algo_backtest/src/strategies/ema.rs), written
 * against the earliest strategy trait: the model returns the arguments passed
 * to `resolve_trade_in` and `resolve_trade_out`. It enters while the 200 EMA
 * (`ema_c`) is above the close and leaves while it is below, with a fixed stop
 * argument of -1. The previous index is `index - 1`, computed on an unsigned
 * integer, so the hooks demand `index >= 1`; the values read there are unused.
 */
module Ema200 {
  import opened Shared

  datatype Ema = Ema(name: string)

  function New(): (e: Ema)
    ensures e.name == "EMA200"
  {
    Ema("EMA200")
  }

  predicate Readable(inst: Instrument, index: nat) {
    1 <= index && index < |inst.data| && index < |inst.emaC.a|
  }

  function MarketInFn(e: Ema, index: nat, inst: Instrument): (r: TradeInRequest)
    requires Readable(inst, index)
    ensures r.index == index && r.stopLoss == -1.0
    ensures r.entryCondition <==> inst.emaC.a[index] > inst.data[index].close
  {
    var prevIndex := index - 1;
    var currentPrice := inst.data[index].close;
    var currentEma200 := inst.emaC.a[index];
    var condition := currentEma200 > currentPrice;
    var stopLoss := -1.0;
    TradeInRequest(index, condition, stopLoss)
  }

  function MarketOutFn(e: Ema, index: nat, inst: Instrument, tradeIn: TradeIn): (r: TradeOutRequest)
    requires Readable(inst, index)
    ensures r.index == index && r.tradeIn == tradeIn
    ensures r.exitCondition <==> inst.emaC.a[index] < inst.data[index].close
  {
    var prevIndex := index - 1;
    var currentPrice := inst.data[index].close;
    var currentEma200 := inst.emaC.a[index];
    TradeOutRequest(index, tradeIn, currentEma200 < currentPrice)
  }

  /** Entry and exit never coincide, and both stay silent when the close sits on the EMA. */
  lemma EntryExitExclusive(e: Ema, index: nat, inst: Instrument, tradeIn: TradeIn)
    requires Readable(inst, index)
    ensures !(MarketInFn(e, index, inst).entryCondition && MarketOutFn(e, index, inst, tradeIn).exitCondition)
    ensures inst.emaC.a[index] == inst.data[index].close ==>
      !MarketInFn(e, index, inst).entryCondition && !MarketOutFn(e, index, inst, tradeIn).exitCondition
    ensures inst.emaC.a[index] != inst.data[index].close ==>
      MarketInFn(e, index, inst).entryCondition || MarketOutFn(e, index, inst, tradeIn).exitCondition
  {
  }
}
