/*
 * The EMA 50/200 crossover strategy (rs_algo_backtest/src/strategies/ema_50200.rs),
 * written against the earliest strategy trait: the model returns the arguments
 * passed to `resolve_trade_in` and `resolve_trade_out`. Enter when the 50 EMA
 * (`ema_a`) crosses above the 200 EMA (`ema_c`), leave when it crosses below.
 * `prev` is what `get_prev_index` returns for `index`.
 */
module Ema50200 {
  import opened Shared

  datatype Ema = Ema(name: string)

  function New(): (e: Ema)
    ensures e.name == "EMA_50_200"
  {
    Ema("EMA_50_200")
  }

  predicate Readable(inst: Instrument, index: nat, prev: nat) {
    index < |inst.emaA.a| && prev < |inst.emaA.a| && index < |inst.emaC.a| && prev < |inst.emaC.a|
  }

  predicate CrossesAbove(inst: Instrument, index: nat, prev: nat)
    requires Readable(inst, index, prev)
  {
    inst.emaA.a[index] > inst.emaC.a[index] && inst.emaA.a[prev] <= inst.emaC.a[prev]
  }

  predicate CrossesBelow(inst: Instrument, index: nat, prev: nat)
    requires Readable(inst, index, prev)
  {
    inst.emaA.a[index] < inst.emaC.a[index] && inst.emaA.a[prev] >= inst.emaC.a[prev]
  }

  function MarketInFn(e: Ema, index: nat, inst: Instrument, prev: nat, stopLoss: real): (r: TradeInRequest)
    requires Readable(inst, index, prev)
    ensures r.index == index && r.stopLoss == stopLoss
    ensures r.entryCondition <==> inst.emaA.a[index] > inst.emaC.a[index] && inst.emaA.a[prev] <= inst.emaC.a[prev]
  {
    TradeInRequest(index, CrossesAbove(inst, index, prev), stopLoss)
  }

  function MarketOutFn(e: Ema, index: nat, inst: Instrument, prev: nat, tradeIn: TradeIn): (r: TradeOutRequest)
    requires Readable(inst, index, prev)
    ensures r.index == index && r.tradeIn == tradeIn
    ensures r.exitCondition <==> inst.emaA.a[index] < inst.emaC.a[index] && inst.emaA.a[prev] >= inst.emaC.a[prev]
  {
    TradeOutRequest(index, tradeIn, CrossesBelow(inst, index, prev))
  }

  lemma EntryExitExclusive(e: Ema, index: nat, inst: Instrument, prev: nat, stopLoss: real, tradeIn: TradeIn)
    requires Readable(inst, index, prev)
    ensures !(MarketInFn(e, index, inst, prev, stopLoss).entryCondition
              && MarketOutFn(e, index, inst, prev, tradeIn).exitCondition)
  {
  }

  /** With `prev` the candle before, two consecutive candles never both signal
      an entry, nor both an exit. */
  lemma NoConsecutiveSignals(e: Ema, inst: Instrument, index: nat, prev: nat, next: nat, stopLoss: real, tradeIn: TradeIn)
    requires Readable(inst, index, prev) && Readable(inst, next, index)
    ensures !(MarketInFn(e, index, inst, prev, stopLoss).entryCondition
              && MarketInFn(e, next, inst, index, stopLoss).entryCondition)
    ensures !(MarketOutFn(e, index, inst, prev, tradeIn).exitCondition
              && MarketOutFn(e, next, inst, index, tradeIn).exitCondition)
  {
  }
}
