/*
 * The EMA-50 crossover strategy (rs_algo_backtest/src/strategies/ema_50.rs),
 * written against the earliest strategy trait: it resolves its own trades, so
 * the model returns the arguments it passes to `resolve_trade_in` and
 * `resolve_trade_out`. Enter when the close crosses above the 50 EMA
 * (`ema_a`), leave when it crosses below. `prev` is what `get_prev_index`
 * returns for `index`.
 */
module Ema50 {
  import opened Shared

  datatype Ema = Ema(name: string)

  function New(): (e: Ema)
    ensures e.name == "EMA_50"
  {
    Ema("EMA_50")
  }

  predicate Readable(inst: Instrument, index: nat, prev: nat) {
    index < |inst.data| && prev < |inst.data| && index < |inst.emaA.a| && prev < |inst.emaA.a|
  }

  /** The close crosses above the EMA between `prev` and `index`. */
  predicate CrossesAbove(inst: Instrument, index: nat, prev: nat)
    requires Readable(inst, index, prev)
  {
    inst.data[index].close > inst.emaA.a[index] && inst.data[prev].close <= inst.emaA.a[prev]
  }

  /** The close crosses below the EMA between `prev` and `index`. */
  predicate CrossesBelow(inst: Instrument, index: nat, prev: nat)
    requires Readable(inst, index, prev)
  {
    inst.data[index].close < inst.emaA.a[index] && inst.data[prev].close >= inst.emaA.a[prev]
  }

  function MarketInFn(e: Ema, index: nat, inst: Instrument, prev: nat, stopLoss: real): (r: TradeInRequest)
    requires Readable(inst, index, prev)
    ensures r.index == index && r.stopLoss == stopLoss
    ensures r.entryCondition <==> inst.data[index].close > inst.emaA.a[index]
                                  && inst.data[prev].close <= inst.emaA.a[prev]
  {
    TradeInRequest(index, CrossesAbove(inst, index, prev), stopLoss)
  }

  function MarketOutFn(e: Ema, index: nat, inst: Instrument, prev: nat, tradeIn: TradeIn): (r: TradeOutRequest)
    requires Readable(inst, index, prev)
    ensures r.index == index && r.tradeIn == tradeIn
    ensures r.exitCondition <==> inst.data[index].close < inst.emaA.a[index]
                                 && inst.data[prev].close >= inst.emaA.a[prev]
  {
    TradeOutRequest(index, tradeIn, CrossesBelow(inst, index, prev))
  }

  /** Entry and exit are never both asked for on the same candle. */
  lemma EntryExitExclusive(e: Ema, index: nat, inst: Instrument, prev: nat, stopLoss: real, tradeIn: TradeIn)
    requires Readable(inst, index, prev)
    ensures !(MarketInFn(e, index, inst, prev, stopLoss).entryCondition
              && MarketOutFn(e, index, inst, prev, tradeIn).exitCondition)
  {
  }

  /** With `prev` the candle before, no two consecutive candles both signal an
      entry, nor both an exit: the later one needs the earlier close on the
      other side of the EMA. */
  lemma NoConsecutiveSignals(e: Ema, inst: Instrument, index: nat, prev: nat, next: nat, stopLoss: real, tradeIn: TradeIn)
    requires Readable(inst, index, prev) && Readable(inst, next, index)
    ensures !(MarketInFn(e, index, inst, prev, stopLoss).entryCondition
              && MarketInFn(e, next, inst, index, stopLoss).entryCondition)
    ensures !(MarketOutFn(e, index, inst, prev, tradeIn).exitCondition
              && MarketOutFn(e, next, inst, index, tradeIn).exitCondition)
  {
  }
}
