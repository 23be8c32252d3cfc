/*
 * The older, long-only Bollinger-band reversal strategy ridden by RSI
 * (rs_algo_backtest/src/strategies/bollinger_bands_reversal_riding_rsi.rs),
 * written against the earliest version of the strategy trait: the strategy
 * resolves its own trades. The model returns the arguments it passes to the
 * foreign `resolve_trade_in` and `resolve_trade_out` helpers.
 */
module BollingerRidingRsi {
  import opened Shared
  import Ls = BollingerRidingRsiLs

  /** The call `resolve_trade_out(index, instrument, trade_in, exit_condition, stop_loss)`
      of this trade-module version, which takes a stop-loss switch. */
  datatype StopTradeOutRequest = StopTradeOutRequest(index: nat, tradeIn: TradeIn, exitCondition: bool, stopLoss: bool)

  /** The strategy holds only its name. */
  datatype BollingerBands = BollingerBands(name: string)

  function New(): (b: BollingerBands)
    ensures b.name == "Bollinger_Bands_Reversal_Riding_RSI"
  {
    BollingerBands("Bollinger_Bands_Reversal_Riding_RSI")
  }

  predicate InReadable(inst: Instrument, index: nat, prev: nat) {
    index < |inst.data| && prev < |inst.data|
    && index < |inst.bb.b| && prev < |inst.bb.b| && index < |inst.rsi.a|
  }

  predicate OutReadable(inst: Instrument, index: nat, prev: nat) {
    index >= 5 && index < |inst.data| && prev < |inst.data|
    && index < |inst.bb.a| && prev < |inst.bb.a| && index < |inst.bb.b| && index < |inst.bb.c|
  }

  function MarketInFn(inst: Instrument, index: nat, prev: nat, pattern: PatternKind, stopLoss: real): (r: TradeInRequest)
    requires InReadable(inst, index, prev)
    ensures r.index == index && r.stopLoss == stopLoss
    ensures r.entryCondition <==> (pattern !in {ChannelDown, LowerHighsLowerLows}
                                   && 30.0 <= inst.rsi.a[index] <= 40.0
                                   && inst.data[index].close < inst.bb.b[index]
                                   && inst.data[prev].close >= inst.bb.b[prev])
  {
    var closePrice := inst.data[index].close;
    var prevClose := inst.data[prev].close;
    var lowBand := inst.bb.b[index];
    var prevLowBand := inst.bb.b[prev];
    var rsi := inst.rsi.a[index];
    var entryCondition := pattern != ChannelDown
      && pattern != LowerHighsLowerLows
      && rsi >= 30.0
      && rsi <= 40.0
      && closePrice < lowBand
      && prevClose >= prevLowBand;
    TradeInRequest(index, entryCondition, stopLoss)
  }

  /** `market_out_fn`: the same five-candle band count as the long/short version;
      the trade is always resolved with its stop loss enabled. */
  method MarketOutFn(inst: Instrument, index: nat, prev: nat, pattern: PatternKind, tradeIn: TradeIn)
    returns (r: StopTradeOutRequest)
    requires OutReadable(inst, index, prev)
    ensures r.index == index && r.tradeIn == tradeIn && r.stopLoss
    ensures r.exitCondition == Ls.ExitFormula(pattern,
      CountWhere(inst.data, index - 5, index, HighAbove(inst.bb.a[index])),
      CountWhere(inst.data, index - 5, index, CloseBelow(inst.bb.c[index])),
      CountWhere(inst.data, index - 5, index, LowBelow(inst.bb.b[index])))
    ensures r.exitCondition <==> CountWhere(inst.data, index - 5, index, LowBelow(inst.bb.b[index])) >= 3
  {
    var topBand := inst.bb.a[index];
    var midBand := inst.bb.c[index];
    var lowBand := inst.bb.b[index];
    var backwardsCandles := 5;
    var hitsOverTopBand: nat := 0;
    var hitsOverLowBand: nat := 0;
    var hitsAboveMidBand: nat := 0;
    var x := index;
    while x > index - backwardsCandles
      invariant index - backwardsCandles <= x <= index
      invariant hitsOverTopBand == CountWhere(inst.data, x, index, HighAbove(topBand))
      invariant hitsAboveMidBand == CountWhere(inst.data, x, index, CloseBelow(midBand))
      invariant hitsOverLowBand == CountWhere(inst.data, x, index, LowBelow(lowBand))
    {
      x := x - 1;
      if inst.data[x].high > topBand {
        hitsOverTopBand := hitsOverTopBand + 1;
      }
      if inst.data[x].close < midBand {
        hitsAboveMidBand := hitsAboveMidBand + 1;
      }
      if inst.data[x].low < lowBand {
        hitsOverLowBand := hitsOverLowBand + 1;
      }
    }
    var exitCondition := Ls.ExitFormula(pattern, hitsOverTopBand, hitsAboveMidBand, hitsOverLowBand);
    Ls.ExitFormulaReduces(pattern, hitsOverTopBand, hitsAboveMidBand, hitsOverLowBand);
    var stopLoss := true;
    r := StopTradeOutRequest(index, tradeIn, exitCondition, stopLoss);
  }
}
