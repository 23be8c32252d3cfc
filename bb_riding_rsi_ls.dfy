/*
 * The long/short Bollinger-band reversal strategy ridden by RSI
 * (rs_algo_backtest/src/strategies/bollinger_bands_reversal_riding_rsi_ls.rs),
 * written against the version of the strategy trait whose hooks return `bool`.
 * Enter long when the close falls through the lower band with RSI in 30..40
 * outside a falling pattern; leave after counting, over the five candles before
 * the current one, how often they broke the current candle's bands. `pattern`
 * is what `get_current_pattern` returns for `index`.
 */
module BollingerRidingRsiLs {
  import opened Shared

  predicate EntryReadable(inst: Instrument, index: nat, prev: nat) {
    index < |inst.data| && prev < |inst.data|
    && index < |inst.bb.b| && prev < |inst.bb.b|
    && index < |inst.rsi.a| && prev < |inst.rsi.a|
  }

  predicate ExitReadable(inst: Instrument, index: nat, prev: nat) {
    index >= 5 && index < |inst.data| && prev < |inst.data|
    && index < |inst.bb.a| && prev < |inst.bb.a|
    && index < |inst.bb.b| && prev < |inst.bb.b|
    && index < |inst.bb.c|
  }

  /** The exit formula as the source writes it, over the three counters
      (the older single-direction version has the same formula). */
  predicate ExitFormula(pattern: PatternKind, hitsOverTopBand: nat, hitsAboveMidBand: nat, hitsOverLowBand: nat) {
    (pattern != ChannelUp && pattern != HigherHighsHigherLows
     && (hitsOverTopBand <= 5 && hitsAboveMidBand > 5))
    || hitsOverLowBand >= 3
  }

  /** Over five candles no counter exceeds 5, so only the lower-band count decides. */
  lemma ExitFormulaReduces(pattern: PatternKind, top: nat, mid: nat, low: nat)
    requires top <= 5 && mid <= 5 && low <= 5
    ensures ExitFormula(pattern, top, mid, low) <==> low >= 3
  {
  }

  class BollingerBands {
    const name: string
    const strategyType: StrategyType
    var stopLoss: StopLoss

    constructor (atrStopLoss: real, sl: StopLossHelpers)
      ensures name == "Bollinger_Bands_Reversal_Riding_RSI" && strategyType == LongShort
      ensures stopLoss == sl.initStopLoss(Atr, atrStopLoss)
    {
      stopLoss := sl.initStopLoss(Atr, atrStopLoss);
      name := "Bollinger_Bands_Reversal_Riding_RSI";
      strategyType := LongShort;
    }

    method UpdateStopLoss(sl: StopLossHelpers, stopType: StopLossType, price: real) returns (r: StopLoss)
      modifies this
      ensures stopLoss == sl.updateStopLossValues(old(stopLoss), stopType, price)
      ensures r == stopLoss
    {
      stopLoss := sl.updateStopLossValues(stopLoss, stopType, price);
      r := stopLoss;
    }

    function EntryLong(inst: Instrument, index: nat, prev: nat, pattern: PatternKind): (r: bool)
      requires EntryReadable(inst, index, prev)
      ensures r ==> 30.0 <= inst.rsi.a[index] <= 40.0
      ensures r <==> (pattern !in {ChannelDown, LowerHighsLowerLows}
                      && 30.0 <= inst.rsi.a[index] <= 40.0
                      && inst.data[index].close < inst.bb.b[index]
                      && inst.data[prev].close >= inst.bb.b[prev])
    {
      var closePrice := inst.data[index].close;
      var prevClose := inst.data[prev].close;
      var lowBand := inst.bb.b[index];
      var prevLowBand := inst.bb.b[prev];
      var rsi := inst.rsi.a[index];
      pattern != ChannelDown
      && pattern != LowerHighsLowerLows
      && rsi >= 30.0
      && rsi <= 40.0
      && closePrice < lowBand
      && prevClose >= prevLowBand
    }

    /** `exit_long`: counts, over candles index-5 .. index-1 and against the bands
        of candle `index`, the highs over the top band, the closes under the
        middle band and the lows under the low band. It changes nothing. */
    method ExitLong(inst: Instrument, index: nat, prev: nat, pattern: PatternKind) returns (r: bool)
      requires ExitReadable(inst, index, prev)
      ensures r == ExitFormula(pattern,
        CountWhere(inst.data, index - 5, index, HighAbove(inst.bb.a[index])),
        CountWhere(inst.data, index - 5, index, CloseBelow(inst.bb.c[index])),
        CountWhere(inst.data, index - 5, index, LowBelow(inst.bb.b[index])))
      ensures r <==> CountWhere(inst.data, index - 5, index, LowBelow(inst.bb.b[index])) >= 3
    {
      var topBand := inst.bb.a[index];
      var midBand := inst.bb.c[index];
      var lowBand := inst.bb.b[index];
      var backwardsCandles := 5;
      var hitsOverTopBand: nat := 0;
      var hitsOverLowBand: nat := 0;
      var hitsAboveMidBand: nat := 0;
      var x := index;
      while x > index - backwardsCandles
        invariant index - backwardsCandles <= x <= index
        invariant hitsOverTopBand == CountWhere(inst.data, x, index, HighAbove(topBand))
        invariant hitsAboveMidBand == CountWhere(inst.data, x, index, CloseBelow(midBand))
        invariant hitsOverLowBand == CountWhere(inst.data, x, index, LowBelow(lowBand))
      {
        x := x - 1;
        var highestPrice := inst.data[x].high;
        if highestPrice > topBand {
          hitsOverTopBand := hitsOverTopBand + 1;
        }
        var midPrice := inst.data[x].close;
        if midPrice < midBand {
          hitsAboveMidBand := hitsAboveMidBand + 1;
        }
        var lowestPrice := inst.data[x].low;
        if lowestPrice < lowBand {
          hitsOverLowBand := hitsOverLowBand + 1;
        }
      }
      r := ExitFormula(pattern, hitsOverTopBand, hitsAboveMidBand, hitsOverLowBand);
      ExitFormulaReduces(pattern, hitsOverTopBand, hitsAboveMidBand, hitsOverLowBand);
    }

    method EntryShort(inst: Instrument, index: nat, prev: nat, pattern: PatternKind) returns (r: bool)
      requires DelegatesShort(strategyType) ==> ExitReadable(inst, index, prev)
      ensures r <==> DelegatesShort(strategyType)
                     && CountWhere(inst.data, index - 5, index, LowBelow(inst.bb.b[index])) >= 3
    {
      match strategyType {
        case LongShort => r := ExitLong(inst, index, prev, pattern);
        case LongShortMTF => r := ExitLong(inst, index, prev, pattern);
        case OnlyShort => r := ExitLong(inst, index, prev, pattern);
        case _ => r := false;
      }
    }

    /** `exit_short`. The source's second `OnlyShort` arm, delegating to
        `exit_long`, is never reached; the `assert false` in its place records it. */
    function ExitShort(inst: Instrument, index: nat, prev: nat, pattern: PatternKind): (r: bool)
      requires DelegatesShort(strategyType) ==> EntryReadable(inst, index, prev)
      ensures r == (DelegatesShort(strategyType) && EntryLong(inst, index, prev, pattern))
    {
      if strategyType == LongShort then EntryLong(inst, index, prev, pattern)
      else if strategyType == LongShortMTF then EntryLong(inst, index, prev, pattern)
      else if strategyType == OnlyShort then EntryLong(inst, index, prev, pattern)
      else if strategyType == OnlyShort then assert false; false
      else false
    }
  }
}
