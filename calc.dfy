/*
 * The profit, run-up, drawdown, commission and ratio arithmetic of the
 * backtest (rs_algo_backtest/src/helpers/calc.rs). Prices are reals; where
 * the source would divide by zero or fold an empty window (and so produce
 * NaN or infinity) the functions below require the case away.
 */
module Calc {
  import opened Shared

  /** Absolute profit of a long trade of `size` units bought at `priceIn` and sold at `priceOut`. */
  function CalculateProfit(size: real, priceIn: real, priceOut: real): (r: real)
    ensures size > 0.0 ==> (r > 0.0 <==> priceOut > priceIn)
    ensures size > 0.0 ==> (r == 0.0 <==> priceOut == priceIn)
  {
    size * (priceOut - priceIn)
  }

  /** Percentage change from `priceIn` to `priceOut`. */
  function CalculateProfitPer(priceIn: real, priceOut: real): (r: real)
    requires priceIn != 0.0
    ensures priceIn > 0.0 ==> (r > 0.0 <==> priceOut > priceIn)
    ensures r * priceIn == (priceOut - priceIn) * 100.0
  {
    ((priceOut - priceIn) / priceIn) * 100.0
  }

  /** The percentage of a trade is its profit per unit of capital invested, times 100. */
  lemma ProfitPerIsProfitOverCapital(size: real, priceIn: real, priceOut: real)
    requires priceIn > 0.0 && size > 0.0
    ensures CalculateProfitPer(priceIn, priceOut)
         == CalculateProfit(size, priceIn, priceOut) / (size * priceIn) * 100.0
  {
    var d := priceOut - priceIn;
    assert size * d / (size * priceIn) == d / priceIn by {
      assert (size * d) == (d / priceIn) * (size * priceIn);
    }
  }

  function CalculateCumProfit(size: real, priceIn: real, priceOut: real): (r: real)
    requires priceIn != 0.0
    ensures r * priceIn == size * (priceOut - priceIn)
  {
    size * ((priceOut - priceIn) / priceIn)
  }

  function CalculateCumProfitPer(size: real, priceIn: real, priceOut: real): (r: real)
    requires priceIn != 0.0
    ensures r == 100.0 * CalculateCumProfit(size, priceIn, priceOut)
  {
    (size * ((priceOut - priceIn) / priceIn)) * 100.0
  }

  /** The candles with `indexIn <= i < indexOut` that exist: the window the
      run-up and drawdown fold over. */
  predicate InWindow(data: seq<Candle>, indexIn: nat, indexOut: nat, i: int) {
    indexIn <= i < indexOut && i < |data|
  }

  function Window(data: seq<Candle>, indexIn: nat, indexOut: nat): (w: seq<Candle>)
    requires indexIn <= |data|
    ensures |w| == (if indexOut < |data| then indexOut else |data|) - indexIn || (indexOut < indexIn && w == [])
    ensures forall i :: 0 <= i < |w| ==> InWindow(data, indexIn, indexOut, indexIn + i) && w[i] == data[indexIn + i]
    ensures forall i :: InWindow(data, indexIn, indexOut, i) ==> i - indexIn < |w|
  {
    if indexOut <= indexIn then []
    else if indexOut < |data| then data[indexIn..indexOut]
    else data[indexIn..]
  }

  /** Maximum favourable excursion: the distance from `priceIn` to the highest
      high of the window. The window must hold a candle (the source folds from NaN). */
  function CalculateRunup(data: seq<Candle>, priceIn: real, indexIn: nat, indexOut: nat): (r: real)
    requires indexIn < indexOut && indexIn < |data|
    ensures r >= 0.0
    ensures exists i :: InWindow(data, indexIn, indexOut, i)
                     && r == Abs(data[i].high - priceIn)
                     && forall j :: InWindow(data, indexIn, indexOut, j) ==> data[j].high <= data[i].high
  {
    var w := Window(data, indexIn, indexOut);
    var m := MaxHigh(w);
    var k :| 0 <= k < |w| && w[k].high == m;
    assert InWindow(data, indexIn, indexOut, indexIn + k);
    Abs(m - priceIn)
  }

  /** Maximum adverse excursion: the distance from `priceIn` to the lowest low of the window. */
  function CalculateDrawdown(data: seq<Candle>, priceIn: real, indexIn: nat, indexOut: nat): (r: real)
    requires indexIn < indexOut && indexIn < |data|
    ensures r >= 0.0
    ensures exists i :: InWindow(data, indexIn, indexOut, i)
                     && r == Abs(data[i].low - priceIn)
                     && forall j :: InWindow(data, indexIn, indexOut, j) ==> data[i].low <= data[j].low
  {
    var w := Window(data, indexIn, indexOut);
    var m := MinLow(w);
    var k :| 0 <= k < |w| && w[k].low == m;
    assert InWindow(data, indexIn, indexOut, indexIn + k);
    Abs(m - priceIn)
  }

  function CalculateDrawdownPer(drawDown: real, priceIn: real): (r: real)
    requires priceIn != 0.0
    ensures r >= 0.0
    ensures drawDown >= 0.0 && priceIn > 0.0 ==> r * priceIn == drawDown * 100.0
  {
    Abs((drawDown / priceIn) * 100.0)
  }

  function CalculateRunupPer(runUp: real, priceIn: real): (r: real)
    requires priceIn != 0.0
    ensures r >= 0.0
    ensures runUp >= 0.0 && priceIn > 0.0 ==> r * priceIn == runUp * 100.0
  {
    Abs((runUp / (priceIn * 1.0)) * 100.0)
  }

  /** Sum of one field over a list of closed trades, left to right as `Iterator::sum` adds. */
  function SumBy(ts: seq<TradeOut>, f: TradeOut -> real): real {
    if ts == [] then 0.0 else SumBy(ts[..|ts| - 1], f) + f(ts[|ts| - 1])
  }

  lemma {:induction false} SumByAppend(a: seq<TradeOut>, b: seq<TradeOut>, f: TradeOut -> real)
    ensures SumBy(a + b, f) == SumBy(a, f) + SumBy(b, f)
    decreases |b|
  {
    if b == [] {
      assert a + b == a;
    } else {
      var b' := b[..|b| - 1];
      assert (a + b)[..|a + b| - 1] == a + b';
      SumByAppend(a, b', f);
    }
  }

  lemma {:induction false} SumByNonNegative(ts: seq<TradeOut>, f: TradeOut -> real)
    requires forall i :: 0 <= i < |ts| ==> f(ts[i]) >= 0.0
    ensures SumBy(ts, f) >= 0.0
    decreases |ts|
  {
    if ts != [] {
      SumByNonNegative(ts[..|ts| - 1], f);
    }
  }

  function Profit(t: TradeOut): real { t.profit }
  function DrawDownPer(t: TradeOut): real { t.drawDownPer }
  function RunUpPer(t: TradeOut): real { t.runUpPer }

  function TotalGross(ts: seq<TradeOut>): (r: real)
    ensures ts == [] ==> r == 0.0
    ensures |ts| > 0 ==> r == TotalGross(ts[..|ts| - 1]) + ts[|ts| - 1].profit
  {
    SumBy(ts, Profit)
  }

  function TotalDrawdown(ts: seq<TradeOut>): (r: real)
    ensures ts == [] ==> r == 0.0
    ensures |ts| > 0 ==> r == TotalDrawdown(ts[..|ts| - 1]) + ts[|ts| - 1].drawDownPer
    ensures (forall i :: 0 <= i < |ts| ==> ts[i].drawDownPer >= 0.0) ==> r >= 0.0
  {
    if forall i :: 0 <= i < |ts| ==> ts[i].drawDownPer >= 0.0 then
      SumByNonNegative(ts, DrawDownPer);
      SumBy(ts, DrawDownPer)
    else SumBy(ts, DrawDownPer)
  }

  function TotalRunup(ts: seq<TradeOut>): (r: real)
    ensures ts == [] ==> r == 0.0
    ensures |ts| > 0 ==> r == TotalRunup(ts[..|ts| - 1]) + ts[|ts| - 1].runUpPer
    ensures (forall i :: 0 <= i < |ts| ==> ts[i].runUpPer >= 0.0) ==> r >= 0.0
  {
    if forall i :: 0 <= i < |ts| ==> ts[i].runUpPer >= 0.0 then
      SumByNonNegative(ts, RunUpPer);
      SumBy(ts, RunUpPer)
    else SumBy(ts, RunUpPer)
  }

  /** The totals of two runs of trades add up. */
  lemma TotalsAreAdditive(a: seq<TradeOut>, b: seq<TradeOut>)
    ensures TotalGross(a + b) == TotalGross(a) + TotalGross(b)
    ensures TotalDrawdown(a + b) == TotalDrawdown(a) + TotalDrawdown(b)
    ensures TotalRunup(a + b) == TotalRunup(a) + TotalRunup(b)
  {
    SumByAppend(a, b, Profit);
    SumByAppend(a, b, DrawDownPer);
    SumByAppend(a, b, RunUpPer);
  }

  /** Commission is charged once per trade. */
  function TotalCommissions(numTrades: nat, commission: real): (r: real)
    ensures numTrades == 0 ==> r == 0.0
    ensures commission >= 0.0 ==> r >= 0.0
  {
    var n := numTrades as real;
    assert commission >= 0.0 ==> n * commission >= 0.0 by {
      if commission >= 0.0 { MulNonNegative(n, commission); }
    }
    n * commission
  }

  /** One more trade costs one more commission. */
  lemma CommissionPerTrade(numTrades: nat, commission: real)
    ensures TotalCommissions(numTrades + 1, commission) == TotalCommissions(numTrades, commission) + commission
  {
    var n := numTrades as real;
    assert (n + 1.0) * commission == n * commission + commission;
  }

  /** Share of winning trades, in percent. */
  function TotalProfitableTrades(winningTrades: nat, totalTrades: nat): (r: real)
    requires totalTrades > 0
    ensures r >= 0.0
    ensures winningTrades <= totalTrades ==> r <= 100.0
    ensures r == 100.0 <==> winningTrades == totalTrades
    ensures r * totalTrades as real == winningTrades as real * 100.0
  {
    var w := winningTrades as real;
    var t := totalTrades as real;
    var q := w / t;
    assert q * t == w;
    assert q >= 0.0;
    assert Abs(q * 100.0) == q * 100.0;
    assert q * 100.0 * t == w * 100.0;
    Abs(w / t * 100.0)
  }

  /** Gross profit over gross loss, as a magnitude and scaled by 100. */
  function TotalProfitFactor(grossProfits: real, grossLoses: real): (r: real)
    requires grossLoses != 0.0
    ensures r >= 0.0
    ensures r * Abs(grossLoses) == Abs(grossProfits) * 100.0
  {
    var q := grossProfits / grossLoses;
    assert Abs(q) * Abs(grossLoses) == Abs(grossProfits) by {
      assert q * grossLoses == grossProfits;
    }
    Abs(q * 100.0)
  }
}
