/*
 * The scalping strategy (rs_algo_backtest/src/strategies/scalping.rs), written
 * against the version of the strategy trait whose hooks return an `Operation`.
 * A long entry arms three orders when the higher-timeframe EMAs point up and
 * the close dips under the fast EMA of a fanned-out EMA stack: a buy at a
 * trigger taken from the previous five candles, a sell target one risk away,
 * and a three-pip stop. The exit hook computes its condition and discards it.
 *
 * `prev` is what `get_prev_index` returns, `htf` the point of the
 * higher-timeframe instrument that `get_upper_timeframe_data` hands its
 * closure, `toPips` the foreign `to_pips` helper and `isLongOnly` the
 * strategy kind's `is_long_only`.
 */
module Scalping {
  import opened Shared
  import opened Backtest

  datatype ScalpOrder =
    | BuyOrder(openPrice: real, price: real)
    | SellOrder(openPrice: real, price: real)
    | StopLossOrder(stop: StopLossType)

  datatype Scalping = Scalping(name: string, strategyType: StrategyType)

  /** `new`: the `BACKTEST_ATR_STOP_LOSS` setting it parses is not used. */
  function New(): (s: Scalping)
    ensures s.name == "Scalping" && s.strategyType == OnlyLongMTF
  {
    Scalping("Scalping", OnlyLongMTF)
  }

  /** What the hooks read: five candles back, the next candle, the previous one
      and the EMA stack. */
  predicate HookReadable(inst: Instrument, index: nat, prev: nat) {
    5 <= index && index + 1 < |inst.data| && prev < |inst.data|
    && index < |inst.emaA.a| && prev < |inst.emaA.a|
    && index < |inst.emaB.a| && index < |inst.emaC.a|
  }

  predicate HtfReadable(h: HtfPoint) {
    h.idx < |h.inst.emaA.a| && h.prev < |h.inst.emaA.a|
    && h.idx < |h.inst.emaC.a| && h.prev < |h.inst.emaC.a|
  }

  /** The higher-timeframe test of `entry_long`: fast EMA over slow EMA, and the
      current close above the slow one. */
  predicate HtfEmasUp(h: HtfPoint, closePrice: real)
    requires HtfReadable(h)
  {
    h.inst.emaA.a[h.idx] > h.inst.emaC.a[h.idx] && closePrice > h.inst.emaC.a[h.idx]
  }

  predicate EntryCondition(inst: Instrument, index: nat, prev: nat, htf: HtfPoint)
    requires HookReadable(inst, index, prev) && HtfReadable(htf)
  {
    HtfEmasUp(htf, inst.data[index].close)
    && inst.data[index].close < inst.emaA.a[index]
    && inst.data[prev].close >= inst.emaA.a[prev]
    && inst.emaA.a[index] > inst.emaB.a[index]
    && inst.emaB.a[index] > inst.emaC.a[index]
  }

  /** The trigger price: long only, the close of the last candle with the
      highest high plus the margin; otherwise the close of the first candle with
      the lowest high minus the margin. */
  function TriggerPrice(window: seq<Candle>, longOnly: bool, margin: real): (t: real)
    requires |window| > 0
    ensures longOnly ==> exists k :: 0 <= k < |window| && t == window[k].close + margin
                                     && (forall i :: 0 <= i < |window| ==> window[i].high <= window[k].high)
                                     && (forall i :: k < i < |window| ==> window[i].high < window[k].high)
    ensures !longOnly ==> exists k :: 0 <= k < |window| && t == window[k].close - margin
                                      && (forall i :: 0 <= i < |window| ==> window[k].high <= window[i].high)
                                      && (forall i :: 0 <= i < k ==> window[k].high < window[i].high)
  {
    if longOnly then window[LastMaxHighIndex(window)].close + margin
    else window[FirstMinHighIndex(window)].close - margin
  }

  /** The sell target: the buy price (trigger plus or minus spread) moved by the
      risk once, the risk being measured from the current close. */
  function TargetPrice(trigger: real, spread: real, closePrice: real, margin: real, longOnly: bool): (p: real)
    ensures longOnly ==> p - (trigger + spread) == (trigger + spread) - closePrice - margin
    ensures !longOnly ==> (trigger - spread) - p == (trigger - spread) + closePrice + margin
  {
    var buyPrice := if longOnly then trigger + spread else trigger - spread;
    var risk := if longOnly then buyPrice - closePrice - margin else buyPrice + closePrice + margin;
    if longOnly then buyPrice + risk * 1.0 else buyPrice - risk * 1.0
  }

  function EntryLong(s: Scalping, inst: Instrument, index: nat, prev: nat, htf: HtfPoint, spread: real,
                     toPips: real -> real, isLongOnly: StrategyType -> bool): (r: Operation<ScalpOrder>)
    requires HookReadable(inst, index, prev) && HtfReadable(htf)
    ensures r.Order? || r.NoOperation?
    ensures r.Order? <==> EntryCondition(inst, index, prev, htf)
    ensures r.Order? ==>
      var longOnly := isLongOnly(s.strategyType);
      var trigger := TriggerPrice(inst.data[index - 5..index], longOnly, toPips(3.0));
      r.orders == [BuyOrder(inst.data[index + 1].close, trigger),
                   SellOrder(inst.data[index + 1].close,
                             TargetPrice(trigger, spread, inst.data[index].close, toPips(3.0), longOnly)),
                   StopLossOrder(Pips(3.0))]
  {
    var closePrice := inst.data[index].close;
    var htfEmas := HtfEmasUp(htf, closePrice);
    var nextIndex := index + 1;
    var openPrice := inst.data[nextIndex].close;
    var longOnly := isLongOnly(s.strategyType);
    var triggerPrice := TriggerPrice(inst.data[index - 5..index], longOnly, toPips(3.0));
    var pipsMargin := 3.0;
    var targetPrice := TargetPrice(triggerPrice, spread, closePrice, toPips(pipsMargin), longOnly);
    if EntryCondition(inst, index, prev, htf) then
      Order([BuyOrder(openPrice, triggerPrice), SellOrder(openPrice, targetPrice), StopLossOrder(Pips(pipsMargin))])
    else NoOperation
  }

  /** `exit_long` reads the same data (and panics where `entry_long` does) but
      answers "no operation" whatever its exit condition says. */
  function ExitLong(s: Scalping, inst: Instrument, index: nat, prev: nat, htf: HtfPoint, spread: real): (r: Operation<ScalpOrder>)
    requires HookReadable(inst, index, prev) && HtfReadable(htf)
    ensures r == NoOperation
  {
    NoOperation
  }

  /** `entry_short` delegates to `exit_long` for the long/short-capable kinds, so it never operates. */
  function EntryShort(s: Scalping, inst: Instrument, index: nat, prev: nat, htf: HtfPoint, spread: real): (r: Operation<ScalpOrder>)
    requires HookReadable(inst, index, prev) && HtfReadable(htf)
    ensures r == NoOperation
  {
    match s.strategyType
    case LongShort => ExitLong(s, inst, index, prev, htf, spread)
    case LongShortMTF => ExitLong(s, inst, index, prev, htf, spread)
    case OnlyShort => ExitLong(s, inst, index, prev, htf, spread)
    case _ => NoOperation
  }

  function ExitShort(s: Scalping, inst: Instrument, index: nat, prev: nat, htf: HtfPoint, spread: real,
                     toPips: real -> real, isLongOnly: StrategyType -> bool): (r: Operation<ScalpOrder>)
    requires HookReadable(inst, index, prev) && HtfReadable(htf)
    ensures DelegatesShort(s.strategyType) ==> r == EntryLong(s, inst, index, prev, htf, spread, toPips, isLongOnly)
    ensures !DelegatesShort(s.strategyType) ==> r == NoOperation
  {
    match s.strategyType
    case LongShort => EntryLong(s, inst, index, prev, htf, spread, toPips, isLongOnly)
    case LongShortMTF => EntryLong(s, inst, index, prev, htf, spread, toPips, isLongOnly)
    case OnlyShort => EntryLong(s, inst, index, prev, htf, spread, toPips, isLongOnly)
    case _ => NoOperation
  }

  /** The long-only trigger of the five candles before `index` is the close of
      one of them with the highest high, plus the margin. */
  lemma LongTriggerIsHighestClose(data: seq<Candle>, index: nat, margin: real)
    requires 5 <= index <= |data|
    ensures exists j :: index - 5 <= j < index
                        && TriggerPrice(data[index - 5..index], true, margin) == data[j].close + margin
                        && (forall i :: index - 5 <= i < index ==> data[i].high <= data[j].high)
  {
    var window := data[index - 5..index];
    var k := LastMaxHighIndex(window);
    assert TriggerPrice(window, true, margin) == window[k].close + margin;
    var j := index - 5 + k;
    assert data[j] == window[k];
    forall i | index - 5 <= i < index
      ensures data[i].high <= data[j].high
    {
      assert data[i] == window[i - (index - 5)];
    }
  }

  /** As constructed (long only, multi-timeframe) the short hooks never operate,
      and an armed long entry's buy order sits at the last highest-high candle's
      close plus three pips. */
  lemma ConstructedScalping(inst: Instrument, index: nat, prev: nat, htf: HtfPoint, spread: real,
                            toPips: real -> real, isLongOnly: StrategyType -> bool)
    requires HookReadable(inst, index, prev) && HtfReadable(htf)
    requires isLongOnly(OnlyLongMTF)
    ensures ExitShort(New(), inst, index, prev, htf, spread, toPips, isLongOnly) == NoOperation
    ensures var r := EntryLong(New(), inst, index, prev, htf, spread, toPips, isLongOnly);
      r.Order? ==> exists j :: index - 5 <= j < index
                              && r.orders[0].price == inst.data[j].close + toPips(3.0)
                              && (forall i :: index - 5 <= i < index ==> inst.data[i].high <= inst.data[j].high)
  {
    var r := EntryLong(New(), inst, index, prev, htf, spread, toPips, isLongOnly);
    if r.Order? {
      assert r.orders[0].price == TriggerPrice(inst.data[index - 5..index], true, toPips(3.0));
      LongTriggerIsHighestClose(inst.data, index, toPips(3.0));
    }
  }
}
