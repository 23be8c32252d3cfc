/*
 * The backtest driver (`Strategy::test`, `market_in_fn`, `market_out_fn` and
 * `there_are_funds` in rs_algo_backtest/src/strategies/strategy.rs).
 *
 * The driver walks the candles of one instrument. At every candle except the
 * first five and the last it first asks the strategy whether to close the open
 * position, then, when flat and while the closed trades have not lost 90%,
 * whether to open one. The strategy is a value `S` threaded through its hooks
 * (the source's `&mut self`); the hooks, the order conversion and the trade
 * resolution helpers are the fields of `Hooks`. `Run` is the specification of
 * the loop and `Test` the loop itself.
 */
module Backtest {
  import opened Shared
  import Calc

  /** What a strategy hook asks for (`Operation`). `OT` is the order specification type. */
  datatype Operation<OT> =
    | NoOperation
    | MarketIn(inOrders: Option<seq<OT>>)
    | MarketOut(outOrders: Option<seq<OT>>)
    | Order(orders: seq<OT>)

  /** What the trade resolution helpers report (`TradeResult`). */
  datatype TradeResult = TradeInResult(tradeIn: TradeIn) | TradeOutResult(tradeOut: TradeOut) | NoTrade

  /** What `market_in_fn` and `market_out_fn` report (`OperationResult`). `O` is the converted order type. */
  datatype OperationResult<O> =
    | MarketInResult(inTrade: TradeResult, convertedOrders: Option<seq<O>>)
    | MarketOutResult(outTrade: TradeResult)
    | OrderResult(newOrders: seq<O>)
    | NoResult

  /** The strategy's hooks and the helpers the driver calls, all for one instrument. */
  datatype Hooks<!S, !OT, O> = Hooks(
    strategyType: S -> StrategyType,
    isLongOnly: StrategyType -> bool,
    entryLong: (S, nat) -> (S, Operation<OT>),
    exitLong: (S, nat) -> (S, Operation<OT>),
    convertOrders: (nat, seq<OT>) -> seq<O>,
    resolveTradeIn: (nat, TradeType) -> TradeResult,
    resolveTradeOut: (nat, TradeIn, TradeType) -> TradeResult)

  function ProfitPer(t: TradeOut): real { t.profitPer }

  /** Trading goes on while the summed percentage profit of the closed trades is above -90. */
  predicate ThereAreFunds(tradesOut: seq<TradeOut>) {
    Calc.SumBy(tradesOut, ProfitPer) > -90.0
  }

  lemma NoTradesHaveFunds()
    ensures ThereAreFunds([])
  {
  }

  /** A closed trade that did not lose keeps the account funded. */
  lemma WinningTradeKeepsFunds(tradesOut: seq<TradeOut>, t: TradeOut)
    requires ThereAreFunds(tradesOut) && t.profitPer >= 0.0
    ensures ThereAreFunds(tradesOut + [t])
  {
    Calc.SumByAppend(tradesOut, [t], ProfitPer);
    assert [t][..0] == [];
  }

  /** With only non-losing trades the account is always funded. */
  lemma NonLosingTradesHaveFunds(tradesOut: seq<TradeOut>)
    requires forall i :: 0 <= i < |tradesOut| ==> tradesOut[i].profitPer >= 0.0
    ensures ThereAreFunds(tradesOut)
  {
    Calc.SumByNonNegative(tradesOut, ProfitPer);
  }

  function EntryType<S, OT, O>(h: Hooks<S, OT, O>, s: S): (t: TradeType)
    ensures t == EntryLong || t == EntryShort
    ensures t == EntryLong <==> h.isLongOnly(h.strategyType(s))
  {
    if h.isLongOnly(h.strategyType(s)) then EntryLong else EntryShort
  }

  function ExitType<S, OT, O>(h: Hooks<S, OT, O>, s: S): (t: TradeType)
    ensures t == ExitLong || t == ExitShort
    ensures t == ExitLong <==> EntryType(h, s) == EntryLong
  {
    if h.isLongOnly(h.strategyType(s)) then ExitLong else ExitShort
  }

  /** `market_in_fn`: ask `entry_long`; a market entry is resolved into a trade
      (its orders converted), an order request is converted, anything else is nothing. */
  function MarketInFn<S, OT, O>(h: Hooks<S, OT, O>, s: S, index: nat): (r: (S, OperationResult<O>))
    ensures r.0 == h.entryLong(s, index).0
    ensures var op := h.entryLong(s, index).1;
      && (r.1.MarketInResult? <==> op.MarketIn?)
      && (r.1.OrderResult? <==> op.Order?)
      && (r.1.NoResult? <==> op.NoOperation? || op.MarketOut?)
      && (op.MarketIn? ==> r.1.inTrade == h.resolveTradeIn(index, EntryType(h, s))
                           && (r.1.convertedOrders.Some? <==> op.inOrders.Some?)
                           && (op.inOrders.Some? ==> r.1.convertedOrders.value == h.convertOrders(index, op.inOrders.value)))
      && (op.Order? ==> r.1.newOrders == h.convertOrders(index, op.orders))
  {
    var entryType := EntryType(h, s);
    var (s1, op) := h.entryLong(s, index);
    match op
    case MarketIn(orderTypes) =>
      var orders := if orderTypes.Some? then Some(h.convertOrders(index, orderTypes.value)) else None;
      (s1, MarketInResult(h.resolveTradeIn(index, entryType), orders))
    case Order(orderTypes) =>
      (s1, OrderResult(h.convertOrders(index, orderTypes)))
    case _ => (s1, NoResult)
  }

  /** `market_out_fn`: ask `exit_long`; a market exit resolves the open trade `tradeIn`. */
  function MarketOutFn<S, OT, O>(h: Hooks<S, OT, O>, s: S, index: nat, tradeIn: TradeIn): (r: (S, OperationResult<O>))
    ensures r.0 == h.exitLong(s, index).0
    ensures var op := h.exitLong(s, index).1;
      && (r.1.MarketOutResult? <==> op.MarketOut?)
      && (r.1.OrderResult? <==> op.Order?)
      && (r.1.NoResult? <==> op.NoOperation? || op.MarketIn?)
      && (op.MarketOut? ==> r.1.outTrade == h.resolveTradeOut(index, tradeIn, ExitType(h, s)))
      && (op.Order? ==> r.1.newOrders == h.convertOrders(index, op.orders))
  {
    var exitType := ExitType(h, s);
    var (s1, op) := h.exitLong(s, index);
    match op
    case MarketOut(_) => (s1, MarketOutResult(h.resolveTradeOut(index, tradeIn, exitType)))
    case Order(orderTypes) => (s1, OrderResult(h.convertOrders(index, orderTypes)))
    case _ => (s1, NoResult)
  }

  /** The driver's variables. */
  datatype State<S, O> = State(
    strategy: S,
    tradesIn: seq<TradeIn>,
    tradesOut: seq<TradeOut>,
    activeOrders: seq<O>,
    openPositions: bool)

  function Initial<S, O>(s: S): State<S, O> {
    State(s, [], [], [], false)
  }

  /** Every opened trade is closed, except the one open position if there is one. */
  predicate Balanced<S, O>(st: State<S, O>) {
    |st.tradesIn| == |st.tradesOut| + (if st.openPositions then 1 else 0)
  }

  ghost predicate IsPrefix<T>(a: seq<T>, b: seq<T>) {
    |a| <= |b| && b[..|a|] == a
  }

  /** The exit half of one candle: with a position open, ask to close the last opened trade. */
  function ExitPhase<S, OT, O>(h: Hooks<S, OT, O>, st: State<S, O>, index: nat): (r: State<S, O>)
    requires Balanced(st)
    ensures Balanced(r)
    ensures !st.openPositions ==> r == st
    ensures r.tradesIn == st.tradesIn
    ensures IsPrefix(st.activeOrders, r.activeOrders)
    ensures r.tradesOut == st.tradesOut || (st.openPositions && !r.openPositions &&
      (var closed := h.resolveTradeOut(index, st.tradesIn[|st.tradesIn| - 1], ExitType(h, st.strategy));
       closed.TradeOutResult? && r.tradesOut == st.tradesOut + [closed.tradeOut]))
    ensures r.openPositions != st.openPositions ==> r.tradesOut != st.tradesOut
    ensures st.openPositions ==> r.strategy == h.exitLong(st.strategy, index).0
    ensures var op := h.exitLong(st.strategy, index).1;
      st.openPositions ==>
        var closed := h.resolveTradeOut(index, st.tradesIn[|st.tradesIn| - 1], ExitType(h, st.strategy));
        && (!r.openPositions <==> op.MarketOut? && closed.TradeOutResult?)
        && (op.MarketOut? && closed.TradeOutResult? ==> r.tradesOut == st.tradesOut + [closed.tradeOut])
    ensures var op := h.exitLong(st.strategy, index).1;
      r.activeOrders == if st.openPositions && op.Order? then st.activeOrders + h.convertOrders(index, op.orders)
                        else st.activeOrders
  {
    if !st.openPositions then st
    else
      var (s1, res) := MarketOutFn(h, st.strategy, index, st.tradesIn[|st.tradesIn| - 1]);
      match res
      case MarketOutResult(TradeOutResult(tradeOut)) =>
        st.(strategy := s1, tradesOut := st.tradesOut + [tradeOut], openPositions := false)
      case OrderResult(orders) =>
        st.(strategy := s1, activeOrders := st.activeOrders + orders)
      case _ => st.(strategy := s1)
  }

  /** The entry half of one candle: when flat and funded, ask to open a trade. */
  function EntryPhase<S, OT, O>(h: Hooks<S, OT, O>, st: State<S, O>, index: nat): (r: State<S, O>)
    requires Balanced(st)
    ensures Balanced(r)
    ensures st.openPositions || !ThereAreFunds(st.tradesOut) ==> r == st
    ensures r.tradesOut == st.tradesOut
    ensures IsPrefix(st.activeOrders, r.activeOrders)
    ensures r.tradesIn == st.tradesIn || (!st.openPositions && r.openPositions &&
      (var entered := h.resolveTradeIn(index, EntryType(h, st.strategy));
       entered.TradeInResult? && r.tradesIn == st.tradesIn + [entered.tradeIn]))
    ensures r.openPositions != st.openPositions ==> r.tradesIn != st.tradesIn
    ensures !st.openPositions && ThereAreFunds(st.tradesOut) ==> r.strategy == h.entryLong(st.strategy, index).0
    ensures var op := h.entryLong(st.strategy, index).1;
      var entered := h.resolveTradeIn(index, EntryType(h, st.strategy));
      !st.openPositions && ThereAreFunds(st.tradesOut) ==>
        && (r.openPositions <==> op.MarketIn? && entered.TradeInResult?)
        && (op.MarketIn? && entered.TradeInResult? ==> r.tradesIn == st.tradesIn + [entered.tradeIn])
    ensures var op := h.entryLong(st.strategy, index).1;
      var entered := h.resolveTradeIn(index, EntryType(h, st.strategy));
      r.activeOrders ==
        if st.openPositions || !ThereAreFunds(st.tradesOut) then st.activeOrders
        else if op.Order? then st.activeOrders + h.convertOrders(index, op.orders)
        else if op.MarketIn? && entered.TradeInResult? && op.inOrders.Some?
        then st.activeOrders + h.convertOrders(index, op.inOrders.value)
        else st.activeOrders
  {
    if st.openPositions || !ThereAreFunds(st.tradesOut) then st
    else
      var (s1, res) := MarketInFn(h, st.strategy, index);
      match res
      case MarketInResult(TradeInResult(tradeIn), orders) =>
        st.(strategy := s1, tradesIn := st.tradesIn + [tradeIn], openPositions := true,
            activeOrders := if orders.Some? then st.activeOrders + orders.value else st.activeOrders)
      case OrderResult(orders) =>
        st.(strategy := s1, activeOrders := st.activeOrders + orders)
      case _ => st.(strategy := s1)
  }

  /** One candle of the loop body: the exit phase, then the entry phase on its result. */
  function Step<S, OT, O>(h: Hooks<S, OT, O>, st: State<S, O>, index: nat): (r: State<S, O>)
    requires Balanced(st)
    ensures Balanced(r)
    ensures IsPrefix(st.tradesIn, r.tradesIn) && |r.tradesIn| <= |st.tradesIn| + 1
    ensures IsPrefix(st.tradesOut, r.tradesOut) && |r.tradesOut| <= |st.tradesOut| + 1
    ensures IsPrefix(st.activeOrders, r.activeOrders)
    ensures |r.tradesIn| > |st.tradesIn| ==> r.openPositions && ThereAreFunds(ExitPhase(h, st, index).tradesOut)
  {
    var mid := ExitPhase(h, st, index);
    assert IsPrefix(st.activeOrders, mid.activeOrders);
    var r := EntryPhase(h, mid, index);
    assert r.activeOrders[..|st.activeOrders|] == mid.activeOrders[..|st.activeOrders|];
    r
  }

  /** Whether the loop body runs at `index`: not for the first five candles and not for the last. */
  predicate Active(index: nat, len: nat) {
    index + 1 < len && index >= 5
  }

  /** The loop from `index` to the end of `len` candles. */
  function Run<S, OT, O>(h: Hooks<S, OT, O>, st: State<S, O>, index: nat, len: nat): (r: State<S, O>)
    requires Balanced(st)
    ensures Balanced(r)
    decreases len - index
  {
    if index >= len then st
    else Run(h, if Active(index, len) then Step(h, st, index) else st, index + 1, len)
  }

  /** The same loop with every candle in `lo..hi` active. */
  function Steps<S, OT, O>(h: Hooks<S, OT, O>, st: State<S, O>, lo: nat, hi: nat): (r: State<S, O>)
    requires Balanced(st)
    ensures Balanced(r)
    decreases hi - lo
  {
    if lo >= hi then st else Steps(h, Step(h, st, lo), lo + 1, hi)
  }

  lemma {:induction false} RunSkipsInactive<S, OT, O>(h: Hooks<S, OT, O>, st: State<S, O>, index: nat, len: nat)
    requires Balanced(st)
    requires index >= 5
    ensures Run(h, st, index, len) == (if len == 0 then st else Steps(h, st, index, len - 1))
    decreases len - index
  {
    if index < len {
      if Active(index, len) {
        RunSkipsInactive(h, Step(h, st, index), index + 1, len);
      } else {
        RunSkipsInactive(h, st, index + 1, len);
      }
    }
  }

  lemma {:induction false} RunFromWarmUp<S, OT, O>(h: Hooks<S, OT, O>, st: State<S, O>, index: nat, len: nat)
    requires Balanced(st) && index <= 5
    ensures Run(h, st, index, len) == (if len == 0 then st else Steps(h, st, 5, len - 1))
    decreases 5 - index
  {
    if index == 5 {
      RunSkipsInactive(h, st, index, len);
    } else if index < len {
      RunFromWarmUp(h, st, index + 1, len);
    }
  }

  /** The backtest trades exactly on the candles 5 .. len - 2. */
  lemma BacktestTradesFromSixthToPenultimate<S, OT, O>(h: Hooks<S, OT, O>, s: S, len: nat)
    requires len > 0
    ensures Run(h, Initial<S, O>(s), 0, len) == Steps(h, Initial<S, O>(s), 5, len - 1)
  {
    RunFromWarmUp(h, Initial<S, O>(s), 0, len);
  }

  /** Orders are only ever appended; trades are never removed. */
  lemma {:induction false} RunOnlyAppends<S, OT, O>(h: Hooks<S, OT, O>, st: State<S, O>, index: nat, len: nat)
    requires Balanced(st)
    ensures var r := Run(h, st, index, len);
      IsPrefix(st.activeOrders, r.activeOrders) && IsPrefix(st.tradesIn, r.tradesIn) && IsPrefix(st.tradesOut, r.tradesOut)
    decreases len - index
  {
    if index < len {
      var next := if Active(index, len) then Step(h, st, index) else st;
      RunOnlyAppends(h, next, index + 1, len);
      var r := Run(h, st, index, len);
      PrefixTransitive(st.activeOrders, next.activeOrders, r.activeOrders);
      PrefixTransitive(st.tradesIn, next.tradesIn, r.tradesIn);
      PrefixTransitive(st.tradesOut, next.tradesOut, r.tradesOut);
    }
  }

  lemma PrefixTransitive<T>(a: seq<T>, b: seq<T>, c: seq<T>)
    requires IsPrefix(a, b) && IsPrefix(b, c)
    ensures IsPrefix(a, c)
  {
    assert c[..|a|] == c[..|b|][..|a|];
  }

  /** Once flat with the closed trades down by 90% or more, the backtest opens no trade again. */
  lemma {:induction false} NoFundsNoMoreTrades<S, OT, O>(h: Hooks<S, OT, O>, st: State<S, O>, index: nat, len: nat)
    requires Balanced(st) && !st.openPositions && !ThereAreFunds(st.tradesOut)
    ensures Run(h, st, index, len).tradesIn == st.tradesIn
    ensures Run(h, st, index, len).tradesOut == st.tradesOut
    decreases len - index
  {
    if index < len {
      var next := if Active(index, len) then Step(h, st, index) else st;
      assert next == st;
      NoFundsNoMoreTrades(h, next, index + 1, len);
    }
  }

  /** The exit half of the loop body on the driver's variables. */
  method ExitStep<S, OT, O>(h: Hooks<S, OT, O>, index: nat, strategy: S, tradesIn: seq<TradeIn>,
                            tradesOut: seq<TradeOut>, activeOrders: seq<O>, openPositions: bool)
    returns (strategy': S, tradesOut': seq<TradeOut>, activeOrders': seq<O>, openPositions': bool)
    requires Balanced(State(strategy, tradesIn, tradesOut, activeOrders, openPositions))
    ensures State(strategy', tradesIn, tradesOut', activeOrders', openPositions')
         == ExitPhase(h, State(strategy, tradesIn, tradesOut, activeOrders, openPositions), index)
  {
    strategy', tradesOut', activeOrders', openPositions' := strategy, tradesOut, activeOrders, openPositions;
    if openPositions {
      var tradeIn := tradesIn[|tradesIn| - 1];
      var outcome := MarketOutFn(h, strategy, index, tradeIn);
      strategy' := outcome.0;
      match outcome.1 {
        case MarketOutResult(TradeOutResult(tradeOut)) =>
          tradesOut' := tradesOut + [tradeOut];
          openPositions' := false;
        case OrderResult(orders) =>
          activeOrders' := activeOrders + orders;
        case _ =>
      }
    }
  }

  /** The entry half of the loop body on the driver's variables. */
  method EntryStep<S, OT, O>(h: Hooks<S, OT, O>, index: nat, strategy: S, tradesIn: seq<TradeIn>,
                             tradesOut: seq<TradeOut>, activeOrders: seq<O>, openPositions: bool)
    returns (strategy': S, tradesIn': seq<TradeIn>, activeOrders': seq<O>, openPositions': bool)
    requires Balanced(State(strategy, tradesIn, tradesOut, activeOrders, openPositions))
    ensures State(strategy', tradesIn', tradesOut, activeOrders', openPositions')
         == EntryPhase(h, State(strategy, tradesIn, tradesOut, activeOrders, openPositions), index)
  {
    strategy', tradesIn', activeOrders', openPositions' := strategy, tradesIn, activeOrders, openPositions;
    if !openPositions && ThereAreFunds(tradesOut) {
      var outcome := MarketInFn(h, strategy, index);
      strategy' := outcome.0;
      match outcome.1 {
        case MarketInResult(TradeInResult(tradeIn), orders) =>
          openPositions' := true;
          tradesIn' := tradesIn + [tradeIn];
          match orders {
            case Some(os) => activeOrders' := activeOrders + os;
            case None =>
          }
        case OrderResult(orders) =>
          activeOrders' := activeOrders + orders;
        case _ =>
      }
    }
  }

  /** `Strategy::test` without the final report: the trades opened and closed
      and the orders armed over the candles of `data`. */
  method Test<S, OT, O>(h: Hooks<S, OT, O>, s: S, data: seq<Candle>)
    returns (tradesIn: seq<TradeIn>, tradesOut: seq<TradeOut>, activeOrders: seq<O>)
    ensures var fin := Run(h, Initial<S, O>(s), 0, |data|);
      tradesIn == fin.tradesIn && tradesOut == fin.tradesOut && activeOrders == fin.activeOrders
  {
    tradesIn, tradesOut, activeOrders := [], [], [];
    var openPositions := false;
    var strategy := s;
    var len := |data|;
    var index := 0;
    while index < len
      invariant index <= len
      invariant Balanced(State(strategy, tradesIn, tradesOut, activeOrders, openPositions))
      invariant Run(h, State(strategy, tradesIn, tradesOut, activeOrders, openPositions), index, len)
             == Run(h, Initial<S, O>(s), 0, len)
    {
      if index < len - 1 && index >= 5 {
        strategy, tradesOut, activeOrders, openPositions :=
          ExitStep(h, index, strategy, tradesIn, tradesOut, activeOrders, openPositions);
        strategy, tradesIn, activeOrders, openPositions :=
          EntryStep(h, index, strategy, tradesIn, tradesOut, activeOrders, openPositions);
      }
      index := index + 1;
    }
  }
}
