/**
 * The paper execution engine (plasmatrader_core/paper_trader.py): slippage,
 * execution price, commission, the per-symbol position transition, the trade
 * log and the high-water-mark/drawdown bookkeeping.
 *
 * execute_order works on a deep copy of the caller's ledger; here the ledger is
 * a value, so the caller's state is untouched by construction. ExecuteOrder
 * replays the source's step-by-step updates of that copy and is proved equal to
 * the specification function Execute, about which the lemmas below speak.
 */
module PaperTrader {
  import opened Numerics
  import opened CoreEngine

  const TakerFee: real := 0.0004
  const SlippageFactor: real := 0.1

  datatype Order = Order(timestamp: Timestamp, symbol: string, side: OrderSide, size: real, orderType: string)

  const MarketOrder := "MARKET"

  /** Slippage in price units. The fallback for an empty top level scales the
      spread in basis points, not in price units, as the source does. */
  function Slippage(orderSize: real, md: MarketData): (slip: real)
    ensures md.spread <= 0.0 || md.top5Asks == [] ==> slip == 0.0
    ensures md.spread > 0.0 && md.top5Asks != [] && md.top5Asks[0].qty == 0.0 ==> slip == md.spread * SlippageFactor
    ensures md.spread > 0.0 && md.top5Asks != [] && md.top5Asks[0].qty > 0.0 && orderSize > 0.0 && md.ask >= md.bid ==>
      0.0 <= slip <= (md.ask - md.bid) * SlippageFactor
    // an order at least as large as the top level pays the full slippage
    ensures md.spread > 0.0 && md.top5Asks != [] && 0.0 < md.top5Asks[0].qty <= orderSize ==>
      slip == (md.ask - md.bid) * SlippageFactor
  {
    if md.spread <= 0.0 || md.top5Asks == [] then 0.0
    else
      var topLevelQty := md.top5Asks[0].qty;
      if topLevelQty == 0.0 then md.spread * SlippageFactor
      else
        var sizeRatio := SizeRatio(orderSize, topLevelQty);
        SlippageWithinSpread(md.ask - md.bid, sizeRatio);
        (md.ask - md.bid) * SlippageFactor * sizeRatio
  }

  /** The share of the top ask level the order consumes, capped at all of it. */
  function SizeRatio(orderSize: real, topLevelQty: real): (r: real)
    requires topLevelQty != 0.0
    ensures r <= 1.0
    ensures orderSize > 0.0 && topLevelQty > 0.0 ==> r > 0.0
    ensures 0.0 < topLevelQty <= orderSize ==> r == 1.0
  {
    if orderSize > 0.0 && topLevelQty > 0.0 then
      QuotientAbove(orderSize, topLevelQty, 0.0);
      Min(orderSize / topLevelQty, 1.0)
    else Min(orderSize / topLevelQty, 1.0)
  }

  /** A share between 0 and 1 of the spread slippage is at most all of it. */
  lemma SlippageWithinSpread(spreadPrice: real, ratio: real)
    ensures spreadPrice >= 0.0 && 0.0 <= ratio <= 1.0 ==>
      0.0 <= spreadPrice * SlippageFactor * ratio <= spreadPrice * SlippageFactor
  {
    if spreadPrice >= 0.0 && 0.0 <= ratio <= 1.0 {
      FractionOf(spreadPrice * SlippageFactor, ratio);
    }
  }

  /** Buyers lift the ask, sellers hit the bid, each moved against them by the slippage. */
  function ExecPrice(side: OrderSide, size: real, md: MarketData): real
  {
    if side == Buy then md.ask + Slippage(size, md) else md.bid - Slippage(size, md)
  }

  function Commission(size: real, price: real): real
  {
    size * price * TakerFee
  }

  function SideFor(side: OrderSide): PositionSide
  {
    if side == Buy then Long else Short
  }

  predicate IsSameSide(pos: PositionSide, side: OrderSide)
  {
    (pos == Long && side == Buy) || (pos == Short && side == Sell)
  }

  /** Realized profit of closing `size` units of a position opened at `entry` at price `exit`. */
  function RealizedPnl(side: PositionSide, size: real, entry: real, exit: real): real
  {
    var entryCost := size * entry;
    var exitCost := size * exit;
    if side == Long then exitCost - entryCost else entryCost - exitCost
  }

  /** A buy fills at or above the ask and a sell at or below the bid whenever
      the slippage is non-negative, which it is on an uncrossed book. */
  lemma ExecPriceNoBetterThanQuote(side: OrderSide, size: real, md: MarketData)
    requires Slippage(size, md) >= 0.0
    ensures side == Buy ==> ExecPrice(side, size, md) >= md.ask
    ensures side == Sell ==> ExecPrice(side, size, md) <= md.bid
  {
  }

  /** The taker fee is a fixed share of the notional: never negative, and
      splitting a fill into two parts costs the same commission. */
  lemma CommissionProportional(s1: real, s2: real, price: real)
    ensures s1 >= 0.0 && price >= 0.0 ==> Commission(s1, price) >= 0.0
    ensures Commission(s1 + s2, price) == Commission(s1, price) + Commission(s2, price)
  {
    if s1 >= 0.0 && price >= 0.0 {
      assert s1 * price >= 0.0;
    }
  }

  /** Closing at the entry price realizes nothing; a favorable move (up for a
      long, down for a short) realizes a non-negative profit, and the two sides
      realize opposite amounts for the same prices. */
  lemma RealizedPnlSign(side: PositionSide, size: real, entry: real, exit: real)
    ensures exit == entry ==> RealizedPnl(side, size, entry, exit) == 0.0
    ensures size >= 0.0 && side == Long && exit >= entry ==> RealizedPnl(side, size, entry, exit) >= 0.0
    ensures size >= 0.0 && side == Short && exit <= entry ==> RealizedPnl(side, size, entry, exit) >= 0.0
    ensures RealizedPnl(Short, size, entry, exit) == -RealizedPnl(Long, size, entry, exit)
  {
    if size >= 0.0 && exit >= entry {
      assert size * exit >= size * entry;
    }
    if size >= 0.0 && exit <= entry {
      assert size * exit <= size * entry;
    }
  }

  /** Every open position has a strictly positive size. */
  predicate PositionsOpen(s: TradingState)
  {
    forall sym :: sym in s.positions ==> s.positions[sym].size > 0.0
  }

  /** The ledger invariant: open positions are positive and filed under their own symbol. */
  predicate Valid(s: TradingState)
  {
    forall sym :: sym in s.positions ==> s.positions[sym].size > 0.0 && s.positions[sym].symbol == sym
  }

  /** _update_risk_metrics: raise the high-water mark to the balance and
      recompute the drawdown from it. */
  function UpdateRiskMetrics(s: TradingState): (r: TradingState)
    ensures r == s.(riskMetrics := r.riskMetrics)
    ensures r.riskMetrics.highWaterMark == Max(s.riskMetrics.highWaterMark, s.walletBalance)
  {
    var newHwm := Max(s.riskMetrics.highWaterMark, s.walletBalance);
    var drawdown := if newHwm > 0.0 then (newHwm - s.walletBalance) / newHwm else 0.0;
    s.(riskMetrics := RiskMetrics(newHwm, drawdown))
  }

  /** The bookkeeping _update_risk_metrics leaves behind for a balance. */
  predicate DrawdownConsistent(m: RiskMetrics, balance: real)
  {
    && m.highWaterMark >= balance
    && (m.highWaterMark > 0.0 ==> m.currentDrawdown * m.highWaterMark == m.highWaterMark - balance)
    && (m.highWaterMark <= 0.0 ==> m.currentDrawdown == 0.0)
    && 0.0 <= m.currentDrawdown
    && (balance >= 0.0 ==> m.currentDrawdown <= 1.0)
  }

  /** The recomputed drawdown is the balance's relative gap below the new
      high-water mark: zero without a positive mark, never negative, and at
      most one while the balance is non-negative. */
  lemma DrawdownAfterUpdate(s: TradingState)
    ensures DrawdownConsistent(UpdateRiskMetrics(s).riskMetrics, s.walletBalance)
  {
    var h, b := Max(s.riskMetrics.highWaterMark, s.walletBalance), s.walletBalance;
    if h > 0.0 {
      assert UpdateRiskMetrics(s).riskMetrics.currentDrawdown == (h - b) / h;
      DivideThenMultiply(h - b, h);
      if b >= 0.0 {
        QuotientBetween(h - b, h, 0.0, 1.0);
      }
    }
  }

  /** Log the fill, stamp the ledger and recompute the risk metrics. */
  function Record(s: TradingState, trade: Trade, now: Timestamp): TradingState
  {
    UpdateRiskMetrics(s.(trades := s.trades + [trade], timestamp := now))
  }

  /** No position yet: open one on the order's side at the fill price and pay
      the notional plus commission. */
  function OpenLeg(order: Order, state: TradingState, px: real): TradingState
  {
    state.(positions := state.positions[order.symbol := Position(order.symbol, SideFor(order.side), order.size, px)],
           walletBalance := state.walletBalance - (order.size * px + Commission(order.size, px)))
  }

  /** The size-weighted average of a position's entry and a fill; for positive
      sizes it lies between the two prices and carries the combined cost. */
  function WeightedEntry(pos: Position, size: real, px: real): (e: real)
    requires pos.size + size != 0.0
    ensures pos.size > 0.0 && size > 0.0 ==> Min(pos.entryPrice, px) <= e <= Max(pos.entryPrice, px)
    ensures e * (pos.size + size) == pos.entryPrice * pos.size + px * size
  {
    var e := (pos.entryPrice * pos.size + px * size) / (pos.size + size);
    DivideThenMultiply(pos.entryPrice * pos.size + px * size, pos.size + size);
    if pos.size > 0.0 && size > 0.0 then
      WeightedMeanBetween(pos.entryPrice, pos.size, px, size, e);
      e
    else e
  }

  /** Same side: grow the position to the size-weighted average entry and pay
      the notional plus commission. */
  function AverageInLeg(order: Order, state: TradingState, px: real): TradingState
    requires order.symbol in state.positions && state.positions[order.symbol].size + order.size != 0.0
  {
    var pos := state.positions[order.symbol];
    state.(positions := state.positions[order.symbol := pos.(size := pos.size + order.size, entryPrice := WeightedEntry(pos, order.size, px))],
           walletBalance := state.walletBalance - (order.size * px + Commission(order.size, px)))
  }

  /** Opposite side, at least the position's size: delete the position, credit
      its profit less the commission on the whole order, book the profit. */
  function CloseLeg(order: Order, state: TradingState, px: real): TradingState
    requires order.symbol in state.positions
  {
    var pos := state.positions[order.symbol];
    var pnl := RealizedPnl(pos.side, pos.size, pos.entryPrice, px);
    state.(walletBalance := state.walletBalance + (pnl - Commission(order.size, px)),
           totalPnl := state.totalPnl + pnl,
           positions := state.positions - {order.symbol})
  }

  /** Opposite side, smaller than the position: shrink it and realize the
      closed part's profit less commission. */
  function ReduceLeg(order: Order, state: TradingState, px: real): TradingState
    requires order.symbol in state.positions
  {
    var pos := state.positions[order.symbol];
    var pnl := RealizedPnl(pos.side, order.size, pos.entryPrice, px);
    state.(positions := state.positions[order.symbol := pos.(size := pos.size - order.size)],
           walletBalance := state.walletBalance + (pnl - Commission(order.size, px)),
           totalPnl := state.totalPnl + pnl)
  }

  /** The ledger after one leg's position transition, before the fill is logged. */
  function Transition(order: Order, state: TradingState, px: real): TradingState
    requires order.size > 0.0 && PositionsOpen(state)
  {
    if order.symbol !in state.positions then OpenLeg(order, state, px)
    else
      var pos := state.positions[order.symbol];
      if IsSameSide(pos.side, order.side) then AverageInLeg(order, state, px)
      else if order.size >= pos.size then CloseLeg(order, state, px)
      else ReduceLeg(order, state, px)
  }

  /** The profit a leg realizes: none when it opens or adds, the closed part's otherwise. */
  function LegPnl(order: Order, state: TradingState, px: real): real
  {
    if order.symbol !in state.positions then 0.0
    else
      var pos := state.positions[order.symbol];
      if IsSameSide(pos.side, order.side) then 0.0
      else RealizedPnl(pos.side, Min(order.size, pos.size), pos.entryPrice, px)
  }

  /** An opposite-side order larger than the open position. */
  predicate Oversized(order: Order, state: TradingState)
  {
    order.symbol in state.positions &&
    !IsSameSide(state.positions[order.symbol].side, order.side) &&
    order.size > state.positions[order.symbol].size
  }

  /** The order re-issued for what is left after closing the position. */
  function Residual(order: Order, state: TradingState): Order
    requires order.symbol in state.positions
  {
    Order(order.timestamp, order.symbol, order.side, order.size - state.positions[order.symbol].size, MarketOrder)
  }

  /** One leg at the execution price for the order's own size, logged, with
      the risk metrics recomputed. */
  function Leg(order: Order, state: TradingState, md: MarketData, now: Timestamp): (r: TradingState)
    requires order.size > 0.0 && PositionsOpen(state)
    ensures PositionsOpen(r)
  {
    var px := ExecPrice(order.side, order.size, md);
    Record(Transition(order, state, px),
           Trade(now, order.symbol, order.side, px, order.size, LegPnl(order, state, px), Commission(order.size, px)), now)
  }

  /** execute_order. An oversized close deletes the position, so the residual's
      re-execution opens a fresh one and recurses no further: the closing leg
      is applied without a log entry, then the residual's leg is logged. */
  function Execute(order: Order, state: TradingState, md: MarketData, now: Timestamp): (r: TradingState)
    requires order.size > 0.0 && PositionsOpen(state)
    ensures PositionsOpen(r)
  {
    if Oversized(order, state) then
      Leg(Residual(order, state), CloseLeg(order, state, ExecPrice(order.side, order.size, md)), md, now)
    else Leg(order, state, md, now)
  }

  /** execute_order as the source writes it: successive updates of a private
      copy of the ledger, with one recursive re-execution of a residual. */
  method ExecuteOrder(order: Order, state: TradingState, md: MarketData, now: Timestamp) returns (finalState: TradingState)
    requires order.size > 0.0 && PositionsOpen(state)
    ensures finalState == Execute(order, state, md, now)
    decreases if order.symbol in state.positions then 1 else 0
  {
    var newState := state;
    var slippage := Slippage(order.size, md);
    var execPrice := if order.side == Buy then md.ask + slippage else md.bid - slippage;
    var orderCost := order.size * execPrice;
    var commission := Commission(order.size, execPrice);
    var pnl := 0.0;
    assert execPrice == ExecPrice(order.side, order.size, md);

    if order.symbol !in newState.positions {
      var newPos := Position(order.symbol, SideFor(order.side), order.size, execPrice);
      newState := newState.(positions := newState.positions[order.symbol := newPos]);
      newState := newState.(walletBalance := newState.walletBalance - (orderCost + commission));
      assert Transition(order, state, execPrice) == OpenLeg(order, state, execPrice);
      assert newState == Transition(order, state, execPrice);
    } else {
      var existingPos := newState.positions[order.symbol];
      if IsSameSide(existingPos.side, order.side) {
        var newTotalSize := existingPos.size + order.size;
        var newEntryPrice := WeightedEntry(existingPos, order.size, execPrice);
        existingPos := existingPos.(size := newTotalSize, entryPrice := newEntryPrice);
        newState := newState.(positions := newState.positions[order.symbol := existingPos]);
        newState := newState.(walletBalance := newState.walletBalance - (orderCost + commission));
        assert Transition(order, state, execPrice) == AverageInLeg(order, state, execPrice);
        assert newState == Transition(order, state, execPrice);
      } else if order.size >= existingPos.size {
        var closedSize := existingPos.size;
        pnl := RealizedPnl(existingPos.side, closedSize, existingPos.entryPrice, execPrice);
        newState := newState.(walletBalance := newState.walletBalance + (pnl - commission));
        newState := newState.(totalPnl := newState.totalPnl + pnl);
        newState := newState.(positions := newState.positions - {order.symbol});
        if order.size > closedSize {
          var remOrder := Order(order.timestamp, order.symbol, order.side, order.size - closedSize, MarketOrder);
          assert remOrder == Residual(order, state) && newState == CloseLeg(order, state, execPrice);
          finalState := ExecuteOrder(remOrder, newState, md, now);
          return;
        }
        assert Transition(order, state, execPrice) == CloseLeg(order, state, execPrice);
        assert newState == Transition(order, state, execPrice);
      } else {
        var reducedSize := order.size;
        pnl := RealizedPnl(existingPos.side, reducedSize, existingPos.entryPrice, execPrice);
        existingPos := existingPos.(size := existingPos.size - reducedSize);
        newState := newState.(positions := newState.positions[order.symbol := existingPos]);
        newState := newState.(walletBalance := newState.walletBalance + (pnl - commission));
        newState := newState.(totalPnl := newState.totalPnl + pnl);
        assert Transition(order, state, execPrice) == ReduceLeg(order, state, execPrice);
        assert newState == Transition(order, state, execPrice);
      }
    }

    var trade := Trade(now, order.symbol, order.side, execPrice, order.size, pnl, commission);
    assert trade == Trade(now, order.symbol, order.side, execPrice, order.size, LegPnl(order, state, execPrice), commission);
    newState := newState.(trades := newState.trades + [trade]);
    newState := newState.(timestamp := now);
    finalState := UpdateRiskMetrics(newState);
  }

  // ---------------------------------------------------------------------------
  // The four transitions
  // ---------------------------------------------------------------------------

  /** No position in the symbol: a new one opens on the order's side at the
      execution price, and the balance pays the notional plus commission,
      whatever the side. */
  lemma ExecuteOpensPosition(order: Order, state: TradingState, md: MarketData, now: Timestamp)
    requires order.size > 0.0 && PositionsOpen(state)
    requires order.symbol !in state.positions
    ensures Execute(order, state, md, now).positions ==
      state.positions[order.symbol := Position(order.symbol, SideFor(order.side), order.size, ExecPrice(order.side, order.size, md))]
    ensures Execute(order, state, md, now).walletBalance ==
      state.walletBalance - (order.size * ExecPrice(order.side, order.size, md) + Commission(order.size, ExecPrice(order.side, order.size, md)))
    ensures Execute(order, state, md, now).totalPnl == state.totalPnl
    ensures Execute(order, state, md, now).trades == state.trades +
      [Trade(now, order.symbol, order.side, ExecPrice(order.side, order.size, md), order.size, 0.0, Commission(order.size, ExecPrice(order.side, order.size, md)))]
  {
    var px := ExecPrice(order.side, order.size, md);
    var trade := Trade(now, order.symbol, order.side, px, order.size, 0.0, Commission(order.size, px));
    assert Execute(order, state, md, now) == Record(OpenLeg(order, state, px), trade, now);
  }

  /** Same side: the size grows by the order and the entry becomes the
      size-weighted average, which lies between the old entry and the fill. */
  lemma ExecuteAveragesIn(order: Order, state: TradingState, md: MarketData, now: Timestamp)
    requires order.size > 0.0 && PositionsOpen(state)
    requires order.symbol in state.positions && IsSameSide(state.positions[order.symbol].side, order.side)
    ensures order.symbol in Execute(order, state, md, now).positions
    ensures Execute(order, state, md, now).positions[order.symbol].side == state.positions[order.symbol].side
    ensures Execute(order, state, md, now).positions[order.symbol].size == state.positions[order.symbol].size + order.size
    ensures Min(state.positions[order.symbol].entryPrice, ExecPrice(order.side, order.size, md))
         <= Execute(order, state, md, now).positions[order.symbol].entryPrice
         <= Max(state.positions[order.symbol].entryPrice, ExecPrice(order.side, order.size, md))
    ensures Execute(order, state, md, now).positions[order.symbol].entryPrice
         == WeightedEntry(state.positions[order.symbol], order.size, ExecPrice(order.side, order.size, md))
    ensures Execute(order, state, md, now).walletBalance ==
      state.walletBalance - (order.size * ExecPrice(order.side, order.size, md) + Commission(order.size, ExecPrice(order.side, order.size, md)))
    ensures Execute(order, state, md, now).totalPnl == state.totalPnl
  {
    var pos := state.positions[order.symbol];
    var px := ExecPrice(order.side, order.size, md);
    var trade := Trade(now, order.symbol, order.side, px, order.size, 0.0, Commission(order.size, px));
    var r := Execute(order, state, md, now);
    assert r.positions == state.positions[order.symbol := pos.(size := pos.size + order.size, entryPrice := WeightedEntry(pos, order.size, px))]
        && r.walletBalance == state.walletBalance - (order.size * px + Commission(order.size, px))
        && r.totalPnl == state.totalPnl by {
      assert r == Record(AverageInLeg(order, state, px), trade, now);
    }
    var e := WeightedEntry(pos, order.size, px);
    assert r.positions[order.symbol].entryPrice == e;
    assert Min(pos.entryPrice, px) <= e <= Max(pos.entryPrice, px);
  }

  /** A price m that carries the combined cost of two positively weighted
      prices, m * (wa + wb) == a * wa + b * wb, lies between them. */
  lemma WeightedMeanBetween(a: real, wa: real, b: real, wb: real, m: real)
    requires wa > 0.0 && wb > 0.0 && m * (wa + wb) == a * wa + b * wb
    ensures Min(a, b) <= m <= Max(a, b)
  {
    var lo, hi := Min(a, b), Max(a, b);
    assert lo * (wa + wb) <= a * wa + b * wb <= hi * (wa + wb) by {
      assert lo * wa <= a * wa && lo * wb <= b * wb;
      assert a * wa <= hi * wa && b * wb <= hi * wb;
    }
    ScaleCancel(lo, m, wa + wb);
    ScaleCancel(m, hi, wa + wb);
  }

  /** Arithmetic helper: a positive factor can be cancelled from an inequality. */
  lemma ScaleCancel(x: real, y: real, k: real)
    requires k > 0.0 && x * k <= y * k
    ensures x <= y
  {
    assert (y - x) * k >= 0.0;
  }

  /** Opposite side, smaller order: the position shrinks by the order and keeps
      its entry; the profit on the closed part is realized. */
  lemma ExecutePartialClose(order: Order, state: TradingState, md: MarketData, now: Timestamp)
    requires order.size > 0.0 && PositionsOpen(state)
    requires order.symbol in state.positions
    requires !IsSameSide(state.positions[order.symbol].side, order.side)
    requires order.size < state.positions[order.symbol].size
    ensures Execute(order, state, md, now).positions ==
      state.positions[order.symbol := state.positions[order.symbol].(size := state.positions[order.symbol].size - order.size)]
    ensures Execute(order, state, md, now).walletBalance == state.walletBalance
      + RealizedPnl(state.positions[order.symbol].side, order.size, state.positions[order.symbol].entryPrice, ExecPrice(order.side, order.size, md))
      - Commission(order.size, ExecPrice(order.side, order.size, md))
    ensures Execute(order, state, md, now).totalPnl == state.totalPnl
      + RealizedPnl(state.positions[order.symbol].side, order.size, state.positions[order.symbol].entryPrice, ExecPrice(order.side, order.size, md))
    ensures Execute(order, state, md, now).trades == state.trades +
      [Trade(now, order.symbol, order.side, ExecPrice(order.side, order.size, md), order.size,
             RealizedPnl(state.positions[order.symbol].side, order.size, state.positions[order.symbol].entryPrice, ExecPrice(order.side, order.size, md)),
             Commission(order.size, ExecPrice(order.side, order.size, md)))]
  {
    var pos := state.positions[order.symbol];
    var px := ExecPrice(order.side, order.size, md);
    var pnl := RealizedPnl(pos.side, order.size, pos.entryPrice, px);
    var trade := Trade(now, order.symbol, order.side, px, order.size, pnl, Commission(order.size, px));
    assert LegPnl(order, state, px) == pnl;
    assert Execute(order, state, md, now) == Record(ReduceLeg(order, state, px), trade, now);
  }

  /** Opposite side, order exactly the position: the position is deleted and its
      profit, less commission, is credited; the entry notional is not returned. */
  lemma ExecuteFullClose(order: Order, state: TradingState, md: MarketData, now: Timestamp)
    requires order.size > 0.0 && PositionsOpen(state)
    requires order.symbol in state.positions
    requires !IsSameSide(state.positions[order.symbol].side, order.side)
    requires order.size == state.positions[order.symbol].size
    ensures Execute(order, state, md, now).positions == state.positions - {order.symbol}
    ensures Execute(order, state, md, now).walletBalance == state.walletBalance
      + RealizedPnl(state.positions[order.symbol].side, order.size, state.positions[order.symbol].entryPrice, ExecPrice(order.side, order.size, md))
      - Commission(order.size, ExecPrice(order.side, order.size, md))
    ensures Execute(order, state, md, now).totalPnl == state.totalPnl
      + RealizedPnl(state.positions[order.symbol].side, order.size, state.positions[order.symbol].entryPrice, ExecPrice(order.side, order.size, md))
    ensures Execute(order, state, md, now).trades == state.trades +
      [Trade(now, order.symbol, order.side, ExecPrice(order.side, order.size, md), order.size,
             RealizedPnl(state.positions[order.symbol].side, order.size, state.positions[order.symbol].entryPrice, ExecPrice(order.side, order.size, md)),
             Commission(order.size, ExecPrice(order.side, order.size, md)))]
  {
    var pos := state.positions[order.symbol];
    var px := ExecPrice(order.side, order.size, md);
    var pnl := RealizedPnl(pos.side, order.size, pos.entryPrice, px);
    var trade := Trade(now, order.symbol, order.side, px, order.size, pnl, Commission(order.size, px));
    assert LegPnl(order, state, px) == pnl;
    assert Execute(order, state, md, now) == Record(CloseLeg(order, state, px), trade, now);
  }

  /** Opposite side, order larger than the position: the position is closed,
      then the residual opens a fresh position on the order's side at its own
      execution price. Only the residual's trade is logged; the closing profit
      reaches the total but no log entry. */
  lemma ExecuteOversizedClose(order: Order, state: TradingState, md: MarketData, now: Timestamp)
    requires order.size > 0.0 && PositionsOpen(state)
    requires order.symbol in state.positions
    requires !IsSameSide(state.positions[order.symbol].side, order.side)
    requires order.size > state.positions[order.symbol].size
    ensures var residual := order.size - state.positions[order.symbol].size;
      Execute(order, state, md, now).positions ==
        state.positions[order.symbol := Position(order.symbol, SideFor(order.side), residual, ExecPrice(order.side, residual, md))]
    ensures SideFor(order.side) != state.positions[order.symbol].side
    ensures Execute(order, state, md, now).totalPnl == state.totalPnl
      + RealizedPnl(state.positions[order.symbol].side, state.positions[order.symbol].size, state.positions[order.symbol].entryPrice, ExecPrice(order.side, order.size, md))
    ensures var residual := order.size - state.positions[order.symbol].size;
      Execute(order, state, md, now).trades == state.trades +
        [Trade(now, order.symbol, order.side, ExecPrice(order.side, residual, md), residual, 0.0, Commission(residual, ExecPrice(order.side, residual, md)))]
  {
    var closed := CloseLeg(order, state, ExecPrice(order.side, order.size, md));
    var rem := Residual(order, state);
    OversizedClosesThenReopens(order, state, md, now);
    ExecuteOpensPosition(rem, closed, md, now);
    var reopened := Position(order.symbol, SideFor(order.side), rem.size, ExecPrice(rem.side, rem.size, md));
    assert closed.positions[order.symbol := reopened] == state.positions[order.symbol := reopened];
  }

  /** The balance after an oversized close: the closed position's profit is
      credited less the commission on the WHOLE order's notional, then the
      residual pays its own notional and commission. */
  lemma OversizedCloseBalance(order: Order, state: TradingState, md: MarketData, now: Timestamp)
    requires order.size > 0.0 && PositionsOpen(state) && Oversized(order, state)
    ensures Residual(order, state).size == order.size - state.positions[order.symbol].size
    ensures var pos := state.positions[order.symbol];
      var rem := Residual(order, state);
      Execute(order, state, md, now).walletBalance == state.walletBalance
        + RealizedPnl(pos.side, pos.size, pos.entryPrice, ExecPrice(order.side, order.size, md))
        - Commission(order.size, ExecPrice(order.side, order.size, md))
        - (rem.size * ExecPrice(order.side, rem.size, md) + Commission(rem.size, ExecPrice(order.side, rem.size, md)))
  {
    var px := ExecPrice(order.side, order.size, md);
    OversizedPaysOpenLeg(order, state, md, now);
    CloseThenOpenBalance(order, state, px, ExecPrice(order.side, Residual(order, state).size, md));
  }

  /** The balance an oversized close leaves is that of the residual's opening
      leg on the closed ledger. */
  lemma OversizedPaysOpenLeg(order: Order, state: TradingState, md: MarketData, now: Timestamp)
    requires order.size > 0.0 && PositionsOpen(state) && Oversized(order, state)
    ensures var rem := Residual(order, state);
      Execute(order, state, md, now).walletBalance ==
        OpenLeg(rem, CloseLeg(order, state, ExecPrice(order.side, order.size, md)), ExecPrice(order.side, rem.size, md)).walletBalance
  {
    var rem := Residual(order, state);
    var closed := CloseLeg(order, state, ExecPrice(order.side, order.size, md));
    OversizedClosesThenReopens(order, state, md, now);
    assert Execute(rem, closed, md, now) == Leg(rem, closed, md, now);
  }

  /** The closing leg at px followed by the residual's opening leg at px2, as
      balance arithmetic. */
  lemma CloseThenOpenBalance(order: Order, state: TradingState, px: real, px2: real)
    requires order.symbol in state.positions
    ensures var pos := state.positions[order.symbol];
      var rem := Residual(order, state);
      OpenLeg(rem, CloseLeg(order, state, px), px2).walletBalance == state.walletBalance
        + RealizedPnl(pos.side, pos.size, pos.entryPrice, px) - Commission(order.size, px)
        - (rem.size * px2 + Commission(rem.size, px2))
  {
  }

  /** An oversized close is the closing leg followed by the execution of the
      residual on a ledger where the symbol is flat. */
  lemma OversizedClosesThenReopens(order: Order, state: TradingState, md: MarketData, now: Timestamp)
    requires order.size > 0.0 && PositionsOpen(state) && Oversized(order, state)
    ensures var closed := CloseLeg(order, state, ExecPrice(order.side, order.size, md));
      PositionsOpen(closed) && order.symbol !in closed.positions &&
      Execute(order, state, md, now) == Execute(Residual(order, state), closed, md, now)
  {
    var closed := CloseLeg(order, state, ExecPrice(order.side, order.size, md));
    assert Execute(order, state, md, now) == Leg(Residual(order, state), closed, md, now);
  }

  // ---------------------------------------------------------------------------
  // Ledger invariants
  // ---------------------------------------------------------------------------

  /** Positions in other symbols are untouched, and the ledger invariant holds after every fill. */
  lemma ExecutePreservesLedger(order: Order, state: TradingState, md: MarketData, now: Timestamp)
    requires order.size > 0.0 && Valid(state)
    ensures PositionsOpen(state)
    ensures Valid(Execute(order, state, md, now))
    ensures forall sym :: sym != order.symbol ==>
      (sym in Execute(order, state, md, now).positions <==> sym in state.positions)
    ensures forall sym :: sym != order.symbol && sym in state.positions ==>
      Execute(order, state, md, now).positions[sym] == state.positions[sym]
  {
    if order.symbol in state.positions {
      var pos := state.positions[order.symbol];
      if !IsSameSide(pos.side, order.side) && order.size > pos.size {
        ExecuteOversizedClose(order, state, md, now);
      }
    }
  }

  /** After a fill the high-water mark is the larger of the old mark and the new
      balance, and the drawdown is consistent with them. */
  lemma ExecuteRiskMetrics(order: Order, state: TradingState, md: MarketData, now: Timestamp)
    requires order.size > 0.0 && PositionsOpen(state)
    ensures Execute(order, state, md, now).riskMetrics.highWaterMark ==
      Max(state.riskMetrics.highWaterMark, Execute(order, state, md, now).walletBalance)
    ensures DrawdownConsistent(Execute(order, state, md, now).riskMetrics, Execute(order, state, md, now).walletBalance)
  {
    var o, s := order, state;
    if Oversized(order, state) {
      o, s := Residual(order, state), CloseLeg(order, state, ExecPrice(order.side, order.size, md));
    }
    var px := ExecPrice(o.side, o.size, md);
    var trade := Trade(now, o.symbol, o.side, px, o.size, LegPnl(o, s, px), Commission(o.size, px));
    var next := Transition(o, s, px);
    assert next.riskMetrics == state.riskMetrics;
    DrawdownAfterUpdate(next.(trades := next.trades + [trade], timestamp := now));
  }

  /** Every order appends exactly one trade to the log, leaves the earlier log
      and the price history alone, and stamps the ledger with the fill time. */
  lemma ExecuteAppendsOneTrade(order: Order, state: TradingState, md: MarketData, now: Timestamp)
    requires order.size > 0.0 && PositionsOpen(state)
    ensures |Execute(order, state, md, now).trades| == |state.trades| + 1
    ensures Execute(order, state, md, now).trades[..|state.trades|] == state.trades
    ensures Execute(order, state, md, now).historicalData == state.historicalData
    ensures Execute(order, state, md, now).timestamp == now
  {
    var o, s := order, state;
    if Oversized(order, state) {
      o, s := Residual(order, state), CloseLeg(order, state, ExecPrice(order.side, order.size, md));
    }
    var px := ExecPrice(o.side, o.size, md);
    var next := Transition(o, s, px);
    assert next.trades == state.trades && next.historicalData == state.historicalData;
  }

  // ---------------------------------------------------------------------------
  // Runs of fills
  // ---------------------------------------------------------------------------

  /** An order together with the market snapshot it is filled against. */
  datatype Fill = Fill(order: Order, md: MarketData, at: Timestamp)

  predicate PositiveSizes(fills: seq<Fill>)
  {
    forall i :: 0 <= i < |fills| ==> fills[i].order.size > 0.0
  }

  /** The ledger after executing the fills in order. */
  function ExecuteAll(fills: seq<Fill>, state: TradingState): (r: TradingState)
    requires PositiveSizes(fills) && PositionsOpen(state)
    ensures PositionsOpen(r)
  {
    if fills == [] then state
    else
      var prev := ExecuteAll(fills[..|fills| - 1], state);
      var f := fills[|fills| - 1];
      Execute(f.order, prev, f.md, f.at)
  }

  /** Over any run of fills the high-water mark never falls, one trade is logged
      per fill, and the earlier log is never altered. */
  lemma {:induction false} RunKeepsLedgerHistory(fills: seq<Fill>, state: TradingState)
    requires PositiveSizes(fills) && PositionsOpen(state)
    ensures ExecuteAll(fills, state).riskMetrics.highWaterMark >= state.riskMetrics.highWaterMark
    ensures |ExecuteAll(fills, state).trades| == |state.trades| + |fills|
    ensures ExecuteAll(fills, state).trades[..|state.trades|] == state.trades
  {
    if fills != [] {
      var init := fills[..|fills| - 1];
      assert PositiveSizes(init);
      RunKeepsLedgerHistory(init, state);
      var prev := ExecuteAll(init, state);
      var f := fills[|fills| - 1];
      ExecuteRiskMetrics(f.order, prev, f.md, f.at);
      ExecuteAppendsOneTrade(f.order, prev, f.md, f.at);
      var r := ExecuteAll(fills, state);
      assert r.trades[..|prev.trades|] == prev.trades;
      assert r.trades[..|state.trades|] == r.trades[..|prev.trades|][..|state.trades|];
    }
  }

  /** Buy `size` of a symbol, then sell the same size, against one snapshot. */
  function RoundTrip(state: TradingState, md: MarketData, sym: string, size: real, t1: Timestamp, t2: Timestamp): TradingState
    requires size > 0.0 && PositionsOpen(state)
  {
    var afterOpen := Execute(Order(t1, sym, Buy, size, MarketOrder), state, md, t1);
    Execute(Order(t2, sym, Sell, size, MarketOrder), afterOpen, md, t2)
  }

  /** Opening and then fully closing at an unchanged price (a flat book with no
      spread) realizes no profit, and the balance loses the two commissions and
      also the entry notional, which the close never returns. */
  lemma RoundTripAtUnchangedPrice(state: TradingState, md: MarketData, sym: string, size: real, t1: Timestamp, t2: Timestamp)
    requires size > 0.0 && PositionsOpen(state) && sym !in state.positions
    requires md.spread <= 0.0 && md.ask == md.bid
    ensures RoundTrip(state, md, sym, size, t1, t2).positions == state.positions
    ensures RoundTrip(state, md, sym, size, t1, t2).totalPnl == state.totalPnl
    ensures RoundTrip(state, md, sym, size, t1, t2).walletBalance ==
      state.walletBalance - size * md.ask - 2.0 * Commission(size, md.ask)
    ensures |RoundTrip(state, md, sym, size, t1, t2).trades| == |state.trades| + 2
    ensures RoundTrip(state, md, sym, size, t1, t2).trades[|state.trades| + 1].pnl == 0.0
  {
    var buy := Order(t1, sym, Buy, size, MarketOrder);
    var sell := Order(t2, sym, Sell, size, MarketOrder);
    var fee := Commission(size, md.ask);
    var afterOpen := Execute(buy, state, md, t1);
    assert afterOpen.positions == state.positions[sym := Position(sym, Long, size, md.ask)]
        && afterOpen.walletBalance == state.walletBalance - size * md.ask - fee
        && afterOpen.totalPnl == state.totalPnl
        && |afterOpen.trades| == |state.trades| + 1 by {
      assert ExecPrice(Buy, size, md) == md.ask;
      ExecuteOpensPosition(buy, state, md, t1);
    }
    var closed := Execute(sell, afterOpen, md, t2);
    assert closed.positions == state.positions
        && closed.walletBalance == afterOpen.walletBalance - fee
        && closed.totalPnl == afterOpen.totalPnl
        && |closed.trades| == |afterOpen.trades| + 1
        && closed.trades[|afterOpen.trades|].pnl == 0.0 by {
      assert ExecPrice(Sell, size, md) == md.ask;
      ExecuteFullClose(sell, afterOpen, md, t2);
      assert RealizedPnl(Long, size, md.ask, md.ask) == 0.0;
      assert afterOpen.positions - {sym} == state.positions;
    }
    assert RoundTrip(state, md, sym, size, t1, t2) == closed;
  }

  // ---------------------------------------------------------------------------
  // Mark to market
  // ---------------------------------------------------------------------------

  /** calculate_unrealized_pnl: per open symbol, what closing the whole position
      at the snapshot's price would realize. */
  method CalculateUnrealizedPnl(state: TradingState, md: MarketData) returns (pnl: map<string, real>)
    ensures pnl.Keys == state.positions.Keys
    ensures forall sym :: sym in pnl ==>
      pnl[sym] == RealizedPnl(state.positions[sym].side, state.positions[sym].size, state.positions[sym].entryPrice, md.price)
  {
    pnl := map[];
    var remaining := state.positions.Keys;
    while remaining != {}
      invariant remaining <= state.positions.Keys
      invariant pnl.Keys == state.positions.Keys - remaining
      invariant forall sym :: sym in pnl ==>
        pnl[sym] == RealizedPnl(state.positions[sym].side, state.positions[sym].size, state.positions[sym].entryPrice, md.price)
      decreases remaining
    {
      var symbol :| symbol in remaining;
      var position := state.positions[symbol];
      var entryCost := position.size * position.entryPrice;
      var currentValue := position.size * md.price;
      pnl := pnl[symbol := if position.side == Long then currentValue - entryCost else entryCost - currentValue];
      remaining := remaining - {symbol};
    }
  }

  /** Closing a whole position at a fill price equal to the snapshot's price
      credits exactly its unrealized profit, less the commission. */
  lemma FullCloseRealizesUnrealizedPnl(order: Order, state: TradingState, md: MarketData, now: Timestamp)
    requires order.size > 0.0 && PositionsOpen(state)
    requires order.symbol in state.positions
    requires !IsSameSide(state.positions[order.symbol].side, order.side)
    requires order.size == state.positions[order.symbol].size
    requires ExecPrice(order.side, order.size, md) == md.price
    ensures var pos := state.positions[order.symbol];
            Execute(order, state, md, now).walletBalance ==
              state.walletBalance + RealizedPnl(pos.side, pos.size, pos.entryPrice, md.price) - order.size * md.price * TakerFee
  {
    ExecuteFullClose(order, state, md, now);
  }
}
