/** Prices stay on the tick grid and quantities on the lot grid: src/domain/market.rs. */
module Alignment {
  import opened Domain
  import opened Books
  import opened Matching
  import opened MatchTheory
  import opened Sequencing
  import opened Replaying
  import opened LegalLogs
  import opened EngineSpec
  import opened Live
  import opened Steps
  import opened Restart
  import opened Runs
  import opened Grammar

  lemma SmallMultiple(m: nat, d: int)
    requires m > 0 && 0 <= m * d < m
    ensures m * d == 0
  {
    assert d >= 1 ==> m * d >= m;
    assert d <= -1 ==> m * d <= 0 - m;
  }

  lemma MultipleOf(k: int, m: nat)
    requires m > 0
    ensures (m * k) % m == 0
  {
    var x := m * k;
    assert m * (k - x / m) == x % m by {
      assert x == m * (x / m) + x % m;
      assert m * (k - x / m) == m * k - m * (x / m);
    }
    SmallMultiple(m, k - x / m);
  }

  lemma SumOnGrid(a: nat, b: nat, m: nat)
    requires IsMultipleOf(a, m) && IsMultipleOf(b, m)
    ensures IsMultipleOf(a + b, m)
    ensures a >= b ==> IsMultipleOf(a - b, m)
  {
    if m > 0 {
      var i, j := a / m, b / m;
      assert a + b == m * (i + j) && a - b == m * (i - j);
      MultipleOf(i + j, m);
      MultipleOf(i - j, m);
    }
  }

  predicate OnGrid(o: Order, tick: nat, lot: nat) {
    IsMultipleOf(o.terms.price, tick) && IsMultipleOf(o.terms.size, lot) && IsMultipleOf(o.filled, lot)
  }

  predicate FillOnGrid(f: Fill, tick: nat, lot: nat) {
    IsMultipleOf(f.price, tick) && IsMultipleOf(f.size, lot)
  }

  ghost predicate BookOnGrid(orders: Orders, tick: nat, lot: nat) {
    forall id :: id in orders ==> OnGrid(orders[id], tick, lot)
  }

  /** One trade stays on the grid: the quantity is what one side had left. */
  lemma TradeOnGrid(taker: Order, maker: Order, seqId: nat, nowMs: nat, tick: nat, lot: nat)
    requires OnGrid(taker, tick, lot) && OnGrid(maker, tick, lot)
    requires taker.filled <= taker.terms.size && maker.filled <= maker.terms.size
    ensures var qty := FillQty(taker, maker);
            && OnGrid(ApplyQty(taker, qty, seqId), tick, lot) && OnGrid(ApplyQty(maker, qty, seqId), tick, lot)
            && FillOnGrid(MakeFill(taker, maker, qty, seqId, nowMs), tick, lot)
  {
    SumOnGrid(taker.terms.size, taker.filled, lot);
    SumOnGrid(maker.terms.size, maker.filled, lot);
    var qty := FillQty(taker, maker);
    SumOnGrid(taker.filled, qty, lot);
    SumOnGrid(maker.filled, qty, lot);
  }

  /** Any chain of partial fills stays on the grid. */
  lemma {:induction false} WalkOnGrid(orders: Orders, taker: Order, ids: seq<OrderId>, seqId: nat, nowMs: nat,
                                      tick: nat, lot: nat)
    requires WalkInput(orders, taker, ids) && BookOnGrid(orders, tick, lot) && OnGrid(taker, tick, lot)
    ensures var r := Walk(orders, taker, ids, seqId, nowMs);
            && BookOnGrid(r.orders, tick, lot) && OnGrid(r.taker, tick, lot)
            && (forall k :: 0 <= k < |r.fills| ==> FillOnGrid(r.fills[k], tick, lot))
    decreases |ids|
  {
    if !Trades(orders, taker, ids) {
    } else {
      var (orders', taker') := AfterFirst(orders, taker, ids, seqId);
      WalkInputNext(orders, taker, ids, seqId);
      WalkUnfold(orders, taker, ids, seqId, nowMs);
      TradeOnGrid(taker, orders[ids[0]], seqId, nowMs, tick, lot);
      WalkOnGrid(orders', taker', ids[1..], seqId, nowMs, tick, lot);
    }
  }

  // ---- The engine ----------------------------------------------------------------------------------

  ghost predicate BooksOnGrid(books: map<MarketId, Orders>, markets: map<MarketId, MarketConfig>) {
    forall m :: m in books && books[m] != map[] ==>
      m in markets && BookOnGrid(books[m], markets[m].tickSize, markets[m].lotSize)
  }

  ghost predicate OrderAligned(o: Order, markets: map<MarketId, MarketConfig>) {
    && o.terms.marketId in markets
    && OnGrid(o, markets[o.terms.marketId].tickSize, markets[o.terms.marketId].lotSize)
  }

  ghost predicate EventOnGrid(e: Event, markets: map<MarketId, MarketConfig>) {
    match e
    case FillEvent(f) => f.marketId in markets
      && FillOnGrid(f, markets[f.marketId].tickSize, markets[f.marketId].lotSize)
    case OrderAccepted(o) => OrderAligned(o, markets)
    case _ => true
  }

  ghost predicate LogOnGrid(log: seq<SequencedEvent>, markets: map<MarketId, MarketConfig>) {
    forall i :: 0 <= i < |log| ==> EventOnGrid(log[i].event, markets)
  }

  /** Every order in a book and every logged order and fill is aligned to its market's tick and lot. */
  ghost predicate EngineOnGrid(v: EngineView) {
    BooksOnGrid(v.books, v.markets) && LogOnGrid(v.log, v.markets)
  }

  /** No known market changes its tick or lot size. */
  ghost predicate SameGrid(a: map<MarketId, MarketConfig>, b: map<MarketId, MarketConfig>) {
    forall m :: m in a ==> m in b && b[m].tickSize == a[m].tickSize && b[m].lotSize == a[m].lotSize
  }

  predicate KeepsGrid(v: EngineView, op: Op) {
    op.OpAddMarket? && op.config.id in v.markets ==>
      op.config.tickSize == v.markets[op.config.id].tickSize && op.config.lotSize == v.markets[op.config.id].lotSize
  }

  lemma GridCarries(v: EngineView, v': EngineView)
    requires EngineOnGrid(v) && SameGrid(v.markets, v'.markets)
    requires forall m :: m in v'.books ==> (m in v.books && v'.books[m] == v.books[m]) || v'.books[m] == map[]
    requires |v.log| <= |v'.log| && v'.log[..|v.log|] == v.log
    requires forall i :: |v.log| <= i < |v'.log| ==> !v'.log[i].event.FillEvent? && !v'.log[i].event.OrderAccepted?
    ensures EngineOnGrid(v')
  {
    forall i | 0 <= i < |v'.log| ensures EventOnGrid(v'.log[i].event, v'.markets) {
      if i < |v.log| {
        assert v'.log[..|v.log|][i] == v'.log[i];
        assert EventOnGrid(v.log[i].event, v.markets);
      }
    }
  }

  lemma MatchOnGrid(book: Orders, o: Order, nowMs: nat, market: MarketId, tick: nat, lot: nat)
    requires BookOk(book) && Arriving(o) && BookOnGrid(book, tick, lot) && OnGrid(o, tick, lot)
    requires forall id :: id in book ==> book[id].terms.marketId == market
    ensures var m := Match(book, o, o.terms.createdSequence, nowMs);
            && BookOnGrid(AfterMatch(m), tick, lot)
            && (forall k :: 0 <= k < |m.fills| ==> FillOnGrid(m.fills[k], tick, lot) && m.fills[k].marketId == market)
  {
    var makers := Makers(book, o);
    MakersAreMakers(book, o);
    WalkOnGrid(book, o, makers, o.terms.createdSequence, nowMs, tick, lot);
    WalkFills(book, o, makers, o.terms.createdSequence, nowMs);
  }

  lemma BlockOnGrid(log: seq<SequencedEvent>, accepted: SequencedEvent, m: MatchResult, tail: seq<SequencedEvent>,
                    next: nat, wall: nat -> nat, market: MarketId, markets: map<MarketId, MarketConfig>)
    requires LogOnGrid(log, markets) && EventOnGrid(accepted.event, markets) && market in markets
    requires tail == Stamp(next, FillEvents(m.fills) + StpEvents(m.taker), wall)
    requires forall k :: 0 <= k < |m.fills| ==>
               FillOnGrid(m.fills[k], markets[market].tickSize, markets[market].lotSize)
                 && m.fills[k].marketId == market
    ensures LogOnGrid(log + [accepted] + tail, markets)
  {
    forall k | 0 <= k < |tail| ensures EventOnGrid(tail[k].event, markets) {
      if k < |m.fills| { assert tail[k].event == FillEvent(m.fills[k]); }
    }
  }

  lemma AcceptOnGrid(v: EngineView, o: Order, nowMs: nat, world: World)
    requires EngineOnGrid(v) && Arriving(o) && o.terms.marketId in v.markets
    requires OnGrid(o, v.markets[o.terms.marketId].tickSize, v.markets[o.terms.marketId].lotSize)
    requires o.terms.marketId in v.books ==>
               BookOk(v.books[o.terms.marketId])
               && forall id :: id in v.books[o.terms.marketId] ==>
                    v.books[o.terms.marketId][id].terms.marketId == o.terms.marketId
    ensures EngineOnGrid(AcceptOrder(v, o, nowMs, world).0)
  {
    var market := o.terms.marketId;
    var v' := AcceptOrder(v, o, nowMs, world).0;
    if market in v.books {
      var c := v.markets[market];
      var m := Match(v.books[market], o, o.terms.createdSequence, nowMs);
      MatchOnGrid(v.books[market], o, nowMs, market, c.tickSize, c.lotSize);
      AcceptedLog(v, o, nowMs, world);
      BlockOnGrid(v.log, SequencedEvent(v.nextSeqId, world.wall(v.nextSeqId), OrderAccepted(o)), m,
                  Stamp(v.nextSeqId + 1, FillEvents(m.fills) + StpEvents(m.taker), world.wall),
                  v.nextSeqId + 1, world.wall, market, v.markets);
      assert v'.books == v.books[market := AfterMatch(m)];
    }
  }

  lemma SubmitOnGrid(v: EngineView, s: SignedOrder, nowMs: nat, freshId: OrderId, world: World)
    requires Inv(v) && EngineOnGrid(v)
    ensures EngineOnGrid(Submit(v, s, nowMs, freshId, world).0)
  {
    if Passes(v, s, nowMs, world) {
      PassedOnGrid(v, s, nowMs, freshId, world);
      AcceptOnGrid(v, NewOrder(s, freshId, v.nextSeqId, nowMs), nowMs, world);
    }
  }

  lemma PassedOnGrid(v: EngineView, s: SignedOrder, nowMs: nat, freshId: OrderId, world: World)
    requires Inv(v) && Passes(v, s, nowMs, world)
    ensures var o := NewOrder(s, freshId, v.nextSeqId, nowMs);
            && Arriving(o) && o.terms.marketId == s.marketId && s.marketId in v.markets
            && OnGrid(o, v.markets[s.marketId].tickSize, v.markets[s.marketId].lotSize)
    ensures s.marketId in v.books ==>
              && BookOk(v.books[s.marketId])
              && forall id :: id in v.books[s.marketId] ==> v.books[s.marketId][id].terms.marketId == s.marketId
  {
    if s.marketId in v.books { assert BookTracks(v.books[s.marketId], s.marketId, WorkingOf(v)); }
  }

  lemma CancelOnGrid(v: EngineView, id: OrderId, trader: TraderId, world: World)
    requires EngineOnGrid(v)
    ensures EngineOnGrid(Cancel(v, id, trader, world).0)
  {
    var v' := Cancel(v, id, trader, world).0;
    forall m | m in v'.books && v'.books[m] != map[]
      ensures m in v.markets && BookOnGrid(v'.books[m], v.markets[m].tickSize, v.markets[m].lotSize)
    {
      assert v.books[m] != map[];
    }
  }

  lemma ForceOnGrid(v: EngineView, market: MarketId, world: World)
    requires EngineOnGrid(v)
    ensures EngineOnGrid(CancelAll(v, market, world).0)
  {
    if market in v.markets {
      var targets := AcceptedIn(v.log, market);
      ForceCancelsBooks(v, targets, world);
      ForceLog(v, targets, world);
      GridCarries(v, ForceCancels(v, targets, world));
    }
  }

  lemma ConfigOnGrid(v: EngineView, config: MarketConfig)
    requires EngineOnGrid(v)
    requires config.id in v.markets ==>
               config.tickSize == v.markets[config.id].tickSize && config.lotSize == v.markets[config.id].lotSize
    ensures EngineOnGrid(AddMarket(v, config))
  {
    GridCarries(v, AddMarket(v, config));
  }

  lemma EventOnlyOnGrid(v: EngineView, e: Event, wall: nat -> nat)
    requires EngineOnGrid(v) && !e.FillEvent? && !e.OrderAccepted?
    ensures EngineOnGrid(AppendOne(v, e, wall))
  {
    GridCarries(v, AppendOne(v, e, wall));
  }

  lemma AdminOnGrid(v: EngineView, op: Op, world: World)
    requires EngineOnGrid(v) && KeepsGrid(v, op) && !op.OpSubmit? && !op.OpCancel? && !op.OpRestart?
    requires forall m :: m in v.markets ==> v.markets[m].id == m
    ensures EngineOnGrid(Step(v, op, world).0)
  {
    match op
    case OpPause(m, who) =>
      if m in v.markets {
        ConfigOnGrid(v, v.markets[m].(status := Paused));
        EventOnlyOnGrid(AddMarket(v, v.markets[m].(status := Paused)), MarketPaused(m, who), world.wall);
      }
    case OpResume(m, who) =>
      if m in v.markets {
        ConfigOnGrid(v, v.markets[m].(status := Active));
        EventOnlyOnGrid(AddMarket(v, v.markets[m].(status := Active)), MarketResumed(m, who), world.wall);
      }
    case OpCancelAll(m) => ForceOnGrid(v, m, world);
    case OpAddMarket(config) => ConfigOnGrid(v, config);
  }

  ghost predicate OrdersOnGrid(orders: Orders, markets: map<MarketId, MarketConfig>) {
    forall id :: id in orders ==> OrderAligned(orders[id], markets)
  }

  lemma FillKeepsGrid(w: Working, se: SequencedEvent, markets: map<MarketId, MarketConfig>)
    requires se.event.FillEvent? && LegalEvent(w, se) && ApplyEvent(w, se).Ok?
    requires OrdersOnGrid(w.orders, markets) && EventOnGrid(se.event, markets)
    ensures OrdersOnGrid(ApplyEvent(w, se).value.orders, markets)
  {
    var f := se.event.fill;
    var lot := markets[f.marketId].lotSize;
    assert OrderAligned(w.orders[f.takerOrderId], markets) && OrderAligned(w.orders[f.makerOrderId], markets);
    SumOnGrid(w.orders[f.takerOrderId].filled, f.size, lot);
    SumOnGrid(w.orders[f.makerOrderId].filled, f.size, lot);
  }

  /** Replaying an aligned log gives aligned orders. */
  lemma {:induction false} FoldOnGrid(w: Working, events: seq<SequencedEvent>, markets: map<MarketId, MarketConfig>)
    requires LegalFrom(w, events) && Fold(w, events).Ok?
    requires OrdersOnGrid(w.orders, markets) && LogOnGrid(events, markets)
    ensures OrdersOnGrid(Fold(w, events).value.orders, markets)
    decreases |events|
  {
    if events == [] {
    } else {
      if events[0].event.FillEvent? { FillKeepsGrid(w, events[0], markets); }
      assert EventOnGrid(events[0].event, markets);
      forall i | 0 <= i < |events[1..]| ensures EventOnGrid(events[1..][i].event, markets) {
        assert EventOnGrid(events[i + 1].event, markets);
      }
      FoldOnGrid(ApplyEvent(w, events[0]).value, events[1..], markets);
    }
  }

  lemma RestartOnGrid(v: EngineView)
    requires Inv(v) && EngineOnGrid(v)
    ensures EngineOnGrid(Restarted(v))
  {
    if v.log != [] {
      var orders := WorkingOf(v).orders;
      var books := Restarted(v).books;
      RestartedFields(v);
      FoldOnGrid(EMPTY_WORKING, v.log, v.markets);
      forall m | m in books && books[m] != map[]
        ensures m in v.markets && BookOnGrid(books[m], v.markets[m].tickSize, v.markets[m].lotSize)
      {
        ReplayedBookOf(orders, m);
        AlignedBook(orders, m, v.markets);
      }
    }
  }

  lemma AlignedBook(orders: Orders, m: MarketId, markets: map<MarketId, MarketConfig>)
    requires OrdersOnGrid(orders, markets) && OpenOrders(orders, m) != map[]
    ensures m in markets && BookOnGrid(OpenOrders(orders, m), markets[m].tickSize, markets[m].lotSize)
  {
    var some :| some in OpenOrders(orders, m);
    assert OrderAligned(orders[some], markets);
    forall id | id in OpenOrders(orders, m)
      ensures OrderAligned(orders[id], markets) && orders[id].terms.marketId == m
    {
    }
  }

  lemma StepOnGrid(v: EngineView, op: Op, world: World)
    requires Inv(v) && EngineOnGrid(v) && KeepsGrid(v, op)
    ensures EngineOnGrid(Step(v, op, world).0)
  {
    if op.OpSubmit? {
      SubmitOnGrid(v, op.signed, op.nowMs, op.freshId, world);
    } else if op.OpCancel? {
      CancelOnGrid(v, op.orderId, op.traderId, world);
    } else if op.OpRestart? {
      RestartOnGrid(v);
    } else {
      AdminOnGrid(v, op, world);
    }
  }

  ghost predicate GridRun(v: EngineView, ops: seq<Op>, world: World)
    decreases |ops|
  {
    ops == [] || (KeepsGrid(v, ops[0]) && GridRun(Step(v, ops[0], world).0, ops[1..], world))
  }

  /** In any run that never changes a market's tick or lot size, everything stays aligned. */
  lemma {:induction false} RunOnGrid(v: EngineView, ops: seq<Op>, world: World)
    requires CanRun(v, ops, world) && EngineOnGrid(v) && GridRun(v, ops, world)
    ensures EngineOnGrid(Run(v, ops, world))
    decreases |ops|
  {
    if ops == [] {
    } else {
      FirstStep(v, ops, world);
      StepOnGrid(v, ops[0], world);
      RunOnGrid(Step(v, ops[0], world).0, ops[1..], world);
    }
  }
}
