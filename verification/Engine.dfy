/** The engine object and its operations, proved against the state machine: src/engine/mod.rs, src/ops/admin.rs. */
module Engines {
  import opened Basics
  import opened Domain
  import opened Books
  import opened Matching
  import opened MatchTheory
  import opened Canonical
  import opened Store
  import opened Sequencing
  import opened Replaying
  import opened EngineSpec
  import opened Live
  import opened Steps
  import opened ReplayLoop

  /** Every order in a book is indexed and older than the next event: new orders can be appended. */
  ghost predicate Usable(v: EngineView) {
    forall m, id :: m in v.books && id in v.books[m] ==>
      id in v.index && v.books[m][id].terms.createdSequence < v.nextSeqId
  }

  /** An engine that agrees with its log is usable. */
  lemma InvUsable(v: EngineView)
    requires Inv(v)
    ensures Usable(v)
  {
    var w := WorkingOf(v);
    forall m, id | m in v.books && id in v.books[m]
      ensures id in v.index && v.books[m][id].terms.createdSequence < v.nextSeqId
    {
      assert BookTracks(v.books[m], m, w);
      assert w.orders[id].terms == v.books[m][id].terms;
      assert LegalLogs.WorkingOrderOk(w, id);
    }
  }

  lemma NewestAppendable(v: EngineView, o: Order)
    requires Usable(v) && Arriving(o) && o.terms.orderId !in v.index && o.terms.createdSequence == v.nextSeqId
    ensures o.terms.marketId in v.books ==> Appendable(v.books[o.terms.marketId], o)
  {
    var m := o.terms.marketId;
    if m in v.books {
      forall id | id in v.books[m] ensures id in v.index && v.books[m][id].terms.createdSequence < v.nextSeqId {
      }
    }
  }

  function AfterOutcome(l: Ledger, m: MatchResult): Ledger {
    var filled := ApplyFills(l, m.fills);
    if m.taker.status == CancelledStp then CancelHash(filled, m.taker.terms.orderHash) else filled
  }

  /** The pieces of a settlement, put together. */
  lemma SettleParts(v: EngineView, market: MarketId, m: MatchResult, wall: nat -> nat, after: EngineView)
    requires after.markets == v.markets && after.index == v.index && after.idempotency == v.idempotency
    requires after.books == v.books[market := AfterMatch(m)]
    requires after.nextSeqId == v.nextSeqId + |m.fills| + |StpEvents(m.taker)|
    requires after.log == v.log + Stamp(v.nextSeqId, FillEvents(m.fills) + StpEvents(m.taker), wall)
    requires after.ledger == AfterOutcome(v.ledger, m)
    ensures after == Settle(v, market, m, wall)
  {
  }

  /** The pieces of a cancel, put together. */
  lemma CancelParts(v: EngineView, id: OrderId, o: Order, world: World, after: EngineView)
    requires id in v.index && v.index[id] in v.books && id in v.books[v.index[id]]
    requires o == v.books[v.index[id]][id] && !o.Closed()
    requires after.markets == v.markets && after.index == v.index && after.idempotency == v.idempotency
    requires after.books == v.books[v.index[id] := v.books[v.index[id]][id := o.(status := Cancelled)]]
    requires after.nextSeqId == v.nextSeqId + 1
    requires after.log == v.log + [SequencedEvent(v.nextSeqId, world.wall(v.nextSeqId),
                                                  OrderCancelled(id, o.terms.orderHash, TraderRequest))]
    requires after.ledger == CancelHash(v.ledger, o.terms.orderHash)
    ensures (after, CancelDone(id, Some(v.nextSeqId), false)) == Cancel(v, id, o.terms.traderId, world)
  {
  }

  /** The pieces of a restore, put together. */
  lemma RestoreParts(v: EngineView, events: seq<SequencedEvent>, w: Working, after: EngineView)
    requires events != [] && Replayed(events) == Ok(w)
    requires after.markets == v.markets && after.books == ReplayedBooks(w.orders)
    requires after.nextSeqId == events[|events| - 1].seqId + 1 && after.log == events
    requires after.idempotency == RebuildTable(events) && after.ledger == w.ledger
             && after.index == RebuildIndex(events)
    ensures (after, Ok(())) == Restore(v, events)
  {
  }

  /** The pieces of a registration, and of one logged event, put together. */
  lemma AddMarketParts(v: EngineView, config: MarketConfig, after: EngineView)
    requires after.markets == v.markets[config.id := config]
    requires after.books == if config.id in v.books then v.books else v.books[config.id := map[]]
    requires after.nextSeqId == v.nextSeqId && after.log == v.log && after.idempotency == v.idempotency
    requires after.ledger == v.ledger && after.index == v.index
    ensures after == AddMarket(v, config)
  {
  }

  lemma AppendParts(v: EngineView, e: Event, wall: nat -> nat, after: EngineView)
    requires after.markets == v.markets && after.books == v.books && after.idempotency == v.idempotency
    requires after.ledger == v.ledger && after.index == v.index
    requires after.nextSeqId == v.nextSeqId + 1
    requires after.log == v.log + [SequencedEvent(v.nextSeqId, wall(v.nextSeqId), e)]
    ensures after == AppendOne(v, e, wall)
  {
  }

  /** Touching one book changes one entry of the view. */
  lemma OneEntry(a: map<MarketId, Orders>, b: map<MarketId, Orders>, market: MarketId)
    requires market in b && forall m :: m in a <==> m in b
    requires forall m :: m in a && m != market ==> b[m] == a[m]
    ensures b == a[market := b[market]]
  {
  }

  lemma SetTwice(a: map<MarketId, Orders>, market: MarketId, x: Orders, y: Orders)
    ensures a[market := x][market := y] == a[market := y]
  {
  }

  lemma NewEntry(a: map<MarketId, Orders>, b: map<MarketId, Orders>, market: MarketId)
    requires market in b && (market in a || b[market] == map[])
    requires forall m :: m in b <==> m in a || m == market
    requires forall m :: m in a ==> b[m] == a[m]
    ensures b == if market in a then a else a[market := map[]]
  {
  }

  /** What is left of the taker can still rest. */
  ghost predicate LeavesRoom(m: MatchResult) {
    && m.taker.filled <= m.taker.terms.size
    && (!m.taker.Closed() && m.taker.Remaining() > 0 ==> Appendable(m.orders, m.taker))
  }

  /** After the match the residual can still be appended. */
  lemma MatchLeavesRoom(orders: Orders, order: Order, nowMs: nat)
    requires BookOk(orders) && Arriving(order) && Appendable(orders, order)
    ensures var m := Match(orders, order, order.terms.createdSequence, nowMs);
            m.taker.terms == order.terms && LeavesRoom(m)
  {
    var makers := Makers(orders, order);
    WalkFrame(orders, order, makers, order.terms.createdSequence, nowMs);
    WalkOk(orders, order, makers, order.terms.createdSequence, nowMs);
  }

  ghost predicate SoundBooks(books: map<MarketId, OrderBook>)
    reads Objects(books)
  {
    Separate(books) && forall m :: m in books ==> books[m].Valid()
  }

  class Engine {
    var books: map<MarketId, OrderBook>
    var markets: map<MarketId, MarketConfig>
    var sequencer: Sequencer
    var state: StateStore
    var orderMarketIndex: map<OrderId, MarketId>
    const world: World

    function View(): EngineView
      reads this, sequencer, state, Objects(books)
    {
      EngineView(markets, BooksView(books), sequencer.nextSeqId, sequencer.log, sequencer.idempotency,
                 state.View(), orderMarketIndex)
    }

    /** The object structure: every market owns a well-formed book. */
    ghost predicate Sound()
      reads this`books, Objects(books)
    {
      SoundBooks(books)
    }

    ghost predicate Valid()
      reads this, sequencer, state, Objects(books)
    {
      Sound() && Usable(View())
    }

    constructor (world: World)
      ensures Valid() && View() == NEW_ENGINE && this.world == world
      ensures fresh(sequencer) && fresh(state)
    {
      books, markets, orderMarketIndex := map[], map[], map[];
      sequencer := new Sequencer();
      state := new StateStore();
      this.world := world;
      new;
      assert View() == NEW_ENGINE;
    }

    /** `find_order`. */
    function Find(id: OrderId): (r: Option<Order>)
      reads this, sequencer, state, Objects(books)
      ensures r == FindOrder(View(), id)
    {
      if id in orderMarketIndex && orderMarketIndex[id] in books && id in books[orderMarketIndex[id]].orders
      then Some(books[orderMarketIndex[id]].orders[id])
      else None
    }

    // ---- Registration ---------------------------------------------------------------------------

    method AddMarketConfig(config: MarketConfig)
      requires Sound()
      modifies this`books, this`markets
      ensures Sound() && View() == AddMarket(old(View()), config)
      ensures forall m :: m in old(books) ==> m in books && books[m] == old(books)[m]
      ensures fresh(Objects(books) - old(Objects(books)))
    {
      ghost var before := View();
      EnsureBook(config.id);
      SetConfig(config);
      AddMarketParts(before, config, View());
    }

    method SetConfig(config: MarketConfig)
      modifies this`markets
      ensures markets == old(markets)[config.id := config] && BooksView(books) == old(BooksView(books))
    {
      markets := markets[config.id := config];
    }

    /** `books.entry(id).or_default()`. */
    method EnsureBook(market: MarketId)
      requires Sound()
      modifies this`books
      ensures Sound()
      ensures BooksView(books) == if market in old(BooksView(books)) then old(BooksView(books))
                                  else old(BooksView(books))[market := map[]]
      ensures forall m :: m in old(books) ==> m in books && books[m] == old(books)[m]
      ensures fresh(Objects(books) - old(Objects(books)))
    {
      ghost var before := BooksView(books);
      books := EntryOrDefault(books, market);
      NewEntry(before, BooksView(books), market);
    }

    // ---- Logging --------------------------------------------------------------------------------

    method Append(e: Event)
      modifies sequencer`nextSeqId, sequencer`log
      ensures sequencer.nextSeqId == old(sequencer.nextSeqId) + 1
      ensures sequencer.log == old(sequencer.log)
        + [SequencedEvent(old(sequencer.nextSeqId), world.wall(old(sequencer.nextSeqId)), e)]
      ensures BooksView(books) == old(BooksView(books))
    {
      sequencer.AppendEvent(e, world.wall(sequencer.nextSeqId));
    }

    /** Step 10: each fill is logged and booked in the ledgers. */
    method RecordFills(fills: seq<Fill>)
      modifies sequencer`nextSeqId, sequencer`log, state
      ensures sequencer.nextSeqId == old(sequencer.nextSeqId) + |fills|
      ensures sequencer.log == old(sequencer.log) + Stamp(old(sequencer.nextSeqId), FillEvents(fills), world.wall)
      ensures state.View() == ApplyFills(old(state.View()), fills)
    {
      var i := 0;
      ghost var next := sequencer.nextSeqId;
      ghost var log := sequencer.log;
      ghost var ledger := state.View();
      while i < |fills|
        invariant 0 <= i <= |fills|
        invariant sequencer.nextSeqId == next + i
        invariant sequencer.log == log + Stamp(next, FillEvents(fills[..i]), world.wall)
        invariant state.View() == ApplyFills(ledger, fills[..i])
      {
        Append(FillEvent(fills[i]));
        state.ApplyFillPair(fills[i]);
        assert fills[..i + 1] == fills[..i] + [fills[i]];
        ApplyFillsMore(ledger, fills[..i], fills[i]);
        i := i + 1;
      }
      assert fills[..i] == fills;
    }

    // ---- process_order --------------------------------------------------------------------------

    /** Step 8: the order enters the log, the idempotency table and the index. */
    method LogAcceptance(order: Order)
      modifies this`orderMarketIndex, sequencer
      ensures sequencer.nextSeqId == old(sequencer.nextSeqId) + 1
      ensures sequencer.log == old(sequencer.log)
        + [SequencedEvent(old(sequencer.nextSeqId), world.wall(old(sequencer.nextSeqId)), OrderAccepted(order))]
      ensures var t := order.terms;
              sequencer.idempotency == old(sequencer.idempotency)[KeyOf(t)
                := IdempotencyRecord(t.createdSequence, t.orderId, t.orderHash, t.acceptedAtMs)]
              && orderMarketIndex == old(orderMarketIndex)[t.orderId := t.marketId]
    {
      var t := order.terms;
      Append(OrderAccepted(order));
      sequencer.RegisterAccepted(t.traderId, t.clientOrderId,
                                 IdempotencyRecord(t.createdSequence, t.orderId, t.orderHash, t.acceptedAtMs));
      orderMarketIndex := orderMarketIndex[t.orderId := t.marketId];
    }

    /** Step 11: an STP cancel is logged and recorded. */
    method RecordStp(taker: Order)
      modifies sequencer`nextSeqId, sequencer`log, state
      ensures sequencer.nextSeqId == old(sequencer.nextSeqId) + |StpEvents(taker)|
      ensures sequencer.log == old(sequencer.log) + Stamp(old(sequencer.nextSeqId), StpEvents(taker), world.wall)
      ensures state.View() == if taker.status == CancelledStp then CancelHash(old(state.View()), taker.terms.orderHash)
                              else old(state.View())
    {
      if taker.status == CancelledStp {
        Append(OrderCancelled(taker.terms.orderId, taker.terms.orderHash, SelfTradePrevention));
        state.CancelOrder(taker.terms.orderHash);
      }
    }

    /** Step 9 on the market's own book; no other book changes. */
    method MatchBook(market: MarketId, order: Order, nowMs: nat) returns (taker: Order, fills: seq<Fill>)
      requires Sound() && market in books && Arriving(order)
      modifies books[market]
      ensures Sound()
      ensures MatchResult(books[market].orders, taker, fills)
           == Match(old(books[market].orders), order, order.terms.createdSequence, nowMs)
      ensures BooksView(books) == old(BooksView(books))[market := books[market].orders]
    {
      ghost var before := BooksView(books);
      taker, fills := MatchOrder(books[market], order, order.terms.createdSequence, nowMs);
      OneEntry(before, BooksView(books), market);
    }

    /** Step 12: a residual that can still trade rests in its book. */
    method RestResidual(market: MarketId, taker: Order, ghost m: MatchResult)
      requires taker == m.taker && Sound() && market in books && BooksView(books)[market] == m.orders
      requires LeavesRoom(m)
      modifies books[market]
      ensures Sound()
      ensures BooksView(books) == old(BooksView(books))[market := AfterMatch(m)]
    {
      ghost var before := BooksView(books);
      if !taker.Closed() && taker.Remaining() > 0 {
        books[market].Insert(taker);
      }
      OneEntry(before, BooksView(books), market);
    }

    /** Steps 10 and 11. */
    method RecordOutcome(taker: Order, fills: seq<Fill>)
      requires Sound()
      modifies sequencer`nextSeqId, sequencer`log, state
      ensures sequencer.nextSeqId == old(sequencer.nextSeqId) + |fills| + |StpEvents(taker)|
      ensures sequencer.log == old(sequencer.log)
        + Stamp(old(sequencer.nextSeqId), FillEvents(fills) + StpEvents(taker), world.wall)
      ensures var filled := ApplyFills(old(state.View()), fills);
              state.View() == if taker.status == CancelledStp then CancelHash(filled, taker.terms.orderHash) else filled
      ensures Sound() && BooksView(books) == old(BooksView(books))
    {
      StampConcat(sequencer.nextSeqId, FillEvents(fills), StpEvents(taker), world.wall);
      RecordFills(fills);
      RecordStp(taker);
    }

    /** Steps 9 to 11 in one market: match, and log the outcome. */
    method MatchAndRecord(market: MarketId, order: Order, nowMs: nat)
      returns (taker: Order, fills: seq<Fill>, ghost m: MatchResult)
      requires Sound() && market in books && Arriving(order)
      modifies sequencer`nextSeqId, sequencer`log, state, books[market]
      ensures Sound()
      ensures taker == m.taker && fills == m.fills
      ensures m == Match(old(books[market].orders), order, order.terms.createdSequence, nowMs)
      ensures BooksView(books) == old(BooksView(books))[market := m.orders]
      ensures sequencer.nextSeqId == old(sequencer.nextSeqId) + |m.fills| + |StpEvents(m.taker)|
      ensures sequencer.log == old(sequencer.log)
        + Stamp(old(sequencer.nextSeqId), FillEvents(m.fills) + StpEvents(m.taker), world.wall)
      ensures state.View() == AfterOutcome(old(state.View()), m)
    {
      taker, fills := MatchBook(market, order, nowMs);
      m := MatchResult(books[market].orders, taker, fills);
      RecordOutcome(taker, fills);
    }

    /** Steps 9 to 12: the residual rests. */
    method MatchAndRest(market: MarketId, order: Order, nowMs: nat)
      returns (taker: Order, fills: seq<Fill>, ghost m: MatchResult)
      requires Sound() && market in books && Arriving(order)
      requires Appendable(books[market].orders, order)
      modifies sequencer`nextSeqId, sequencer`log, state, books[market]
      ensures Sound()
      ensures taker == m.taker && fills == m.fills
      ensures m == Match(old(books[market].orders), order, order.terms.createdSequence, nowMs)
      ensures BooksView(books) == old(BooksView(books))[market := AfterMatch(m)]
      ensures sequencer.nextSeqId == old(sequencer.nextSeqId) + |m.fills| + |StpEvents(m.taker)|
      ensures sequencer.log == old(sequencer.log)
        + Stamp(old(sequencer.nextSeqId), FillEvents(m.fills) + StpEvents(m.taker), world.wall)
      ensures state.View() == AfterOutcome(old(state.View()), m)
    {
      ghost var before := BooksView(books);
      MatchLeavesRoom(books[market].orders, order, nowMs);
      taker, fills, m := MatchAndRecord(market, order, nowMs);
      SetTwice(before, market, m.orders, AfterMatch(m));
      RestResidual(market, taker, m);
    }

    /** The same, as one step of the state machine. */
    method SettleOrder(market: MarketId, order: Order, nowMs: nat)
      returns (taker: Order, fills: seq<Fill>, ghost m: MatchResult)
      requires Sound() && market in books && Arriving(order)
      requires Appendable(books[market].orders, order)
      modifies sequencer`nextSeqId, sequencer`log, state, books[market]
      ensures Sound()
      ensures taker == m.taker && fills == m.fills
      ensures m == Match(old(View()).books[market], order, order.terms.createdSequence, nowMs)
      ensures View() == Settle(old(View()), market, m, world.wall)
    {
      ghost var before := View();
      taker, fills, m := MatchAndRest(market, order, nowMs);
      SettleParts(before, market, m, world.wall, View());
    }

    /** Step 8, the nonce being stored already. */
    method AdmitOrder(order: Order, ghost before: EngineView)
      requires Sound() && View() == before.(ledger := SetNonce(before.ledger, order.terms.traderId, order.terms.nonce))
      modifies this`orderMarketIndex, sequencer
      ensures Sound() && View() == Admit(before, order, world.wall)
    {
      LogAcceptance(order);
    }

    /** Steps 8 to 12 for an order that has passed every gate; the nonce is already stored. */
    method Accept(order: Order, nowMs: nat, ghost before: EngineView) returns (outcome: SubmitOutcome)
      requires Sound() && Usable(before) && Arriving(order)
      requires order.terms.orderId !in before.index && order.terms.createdSequence == before.nextSeqId
      requires View() == before.(ledger := SetNonce(before.ledger, order.terms.traderId, order.terms.nonce))
      modifies this`orderMarketIndex, sequencer, state, Objects(books)
      ensures Sound()
      ensures (View(), outcome) == AcceptOrder(before, order, nowMs, world)
    {
      var t := order.terms;
      assert t.marketId in books ==> Appendable(books[t.marketId].orders, order) by {
        NewestAppendable(before, order);
      }
      AdmitOrder(order, before);
      if t.marketId !in books { return Panicked; }
      var taker, fills, _ := SettleOrder(t.marketId, order, nowMs);
      outcome := Accepted(OrderResult(t.orderId, t.orderHash, t.createdSequence, fills, taker.status, false));
    }

    /** Step 7. */
    method StoreNonce(trader: TraderId, nonce: nat) returns (r: Result<(), NonceError>)
      modifies state
      ensures r.Ok? <==> nonce > Lookup(old(View()).ledger.nonces, trader, 0)
      ensures r.Err? ==> r.error == NonceError(Lookup(old(View()).ledger.nonces, trader, 0), nonce)
      ensures View() == if r.Ok? then old(View()).(ledger := SetNonce(old(View()).ledger, trader, nonce))
              else old(View())
    {
      r := state.CheckAndUpdateNonce(trader, nonce);
      assert BooksView(books) == old(BooksView(books));
    }

    /** Steps 1 to 7: a rejection, the original result of a duplicate, or the nonce stored. */
    method CheckGates(signed: SignedOrder, nowMs: nat) returns (early: Option<SubmitOutcome>)
      requires Sound()
      modifies state
      ensures early.None? <==> Passes(old(View()), signed, nowMs, world)
      ensures early.None?
              ==> View() == old(View()).(ledger := SetNonce(old(View()).ledger, signed.traderId, signed.nonce))
      ensures early.Some? ==> View() == old(View())
      ensures early.Some? ==> forall id :: Submit(old(View()), signed, nowMs, id, world) == (old(View()), early.value)
    {
      var invalid := Validate(markets, signed, nowMs, world);
      if invalid.Some? { return Some(Rejected(InvalidOrder(invalid.value))); }
      var record := sequencer.IdempotencyCheck(signed.traderId, signed.clientOrderId);
      if record.Some? {
        var found := Find(record.value.orderId);
        var status := if found.Some? then found.value.status else Filled;
        return Some(Accepted(OrderResult(record.value.orderId, record.value.orderHash, record.value.originalSeqId, [],
                                         status, true)));
      }
      var nonce := StoreNonce(signed.traderId, signed.nonce);
      if nonce.Err? { return Some(Rejected(InvalidNonce(nonce.error))); }
      return None;
    }

    /** `process_order`. */
    method ProcessOrder(signed: SignedOrder, nowMs: nat, freshId: OrderId) returns (outcome: SubmitOutcome)
      requires Valid() && freshId !in orderMarketIndex
      modifies this`orderMarketIndex, sequencer, state, Objects(books)
      ensures Sound()
      ensures (View(), outcome) == Submit(old(View()), signed, nowMs, freshId, world)
    {
      ghost var before := View();
      var early := CheckGates(signed, nowMs);
      if early.Some? { return early.value; }
      var hash := CanonicalHash(signed);
      var seqId := sequencer.nextSeqId;
      var order := Order(Terms(freshId, signed.clientOrderId, hash, signed.marketId, signed.traderId,
                               signed.traderPubkey, signed.side, signed.priceTicks, signed.sizeLots,
                               signed.timeInForce, signed.nonce, signed.expiryTsMs, seqId, nowMs),
                         0, Open, seqId);
      outcome := Accept(order, nowMs, before);
    }

    // ---- process_cancel -------------------------------------------------------------------------

    /** `process_cancel`. */
    method ProcessCancel(id: OrderId, trader: TraderId) returns (outcome: CancelOutcome)
      requires Sound()
      modifies sequencer`nextSeqId, sequencer`log, state, Objects(books)
      ensures Sound()
      ensures (View(), outcome) == Cancel(old(View()), id, trader, world)
    {
      if id !in orderMarketIndex { return CancelNotFound(id); }
      var market := orderMarketIndex[id];
      if market !in books { return CancelPanicked; }
      if id !in books[market].orders { return CancelNotFound(id); }
      var order := books[market].orders[id];
      if order.terms.traderId != trader { return CancelUnauthorized(trader); }
      if order.Closed() { return CancelDone(id, None, true); }
      var seqId := sequencer.nextSeqId;
      ghost var before := View();
      CancelOpen(market, id);
      CancelParts(before, id, order, world, View());
      return CancelDone(id, Some(seqId), false);
    }

    /** Logs, records and applies the cancel of an open order. */
    method CancelOpen(market: MarketId, id: OrderId)
      requires Sound() && market in books && id in books[market].orders && !books[market].orders[id].Closed()
      modifies sequencer`nextSeqId, sequencer`log, state, books[market]
      ensures Sound()
      ensures var book := old(BooksView(books))[market];
              BooksView(books) == old(BooksView(books))[market := book[id := book[id].(status := Cancelled)]]
      ensures sequencer.nextSeqId == old(sequencer.nextSeqId) + 1
      ensures var hash := old(books[market].orders[id]).terms.orderHash;
              && sequencer.log == old(sequencer.log)
                 + [SequencedEvent(old(sequencer.nextSeqId), world.wall(old(sequencer.nextSeqId)),
                                   OrderCancelled(id, hash, TraderRequest))]
              && state.View() == CancelHash(old(state.View()), hash)
    {
      LogCancel(id, books[market].orders[id].terms.orderHash);
      CancelInBook(market, id);
    }

    /** The cancel event and its ledger entry. */
    method LogCancel(id: OrderId, hash: OrderHash)
      modifies sequencer`nextSeqId, sequencer`log, state
      ensures sequencer.nextSeqId == old(sequencer.nextSeqId) + 1
      ensures sequencer.log == old(sequencer.log)
        + [SequencedEvent(old(sequencer.nextSeqId), world.wall(old(sequencer.nextSeqId)),
                          OrderCancelled(id, hash, TraderRequest))]
      ensures state.View() == CancelHash(old(state.View()), hash)
      ensures BooksView(books) == old(BooksView(books))
    {
      Append(OrderCancelled(id, hash, TraderRequest));
      state.CancelOrder(hash);
    }

    method CancelInBook(market: MarketId, id: OrderId)
      requires Sound() && market in books && id in books[market].orders && !books[market].orders[id].Closed()
      modifies books[market]
      ensures Sound()
      ensures var book := old(BooksView(books))[market];
              BooksView(books) == old(BooksView(books))[market := book[id := book[id].(status := Cancelled)]]
    {
      ghost var before := BooksView(books);
      var _ := books[market].CancelWithStatus(id, Cancelled);
      OneEntry(before, BooksView(books), market);
    }

    // ---- restore_from_events --------------------------------------------------------------------

    static method IndexFromEvents(events: seq<SequencedEvent>) returns (index: map<OrderId, MarketId>)
      ensures index == RebuildIndex(events)
    {
      index := map[];
      var i := 0;
      while i < |events|
        invariant 0 <= i <= |events|
        invariant index == RebuildIndex(events[..i])
      {
        if events[i].event.OrderAccepted? {
          var t := events[i].event.order.terms;
          index := index[t.orderId := t.marketId];
        }
        assert events[..i + 1][..i] == events[..i];
        i := i + 1;
      }
      assert events[..i] == events;
    }

    /** The rebuilt tables replace the old ones; the markets stay. */
    method Adopt(newBooks: map<MarketId, OrderBook>, newState: StateStore, index: map<OrderId, MarketId>,
                 resumed: Sequencer)
      modifies this`books, this`state, this`orderMarketIndex, this`sequencer
      ensures books == newBooks && BooksView(books) == old(BooksView(newBooks)) && state.View() == old(newState.View())
      ensures markets == old(markets) && orderMarketIndex == index && sequencer == resumed
    {
      books, state, orderMarketIndex, sequencer := newBooks, newState, index, resumed;
    }

    /** `restore_from_events`. */
    method RestoreFromEvents(events: seq<SequencedEvent>) returns (r: Result<(), ReplayError>)
      modifies this`books, this`state, this`orderMarketIndex, this`sequencer
      ensures (View(), r) == Restore(old(View()), events)
      ensures r.Ok? && events != [] && SoundOrders(Replayed(events).value.orders) ==> Sound()
      ensures events == [] || r.Err? ==> books == old(books)
      ensures events != [] && r.Ok? ==> fresh(Objects(books))
    {
      if events == [] { return Ok(()); }
      var replayed := Replay(events);
      if replayed.Err? {
        assert BooksView(books) == old(BooksView(books));
        return Err(replayed.error);
      }
      var index := IndexFromEvents(events);
      var resumed := new Sequencer.Resume(events[|events| - 1].seqId + 1, events);
      Adopt(replayed.value.books, replayed.value.state, index, resumed);
      RestoreParts(old(View()), events, Replayed(events).value, View());
      return Ok(());
    }
  }
}
