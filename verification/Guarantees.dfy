/** The main results for whole runs of the engine, from registration of the first market on. */
module Guarantees {
  import opened Basics
  import opened Domain
  import opened Books
  import opened Matching
  import opened MatchTheory
  import opened MatchReplay
  import opened Replaying
  import opened LegalLogs
  import opened EngineSpec
  import opened Live
  import opened Steps
  import opened Runs
  import opened Restart
  import opened Depth
  import opened Grammar
  import opened Sequencing

  // ---- The book is never crossed ---------------------------------------------------------------

  /**
   * In every state of every run whose restarts find an uncrossed log, the best bid of a market is below its
   * best ask. Without restarts, or with none after a crash, that is every run (`CleanWithoutCrash`).
   */
  lemma NeverCrossed(ops: seq<Op>, world: World, market: MarketId, book: OrderBook)
    requires FreshIds(NEW_ENGINE, ops, world) && CleanRestarts(NEW_ENGINE, ops, world)
    requires book.Valid() && book.orders == BookOf(Run(NEW_ENGINE, ops, world), market)
    ensures BestOf(book, Buy).Some? && BestOf(book, Sell).Some? ==> BestOf(book, Buy).value < BestOf(book, Sell).value
  {
    NewCanRun(ops, world);
    NewEngineInv();
    RunUncrossed(NEW_ENGINE, ops, world);
    BestBidBelowBestAsk(book);
  }

  // ---- Replay rebuilds the book ----------------------------------------------------------------

  /**
   * Replay agrees with the live book: after any run without forced cancels and crashes, a market's live book and
   * the one rebuilt from the log have the same price levels, the same FIFO queue at every level, and the same
   * open orders with the same fills and statuses.
   */
  lemma ReplayRebuildsBook(ops: seq<Op>, world: World, market: MarketId, live: OrderBook, rebuilt: OrderBook)
    requires FreshIds(NEW_ENGINE, ops, world) && NoForce(ops) && NoCrash(NEW_ENGINE, ops, world)
    requires var v := Run(NEW_ENGINE, ops, world);
             && live.Valid() && live.orders == BookOf(v, market)
             && Replayed(v.log).Ok? && rebuilt.Valid()
             && rebuilt.orders == Lookup(ReplayedBooks(Replayed(v.log).value.orders), market, map[])
    ensures live.bids == rebuilt.bids && live.asks == rebuilt.asks && TwinBook(live.orders, rebuilt.orders)
  {
    NewCanRun(ops, world);
    NewEngineInv();
    RunKeeps(NEW_ENGINE, ops, world);
    var v := Run(NEW_ENGINE, ops, world);
    LiveBookIsReplayed(v, market);
    ReplayedBookOf(WorkingOf(v).orders, market);
    QueuesRebuilt(live, rebuilt);
  }

  // ---- Depth ------------------------------------------------------------------------------------

  /** The maker side loses what was traded, the taker side gains what rests. */
  ghost predicate DepthMoves(before: Orders, after: Orders, taker: Side, traded: nat, resting: int) {
    && SideDepth(after, taker.Opposite()) == SideDepth(before, taker.Opposite()) - traded
    && SideDepth(after, taker) == SideDepth(before, taker) + resting
  }

  predicate Ended(status: OrderStatus) {
    status == Filled || status == CancelledStp
  }

  lemma MatchDepth(book: Orders, o: Order, seqId: nat, nowMs: nat)
    requires BookOk(book) && Arriving(o) && o.terms.orderId !in book
    ensures var m := Match(book, o, seqId, nowMs);
            var traded := TotalSize(m.fills);
            DepthMoves(book, AfterMatch(m), o.terms.side, traded,
                       if Ended(m.taker.status) then 0 else o.terms.size - traded)
  {
    DepthConserved(book, o, seqId, nowMs);
    MatchStatus(book, o, seqId, nowMs);
  }

  lemma AcceptDepth(v: EngineView, o: Order, nowMs: nat, world: World)
    requires o.terms.marketId in v.books && BookOk(v.books[o.terms.marketId])
    requires Arriving(o) && o.terms.orderId !in v.books[o.terms.marketId]
    ensures var r := AcceptOrder(v, o, nowMs, world);
            && r.1.Accepted?
            && var traded := TotalSize(r.1.result.fills);
            && o.terms.marketId in r.0.books
            && DepthMoves(v.books[o.terms.marketId], r.0.books[o.terms.marketId], o.terms.side, traded,
                          if Ended(r.1.result.finalStatus) then 0 else o.terms.size - traded)
    ensures forall m :: m != o.terms.marketId ==> BookOf(AcceptOrder(v, o, nowMs, world).0, m) == BookOf(v, m)
  {
    MatchDepth(v.books[o.terms.marketId], o, o.terms.createdSequence, nowMs);
  }

  lemma AcceptedCases(v: EngineView, s: SignedOrder, nowMs: nat, freshId: OrderId, world: World)
    requires var outcome := Submit(v, s, nowMs, freshId, world).1;
             (outcome.Accepted? && !outcome.result.isDuplicate) || (Passes(v, s, nowMs, world) && s.marketId in v.books)
    ensures var o := NewOrder(s, freshId, v.nextSeqId, nowMs);
            Submit(v, s, nowMs, freshId, world) == AcceptOrder(v, o, nowMs, world) && s.marketId in v.books
              && Arriving(o)
  {
    SubmitCases(v, s, nowMs, freshId, world);
  }

  /**
   * An accepted order takes exactly what it traded off the other side of its market, adds exactly its resting
   * remainder to its own side, and changes no other market.
   */
  lemma SubmitConservesDepth(v: EngineView, s: SignedOrder, nowMs: nat, freshId: OrderId, world: World)
    requires Inv(v) && freshId !in v.index
    requires var outcome := Submit(v, s, nowMs, freshId, world).1; outcome.Accepted? && !outcome.result.isDuplicate
    ensures var r := Submit(v, s, nowMs, freshId, world);
            var traded := TotalSize(r.1.result.fills);
            DepthMoves(BookOf(v, s.marketId), BookOf(r.0, s.marketId), s.side, traded,
                       if Ended(r.1.result.finalStatus) then 0 else s.sizeLots - traded)
    ensures forall m :: m != s.marketId ==> BookOf(Submit(v, s, nowMs, freshId, world).0, m) == BookOf(v, m)
  {
    var o := NewOrder(s, freshId, v.nextSeqId, nowMs);
    AcceptedCases(v, s, nowMs, freshId, world);
    assert BookOk(v.books[s.marketId]) && freshId !in v.books[s.marketId] by {
      assert BookTracks(v.books[s.marketId], s.marketId, WorkingOf(v));
    }
    AcceptDepth(v, o, nowMs, world);
  }

  lemma MatchStatus(orders: Orders, taker: Order, seqId: nat, nowMs: nat)
    requires BookOk(orders) && Arriving(taker)
    ensures Match(orders, taker, seqId, nowMs).taker.status != Cancelled
  {
    WalkStatus(orders, taker, Makers(orders, taker), seqId, nowMs);
  }

  lemma {:induction false} WalkStatus(orders: Orders, taker: Order, ids: seq<OrderId>, seqId: nat, nowMs: nat)
    requires taker.status != Cancelled
    ensures Walk(orders, taker, ids, seqId, nowMs).taker.status != Cancelled
    decreases |ids|
  {
    if ids != [] && !Done(taker) {
      if ids[0] !in orders || orders[ids[0]].Closed() {
        WalkStatus(orders, taker, ids[1..], seqId, nowMs);
      } else if orders[ids[0]].terms.traderId != taker.terms.traderId {
        var qty := FillQty(taker, orders[ids[0]]);
        var orders' := orders[ids[0] := ApplyQty(orders[ids[0]], qty, seqId)];
        WalkStatus(orders', ApplyQty(taker, qty, seqId), ids[1..], seqId, nowMs);
      }
    }
  }

  // ---- Cancel-all leaves the book behind --------------------------------------------------------

  /** Every open acceptance of the market is among the orders cancel-all selects. */
  lemma {:induction false} AcceptedInHas(log: seq<SequencedEvent>, market: MarketId, i: nat)
    requires i < |log| && log[i].event.OrderAccepted? && !log[i].event.order.Closed()
    requires log[i].event.order.terms.marketId == market
    ensures var t := log[i].event.order.terms; (t.orderId, t.orderHash) in AcceptedIn(log, market)
    decreases |log|
  {
    var last := |log| - 1;
    if i < last { AcceptedInHas(log[..last], market, i); }
  }

  /** An order of the market that some engine accepted is selected. */
  lemma SelectsAll(log: seq<SequencedEvent>, orders: Orders, market: MarketId, id: OrderId)
    requires LegalLog(log) && LogOrdersKnown(log, orders) && exists i :: AcceptedBy(log, i, id)
    requires id in orders && orders[id].terms.marketId == market
    ensures (id, orders[id].terms.orderHash) in AcceptedIn(log, market)
  {
    var i :| AcceptedBy(log, i, id);
    assert AcceptanceKnown(log[i], orders);
    LogTheory.LegalAt(log, i);
    AcceptedInHas(log, market, i);
  }

  /** So once all selected orders are closed, the market has no open order left in the working set. */
  lemma NoneLeftOpen(log: seq<SequencedEvent>, w: Working, w': Working, market: MarketId)
    requires LegalLog(log) && LogOrdersKnown(log, w.orders) && SameButStatus(w, w')
    requires forall id :: id in w.orders ==> exists i :: AcceptedBy(log, i, id)
    requires AllClosed(AcceptedIn(log, market), w'.orders)
    ensures OpenOrders(w'.orders, market) == map[]
  {
    forall id | id in w'.orders && w'.orders[id].terms.marketId == market ensures w'.orders[id].Closed() {
      SelectsAll(log, w.orders, market, id);
      assert (id, w.orders[id].terms.orderHash).0 == id;
    }
    assert OpenOrders(w'.orders, market).Keys == {};
  }

  lemma EmptyTwin(book: Orders)
    ensures TwinBook(book, map[]) <==> OpenIds(book) == {}
  {
    assert forall id :: id in OpenIds(book) <==> id in book && !book[id].Closed();
    if TwinBook(book, map[]) {
      forall id | id in OpenIds(book) ensures false { }
    }
  }

  /**
   * Cancel-all closes every order of the market in the log but none in the book, so the live book and the
   * replayed one still agree after it exactly when nothing was resting in that market.
   */
  lemma CancelAllDiverges(v: EngineView, market: MarketId, world: World)
    requires Inv(v) && market in v.markets
    ensures var v' := CancelAll(v, market, world).0;
            && Inv(v') && v'.books == v.books
            && OpenOrders(WorkingOf(v').orders, market) == map[]
            && (TwinBook(BookOf(v', market), OpenOrders(WorkingOf(v').orders, market))
                <==> OpenIds(BookOf(v, market)) == {})
  {
    var w, targets := WorkingOf(v), AcceptedIn(v.log, market);
    LogFacts(v);
    AcceptedInKnown(v.log, market, w.orders);
    var w' := ForceCancelsTrack(v, w, targets, world);
    TracksIsInv(ForceCancels(v, targets, world), w');
    ForceCancelsBooks(v, targets, world);
    NoneLeftOpen(v.log, w, w', market);
    EmptyTwin(BookOf(v, market));
  }

  // ---- What a duplicate is told -------------------------------------------------------------------

  /**
   * A resubmission is told the status of the order as the log has it exactly when the order is still in its
   * book or was filled. A taker cancelled for self-trade never was in a book, and after a restart a cancelled
   * order no longer is: both are reported as filled.
   */
  lemma DuplicateReports(v: EngineView, s: SignedOrder, nowMs: nat, freshId: OrderId, world: World)
    requires Inv(v) && BooksReplay(v) && Validate(v.markets, s, nowMs, world).None?
    requires IdempotencyKey(s.traderId, s.clientOrderId) in v.idempotency
    ensures var r := Submit(v, s, nowMs, freshId, world);
            var record := v.idempotency[IdempotencyKey(s.traderId, s.clientOrderId)];
            && r.0 == v && r.1.Accepted? && r.1.result.isDuplicate && r.1.result.fills == []
            && r.1.result.orderId == record.orderId && r.1.result.seqId == record.originalSeqId
            && record.orderId in WorkingOf(v).orders
            && var logged := WorkingOf(v).orders[record.orderId].status;
               (r.1.result.finalStatus == logged <==> FindOrder(v, record.orderId).Some? || logged == Filled)
  {
    var w, id := WorkingOf(v), v.idempotency[IdempotencyKey(s.traderId, s.clientOrderId)].orderId;
    if FindOrder(v, id).Some? {
      assert BookTracks(v.books[v.index[id]], v.index[id], w);
      assert Synced(w.orders, FindOrder(v, id).value);
    }
  }
}
