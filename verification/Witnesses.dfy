/**
 * Reachable engines on the failing side of every property that holds only under a condition. The orders are
 * those of `SampleOrders`, or any like them.
 */
module Witnesses {
  import opened Basics
  import opened Domain
  import opened Books
  import opened Matching
  import opened MatchTheory
  import opened Canonical
  import opened MatchReplay
  import opened LegalLogs
  import opened Sequencing
  import opened Replaying
  import opened EngineSpec
  import opened Live
  import opened Steps
  import opened Backing
  import opened Restart
  import opened LogTheory
  import opened Grammar
  import opened Twins
  import opened Equivalence
  import opened Guarantees
  import opened Finality
  import opened Crashes
  import opened Samples

  // ---- A quiet market crashes after a restart --------------------------------------------------------

  lemma QuietHits(v: EngineView, c: MarketConfig, s: SignedOrder, id: OrderId, t: SignedOrder, nowMs: nat, id2: OrderId,
                  world: World)
    requires OneOrder(v, c, s, id, Cancelled)
    ensures HitsQuiet(v, OpCancel(id, s.traderId), world)
    ensures Passes(v, t, nowMs, world) && t.marketId == c.id ==> HitsQuiet(v, OpSubmit(t, nowMs, id2), world)
    ensures Cancel(v, id, s.traderId, world).1 == CancelDone(id, None, true) && Housed(v) && v.log != []
  {
    assert OpenIds(BookOf(v, c.id)) == {};
  }

  lemma StepIsCall(r: EngineView, id: OrderId, trader: TraderId, t: SignedOrder, nowMs: nat, id2: OrderId, world: World)
    ensures Panics(Step(r, OpCancel(id, trader), world).1) <==> Cancel(r, id, trader, world).1.CancelPanicked?
    ensures Panics(Step(r, OpSubmit(t, nowMs, id2), world).1) <==> Submit(r, t, nowMs, id2, world).1.Panicked?
  {
  }

  /** Register a market, submit, cancel, restart: a second cancel and a new order crash. */
  lemma QuietMarketCrashes(c: MarketConfig, s: SignedOrder, t: SignedOrder, nowMs: nat, id: OrderId, id2: OrderId,
                           world: World)
    requires Sample(c, s, nowMs, world) && Sample(c, t, nowMs, world) && Follows(s, t)
    ensures var v := Run(NEW_ENGINE, QuietOps(c, s, nowMs, id), world);
            && FreshIds(NEW_ENGINE, QuietOps(c, s, nowMs, id), world)
            && Cancel(v, id, s.traderId, world).1 == CancelDone(id, None, true)
            && Cancel(Restarted(v), id, s.traderId, world).1.CancelPanicked?
            && Submit(v, t, nowMs, id2, world).1.Accepted?
            && Submit(Restarted(v), t, nowMs, id2, world).1.Panicked?
  {
    var ops := QuietOps(c, s, nowMs, id);
    var v := Run(NEW_ENGINE, ops, world);
    QuietRun(c, s, nowMs, id, world);
    RunRestartable(ops, world);
    PassesNext(v, c, s, t, nowMs, id, Cancelled, world);
    AcceptsNext(v, c, s, t, nowMs, id, Cancelled, id2, world);
    QuietHits(v, c, s, id, t, nowMs, id2, world);
    StepIsCall(Restarted(v), id, s.traderId, t, nowMs, id2, world);
    RestartPanics(v, OpCancel(id, s.traderId), world);
    RestartPanics(v, OpSubmit(t, nowMs, id2), world);
  }

  /** Registering the markets again helps until the next restart only. */
  lemma ReopenedCrashesLater(c: MarketConfig, s: SignedOrder, t: SignedOrder, nowMs: nat, id: OrderId, id2: OrderId,
                             world: World)
    requires Sample(c, s, nowMs, world) && Sample(c, t, nowMs, world) && Follows(s, t)
    ensures var v := Run(NEW_ENGINE, QuietOps(c, s, nowMs, id), world);
            !NoCrash(Reopened(v, [c]), [OpRestart, OpSubmit(t, nowMs, id2)], world)
  {
    var v := Run(NEW_ENGINE, QuietOps(c, s, nowMs, id), world);
    QuietMarketCrashes(c, s, t, nowMs, id, id2, world);
    QuietInv(c, s, nowMs, id, world);
    RestartedLog(v);
    Rehoused(Restarted(v), c);
    LaterCrash(v, Reopened(v, [c]), t, nowMs, id2, world);
  }

  lemma Rehoused(r: EngineView, c: MarketConfig)
    requires c.id in r.markets && r.markets[c.id] == c
    ensures Rehouse(r, [c]).markets == r.markets && Rehouse(r, [c]).log == r.log
  {
    assert [c][1..] == [];
    assert r.markets[c.id := c] == r.markets;
  }

  /** What crashes after a restart crashes after any restart from the same log. */
  lemma LaterCrash(v: EngineView, r: EngineView, t: SignedOrder, nowMs: nat, id2: OrderId, world: World)
    requires r.markets == v.markets && r.log == v.log && Submit(Restarted(v), t, nowMs, id2, world).1.Panicked?
    ensures !NoCrash(r, [OpRestart, OpSubmit(t, nowMs, id2)], world)
  {
    assert Restarted(r) == Restarted(v);
    RestartThenCrash(r, t, nowMs, id2, world);
  }

  lemma RestartThenCrash(r: EngineView, t: SignedOrder, nowMs: nat, id2: OrderId, world: World)
    requires Submit(Restarted(r), t, nowMs, id2, world).1.Panicked?
    ensures !NoCrash(r, [OpRestart, OpSubmit(t, nowMs, id2)], world)
  {
    assert [OpRestart, OpSubmit(t, nowMs, id2)][1..] == [OpSubmit(t, nowMs, id2)];
  }

  // ---- Cancel-all -------------------------------------------------------------------------------------

  lemma RestInv(c: MarketConfig, s: SignedOrder, nowMs: nat, id: OrderId, world: World)
    requires Sample(c, s, nowMs, world)
    ensures var v := Run(NEW_ENGINE, RestOps(c, s, nowMs, id), world);
            && OneOrder(v, c, s, id, Open) && |v.log| == 1 && v.log[0].event.OrderAccepted?
            && Inv(v) && BooksReplay(v) && CancelsFinal(v.log)
  {
    RestRun(c, s, nowMs, id, world);
    RunRestartable(RestOps(c, s, nowMs, id), world);
  }

  /** The live book of the market is not the one the log gives. */
  ghost predicate Apart(v: EngineView, market: MarketId)
    requires Inv(v)
  {
    !TwinBook(BookOf(v, market), OpenOrders(WorkingOf(v).orders, market))
  }

  /** After a cancel-all the resting order is in the live book and not in the replayed one. */
  lemma BookAndLogPart(c: MarketConfig, s: SignedOrder, nowMs: nat, id: OrderId, world: World)
    requires Sample(c, s, nowMs, world)
    ensures var v := CancelAll(Run(NEW_ENGINE, RestOps(c, s, nowMs, id), world), c.id, world).0;
            Inv(v) && Apart(v, c.id)
  {
    RestRests(c, s, nowMs, id, world);
    PartAt(Run(NEW_ENGINE, RestOps(c, s, nowMs, id), world), c.id, id, world);
  }

  ghost predicate HasResting(v: EngineView, market: MarketId, id: OrderId) {
    Inv(v) && market in v.markets && RestsIn(v.books, market, id)
  }

  lemma RestRests(c: MarketConfig, s: SignedOrder, nowMs: nat, id: OrderId, world: World)
    requires Sample(c, s, nowMs, world)
    ensures HasResting(Run(NEW_ENGINE, RestOps(c, s, nowMs, id), world), c.id, id)
  {
    RestInv(c, s, nowMs, id, world);
  }

  lemma PartAt(v: EngineView, market: MarketId, id: OrderId, world: World)
    requires HasResting(v, market, id)
    ensures var v' := CancelAll(v, market, world).0;
            Inv(v') && Apart(v', market)
  {
    assert id in OpenIds(BookOf(v, market));
    CancelAllDiverges(v, market, world);
  }

  lemma {:induction false} ForceKeepsNonces(v: EngineView, targets: seq<(OrderId, OrderHash)>, world: World)
    ensures ForceCancels(v, targets, world).ledger.nonces == v.ledger.nonces
    decreases |targets|
  {
    if targets == [] {
    } else {
      ForceKeepsNonces(v, targets[..|targets| - 1], world);
    }
  }

  lemma PassesAfterForce(v: EngineView, market: MarketId, t: SignedOrder, nowMs: nat, world: World)
    requires market in v.markets
    ensures Passes(CancelAll(v, market, world).0, t, nowMs, world) <==> Passes(v, t, nowMs, world)
  {
    ForceCancelsBooks(v, AcceptedIn(v.log, market), world);
    ForceKeepsNonces(v, AcceptedIn(v.log, market), world);
  }

  /** The resting order is the one maker the opposite order crosses. */
  lemma MeetsIt(v: EngineView, c: MarketConfig, s: SignedOrder, id: OrderId, o: Order)
    requires OneOrder(v, c, s, id, Open) && BookOk(v.books[c.id])
    requires s.side == Buy && o.terms.side == Sell && o.terms.price <= s.priceTicks
    ensures Makers(v.books[c.id], o) != [] && Makers(v.books[c.id], o)[0] == id
  {
    var makers := Makers(v.books[c.id], o);
    MakersAreMakers(v.books[c.id], o);
    assert id in CrossingIds(v.books[c.id], o);
    assert makers[0] in makers;
  }

  /** A buy rests, is cancelled by force, and is then traded with: a fill after a cancel of the same order. */
  lemma CancelledOrderTrades(c: MarketConfig, s: SignedOrder, u: SignedOrder, nowMs: nat, id: OrderId, id2: OrderId,
                             world: World)
    requires Sample(c, s, nowMs, world) && Sample(c, u, nowMs, world)
    requires Follows(s, u) && Opposes(s, u) && u.traderId != s.traderId
    ensures var v := CancelAll(Run(NEW_ENGINE, RestOps(c, s, nowMs, id), world), c.id, world).0;
            && Passes(v, u, nowMs, world) && CancelsFinal(v.log)
            && !CancelsFinal(Submit(v, u, nowMs, id2, world).0.log)
  {
    RestInv(c, s, nowMs, id, world);
    TradesAt(Run(NEW_ENGINE, RestOps(c, s, nowMs, id), world), c, s, u, nowMs, id, id2, world);
  }

  lemma TradesAt(v: EngineView, c: MarketConfig, s: SignedOrder, u: SignedOrder, nowMs: nat, id: OrderId, id2: OrderId,
                 world: World)
    requires OneOrder(v, c, s, id, Open) && Inv(v) && CancelsFinal(v.log)
    requires Sample(c, u, nowMs, world) && Follows(s, u) && Opposes(s, u) && u.traderId != s.traderId
    ensures var v' := CancelAll(v, c.id, world).0;
            && Passes(v', u, nowMs, world) && CancelsFinal(v'.log)
            && !CancelsFinal(Submit(v', u, nowMs, id2, world).0.log)
  {
    var v' := CancelAll(v, c.id, world).0;
    PassesNext(v, c, s, u, nowMs, id, Open, world);
    PassesAfterForce(v, c.id, u, nowMs, world);
    CancelAllLogs(v, c.id, world, id);
    assert BookTracks(v.books[c.id], c.id, WorkingOf(v));
    MeetsIt(v, c, s, id, NewOrder(u, id2, v'.nextSeqId, nowMs));
    FinalityAfterCancelAll(v, u, nowMs, id2, world);
  }

  // ---- Duplicates told the wrong status -----------------------------------------------------------------

  lemma DuplicateOf(v: EngineView, c: MarketConfig, s: SignedOrder, nowMs: nat, id: OrderId, freshId: OrderId,
                    world: World)
    requires Validate(v.markets, s, nowMs, world).None?
    requires KeyNames(v, s, id) && FindOrder(v, id).None?
    ensures var r := Submit(v, s, nowMs, freshId, world);
            r.1.Accepted? && r.1.result.isDuplicate && r.1.result.finalStatus == Filled
  {
  }

  /** What the log makes of an order it cancelled last. */
  lemma LastCancelled(log: seq<SequencedEvent>, id: OrderId, hash: OrderHash, reason: CancelReason)
    requires LegalLog(log) && log != [] && log[|log| - 1].event == OrderCancelled(id, hash, reason)
    ensures Replayed(log).Ok? && id in Replayed(log).value.orders
    ensures Replayed(log).value.orders[id].status == CancelStatus(reason)
  {
    LastStep(log);
  }

  /** Submit, cancel, restart, submit again: the order is reported as filled. */
  lemma CancelledReportedFilled(c: MarketConfig, s: SignedOrder, nowMs: nat, id: OrderId, freshId: OrderId,
                                world: World)
    requires Sample(c, s, nowMs, world)
    ensures var v := Restarted(Run(NEW_ENGINE, QuietOps(c, s, nowMs, id), world));
            var r := Submit(v, s, nowMs, freshId, world);
            && r.1.Accepted? && r.1.result.isDuplicate && r.1.result.finalStatus == Filled
            && Inv(v) && id in WorkingOf(v).orders && WorkingOf(v).orders[id].status == Cancelled
  {
    var v := Run(NEW_ENGINE, QuietOps(c, s, nowMs, id), world);
    QuietInv(c, s, nowMs, id, world);
    RestartKeeps(v);
    RestartedIsTwin(v);
    QuietForgets(v, c, s, id);
    DuplicateOf(Restarted(v), c, s, nowMs, id, freshId, world);
  }

  lemma QuietInv(c: MarketConfig, s: SignedOrder, nowMs: nat, id: OrderId, world: World)
    requires Sample(c, s, nowMs, world)
    ensures var v := Run(NEW_ENGINE, QuietOps(c, s, nowMs, id), world);
            && OneOrder(v, c, s, id, Cancelled) && Inv(v) && BooksReplay(v)
            && id in WorkingOf(v).orders && WorkingOf(v).orders[id].status == Cancelled
  {
    var v := Run(NEW_ENGINE, QuietOps(c, s, nowMs, id), world);
    QuietRun(c, s, nowMs, id, world);
    RunRestartable(QuietOps(c, s, nowMs, id), world);
    assert BookTracks(v.books[c.id], c.id, WorkingOf(v));
    assert Synced(WorkingOf(v).orders, v.books[c.id][id]);
  }

  lemma QuietForgets(v: EngineView, c: MarketConfig, s: SignedOrder, id: OrderId)
    requires OneOrder(v, c, s, id, Cancelled) && Inv(v)
    requires id in WorkingOf(v).orders && WorkingOf(v).orders[id].status == Cancelled
    ensures FindOrder(Restarted(v), id).None?
  {
    RestartedFields(v);
  }

  /** An order that meets its own trader's order first is cancelled on the spot and rests nowhere. */
  lemma MeetsOwn(v: EngineView, o: Order, nowMs: nat, world: World)
    requires o.terms.marketId in v.books && BookOk(v.books[o.terms.marketId]) && Arriving(o)
    requires var makers, book := Makers(v.books[o.terms.marketId], o), v.books[o.terms.marketId];
             makers != [] && makers[0] in book && book[makers[0]].terms.traderId == o.terms.traderId
    ensures var r := AcceptOrder(v, o, nowMs, world);
            && r.1.Accepted? && r.0.books == v.books && r.0.index == v.index[o.terms.orderId := o.terms.marketId]
            && r.0.markets == v.markets
            && KeyOf(o.terms) in r.0.idempotency && r.0.idempotency[KeyOf(o.terms)].orderId == o.terms.orderId
            && r.0.log != [] && r.0.log[|r.0.log| - 1].event
                                == OrderCancelled(o.terms.orderId, o.terms.orderHash, SelfTradePrevention)
  {
    var book := v.books[o.terms.marketId];
    MakersAreMakers(book, o);
    assert Makers(book, o)[0] in Makers(book, o);
    var m := Match(book, o, o.terms.createdSequence, nowMs);
    assert m.fills == [] && m.taker.status == CancelledStp && m.orders == book && m.taker.terms == o.terms;
    AcceptedLog(v, o, nowMs, world);
    assert v.books[o.terms.marketId := book] == v.books;
  }

  /** A taker cancelled for self-trade, submitted again, is reported as filled. */
  lemma OwnTradeReportedFilled(c: MarketConfig, s: SignedOrder, own: SignedOrder, nowMs: nat, id: OrderId, id2: OrderId,
                               freshId: OrderId, world: World)
    requires Sample(c, s, nowMs, world) && Sample(c, own, nowMs, world) && id2 != id
    requires Follows(s, own) && Opposes(s, own) && own.traderId == s.traderId
    ensures var v := Run(NEW_ENGINE, RestOps(c, s, nowMs, id) + [OpSubmit(own, nowMs, id2)], world);
            var r := Submit(v, own, nowMs, freshId, world);
            && r.1.Accepted? && r.1.result.isDuplicate && r.1.result.finalStatus == Filled
            && Inv(v) && id2 in WorkingOf(v).orders && WorkingOf(v).orders[id2].status == CancelledStp
  {
    RestInv(c, s, nowMs, id, world);
    RunSnoc(NEW_ENGINE, RestOps(c, s, nowMs, id), OpSubmit(own, nowMs, id2), world);
    OwnTradeAt(Run(NEW_ENGINE, RestOps(c, s, nowMs, id), world), c, s, own, nowMs, id, id2, freshId, world);
  }

  lemma OwnTradeAt(v0: EngineView, c: MarketConfig, s: SignedOrder, own: SignedOrder, nowMs: nat, id: OrderId,
                   id2: OrderId,
                   freshId: OrderId, world: World)
    requires OneOrder(v0, c, s, id, Open) && Inv(v0) && id2 != id
    requires Sample(c, own, nowMs, world) && Follows(s, own) && Opposes(s, own) && own.traderId == s.traderId
    ensures var v := Submit(v0, own, nowMs, id2, world).0;
            var r := Submit(v, own, nowMs, freshId, world);
            && r.1.Accepted? && r.1.result.isDuplicate && r.1.result.finalStatus == Filled
            && Inv(v) && id2 in WorkingOf(v).orders && WorkingOf(v).orders[id2].status == CancelledStp
  {
    SubmitKeeps(v0, own, nowMs, id2, world);
    OwnOrder(v0, c, s, own, nowMs, id, id2, world);
    StpDuplicate(Submit(v0, own, nowMs, id2, world).0, c, own, nowMs, id2, freshId, world);
  }

  ghost predicate KeyNames(v: EngineView, s: SignedOrder, id: OrderId) {
    var key := IdempotencyKey(s.traderId, s.clientOrderId);
    key in v.idempotency && v.idempotency[key].orderId == id
  }

  /** The order was cancelled for self-trade by the last logged event. */
  ghost predicate JustCancelled(v: EngineView, own: SignedOrder, id2: OrderId) {
    && FindOrder(v, id2).None? && KeyNames(v, own, id2)
    && v.log != [] && v.log[|v.log| - 1].event
                      == OrderCancelled(id2, OrderHash(CanonicalBytes(own)), SelfTradePrevention)
  }

  lemma StpDuplicate(v: EngineView, c: MarketConfig, own: SignedOrder, nowMs: nat, id2: OrderId, freshId: OrderId,
                     world: World)
    requires Inv(v) && JustCancelled(v, own, id2) && v.markets == map[c.id := c] && Sample(c, own, nowMs, world)
    ensures var r := Submit(v, own, nowMs, freshId, world);
            r.1.Accepted? && r.1.result.isDuplicate && r.1.result.finalStatus == Filled
    ensures id2 in WorkingOf(v).orders && WorkingOf(v).orders[id2].status == CancelledStp
  {
    LastCancelled(v.log, id2, OrderHash(CanonicalBytes(own)), SelfTradePrevention);
    DuplicateOf(v, c, own, nowMs, id2, freshId, world);
  }

  lemma OwnOrder(v: EngineView, c: MarketConfig, s: SignedOrder, own: SignedOrder, nowMs: nat, id: OrderId,
                 id2: OrderId,
                 world: World)
    requires OneOrder(v, c, s, id, Open) && Inv(v) && id2 != id
    requires Sample(c, own, nowMs, world) && Follows(s, own) && Opposes(s, own) && own.traderId == s.traderId
    ensures var v' := Submit(v, own, nowMs, id2, world).0;
            v'.markets == v.markets && JustCancelled(v', own, id2)
  {
    var o := NewOrder(own, id2, v.nextSeqId, nowMs);
    PassesNext(v, c, s, own, nowMs, id, Open, world);
    AcceptedCases(v, own, nowMs, id2, world);
    BookIsOk(v, c.id);
    MeetsIt(v, c, s, id, o);
    MeetsOwn(v, o, nowMs, world);
    OwnNowhere(v, AcceptOrder(v, o, nowMs, world).0, c, s, own, o, id);
  }

  lemma OwnNowhere(v: EngineView, v': EngineView, c: MarketConfig, s: SignedOrder, own: SignedOrder, o: Order,
                   id: OrderId)
    requires OneOrder(v, c, s, id, Open) && o.terms.orderId != id && o.terms.marketId == c.id
    requires v'.books == v.books && v'.index == v.index[o.terms.orderId := c.id]
    requires KeyOf(o.terms) == IdempotencyKey(own.traderId, own.clientOrderId)
    requires KeyOf(o.terms) in v'.idempotency && v'.idempotency[KeyOf(o.terms)].orderId == o.terms.orderId
    ensures FindOrder(v', o.terms.orderId).None? && KeyNames(v', own, o.terms.orderId)
  {
  }

  // ---- Two crashes cross the log ------------------------------------------------------------------------

  lemma CrashPasses(v: EngineView, t: SignedOrder, u: SignedOrder, nowMs: nat, id2: OrderId, world: World)
    requires Passes(v, t, nowMs, world) && Passes(v, u, nowMs, world) && t.marketId !in v.books
             && u.marketId !in v.books
    requires t.traderId != u.traderId
    ensures var v' := Submit(v, t, nowMs, id2, world).0; Passes(v', u, nowMs, world) && u.marketId !in v'.books
  {
    SubmitCases(v, t, nowMs, id2, world);
  }

  /**
   * Register, submit, cancel, restart; then a buy and a sell that would trade both crash. The log now crosses,
   * and so does the book the next restart builds from it.
   */
  lemma CrossedAfterCrashes(c: MarketConfig, s: SignedOrder, t: SignedOrder, u: SignedOrder, nowMs: nat, id: OrderId,
                            id2: OrderId, id3: OrderId, world: World)
    requires Sample(c, s, nowMs, world) && Sample(c, t, nowMs, world) && Sample(c, u, nowMs, world)
    requires Follows(s, t) && Follows(s, u) && Opposes(t, u) && t.traderId != u.traderId
    requires id2 != id && id3 != id && id3 != id2
    ensures BothCrash(Restarted(Run(NEW_ENGINE, QuietOps(c, s, nowMs, id), world)), t, u, nowMs, id2, id3, world)
  {
    QuietInv(c, s, nowMs, id, world);
    QuietPasses(Run(NEW_ENGINE, QuietOps(c, s, nowMs, id), world), c, s, t, nowMs, id, world);
    QuietPasses(Run(NEW_ENGINE, QuietOps(c, s, nowMs, id), world), c, s, u, nowMs, id, world);
    QuietIndex(Run(NEW_ENGINE, QuietOps(c, s, nowMs, id), world), c, s, id);
    QuietEmpty(Run(NEW_ENGINE, QuietOps(c, s, nowMs, id), world), id);
    EmptyCrashes(Restarted(Run(NEW_ENGINE, QuietOps(c, s, nowMs, id), world)), t, u, nowMs, id, id2, id3, world);
  }

  lemma QuietIndex(v: EngineView, c: MarketConfig, s: SignedOrder, id: OrderId)
    requires OneOrder(v, c, s, id, Cancelled)
    ensures v.log != [] && v.index.Keys == {id}
  {
  }

  lemma EmptyCrashes(v: EngineView, t: SignedOrder, u: SignedOrder, nowMs: nat, id: OrderId, id2: OrderId, id3: OrderId,
                     world: World)
    requires EmptyAfter(v, id) && id2 != id && id3 != id && id3 != id2
    requires Passes(v, t, nowMs, world) && Passes(v, u, nowMs, world) && t.marketId == u.marketId
    requires Opposes(t, u) && t.traderId != u.traderId
    ensures BothCrash(v, t, u, nowMs, id2, id3, world)
  {
    TwoCrashes(v, t, u, nowMs, id2, id3, world);
  }

  /** Two submissions crash one after the other; a restart after the first is sound, after both it is crossed. */
  ghost predicate BothCrash(v: EngineView, t: SignedOrder, u: SignedOrder, nowMs: nat, id2: OrderId, id3: OrderId,
                            world: World) {
    var r1 := Submit(v, t, nowMs, id2, world);
    var r2 := Submit(r1.0, u, nowMs, id3, world);
    && r1.1.Panicked? && r2.1.Panicked? && Inv(r2.0)
    && NoneCrossed(Restarted(r1.0)) && !NoneCrossed(Restarted(r2.0))
  }

  lemma QuietPasses(v: EngineView, c: MarketConfig, s: SignedOrder, t: SignedOrder, nowMs: nat, id: OrderId,
                    world: World)
    requires OneOrder(v, c, s, id, Cancelled) && Inv(v) && BooksReplay(v) && Sample(c, t, nowMs, world) && Follows(s, t)
    ensures Passes(Restarted(v), t, nowMs, world)
  {
    PassesNext(v, c, s, t, nowMs, id, Cancelled, world);
    RestartedIsTwin(v);
    TwinPasses(v, Restarted(v), t, nowMs, world);
  }

  /** Every order the log knows is closed, no market has a book, and the id is new. */
  ghost predicate AllClosedAway(v: EngineView)
    requires Inv(v)
  {
    v.books == map[] && forall x :: x in WorkingOf(v).orders ==> WorkingOf(v).orders[x].Closed()
  }

  /** One order was ever accepted, and it is closed and in no book. */
  ghost predicate EmptyAfter(v: EngineView, id: OrderId) {
    Inv(v) && AllClosedAway(v) && forall x :: x in v.index ==> x == id
  }

  lemma QuietEmpty(v: EngineView, id: OrderId)
    requires Inv(v) && v.log != [] && v.index.Keys == {id}
    requires id in WorkingOf(v).orders && WorkingOf(v).orders[id].Closed()
    ensures EmptyAfter(Restarted(v), id)
  {
    OneKnown(v, id);
    OneClosed(WorkingOf(v).orders, id);
    QuietRestart(v);
  }

  lemma QuietRestart(v: EngineView)
    requires Inv(v) && v.log != [] && forall x :: x in WorkingOf(v).orders ==> WorkingOf(v).orders[x].Closed()
    ensures Inv(Restarted(v)) && AllClosedAway(Restarted(v)) && Restarted(v).index == v.index
  {
    NothingOpen(v);
    RestartedLog(v);
    RestartKeeps(v);
  }

  lemma OneClosed(orders: Orders, id: OrderId)
    requires orders.Keys == {id} && orders[id].Closed()
    ensures forall x :: x in orders ==> orders[x].Closed()
  {
    assert forall x :: x in orders ==> x in orders.Keys;
  }

  lemma OneKnown(v: EngineView, id: OrderId)
    requires Inv(v) && v.index.Keys == {id}
    ensures WorkingOf(v).orders.Keys == {id}
  {
    assert IndexTracks(v, WorkingOf(v));
  }

  lemma TwinPasses(v: EngineView, r: EngineView, t: SignedOrder, nowMs: nat, world: World)
    requires Twin(v, r)
    ensures Passes(r, t, nowMs, world) <==> Passes(v, t, nowMs, world)
  {
  }

  lemma NothingOpen(v: EngineView)
    requires Inv(v) && v.log != [] && forall x :: x in WorkingOf(v).orders ==> WorkingOf(v).orders[x].Closed()
    ensures Restarted(v).books == map[]
  {
    RestartedFields(v);
    assert ReplayedBooks(WorkingOf(v).orders).Keys == {};
  }

  lemma NoneOpen(orders: Orders, o: Order)
    requires forall x :: x in orders ==> orders[x].Closed()
    ensures LogUncrossed(orders) && !WouldTrade(orders, o)
  {
  }

  lemma TwoCrashes(v: EngineView, t: SignedOrder, u: SignedOrder, nowMs: nat, id2: OrderId, id3: OrderId, world: World)
    requires Inv(v) && AllClosedAway(v) && id2 !in v.index && id3 !in v.index && id3 != id2
    requires Passes(v, t, nowMs, world) && Passes(v, u, nowMs, world) && t.marketId == u.marketId
    requires Opposes(t, u) && t.traderId != u.traderId
    ensures BothCrash(v, t, u, nowMs, id2, id3, world)
  {
    FirstCrash(v, t, nowMs, id2, world);
    CrashPasses(v, t, u, nowMs, id2, world);
    SecondCrash(Submit(v, t, nowMs, id2, world).0, t, u, nowMs, id2, id3, world);
  }

  /** The log leaves this one order open in the market, and the market has no book. */
  ghost predicate LeftOpen(v: EngineView, t: SignedOrder, id: OrderId)
    requires Inv(v)
  {
    && LogUncrossed(WorkingOf(v).orders) && t.marketId !in v.books
    && id in OpenOrders(WorkingOf(v).orders, t.marketId)
    && var terms := WorkingOf(v).orders[id].terms; terms.side == t.side && terms.price == t.priceTicks
  }

  lemma FirstCrash(v: EngineView, t: SignedOrder, nowMs: nat, id: OrderId, world: World)
    requires Inv(v) && AllClosedAway(v) && Passes(v, t, nowMs, world) && id !in v.index
    ensures var r := Submit(v, t, nowMs, id, world);
            && r.1.Panicked? && Inv(r.0) && LeftOpen(r.0, t, id) && NoneCrossed(Restarted(r.0))
            && r.0.index == v.index[id := t.marketId]
  {
    var w, o := WorkingOf(v), NewOrder(t, id, v.nextSeqId, nowMs);
    CrashAdmits(v, t, nowMs, id, world);
    NoneOpen(w.orders, o);
    CrashThenRestart(v, t, nowMs, id, world);
    RestartUncrossed(Admit(v, o, world.wall));
    AdmittedLeftOpen(w, o);
  }

  lemma AdmittedLeftOpen(w: Working, o: Order)
    requires Arriving(o)
    ensures o.terms.orderId in OpenOrders(Admitted(w, o).orders, o.terms.marketId)
    ensures Admitted(w, o).orders[o.terms.orderId] == o
  {
  }

  lemma SecondCrash(v: EngineView, t: SignedOrder, u: SignedOrder, nowMs: nat, id: OrderId, id2: OrderId, world: World)
    requires Inv(v) && LeftOpen(v, t, id) && Opposes(t, u) && u.marketId == t.marketId
    requires Passes(v, u, nowMs, world) && id2 !in v.index
    ensures var r := Submit(v, u, nowMs, id2, world);
            && r.1.Panicked? && Inv(r.0) && !NoneCrossed(Restarted(r.0))
  {
    CrashThenRestart(v, u, nowMs, id2, world);
    assert WouldTrade(WorkingOf(v).orders, NewOrder(u, id2, v.nextSeqId, nowMs));
  }

  // ---- An answer that differs -----------------------------------------------------------------------------

  /**
   * Register, submit, cancel, submit another order that rests, restart: a second cancel of the first order is
   * answered as already done by the engine that never stopped and as unknown by the restored one.
   */
  lemma AnswersDiffer(c: MarketConfig, s: SignedOrder, t: SignedOrder, nowMs: nat, id: OrderId, id2: OrderId,
                      world: World)
    requires Sample(c, s, nowMs, world) && Sample(c, t, nowMs, world) && Follows(s, t) && id2 != id
    ensures var ops := QuietOps(c, s, nowMs, id) + [OpSubmit(t, nowMs, id2)];
            var v := Run(NEW_ENGINE, ops, world);
            && FreshIds(NEW_ENGINE, ops, world)
            && Cancel(v, id, s.traderId, world).1 == CancelDone(id, None, true)
            && Cancel(Restarted(v), id, s.traderId, world).1 == CancelNotFound(id)
  {
    var ops := QuietOps(c, s, nowMs, id);
    QuietRun(c, s, nowMs, id, world);
    BothThere(Run(NEW_ENGINE, ops, world), c, s, t, nowMs, id, id2, world);
    RunSnoc(NEW_ENGINE, ops, OpSubmit(t, nowMs, id2), world);
    RunRestartable(ops + [OpSubmit(t, nowMs, id2)], world);
    DifferAt(Run(NEW_ENGINE, ops + [OpSubmit(t, nowMs, id2)], world), c, id, id2, s.traderId, world);
  }

  /** A closed order and an open one in the same book. */
  ghost predicate OneClosedOneOpen(v: EngineView, c: MarketConfig, id: OrderId, id2: OrderId, trader: TraderId) {
    && v.log != [] && id in v.index && v.index[id] == c.id && c.id in v.books
    && id in v.books[c.id] && v.books[c.id][id].Closed() && v.books[c.id][id].terms.traderId == trader
    && id2 in v.books[c.id] && !v.books[c.id][id2].Closed()
  }

  lemma BothThere(v: EngineView, c: MarketConfig, s: SignedOrder, t: SignedOrder, nowMs: nat, id: OrderId, id2: OrderId,
                  world: World)
    requires OneOrder(v, c, s, id, Cancelled) && Sample(c, t, nowMs, world) && Follows(s, t) && id2 != id
    ensures var r := Submit(v, t, nowMs, id2, world); r.1.Accepted? && OneClosedOneOpen(r.0, c, id, id2, s.traderId)
  {
    SecondRests(v, c, s, t, nowMs, id, Cancelled, id2, world);
  }

  lemma DifferAt(v: EngineView, c: MarketConfig, id: OrderId, id2: OrderId, trader: TraderId, world: World)
    requires Inv(v) && BooksReplay(v) && OneClosedOneOpen(v, c, id, id2, trader)
    ensures Cancel(v, id, trader, world).1 == CancelDone(id, None, true)
    ensures Cancel(Restarted(v), id, trader, world).1 == CancelNotFound(id)
  {
    ClosedIsGone(v, id);
    assert id2 in OpenIds(v.books[c.id]);
    RestartedHouses(v, c.id);
    RestartedLog(v);
  }

  lemma ClosedIsGone(v: EngineView, id: OrderId)
    requires Inv(v) && BooksReplay(v) && v.log != [] && FindOrder(v, id).Some? && FindOrder(v, id).value.Closed()
    ensures FindOrder(Restarted(v), id).None?
  {
    RestartLoses(v);
    assert id in ClosedIn(v) && Gone(v, Restarted(v), id);
  }
}
