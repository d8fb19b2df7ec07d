/** The invariant of the engine, operation by operation. */
module Steps {
  import opened Basics
  import opened Domain
  import opened MatchTheory
  import opened MatchReplay
  import opened Store
  import opened Sequencing
  import opened Replaying
  import opened LegalLogs
  import opened EngineSpec
  import opened Live

  /** The engine agrees with the replay of its own log. */
  ghost predicate Inv(v: EngineView) {
    Replayed(v.log).Ok? && Tracks(v, Replayed(v.log).value)
  }

  ghost function WorkingOf(v: EngineView): Working
    requires Inv(v)
  {
    Replayed(v.log).value
  }

  /** Every registered market has a book. */
  predicate Housed(v: EngineView) {
    forall m :: m in v.markets ==> m in v.books
  }

  /** The orders of the books have the statuses the log gives them; a forced cancel breaks this. */
  ghost predicate BooksSynced(v: EngineView)
    requires Inv(v)
  {
    StatusSynced(v.books, WorkingOf(v).orders)
  }

  /** Every order the log leaves open is in its book; a crash breaks this. */
  ghost predicate BooksHold(v: EngineView)
    requires Inv(v)
  {
    OpenBooked(v.books, WorkingOf(v).orders)
  }

  /** The books are exactly the open orders of the replayed log, statuses included. */
  ghost predicate BooksReplay(v: EngineView)
    requires Inv(v)
  {
    BooksSynced(v) && BooksHold(v)
  }

  /** No market's book is crossed; a restart from a crossed log breaks this. */
  ghost predicate NoneCrossed(v: EngineView) {
    forall m :: m in v.books ==> Uncrossed(v.books[m])
  }

  /** The order rests, open, in the book of its market. */
  ghost predicate RestsIn(books: map<MarketId, Orders>, market: MarketId, id: OrderId) {
    market in books && id in books[market] && !books[market][id].Closed()
  }

  /** An order closed in a book is closed in the log; nothing breaks this. */
  ghost predicate ClosedLogged(books: map<MarketId, Orders>, working: Orders) {
    forall m, id :: m in books && id in books[m] && books[m][id].Closed() ==> id in working && working[id].Closed()
  }

  ghost predicate ClosedAgree(v: EngineView)
    requires Inv(v)
  {
    ClosedLogged(v.books, WorkingOf(v).orders)
  }

  /** Every order the log leaves open rests in its book; a forced cancel keeps this, a crash does not. */
  ghost predicate Backed(v: EngineView)
    requires Inv(v)
  {
    ClosedAgree(v) && BooksHold(v)
  }

  lemma TracksIsInv(v: EngineView, w: Working)
    requires Tracks(v, w)
    ensures Inv(v) && WorkingOf(v) == w
  {
  }

  // ---- Submit ----------------------------------------------------------------------------------

  lemma AcceptKeeps(v: EngineView, w: Working, o: Order, nowMs: nat, world: World) returns (w': Working)
    requires Tracks(v, w) && LegalAccept(w, o, v.nextSeqId)
    requires o.terms.marketId in v.markets && o.terms.marketId in v.books
    ensures var r := AcceptOrder(v, o, nowMs, world);
            Tracks(r.0, w') && r.1.Accepted?
            && (StatusSynced(v.books, w.orders) ==> StatusSynced(r.0.books, w'.orders))
            && (OpenBooked(v.books, w.orders) ==> OpenBooked(r.0.books, w'.orders))
  {
    AdmittedIsNewest(v, w, o, world.wall);
    var v0, w0 := Admit(v, o, world.wall), Admitted(w, o);
    var w1;
    w1, w' := SettleTracks(v0, w0, o, nowMs, world.wall);
    NewestInBook(v0, w0, o);
    if StatusSynced(v.books, w.orders) {
      AdmitStatus(v.books, w, o);
      SettleStatus(v0.books, w0, o.terms.marketId, o, nowMs, w1);
    }
    if OpenBooked(v.books, w.orders) {
      AdmitBooked(v.books, w, o);
      SettleBooked(v0.books, w0, o.terms.marketId, o, nowMs, w1);
    }
  }

  lemma AdmitStatus(books: map<MarketId, Orders>, w: Working, o: Order)
    requires StatusSynced(books, w.orders) && o.terms.orderId !in w.orders
    ensures StatusSynced(books, Admitted(w, o).orders)
  {
    forall m, id | m in books && id in books[m] ensures Synced(Admitted(w, o).orders, books[m][id]) {
      assert Synced(w.orders, books[m][id]);
    }
  }

  lemma AdmitBooked(books: map<MarketId, Orders>, w: Working, o: Order)
    requires OpenBooked(books, w.orders)
    ensures OpenBookedBut(books, Admitted(w, o).orders, o.terms.orderId)
  {
  }

  lemma SubmitKeeps(v: EngineView, s: SignedOrder, nowMs: nat, freshId: OrderId, world: World)
    requires Inv(v) && freshId !in v.index
    ensures var r := Submit(v, s, nowMs, freshId, world);
            && Inv(r.0) && (r.1.Panicked? ==> !Housed(v))
            && (BooksSynced(v) ==> BooksSynced(r.0))
            && (BooksHold(v) && !r.1.Panicked? ==> BooksHold(r.0))
  {
    var w := WorkingOf(v);
    if Validate(v.markets, s, nowMs, world).None?
      && IdempotencyKey(s.traderId, s.clientOrderId) !in v.idempotency
      && s.nonce > Lookup(v.ledger.nonces, s.traderId, 0)
    {
      IntakeIsLegal(v, w, s, nowMs, freshId, world);
      var o := NewOrder(s, freshId, v.nextSeqId, nowMs);
      if o.terms.marketId in v.books {
        var w' := AcceptKeeps(v, w, o, nowMs, world);
        TracksIsInv(AcceptOrder(v, o, nowMs, world).0, w');
      } else {
        AdmitTracks(v, w, o, world.wall);
        TracksIsInv(Admit(v, o, world.wall), Admitted(w, o));
        if BooksSynced(v) { AdmitStatus(v.books, w, o); }
      }
    }
  }

  // ---- Cancels ---------------------------------------------------------------------------------

  ghost function AfterCancel(w: Working, id: OrderId, status: OrderStatus): Working
    requires id in w.orders
  {
    Working(w.orders[id := w.orders[id].(status := status, lastUpdate := w.lastSeq + 1)],
            CancelHash(w.ledger, w.orders[id].terms.orderHash), w.lastSeq + 1)
  }

  lemma CancelEvent(w: Working, id: OrderId, reason: CancelReason, se: SequencedEvent)
    requires id in w.orders
    requires se.seqId == w.lastSeq + 1 && se.event == OrderCancelled(id, w.orders[id].terms.orderHash, reason)
    ensures LegalEvent(w, se) && ApplyEvent(w, se) == Ok(AfterCancel(w, id, CancelStatus(reason)))
  {
  }

  /** Logging a cancel of a known order, with the matching ledger entry. */
  lemma CancelTracksLog(v: EngineView, w: Working, id: OrderId, reason: CancelReason, wall: nat -> nat, v': EngineView)
    requires LogTracks(v, w) && id in w.orders
    requires var hash := w.orders[id].terms.orderHash;
             var logged := AppendOne(v, OrderCancelled(id, hash, reason), wall);
             v'.log == logged.log && v'.nextSeqId == logged.nextSeqId && v'.ledger == CancelHash(v.ledger, hash)
    ensures LogTracks(v', AfterCancel(w, id, CancelStatus(reason)))
  {
    var se := SequencedEvent(v.nextSeqId, wall(v.nextSeqId), OrderCancelled(id, w.orders[id].terms.orderHash, reason));
    OneCancel(v, w, id, reason, se, v', AfterCancel(w, id, CancelStatus(reason)));
  }

  lemma OneCancel(v: EngineView, w: Working, id: OrderId, reason: CancelReason, se: SequencedEvent, v': EngineView,
                  w': Working)
    requires LogTracks(v, w) && id in w.orders && w' == AfterCancel(w, id, CancelStatus(reason))
    requires se.seqId == v.nextSeqId && se.event == OrderCancelled(id, w.orders[id].terms.orderHash, reason)
    requires v'.log == v.log + [se] && v'.nextSeqId == v.nextSeqId + 1 && v'.ledger == w'.ledger
    ensures LogTracks(v', w')
  {
    CancelFolds(w, id, reason, se, w');
    OneLogged(v, w, se, v', w');
  }

  lemma OneLogged(v: EngineView, w: Working, se: SequencedEvent, v': EngineView, w': Working)
    requires LogTracks(v, w) && LegalFrom(w, [se]) && Fold(w, [se]) == Ok(w')
    requires v'.log == v.log + [se] && v'.nextSeqId == v.nextSeqId + 1 && v'.ledger == w'.ledger
    ensures LogTracks(v', w')
  {
    LogTracksMore(v, w, [se], v', w');
  }

  lemma CancelFolds(w: Working, id: OrderId, reason: CancelReason, se: SequencedEvent, w': Working)
    requires WorkingOk(w) && id in w.orders && w' == AfterCancel(w, id, CancelStatus(reason))
    requires se.seqId == w.lastSeq + 1 && se.event == OrderCancelled(id, w.orders[id].terms.orderHash, reason)
    ensures LegalFrom(w, [se]) && Fold(w, [se]) == Ok(w')
  {
    CancelEvent(w, id, reason, se);
    OneEvent(w, se);
  }

  /** The two working sets differ in statuses and update stamps only. */
  ghost predicate SameButStatus(w: Working, w': Working) {
    && w'.orders.Keys == w.orders.Keys
    && (forall id :: id in w.orders ==>
          w'.orders[id].terms == w.orders[id].terms && w'.orders[id].filled == w.orders[id].filled)
  }

  lemma BookSame(book: Orders, market: MarketId, w: Working, w': Working)
    requires BookTracks(book, market, w) && SameButStatus(w, w')
    ensures BookTracks(book, market, w')
  {
  }

  lemma SameBooksTrack(v: EngineView, v': EngineView, w: Working, w': Working)
    requires BooksTrack(v, w) && v'.books == v.books && SameButStatus(w, w')
    ensures BooksTrack(v', w')
  {
    forall m | m in v'.books ensures BookTracks(v'.books[m], m, w') {
      assert BookTracks(v.books[m], m, w);
      BookSame(v.books[m], m, w, w');
    }
  }

  lemma CancelledBook(book: Orders, market: MarketId, w: Working, id: OrderId)
    requires BookTracks(book, market, w) && id in book && id in w.orders
    ensures BookTracks(book[id := book[id].(status := Cancelled)], market, AfterCancel(w, id, Cancelled))
  {
  }

  /** A cancel changes only one status in the working set. */
  lemma CancelSame(w: Working, id: OrderId, status: OrderStatus)
    requires id in w.orders
    ensures SameButStatus(w, AfterCancel(w, id, status))
  {
  }

  lemma CancelledBooksTrack(books: map<MarketId, Orders>, w: Working, id: OrderId, market: MarketId)
    requires forall m :: m in books ==> BookTracks(books[m], m, w)
    requires id in w.orders && market in books && id in books[market]
    ensures var books' := books[market := books[market][id := books[market][id].(status := Cancelled)]];
            forall m :: m in books' ==> BookTracks(books'[m], m, AfterCancel(w, id, Cancelled))
  {
    CancelSame(w, id, Cancelled);
    var books' := books[market := books[market][id := books[market][id].(status := Cancelled)]];
    forall m | m in books' ensures BookTracks(books'[m], m, AfterCancel(w, id, Cancelled)) {
      assert BookTracks(books[m], m, w);
      if m == market {
        CancelledBook(books[m], m, w, id);
      } else {
        BookSame(books[m], m, w, AfterCancel(w, id, Cancelled));
      }
    }
  }

  /** With log and books aside, the invariant does not look at statuses. */
  lemma TracksSame(v: EngineView, w: Working, v': EngineView, w': Working)
    requires Tracks(v, w) && SameButStatus(w, w') && LogTracks(v', w') && BooksTrack(v', w')
    requires v'.index == v.index && v'.idempotency == v.idempotency && v'.markets == v.markets
    ensures Tracks(v', w')
  {
    SameTermsTables(v, v', w, w');
  }

  lemma BookOrderKnown(v: EngineView, w: Working, market: MarketId, id: OrderId)
    requires Tracks(v, w) && market in v.books && id in v.books[market]
    ensures id in w.orders && w.orders[id].terms == v.books[market][id].terms
  {
    assert BookTracks(v.books[market], market, w);
  }

  lemma CancelTracks(v: EngineView, w: Working, id: OrderId, market: MarketId, v': EngineView)
    requires Tracks(v, w) && market in v.books && id in v.books[market] && id in w.orders
    requires LogTracks(v', AfterCancel(w, id, Cancelled))
    requires v'.index == v.index && v'.idempotency == v.idempotency && v'.markets == v.markets
    requires v'.books == v.books[market := v.books[market][id := v.books[market][id].(status := Cancelled)]]
    ensures Tracks(v', AfterCancel(w, id, Cancelled))
  {
    CancelledBooksTrack(v.books, w, id, market);
    CancelSame(w, id, Cancelled);
    TracksSame(v, w, v', AfterCancel(w, id, Cancelled));
  }

  lemma CancelStatusTracks(v: EngineView, w: Working, id: OrderId, market: MarketId)
    requires BooksTrack(v, w) && StatusSynced(v.books, w.orders)
    requires market in v.books && id in v.books[market] && id in w.orders
    ensures var book := v.books[market];
            StatusSynced(v.books[market := book[id := book[id].(status := Cancelled)]],
                         AfterCancel(w, id, Cancelled).orders)
  {
    var books' := v.books[market := v.books[market][id := v.books[market][id].(status := Cancelled)]];
    var working := AfterCancel(w, id, Cancelled).orders;
    assert BookTracks(v.books[market], market, w);
    forall m, x | m in books' && x in books'[m] ensures Synced(working, books'[m][x]) {
      assert BookTracks(v.books[m], m, w);
      assert Synced(w.orders, v.books[m][x]);
    }
  }

  lemma OpenCancelTracks(v: EngineView, w: Working, id: OrderId, trader: TraderId, world: World)
    requires Tracks(v, w)
    requires id in v.index && v.index[id] in v.books && id in v.books[v.index[id]]
    requires v.books[v.index[id]][id].terms.traderId == trader && !v.books[v.index[id]][id].Closed()
    ensures id in w.orders && Tracks(Cancel(v, id, trader, world).0, AfterCancel(w, id, Cancelled))
  {
    BookOrderKnown(v, w, v.index[id], id);
    OpenCancelLog(v, w, id, trader, world);
    CancelTracks(v, w, id, v.index[id], Cancel(v, id, trader, world).0);
  }

  lemma OpenCancelLog(v: EngineView, w: Working, id: OrderId, trader: TraderId, world: World)
    requires LogTracks(v, w) && id in w.orders
    requires id in v.index && v.index[id] in v.books && id in v.books[v.index[id]]
    requires v.books[v.index[id]][id].terms.traderId == trader && !v.books[v.index[id]][id].Closed()
    requires v.books[v.index[id]][id].terms == w.orders[id].terms
    ensures LogTracks(Cancel(v, id, trader, world).0, AfterCancel(w, id, Cancelled))
  {
    assert CancelStatus(TraderRequest) == Cancelled;
    CancelTracksLog(v, w, id, TraderRequest, world.wall, Cancel(v, id, trader, world).0);
  }

  /** A cancel opens nothing and takes nothing out of a book. */
  lemma CancelBooked(books: map<MarketId, Orders>, w: Working, id: OrderId, market: MarketId)
    requires OpenBooked(books, w.orders) && market in books && id in books[market] && id in w.orders
    ensures OpenBooked(books[market := books[market][id := books[market][id].(status := Cancelled)]],
                       AfterCancel(w, id, Cancelled).orders)
  {
    var working := AfterCancel(w, id, Cancelled).orders;
    assert forall x :: x in working && !working[x].Closed() ==> x != id && working[x] == w.orders[x];
  }

  lemma OpenCancelStatus(v: EngineView, w: Working, id: OrderId, trader: TraderId, world: World)
    requires Tracks(v, w) && StatusSynced(v.books, w.orders)
    requires id in v.index && v.index[id] in v.books && id in v.books[v.index[id]]
    requires v.books[v.index[id]][id].terms.traderId == trader && !v.books[v.index[id]][id].Closed()
    ensures id in w.orders
    ensures StatusSynced(Cancel(v, id, trader, world).0.books, AfterCancel(w, id, Cancelled).orders)
  {
    CancelStatusTracks(v, w, id, v.index[id]);
  }

  lemma CancelKeeps(v: EngineView, id: OrderId, trader: TraderId, world: World)
    requires Inv(v)
    ensures var r := Cancel(v, id, trader, world);
            && Inv(r.0) && (r.1.CancelPanicked? ==> !Housed(v))
            && (BooksSynced(v) ==> BooksSynced(r.0)) && (BooksHold(v) ==> BooksHold(r.0))
  {
    var w := WorkingOf(v);
    var r := Cancel(v, id, trader, world);
    if r.0 != v {
      OpenCancelTracks(v, w, id, trader, world);
      TracksIsInv(r.0, AfterCancel(w, id, Cancelled));
      if BooksSynced(v) { OpenCancelStatus(v, w, id, trader, world); }
      if BooksHold(v) { CancelBooked(v.books, w, id, v.index[id]); }
    }
  }

  // ---- Administration --------------------------------------------------------------------------

  lemma AddMarketTracks(v: EngineView, w: Working, config: MarketConfig)
    requires Tracks(v, w)
    ensures Tracks(AddMarket(v, config), w)
  {
    AddMarketBooks(v, w, config);
    AddMarketConfigs(v, config);
    assert LogTracks(AddMarket(v, config), w);
    assert IndexTracks(AddMarket(v, config), w);
  }

  /** The same books, some empty ones aside, and an open set that is no larger. */
  ghost predicate MoreEmptyBooks(books: map<MarketId, Orders>, books': map<MarketId, Orders>) {
    && (forall m :: m in books ==> m in books' && books'[m] == books[m])
    && (forall m :: m in books' ==> m in books || books'[m] == map[])
  }

  lemma AddMarketMore(v: EngineView, config: MarketConfig)
    ensures MoreEmptyBooks(v.books, AddMarket(v, config).books)
  {
  }

  /** Empty books and market events change nothing that is said of the books. */
  lemma MoreBooksKeep(books: map<MarketId, Orders>, books': map<MarketId, Orders>, working: Orders)
    requires MoreEmptyBooks(books, books')
    ensures StatusSynced(books, working) ==> StatusSynced(books', working)
    ensures OpenBooked(books, working) ==> OpenBooked(books', working)
    ensures ClosedLogged(books, working) ==> ClosedLogged(books', working)
  {
  }

  lemma AddMarketBooks(v: EngineView, w: Working, config: MarketConfig)
    requires BooksTrack(v, w)
    ensures BooksTrack(AddMarket(v, config), w)
  {
    var v' := AddMarket(v, config);
    forall m | m in v'.books ensures BookTracks(v'.books[m], m, w) {
      if m in v.books {
        assert v'.books[m] == v.books[m] && BookTracks(v.books[m], m, w);
      } else {
        EmptyBook(m, w);
      }
    }
  }

  lemma EmptyBook(m: MarketId, w: Working)
    ensures BookTracks(map[], m, w)
  {
  }

  lemma AddMarketConfigs(v: EngineView, config: MarketConfig)
    requires MarketsTrack(v)
    ensures MarketsTrack(AddMarket(v, config))
  {
  }

  lemma MarketEventTracks(v: EngineView, w: Working, e: Event, wall: nat -> nat)
    requires Tracks(v, w) && (e.MarketPaused? || e.MarketResumed?)
    ensures Tracks(AppendOne(v, e, wall), w.(lastSeq := w.lastSeq + 1))
  {
    var v', w' := AppendOne(v, e, wall), w.(lastSeq := w.lastSeq + 1);
    var se := SequencedEvent(v.nextSeqId, wall(v.nextSeqId), e);
    OneEvent(w, se);
    LogTracksMore(v, w, [se], v', w');
    SameBooksTrack(v, v', w, w');
    TracksSame(v, w, v', w');
  }

  /** What held of the books still does. */
  ghost predicate SaidAlike(v: EngineView, v': EngineView)
    requires Inv(v) && Inv(v')
  {
    && (BooksSynced(v) ==> BooksSynced(v')) && (BooksHold(v) ==> BooksHold(v')) && (ClosedAgree(v) ==> ClosedAgree(v'))
  }

  /** Pause and resume: a config change and one market event. */
  lemma StatusChangeKeeps(v: EngineView, config: MarketConfig, e: Event, wall: nat -> nat)
    requires Inv(v) && (e.MarketPaused? || e.MarketResumed?)
    ensures var v' := AppendOne(AddMarket(v, config), e, wall);
            Inv(v') && SaidAlike(v, v')
  {
    var w := WorkingOf(v);
    AddMarketMore(v, config);
    MoreBooksKeep(v.books, AddMarket(v, config).books, w.orders);
    AddMarketTracks(v, w, config);
    MarketEventTracks(AddMarket(v, config), w, e, wall);
    TracksIsInv(AppendOne(AddMarket(v, config), e, wall), w.(lastSeq := w.lastSeq + 1));
  }

  lemma ForceCancelTracks(v: EngineView, w: Working, id: OrderId, hash: OrderHash, world: World)
    requires Tracks(v, w) && id in w.orders && w.orders[id].terms.orderHash == hash
    ensures Tracks(ForceCancel(v, id, hash, world), AfterCancel(w, id, Cancelled))
  {
    var v' := ForceCancel(v, id, hash, world);
    assert CancelStatus(AdminForce) == Cancelled;
    CancelTracksLog(v, w, id, AdminForce, world.wall, v');
    CancelSame(w, id, Cancelled);
    SameBooksTrack(v, v', w, AfterCancel(w, id, Cancelled));
    TracksSame(v, w, v', AfterCancel(w, id, Cancelled));
  }

  ghost predicate Targets(targets: seq<(OrderId, OrderHash)>, orders: Orders) {
    forall t :: t in targets ==> t.0 in orders && orders[t.0].terms.orderHash == t.1
  }

  ghost predicate AllClosed(targets: seq<(OrderId, OrderHash)>, orders: Orders) {
    forall t :: t in targets ==> t.0 in orders && orders[t.0].Closed()
  }

  /** What is open in the second working set was open in the first. */
  ghost predicate OnlyCloses(w: Working, w': Working) {
    forall id :: id in w'.orders && !w'.orders[id].Closed() ==> id in w.orders && !w.orders[id].Closed()
  }

  lemma CancelOnlyCloses(w: Working, w0: Working, id: OrderId)
    requires OnlyCloses(w, w0) && id in w0.orders
    ensures OnlyCloses(w, AfterCancel(w0, id, Cancelled))
  {
  }

  lemma OneMoreClosed(w: Working, targets: seq<(OrderId, OrderHash)>)
    requires targets != [] && targets[|targets| - 1].0 in w.orders
    requires AllClosed(targets[..|targets| - 1], w.orders)
    ensures AllClosed(targets, AfterCancel(w, targets[|targets| - 1].0, Cancelled).orders)
  {
    assert targets == targets[..|targets| - 1] + [targets[|targets| - 1]];
  }

  /** The replayed log follows a series of forced cancels, and closes every order named. */
  lemma {:induction false} ForceCancelsTrack(v: EngineView, w: Working, targets: seq<(OrderId, OrderHash)>,
                                             world: World)
    returns (w': Working)
    requires Tracks(v, w) && Targets(targets, w.orders)
    ensures Tracks(ForceCancels(v, targets, world), w') && SameButStatus(w, w') && AllClosed(targets, w'.orders)
    ensures OnlyCloses(w, w')
    decreases |targets|
  {
    if targets == [] {
      w' := w;
    } else {
      var last := targets[|targets| - 1];
      assert forall t :: t in targets[..|targets| - 1] ==> t in targets;
      var w0 := ForceCancelsTrack(v, w, targets[..|targets| - 1], world);
      assert last in targets;
      ForceCancelTracks(ForceCancels(v, targets[..|targets| - 1], world), w0, last.0, last.1, world);
      w' := AfterCancel(w0, last.0, Cancelled);
      CancelSame(w0, last.0, Cancelled);
      OneMoreClosed(w0, targets);
      CancelOnlyCloses(w, w0, last.0);
    }
  }

  /** The order of an accepted event is in the working set, with the logged terms and number. */
  ghost predicate AcceptanceKnown(se: SequencedEvent, orders: Orders) {
    se.event.OrderAccepted? ==>
      var t := se.event.order.terms;
      t.orderId in orders && orders[t.orderId].terms == t && t.createdSequence == se.seqId
  }

  ghost predicate LogOrdersKnown(log: seq<SequencedEvent>, orders: Orders) {
    forall i :: 0 <= i < |log| ==> AcceptanceKnown(log[i], orders)
  }

  /** The log entry that accepted an order. */
  ghost predicate AcceptedBy(log: seq<SequencedEvent>, i: int, id: OrderId) {
    0 <= i < |log| && log[i].event.OrderAccepted? && log[i].event.order.terms.orderId == id
  }

  /** One legal event never drops an order or changes its terms. */
  lemma EventKeepsTerms(w: Working, se: SequencedEvent)
    requires LegalEvent(w, se) && ApplyEvent(w, se).Ok?
    requires forall id :: id in w.orders ==> w.orders[id].terms.orderId == id
    ensures var orders := ApplyEvent(w, se).value.orders;
            && (forall id :: id in w.orders ==> id in orders && orders[id].terms == w.orders[id].terms)
            && AcceptanceKnown(se, orders)
            && (forall id :: id in orders ==> id in w.orders || AcceptedBy([se], 0, id))
  {
  }

  /** Once accepted, an order keeps its terms for the rest of the log. */
  lemma {:induction false} FoldKeepsTerms(w: Working, events: seq<SequencedEvent>)
    requires WorkingOk(w) && LegalFrom(w, events)
    ensures Fold(w, events).Ok?
    ensures var orders := Fold(w, events).value.orders;
            && (forall id :: id in w.orders ==> id in orders && orders[id].terms == w.orders[id].terms)
            && LogOrdersKnown(events, orders)
            && (forall id :: id in orders ==> id in w.orders || exists i :: AcceptedBy(events, i, id))
    decreases |events|
  {
    if events == [] {
    } else {
      LegalKeeps(w, events[0]);
      assert forall id :: id in w.orders ==> WorkingOrderOk(w, id);
      EventKeepsTerms(w, events[0]);
      var next := ApplyEvent(w, events[0]).value;
      FoldKeepsTerms(next, events[1..]);
      assert forall i :: 1 <= i < |events| ==> events[i] == events[1..][i - 1];
      forall id | id in Fold(w, events).value.orders && id !in w.orders
        ensures exists i :: AcceptedBy(events, i, id)
      {
        if id in next.orders {
          assert AcceptedBy(events, 0, id);
        } else {
          var i :| AcceptedBy(events[1..], i, id);
          assert AcceptedBy(events, i + 1, id);
        }
      }
    }
  }

  lemma {:induction false} AcceptedInKnown(log: seq<SequencedEvent>, market: MarketId, orders: Orders)
    requires LogOrdersKnown(log, orders)
    ensures Targets(AcceptedIn(log, market), orders)
    decreases |log|
  {
    if log == [] {
    } else {
      var last := |log| - 1;
      assert forall i :: 0 <= i < last ==> log[..last][i] == log[i];
      AcceptedInKnown(log[..last], market, orders);
    }
  }

  lemma EmptyWorkingOk()
    ensures WorkingOk(EMPTY_WORKING)
  {
  }

  lemma CancelAllKeeps(v: EngineView, market: MarketId, world: World)
    requires Inv(v)
    ensures var v' := CancelAll(v, market, world).0;
            Inv(v') && (BooksHold(v) ==> BooksHold(v')) && (ClosedAgree(v) ==> ClosedAgree(v'))
  {
    if market in v.markets {
      var w := WorkingOf(v);
      EmptyWorkingOk();
      FoldKeepsTerms(EMPTY_WORKING, v.log);
      AcceptedInKnown(v.log, market, w.orders);
      var w' := ForceCancelsTrack(v, w, AcceptedIn(v.log, market), world);
      TracksIsInv(CancelAll(v, market, world).0, w');
      ForceCancelsBooks(v, AcceptedIn(v.log, market), world);
      OnlyClosing(v.books, w, w');
    }
  }

  lemma OnlyClosing(books: map<MarketId, Orders>, w: Working, w': Working)
    requires SameButStatus(w, w') && OnlyCloses(w, w')
    ensures OpenBooked(books, w.orders) ==> OpenBooked(books, w'.orders)
    ensures ClosedLogged(books, w.orders) ==> ClosedLogged(books, w'.orders)
  {
  }

  lemma PauseKeeps(v: EngineView, m: MarketId, who: Text, world: World)
    requires Inv(v)
    ensures Inv(Pause(v, m, who, world).0) && SaidAlike(v, Pause(v, m, who, world).0)
  {
    var v' := Pause(v, m, who, world).0;
    if v' != v {
      var config := v.markets[m].(status := Paused);
      assert v' == AppendOne(AddMarket(v, config), MarketPaused(m, who), world.wall);
      StatusChangeKeeps(v, config, MarketPaused(m, who), world.wall);
    }
  }

  lemma ResumeKeeps(v: EngineView, m: MarketId, who: Text, world: World)
    requires Inv(v)
    ensures Inv(Resume(v, m, who, world).0) && SaidAlike(v, Resume(v, m, who, world).0)
  {
    var v' := Resume(v, m, who, world).0;
    if v' != v {
      var config := v.markets[m].(status := Active);
      assert v' == AppendOne(AddMarket(v, config), MarketResumed(m, who), world.wall);
      StatusChangeKeeps(v, config, MarketResumed(m, who), world.wall);
    }
  }

  lemma AddMarketKeeps(v: EngineView, config: MarketConfig)
    requires Inv(v)
    ensures Inv(AddMarket(v, config)) && SaidAlike(v, AddMarket(v, config))
  {
    AddMarketMore(v, config);
    MoreBooksKeep(v.books, AddMarket(v, config).books, WorkingOf(v).orders);
    AddMarketTracks(v, WorkingOf(v), config);
    TracksIsInv(AddMarket(v, config), WorkingOf(v));
  }

  lemma {:induction false} ForceCancelsBooks(v: EngineView, targets: seq<(OrderId, OrderHash)>, world: World)
    ensures var v' := ForceCancels(v, targets, world);
            v'.books == v.books && v'.markets == v.markets && v'.index == v.index && v'.idempotency == v.idempotency
    decreases |targets|
  {
    if targets == [] {
    } else {
      ForceCancelsBooks(v, targets[..|targets| - 1], world);
    }
  }

  /** Administration adds empty books and touches no other. */
  lemma AdminBooks(v: EngineView, op: Op, world: World)
    requires !op.OpSubmit? && !op.OpCancel? && !op.OpRestart?
    ensures MoreEmptyBooks(v.books, Step(v, op, world).0.books)
  {
    match op
    case OpPause(m, who) => if m in v.markets { AddMarketMore(v, v.markets[m].(status := Paused)); }
    case OpResume(m, who) => if m in v.markets { AddMarketMore(v, v.markets[m].(status := Active)); }
    case OpCancelAll(m) => ForceCancelsBooks(v, AcceptedIn(v.log, m), world);
    case OpAddMarket(config) => AddMarketMore(v, config);
  }
}
