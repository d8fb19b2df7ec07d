/** What every step of the engine keeps: log, replayed state, books and tables stay in agreement. */
module Live {
  import opened Basics
  import opened Domain
  import opened Books
  import opened Matching
  import opened MatchTheory
  import opened MatchReplay
  import opened Canonical
  import opened Store
  import opened Sequencing
  import opened Replaying
  import opened LegalLogs
  import opened EngineSpec

  // ---- The invariant ---------------------------------------------------------------------------

  /** The log is legal and replays to the live ledgers. */
  ghost predicate LogTracks(v: EngineView, w: Working) {
    && v.nextSeqId == |v.log| + 1
    && LegalLog(v.log) && Replayed(v.log) == Ok(w)
    && WorkingOk(w) && w.lastSeq == |v.log| && w.ledger == v.ledger
  }

  /** The index knows exactly the accepted orders, each in a registered market. */
  ghost predicate IndexTracks(v: EngineView, w: Working) {
    && v.index.Keys == w.orders.Keys
    && (forall id :: id in w.orders ==> v.index[id] == w.orders[id].terms.marketId && v.index[id] in v.markets)
  }

  ghost predicate BookTracks(book: Orders, market: MarketId, w: Working) {
    && BookOk(book) && Mirrors(w.orders, book)
    && (forall id :: id in book ==> book[id].terms.marketId == market)
  }

  ghost predicate BooksTrack(v: EngineView, w: Working) {
    forall m :: m in v.books ==> BookTracks(v.books[m], m, w)
  }

  /** The idempotency table holds exactly the accepted keys, each naming its order (the time aside). */
  ghost predicate TableTracks(table: Idempotency, orders: Orders) {
    && (forall id :: id in orders ==>
          var t := orders[id].terms;
          KeyOf(t) in table
          && var r := table[KeyOf(t)];
          && r.originalSeqId == t.createdSequence && r.orderId == t.orderId && r.orderHash == t.orderHash)
    && (forall k :: k in table ==> table[k].orderId in orders && KeyOf(orders[table[k].orderId].terms) == k)
  }

  ghost predicate MarketsTrack(v: EngineView) {
    forall m :: m in v.markets ==> v.markets[m].id == m
  }

  ghost predicate Tracks(v: EngineView, w: Working) {
    && LogTracks(v, w) && IndexTracks(v, w) && BooksTrack(v, w)
    && TableTracks(v.idempotency, w.orders) && MarketsTrack(v)
  }

  /** The orders of the books have the replayed statuses. */
  ghost predicate StatusSynced(books: map<MarketId, Orders>, working: Orders) {
    forall m, id :: m in books && id in books[m] ==> Synced(working, books[m][id])
  }

  /** Every order replay leaves open is in its book, one order aside. */
  ghost predicate OpenBookedBut(books: map<MarketId, Orders>, working: Orders, but: OrderId) {
    forall id :: id in working && !working[id].Closed() && id != but ==>
      working[id].terms.marketId in books && id in books[working[id].terms.marketId]
  }

  ghost predicate OpenBooked(books: map<MarketId, Orders>, working: Orders) {
    forall id :: id in working && !working[id].Closed() ==>
      working[id].terms.marketId in books && id in books[working[id].terms.marketId]
  }

  // ---- Appending to the log --------------------------------------------------------------------

  lemma LogGrows(log: seq<SequencedEvent>, w: Working, events: seq<SequencedEvent>)
    requires LegalLog(log) && Replayed(log) == Ok(w) && WorkingOk(w) && LegalFrom(w, events)
    ensures LegalLog(log + events) && Fold(w, events).Ok? && Replayed(log + events) == Fold(w, events)
    ensures WorkingOk(Fold(w, events).value) && Fold(w, events).value.lastSeq == w.lastSeq + |events|
  {
    LegalConcat(EMPTY_WORKING, log, events);
    FoldConcat(EMPTY_WORKING, log, events);
    LegalFold(w, events);
  }

  /** The log component of the invariant after appending a legal block. */
  lemma LogTracksMore(v: EngineView, w: Working, events: seq<SequencedEvent>, v': EngineView, w': Working)
    requires LogTracks(v, w) && LegalFrom(w, events) && Fold(w, events) == Ok(w')
    requires v'.log == v.log + events && v'.nextSeqId == v.nextSeqId + |events| && v'.ledger == w'.ledger
    ensures LogTracks(v', w')
  {
    LogGrows(v.log, w, events);
  }

  lemma OneEvent(w: Working, se: SequencedEvent)
    requires WorkingOk(w) && LegalEvent(w, se)
    ensures LegalFrom(w, [se]) && ApplyEvent(w, se).Ok? && Fold(w, [se]) == ApplyEvent(w, se)
  {
    LegalKeeps(w, se);
    assert [se][1..] == [];
  }

  lemma TwoBlocks(w: Working, a: seq<SequencedEvent>, b: seq<SequencedEvent>)
    requires LegalFrom(w, a) && Fold(w, a).Ok? && LegalFrom(Fold(w, a).value, b)
    ensures LegalFrom(w, a + b) && Fold(w, a + b) == Fold(Fold(w, a).value, b)
  {
    LegalConcat(w, a, b);
    FoldConcat(w, a, b);
  }

  // ---- Admission -------------------------------------------------------------------------------

  ghost function Admitted(w: Working, o: Order): Working {
    Working(w.orders[o.terms.orderId := o], SetNonce(w.ledger, o.terms.traderId, o.terms.nonce), w.lastSeq + 1)
  }

  /** A signed order that passes the gates is a legal next log entry. */
  lemma IntakeIsLegal(v: EngineView, w: Working, s: SignedOrder, nowMs: nat, freshId: OrderId, world: World)
    requires Tracks(v, w) && freshId !in v.index
    requires Validate(v.markets, s, nowMs, world).None?
    requires IdempotencyKey(s.traderId, s.clientOrderId) !in v.idempotency
    requires s.nonce > Lookup(v.ledger.nonces, s.traderId, 0)
    ensures LegalAccept(w, NewOrder(s, freshId, v.nextSeqId, nowMs), v.nextSeqId)
    ensures s.marketId in v.markets
  {
    HashBinds(s);
    assert v.markets[s.marketId].id == s.marketId;
    var o := NewOrder(s, freshId, v.nextSeqId, nowMs);
    forall id | id in w.orders ensures KeyOf(w.orders[id].terms) != KeyOf(o.terms) {
      assert KeyOf(w.orders[id].terms) in v.idempotency;
    }
  }

  lemma AdmitTracksLog(v: EngineView, w: Working, o: Order, wall: nat -> nat)
    requires LogTracks(v, w) && LegalAccept(w, o, v.nextSeqId)
    ensures LogTracks(Admit(v, o, wall), Admitted(w, o))
  {
    var se := SequencedEvent(v.nextSeqId, wall(v.nextSeqId), OrderAccepted(o));
    OneEvent(w, se);
    assert ApplyEvent(w, se) == Ok(Admitted(w, o));
    LogTracksMore(v, w, [se], Admit(v, o, wall), Admitted(w, o));
  }

  lemma AdmitTracksTable(table: Idempotency, orders: Orders, o: Order)
    requires TableTracks(table, orders) && o.terms.orderId !in orders
    requires forall id :: id in orders ==> KeyOf(orders[id].terms) != KeyOf(o.terms)
    ensures var t := o.terms;
            TableTracks(table[KeyOf(t) := IdempotencyRecord(t.createdSequence, t.orderId, t.orderHash, t.acceptedAtMs)],
                        orders[t.orderId := o])
  {
  }

  lemma AdmitTracksIndex(v: EngineView, w: Working, o: Order, wall: nat -> nat)
    requires IndexTracks(v, w) && o.terms.marketId in v.markets
    ensures IndexTracks(Admit(v, o, wall), Admitted(w, o))
  {
  }

  lemma AdmitTracksBooks(v: EngineView, w: Working, o: Order, wall: nat -> nat)
    requires BooksTrack(v, w) && o.terms.orderId !in w.orders
    ensures BooksTrack(Admit(v, o, wall), Admitted(w, o))
  {
    forall m | m in v.books ensures BookTracks(v.books[m], m, Admitted(w, o)) {
      assert BookTracks(v.books[m], m, w);
    }
  }

  lemma AdmitTracks(v: EngineView, w: Working, o: Order, wall: nat -> nat)
    requires Tracks(v, w) && LegalAccept(w, o, v.nextSeqId) && o.terms.marketId in v.markets
    ensures Tracks(Admit(v, o, wall), Admitted(w, o))
  {
    AdmitTracksLog(v, w, o, wall);
    AdmitTracksIndex(v, w, o, wall);
    AdmitTracksBooks(v, w, o, wall);
    AdmitTracksTable(v.idempotency, w.orders, o);
  }

  // ---- Settlement ------------------------------------------------------------------------------

  /** The state right after admission: the new order is in the working set and in no book. */
  ghost predicate JustAdmitted(v: EngineView, w: Working, o: Order) {
    && Tracks(v, w) && o.terms.marketId in v.books && Arriving(o)
    && o.terms.orderId in w.orders && w.orders[o.terms.orderId] == o
    && o.terms.createdSequence == w.lastSeq
    && (forall id :: id in w.orders && id != o.terms.orderId ==>
          w.orders[id].terms.createdSequence < o.terms.createdSequence)
    && (forall m :: m in v.books ==> o.terms.orderId !in v.books[m])
  }

  lemma AdmittedIsNewest(v: EngineView, w: Working, o: Order, wall: nat -> nat)
    requires Tracks(v, w) && LegalAccept(w, o, v.nextSeqId)
    requires o.terms.marketId in v.markets && o.terms.marketId in v.books
    ensures JustAdmitted(Admit(v, o, wall), Admitted(w, o), o)
  {
    AdmitTracks(v, w, o, wall);
    forall id | id in w.orders ensures w.orders[id].terms.createdSequence < o.terms.createdSequence {
      assert WorkingOrderOk(w, id);
    }
    forall m | m in v.books ensures o.terms.orderId !in v.books[m] {
      assert BookTracks(v.books[m], m, w);
    }
  }

  /** The taker is newer than everything in its book. */
  ghost predicate NewestIn(book: Orders, market: MarketId, o: Order) {
    && Arriving(o) && o.terms.orderId !in book && o.terms.marketId == market
    && (forall id :: id in book ==>
          book[id].terms.marketId == market && book[id].terms.createdSequence < o.terms.createdSequence)
  }

  lemma NewestInBook(v: EngineView, w: Working, o: Order)
    requires JustAdmitted(v, w, o)
    ensures NewestIn(v.books[o.terms.marketId], o.terms.marketId, o)
    ensures BookTracks(v.books[o.terms.marketId], o.terms.marketId, w)
  {
    var book := v.books[o.terms.marketId];
    assert BookTracks(book, o.terms.marketId, w);
    forall id | id in book ensures book[id].terms.createdSequence < o.terms.createdSequence {
      assert w.orders[id].terms == book[id].terms;
    }
  }

  lemma MakersEligible(book: Orders, market: MarketId, o: Order)
    requires BookOk(book) && NewestIn(book, market, o)
    ensures Eligible(book, o, Makers(book, o)) && WalkInput(book, o, Makers(book, o))
  {
    MakersAreMakers(book, o);
  }

  /** The working set after the fills, and after the STP cancel if there is one. */
  ghost function AfterFills(w: Working, m: MatchResult, wall: nat -> nat): Result<Working, ReplayError> {
    Fold(w, Stamp(w.lastSeq + 1, FillEvents(m.fills), wall))
  }

  ghost function AfterStp(w: Working, taker: Order): Working
    requires taker.terms.orderId in w.orders
  {
    var id := taker.terms.orderId;
    if taker.status == CancelledStp
    then Working(w.orders[id := w.orders[id].(status := CancelledStp, lastUpdate := w.lastSeq + 1)],
                 CancelHash(w.ledger, taker.terms.orderHash), w.lastSeq + 1)
    else w
  }

  lemma StpIsLegal(w: Working, taker: Order, wall: nat -> nat)
    requires WorkingOk(w) && w.lastSeq > 0 && taker.terms.orderId in w.orders
    requires w.orders[taker.terms.orderId].terms == taker.terms
    ensures var events := Stamp(w.lastSeq + 1, StpEvents(taker), wall);
            LegalFrom(w, events) && Fold(w, events) == Ok(AfterStp(w, taker))
  {
    if taker.status == CancelledStp {
      var se := SequencedEvent(w.lastSeq + 1, wall(w.lastSeq + 1),
                               OrderCancelled(taker.terms.orderId, taker.terms.orderHash, SelfTradePrevention));
      OneEvent(w, se);
      assert Stamp(w.lastSeq + 1, StpEvents(taker), wall) == [se];
    }
  }

  /** The fills of the match, replayed. */
  lemma FillsReplay(w: Working, book: Orders, market: MarketId, o: Order, nowMs: nat, wall: nat -> nat)
    returns (w1: Working)
    requires WorkingOk(w) && w.lastSeq > 0 && BookOk(book) && Mirrors(w.orders, book) && NewestIn(book, market, o)
    requires o.terms.orderId in w.orders && w.orders[o.terms.orderId] == o
    ensures var m := Match(book, o, o.terms.createdSequence, nowMs);
            && LegalFrom(w, Stamp(w.lastSeq + 1, FillEvents(m.fills), wall))
            && AfterFills(w, m, wall) == Ok(w1) && WorkingOk(w1)
            && Reproduces(w, w1, book, o, m) && m.taker.terms == o.terms
  {
    var seqId := o.terms.createdSequence;
    var m := Match(book, o, seqId, nowMs);
    MakersEligible(book, market, o);
    WalkReplays(w, book, o, Makers(book, o), seqId, nowMs, wall);
    WalkFrame(book, o, Makers(book, o), seqId, nowMs);
    w1 := AfterFills(w, m, wall).value;
    LegalFold(w, Stamp(w.lastSeq + 1, FillEvents(m.fills), wall));
  }

  /** What settlement appends, counted from the working set. */
  lemma SettledFields(v: EngineView, w: Working, w1: Working, market: MarketId, m: MatchResult, wall: nat -> nat)
    requires v.nextSeqId == w.lastSeq + 1 && w1.lastSeq == w.lastSeq + |m.fills|
    requires w1.ledger == ApplyFills(v.ledger, m.fills) && m.taker.terms.orderId in w1.orders
    ensures var v' := Settle(v, market, m, wall);
            var events := Stamp(w.lastSeq + 1, FillEvents(m.fills), wall)
                          + Stamp(w1.lastSeq + 1, StpEvents(m.taker), wall);
            && v'.log == v.log + events && v'.nextSeqId == v.nextSeqId + |events|
            && v'.ledger == AfterStp(w1, m.taker).ledger
  {
    StampConcat(v.nextSeqId, FillEvents(m.fills), StpEvents(m.taker), wall);
  }

  /** Log and ledgers after settlement. */
  lemma SettleTracksLog(v: EngineView, w: Working, w1: Working, market: MarketId, m: MatchResult, wall: nat -> nat)
    requires LogTracks(v, w) && w.lastSeq > 0
    requires LegalFrom(w, Stamp(w.lastSeq + 1, FillEvents(m.fills), wall))
    requires AfterFills(w, m, wall) == Ok(w1) && WorkingOk(w1)
    requires w1.ledger == ApplyFills(w.ledger, m.fills) && w1.lastSeq == w.lastSeq + |m.fills|
    requires m.taker.terms.orderId in w1.orders && w1.orders[m.taker.terms.orderId].terms == m.taker.terms
    ensures LogTracks(Settle(v, market, m, wall), AfterStp(w1, m.taker))
  {
    var fills := Stamp(w.lastSeq + 1, FillEvents(m.fills), wall);
    var stp := Stamp(w1.lastSeq + 1, StpEvents(m.taker), wall);
    StpIsLegal(w1, m.taker, wall);
    TwoBlocks(w, fills, stp);
    SettledFields(v, w, w1, market, m, wall);
    LogTracksMore(v, w, fills + stp, Settle(v, market, m, wall), AfterStp(w1, m.taker));
  }

  /** The matched book after settlement, seen from the working set. */
  lemma SettleMirrors(w: Working, w1: Working, book: Orders, o: Order, m: MatchResult)
    requires Reproduces(w, w1, book, o, m) && m.taker.terms == o.terms && o.terms.orderId !in m.orders
    ensures Mirrors(AfterStp(w1, m.taker).orders, AfterMatch(m))
  {
  }

  lemma AfterMatchOk(m: MatchResult)
    requires BookOk(m.orders) && m.taker.terms.orderId !in m.orders && m.taker.filled <= m.taker.terms.size
    requires forall id :: id in m.orders ==> m.orders[id].terms.createdSequence < m.taker.terms.createdSequence
    ensures BookOk(AfterMatch(m))
  {
  }

  lemma SettleTracksBook(w: Working, w1: Working, book: Orders, market: MarketId, o: Order, nowMs: nat)
    requires BookTracks(book, market, w) && NewestIn(book, market, o)
    requires Reproduces(w, w1, book, o, Match(book, o, o.terms.createdSequence, nowMs))
    ensures var m := Match(book, o, o.terms.createdSequence, nowMs);
            && m.taker.terms == o.terms && o.terms.orderId in w1.orders
            && BookTracks(AfterMatch(m), market, AfterStp(w1, m.taker))
  {
    var seqId := o.terms.createdSequence;
    var m := Match(book, o, seqId, nowMs);
    WalkFrame(book, o, Makers(book, o), seqId, nowMs);
    WalkOk(book, o, Makers(book, o), seqId, nowMs);
    AfterMatchOk(m);
    SettleMirrors(w, w1, book, o, m);
  }

  lemma SameTermsTables(v: EngineView, v': EngineView, w: Working, w': Working)
    requires IndexTracks(v, w) && TableTracks(v.idempotency, w.orders)
    requires v'.index == v.index && v'.idempotency == v.idempotency
    requires forall m :: m in v.markets ==> m in v'.markets
    requires w'.orders.Keys == w.orders.Keys
    requires forall id :: id in w.orders ==> w'.orders[id].terms == w.orders[id].terms
    ensures IndexTracks(v', w') && TableTracks(v'.idempotency, w'.orders)
  {
  }

  lemma ReproducesTerms(w: Working, w1: Working, book: Orders, o: Order, m: MatchResult)
    requires Mirrors(w.orders, book) && Reproduces(w, w1, book, o, m)
    requires o.terms.orderId in w.orders && w.orders[o.terms.orderId].terms == o.terms && m.taker.terms == o.terms
    requires m.orders.Keys == book.Keys && forall id :: id in book ==> m.orders[id].terms == book[id].terms
    ensures var w2 := AfterStp(w1, m.taker);
            w2.orders.Keys == w.orders.Keys && forall id :: id in w.orders ==> w2.orders[id].terms == w.orders[id].terms
  {
    forall id | id in w.orders ensures w1.orders[id].terms == w.orders[id].terms {
      if id in book { assert m.orders[id].terms == book[id].terms; }
    }
  }

  /** Books of other markets do not notice a match. */
  lemma OtherBook(w: Working, w1: Working, book: Orders, market: MarketId, o: Order, m: MatchResult,
                  other: Orders, otherMarket: MarketId)
    requires BookTracks(book, market, w) && Reproduces(w, w1, book, o, m)
    requires m.taker.terms == o.terms && o.terms.orderId in w1.orders
    requires BookTracks(other, otherMarket, w) && otherMarket != market && o.terms.orderId !in other
    ensures BookTracks(other, otherMarket, AfterStp(w1, m.taker))
    ensures forall id :: id in other ==> id in w.orders && AfterStp(w1, m.taker).orders[id] == w.orders[id]
  {
    forall id | id in other ensures id !in book {
      assert w.orders[id].terms.marketId == otherMarket;
    }
  }

  lemma SettleTracks(v: EngineView, w: Working, o: Order, nowMs: nat, wall: nat -> nat)
    returns (w1: Working, w2: Working)
    requires JustAdmitted(v, w, o)
    ensures var book := v.books[o.terms.marketId];
            var m := Match(book, o, o.terms.createdSequence, nowMs);
            && Reproduces(w, w1, book, o, m) && m.taker.terms == o.terms && w2 == AfterStp(w1, m.taker)
            && AfterFills(w, m, wall) == Ok(w1)
            && Tracks(Settle(v, o.terms.marketId, m, wall), w2)
  {
    var market := o.terms.marketId;
    var book := v.books[market];
    var m := Match(book, o, o.terms.createdSequence, nowMs);
    NewestInBook(v, w, o);
    w1 := FillsReplay(w, book, market, o, nowMs, wall);
    w2 := AfterStp(w1, m.taker);
    SettleTracksLog(v, w, w1, market, m, wall);
    SettleTracksBook(w, w1, book, market, o, nowMs);
    WalkFrame(book, o, Makers(book, o), o.terms.createdSequence, nowMs);
    ReproducesTerms(w, w1, book, o, m);
    var v' := Settle(v, market, m, wall);
    SameTermsTables(v, v', w, w2);
    SettleTracksBooks(v.books, w, w1, market, o, m);
  }

  lemma SettleTracksBooks(books: map<MarketId, Orders>, w: Working, w1: Working, market: MarketId, o: Order,
                          m: MatchResult)
    requires market in books && (forall other :: other in books ==> BookTracks(books[other], other, w))
    requires forall other :: other in books ==> o.terms.orderId !in books[other]
    requires Reproduces(w, w1, books[market], o, m) && m.taker.terms == o.terms && o.terms.orderId in w1.orders
    requires BookTracks(AfterMatch(m), market, AfterStp(w1, m.taker))
    ensures var books' := books[market := AfterMatch(m)];
            forall other :: other in books' ==> BookTracks(books'[other], other, AfterStp(w1, m.taker))
    ensures forall other, id :: other in books && other != market && id in books[other] ==>
              id in w.orders && AfterStp(w1, m.taker).orders[id] == w.orders[id]
  {
    forall other | other in books && other != market
      ensures BookTracks(books[other], other, AfterStp(w1, m.taker))
      ensures forall id :: id in books[other] ==> id in w.orders && AfterStp(w1, m.taker).orders[id] == w.orders[id]
    {
      OtherBook(w, w1, books[market], market, o, m, books[other], other);
    }
  }

  /** After settlement the taker is in its book exactly when the replayed taker is open. */
  lemma TakerRests(m: MatchResult, working: Orders)
    requires m.taker.terms.orderId in working && working[m.taker.terms.orderId].filled == m.taker.filled
    requires m.taker.filled <= m.taker.terms.size
    requires m.taker.status == CancelledStp || Tradable(m.taker)
    requires m.taker.status == CancelledStp || Synced(working, m.taker)
    requires m.taker.status == CancelledStp ==> working[m.taker.terms.orderId].Closed()
    ensures !working[m.taker.terms.orderId].Closed() ==> m.taker.terms.orderId in AfterMatch(m)
  {
  }

  lemma {:induction false} WalkTradable(orders: Orders, taker: Order, ids: seq<OrderId>, seqId: nat, nowMs: nat)
    requires WalkInput(orders, taker, ids)
    ensures var r := Walk(orders, taker, ids, seqId, nowMs);
            r.taker.status == CancelledStp || (Tradable(r.taker) && (r.taker.Closed() ==> r.taker.status == Filled))
    decreases |ids|
  {
    if !Trades(orders, taker, ids) {
    } else {
      var (orders', taker') := AfterFirst(orders, taker, ids, seqId);
      WalkInputNext(orders, taker, ids, seqId);
      WalkUnfold(orders, taker, ids, seqId, nowMs);
      WalkTradable(orders', taker', ids[1..], seqId, nowMs);
    }
  }

  /** Every order of the matched book has the status replay gives it. */
  lemma SettleSyncedBook(w: Working, w1: Working, book: Orders, o: Order, m: MatchResult)
    requires Reproduces(w, w1, book, o, m) && m.taker.terms == o.terms && Synced(w.orders, o)
    requires o.terms.orderId !in book && m.orders.Keys == book.Keys
    requires forall id :: id in m.orders ==> m.orders[id].terms.orderId == id
    requires forall id :: id in book ==> Synced(w.orders, book[id])
    ensures forall id :: id in AfterMatch(m) ==> Synced(AfterStp(w1, m.taker).orders, AfterMatch(m)[id])
  {
  }

  /** Every order replay leaves open is in its book. */
  lemma SettleOpenKnown(books: map<MarketId, Orders>, w: Working, market: MarketId, o: Order, w1: Working,
                        m: MatchResult)
    requires market in books && o.terms.marketId == market && m.taker.terms == o.terms
    requires Mirrors(w.orders, books[market])
    requires forall id :: id in books[market] ==> books[market][id].terms.marketId == market
    requires OpenBookedBut(books, w.orders, o.terms.orderId)
    requires Reproduces(w, w1, books[market], o, m)
    requires m.orders.Keys == books[market].Keys
    requires forall id :: id in m.orders ==> m.orders[id].terms == books[market][id].terms
    requires var working := AfterStp(w1, m.taker).orders;
             !working[o.terms.orderId].Closed() ==> o.terms.orderId in AfterMatch(m)
    ensures OpenBooked(books[market := AfterMatch(m)], AfterStp(w1, m.taker).orders)
  {
    var working := AfterStp(w1, m.taker).orders;
    forall id | id in working && !working[id].Closed() && id != o.terms.orderId
      ensures working[id].terms.marketId in books
      ensures working[id].terms.marketId == market ==> id in m.orders
      ensures working[id].terms.marketId != market ==> id in books[working[id].terms.marketId]
    {
      if id in books[market] {
        assert m.orders[id].terms == working[id].terms;
      } else {
        assert working[id] == w.orders[id];
      }
    }
  }

  lemma SettleBooked(books: map<MarketId, Orders>, w: Working, market: MarketId, o: Order, nowMs: nat, w1: Working)
    requires market in books && NewestIn(books[market], market, o) && BookTracks(books[market], market, w)
    requires o.terms.orderId in w.orders && w.orders[o.terms.orderId] == o
    requires OpenBookedBut(books, w.orders, o.terms.orderId)
    requires var m := Match(books[market], o, o.terms.createdSequence, nowMs);
             Reproduces(w, w1, books[market], o, m) && m.taker.terms == o.terms
    ensures var m := Match(books[market], o, o.terms.createdSequence, nowMs);
            o.terms.orderId in w1.orders && OpenBooked(books[market := AfterMatch(m)], AfterStp(w1, m.taker).orders)
  {
    TakerAfterMatch(w, w1, books[market], market, o, nowMs);
    SettleOpenKnown(books, w, market, o, w1, Match(books[market], o, o.terms.createdSequence, nowMs));
  }

  lemma SettleStatus(books: map<MarketId, Orders>, w: Working, market: MarketId, o: Order, nowMs: nat, w1: Working)
    requires market in books && NewestIn(books[market], market, o)
    requires forall other :: other in books ==> BookTracks(books[other], other, w) && o.terms.orderId !in books[other]
    requires o.terms.orderId in w.orders && w.orders[o.terms.orderId] == o
    requires StatusSynced(books, w.orders)
    requires var m := Match(books[market], o, o.terms.createdSequence, nowMs);
             Reproduces(w, w1, books[market], o, m) && m.taker.terms == o.terms
    ensures var m := Match(books[market], o, o.terms.createdSequence, nowMs);
            o.terms.orderId in w1.orders && StatusSynced(books[market := AfterMatch(m)], AfterStp(w1, m.taker).orders)
  {
    var book := books[market];
    var m := Match(book, o, o.terms.createdSequence, nowMs);
    assert BookTracks(book, market, w);
    SettleTracksBook(w, w1, book, market, o, nowMs);
    TakerAfterMatch(w, w1, book, market, o, nowMs);
    SettleTracksBooks(books, w, w1, market, o, m);
    assert forall id :: id in m.orders ==> m.orders[id].terms.orderId == id;
    SettleSyncedBook(w, w1, book, o, m);
    var books', working := books[market := AfterMatch(m)], AfterStp(w1, m.taker).orders;
    forall other, id | other in books' && id in books'[other] ensures Synced(working, books'[other][id]) {
      if other != market {
        assert working[id] == w.orders[id];
        assert BookTracks(books[other], other, w);
      }
    }
  }

  /** The matched taker and its replayed counterpart agree on whether it rests. */
  lemma TakerAfterMatch(w: Working, w1: Working, book: Orders, market: MarketId, o: Order, nowMs: nat)
    requires BookTracks(book, market, w) && NewestIn(book, market, o)
    requires o.terms.orderId in w.orders && w.orders[o.terms.orderId] == o
    requires var m := Match(book, o, o.terms.createdSequence, nowMs);
             Reproduces(w, w1, book, o, m) && m.taker.terms == o.terms
    ensures var m := Match(book, o, o.terms.createdSequence, nowMs);
            && m.orders.Keys == book.Keys
            && (forall id :: id in m.orders ==> m.orders[id].terms == book[id].terms)
            && (!AfterStp(w1, m.taker).orders[o.terms.orderId].Closed() ==> o.terms.orderId in AfterMatch(m))
  {
    var seqId := o.terms.createdSequence;
    var m := Match(book, o, seqId, nowMs);
    MakersEligible(book, market, o);
    WalkFrame(book, o, Makers(book, o), seqId, nowMs);
    WalkTotals(book, o, Makers(book, o), seqId, nowMs);
    WalkTradable(book, o, Makers(book, o), seqId, nowMs);
    TakerRests(m, AfterStp(w1, m.taker).orders);
  }
}
