/** Crash recovery: the restored engine, and why nobody can tell it from one that never stopped. */
module Restart {
  import opened Basics
  import opened Domain
  import opened Books
  import opened MatchTheory
  import opened MatchReplay
  import opened Sequencing
  import opened Replaying
  import opened LegalLogs
  import opened EngineSpec
  import opened Live
  import opened Steps

  // ---- Rebuilt tables ----------------------------------------------------------------------------

  lemma {:induction false} IndexOf(log: seq<SequencedEvent>, orders: Orders)
    requires LogOrdersKnown(log, orders)
    ensures forall id :: id in RebuildIndex(log) ==> id in orders && RebuildIndex(log)[id] == orders[id].terms.marketId
    ensures forall i, id :: AcceptedBy(log, i, id) ==> id in RebuildIndex(log)
    decreases |log|
  {
    if log == [] {
    } else {
      var last := |log| - 1;
      assert forall i :: 0 <= i < last ==> log[..last][i] == log[i];
      IndexOf(log[..last], orders);
      assert AcceptanceKnown(log[last], orders);
      forall i, id | AcceptedBy(log, i, id) ensures id in RebuildIndex(log) {
        if i < last { assert AcceptedBy(log[..last], i, id); }
      }
    }
  }

  /** The rebuilt record of an order. */
  ghost predicate RecordOf(table: Idempotency, t: Terms) {
    KeyOf(t) in table
    && var r := table[KeyOf(t)];
    && r.originalSeqId == t.createdSequence && r.orderId == t.orderId && r.orderHash == t.orderHash
  }

  lemma {:induction false} TableOf(log: seq<SequencedEvent>, orders: Orders)
    requires LogOrdersKnown(log, orders) && DistinctKeys(orders)
    ensures forall k :: k in RebuildTable(log) ==>
              var id := RebuildTable(log)[k].orderId; id in orders && KeyOf(orders[id].terms) == k
    ensures forall i, id :: AcceptedBy(log, i, id) && id in orders ==> RecordOf(RebuildTable(log), orders[id].terms)
    decreases |log|
  {
    if log == [] {
    } else {
      var last := |log| - 1;
      assert forall i :: 0 <= i < last ==> log[..last][i] == log[i];
      TableOf(log[..last], orders);
      assert AcceptanceKnown(log[last], orders);
      forall i, id | AcceptedBy(log, i, id) && id in orders ensures RecordOf(RebuildTable(log), orders[id].terms) {
        if i < last {
          assert AcceptedBy(log[..last], i, id);
          assert RecordOf(RebuildTable(log[..last]), orders[id].terms);
        }
      }
    }
  }

  lemma {:induction false} FoldLast(w: Working, events: seq<SequencedEvent>)
    requires events != [] && Fold(w, events).Ok?
    ensures Fold(w, events).value.lastSeq == events[|events| - 1].seqId
    decreases |events|
  {
    if |events| > 1 {
      FoldLast(ApplyEvent(w, events[0]).value, events[1..]);
      assert events[1..][|events| - 2] == events[|events| - 1];
    }
  }

  // ---- The restored engine -------------------------------------------------------------------------

  lemma LogFacts(v: EngineView)
    requires Inv(v)
    ensures LogOrdersKnown(v.log, WorkingOf(v).orders)
    ensures forall id :: id in WorkingOf(v).orders ==> exists i :: AcceptedBy(v.log, i, id)
  {
    EmptyWorkingOk();
    FoldKeepsTerms(EMPTY_WORKING, v.log);
  }

  lemma SameIndex(log: seq<SequencedEvent>, index: map<OrderId, MarketId>, orders: Orders)
    requires LogOrdersKnown(log, orders)
    requires forall id :: id in orders ==> exists i :: AcceptedBy(log, i, id)
    requires index.Keys == orders.Keys && forall id :: id in orders ==> index[id] == orders[id].terms.marketId
    ensures RebuildIndex(log) == index
  {
    IndexOf(log, orders);
    var rebuilt := RebuildIndex(log);
    forall id | id in orders ensures id in rebuilt {
      var i :| AcceptedBy(log, i, id);
    }
    assert rebuilt.Keys == orders.Keys;
  }

  lemma RebuiltIndexTracks(v: EngineView, w: Working)
    requires Inv(v) && w == WorkingOf(v)
    ensures RebuildIndex(v.log) == v.index
  {
    LogFacts(v);
    SameIndex(v.log, v.index, w.orders);
  }

  lemma RebuiltTableTracks(v: EngineView, w: Working)
    requires Inv(v) && w == WorkingOf(v)
    ensures TableTracks(RebuildTable(v.log), w.orders)
  {
    LogFacts(v);
    TableOf(v.log, w.orders);
    forall id | id in w.orders ensures RecordOf(RebuildTable(v.log), w.orders[id].terms) {
      var i :| AcceptedBy(v.log, i, id);
    }
  }

  /** Two books with the same open orders, update stamps aside. */
  ghost predicate TwinBook(a: Orders, b: Orders) {
    && (forall id :: id in a && !a[id].Closed() ==>
          id in b && b[id].terms == a[id].terms && b[id].filled == a[id].filled && b[id].status == a[id].status)
    && (forall id :: id in b && !b[id].Closed() ==> id in a && !a[id].Closed())
  }

  function BookOf(v: EngineView, m: MarketId): Orders {
    Lookup(v.books, m, map[])
  }

  /** The live book holds exactly the orders the log leaves open. */
  lemma LiveBookIsReplayed(v: EngineView, m: MarketId)
    requires Inv(v) && BooksReplay(v)
    ensures TwinBook(BookOf(v, m), OpenOrders(WorkingOf(v).orders, m))
  {
    var w := WorkingOf(v);
    var live, rebuilt := BookOf(v, m), OpenOrders(w.orders, m);
    if m in v.books {
      assert BookTracks(v.books[m], m, w);
    }
    forall id | id in rebuilt ensures id in live && !live[id].Closed() {
      assert id in w.orders && w.orders[id].terms.marketId == m;
      assert Synced(w.orders, v.books[m][id]);
    }
    forall id | id in live && !live[id].Closed()
      ensures id in rebuilt && rebuilt[id].terms == live[id].terms
        && rebuilt[id].filled == live[id].filled && rebuilt[id].status == live[id].status
    {
      assert Synced(w.orders, v.books[m][id]);
    }
  }

  /** No market's open orders, as the log leaves them, cross. */
  ghost predicate LogUncrossed(orders: Orders) {
    forall m :: Uncrossed(OpenOrders(orders, m))
  }

  /** The book replay builds for a market agrees with the log. */
  lemma ReplayedBookTracks(w: Working, m: MarketId)
    requires WorkingOk(w) && OpenNotFull(w.orders)
    ensures BookTracks(OpenOrders(w.orders, m), m, w)
  {
    var b := OpenOrders(w.orders, m);
    assert BookOk(b) by {
      forall id | id in b ensures b[id].terms.orderId == id && b[id].filled <= b[id].terms.size {
        assert WorkingOrderOk(w, id);
      }
    }
    assert Mirrors(w.orders, b);
  }

  lemma RestoredBooksTrack(w: Working)
    requires WorkingOk(w) && OpenNotFull(w.orders)
    ensures forall m :: m in ReplayedBooks(w.orders) ==> BookTracks(ReplayedBooks(w.orders)[m], m, w)
  {
    var books := ReplayedBooks(w.orders);
    forall m | m in books ensures BookTracks(books[m], m, w) {
      ReplayedBookTracks(w, m);
      ReplayedBookOf(w.orders, m);
    }
  }

  lemma ReplayedBookOf(orders: Orders, m: MarketId)
    ensures Lookup(ReplayedBooks(orders), m, map[]) == OpenOrders(orders, m)
  {
    if m !in ReplayedBooks(orders) {
      assert OpenOrders(orders, m).Keys == {};
    }
  }

  lemma RestartedFields(v: EngineView)
    requires Inv(v) && v.log != []
    ensures var r, w := Restarted(v), WorkingOf(v);
            && r.markets == v.markets && r.books == ReplayedBooks(w.orders)
            && r.nextSeqId == v.nextSeqId && r.log == v.log && r.idempotency == RebuildTable(v.log)
            && r.ledger == v.ledger && r.index == v.index
  {
    FoldLast(EMPTY_WORKING, v.log);
    RebuiltIndexTracks(v, WorkingOf(v));
  }

  /** A restart rewrites nothing: log, index and markets are those of the running engine. */
  lemma RestartedLog(v: EngineView)
    requires Inv(v)
    ensures Restarted(v).log == v.log && Restarted(v).index == v.index && Restarted(v).markets == v.markets
  {
    if v.log != [] { RestartedFields(v); }
  }

  lemma OpenStatusTracks(books: map<MarketId, Orders>, orders: Orders)
    requires books == ReplayedBooks(orders) && forall id :: id in orders ==> orders[id].terms.orderId == id
    ensures StatusSynced(books, orders) && OpenBooked(books, orders)
  {
  }

  lemma RestartTracks(v: EngineView, w: Working, r: EngineView)
    requires Tracks(v, w)
    requires r.markets == v.markets && r.nextSeqId == v.nextSeqId && r.log == v.log
    requires r.ledger == v.ledger && r.index == v.index
    requires TableTracks(r.idempotency, w.orders) && BooksTrack(r, w)
    ensures Tracks(r, w)
  {
    assert LogTracks(r, w);
  }

  lemma StartedInv(markets: map<MarketId, MarketConfig>)
    requires forall m :: m in markets ==> markets[m].id == m
    ensures Inv(Started(markets)) && BooksReplay(Started(markets)) && Housed(Started(markets))
  {
    EmptyWorkingOk();
  }

  lemma LoggedRestarts(v: EngineView)
    requires Inv(v) && v.log != []
    ensures Inv(Restarted(v)) && WorkingOf(Restarted(v)) == WorkingOf(v) && BooksReplay(Restarted(v))
  {
    var r, w := Restarted(v), WorkingOf(v);
    RestartedFields(v);
    RebuiltTableTracks(v, w);
    LogOpenNotFull(v.log);
    RestoredBooksTrack(w);
    RestartTracks(v, w, r);
    TracksIsInv(r, w);
    assert forall id :: id in w.orders ==> WorkingOrderOk(w, id);
    OpenStatusTracks(r.books, w.orders);
  }

  /**
   * A restart keeps the agreement with the log, whatever went before. The books are those of the log again,
   * even after a forced cancel or a crash.
   */
  lemma RestartKeeps(v: EngineView)
    requires Inv(v)
    ensures Inv(Restarted(v)) && WorkingOf(Restarted(v)) == WorkingOf(v)
    ensures BooksReplay(Restarted(v)) && ClosedAgree(Restarted(v))
  {
    if v.log == [] {
      StartedInv(v.markets);
    } else {
      LoggedRestarts(v);
      RestartedFields(v);
    }
  }

  /** Its books are uncrossed exactly when the orders the log leaves open are. */
  lemma RestartUncrossed(v: EngineView)
    requires Inv(v)
    ensures NoneCrossed(Restarted(v)) <==> LogUncrossed(WorkingOf(v).orders)
  {
    var w, r := WorkingOf(v), Restarted(v);
    if v.log == [] {
      assert w == EMPTY_WORKING;
    } else {
      RestartedFields(v);
      ReplayedUncrossed(w.orders);
    }
  }

  lemma ReplayedUncrossed(orders: Orders)
    ensures (forall m :: m in ReplayedBooks(orders) ==> Uncrossed(ReplayedBooks(orders)[m])) <==> LogUncrossed(orders)
  {
    var books := ReplayedBooks(orders);
    forall m ensures Uncrossed(OpenOrders(orders, m)) <==> (m in books ==> Uncrossed(books[m])) {
      ReplayedBookOf(orders, m);
    }
  }

  /** The log does not cross while no book does and every open order of the log rests in its book. */
  lemma BackedUncrossed(v: EngineView)
    requires Inv(v) && Backed(v) && NoneCrossed(v)
    ensures LogUncrossed(WorkingOf(v).orders)
  {
    var w := WorkingOf(v);
    forall m ensures Uncrossed(OpenOrders(w.orders, m)) {
      var b := OpenOrders(w.orders, m);
      if m in v.books { assert BookTracks(v.books[m], m, w) && Uncrossed(v.books[m]); }
      forall id | id in b ensures RestsIn(v.books, m, id) && v.books[m][id].terms == b[id].terms {
        assert w.orders[id].terms.marketId == m && !w.orders[id].Closed();
      }
    }
  }

  /** Books with the statuses of the log agree with it on what is closed. */
  lemma SyncedAgrees(v: EngineView)
    requires Inv(v) && BooksSynced(v)
    ensures ClosedAgree(v)
  {
    var w := WorkingOf(v);
    forall m, id | m in v.books && id in v.books[m] && v.books[m][id].Closed()
      ensures id in w.orders && w.orders[id].Closed()
    {
      assert BookTracks(v.books[m], m, w);
      assert Synced(w.orders, v.books[m][id]);
    }
  }

  // ---- Twins: engines nobody can tell apart ---------------------------------------------------------

  /** The same table, acceptance times aside. */
  ghost predicate SameTable(a: Idempotency, b: Idempotency) {
    && a.Keys == b.Keys
    && (forall k :: k in a ==>
          a[k].originalSeqId == b[k].originalSeqId && a[k].orderId == b[k].orderId && a[k].orderHash == b[k].orderHash)
  }

  /** Everything agrees except closed orders kept for audit, update stamps and acceptance times. */
  ghost predicate Twin(v: EngineView, r: EngineView) {
    && r.markets == v.markets && r.nextSeqId == v.nextSeqId && r.log == v.log
    && r.ledger == v.ledger && r.index == v.index
    && SameTable(v.idempotency, r.idempotency)
    && (forall m :: TwinBook(BookOf(v, m), BookOf(r, m)))
  }

  /** The restarted engine is a twin of the one that never stopped. */
  lemma RestartedIsTwin(v: EngineView)
    requires Inv(v) && BooksReplay(v)
    ensures Twin(v, Restarted(v))
  {
    var r, w := Restarted(v), WorkingOf(v);
    if v.log == [] {
      EmptyLogTwin(v);
    } else {
      RestartedFields(v);
      RebuiltTableTracks(v, w);
      SameTables(v.idempotency, r.idempotency, w.orders);
      forall m ensures TwinBook(BookOf(v, m), BookOf(r, m)) {
        LiveBookIsReplayed(v, m);
        ReplayedBookOf(w.orders, m);
      }
    }
  }

  lemma SameTables(a: Idempotency, b: Idempotency, orders: Orders)
    requires TableTracks(a, orders) && TableTracks(b, orders)
    ensures SameTable(a, b)
  {
  }

  lemma EmptyLogTwin(v: EngineView)
    requires Inv(v) && v.log == []
    ensures Twin(v, Started(v.markets))
  {
    var w := WorkingOf(v);
    assert w == EMPTY_WORKING;
    assert v.index == map[] && v.idempotency == map[];
    forall m ensures BookOf(v, m) == map[] {
      if m in v.books { assert BookTracks(v.books[m], m, w); }
    }
  }
}
