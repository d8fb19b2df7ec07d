/** What a step keeps of books and log: closed orders agree, and no book becomes crossed. */
module Backing {
  import opened Basics
  import opened Domain
  import opened Books
  import opened Matching
  import opened MatchTheory
  import opened MatchReplay
  import opened Sequencing
  import opened Replaying
  import opened LegalLogs
  import opened EngineSpec
  import opened Live
  import opened Steps

  // ---- What a match leaves open ----------------------------------------------------------------

  /** Fill events leave every order they do not name alone. */
  lemma {:induction false} FillsFrame(w: Working, next: nat, fills: seq<Fill>, wall: nat -> nat, id: OrderId)
    requires Fold(w, Stamp(next, FillEvents(fills), wall)).Ok? && id in w.orders
    requires forall f :: f in fills ==> f.takerOrderId != id && f.makerOrderId != id
    ensures var w' := Fold(w, Stamp(next, FillEvents(fills), wall)).value;
            id in w'.orders && w'.orders[id] == w.orders[id]
    decreases |fills|
  {
    if fills == [] {
    } else {
      var rest := fills[1..];
      assert fills == [fills[0]] + rest && fills[0] in fills;
      StampCons(next, fills[0], rest, wall);
      var se := SequencedEvent(next, wall(next), FillEvent(fills[0]));
      var events := Stamp(next, FillEvents(fills), wall);
      assert events[0] == se && events[1..] == Stamp(next + 1, FillEvents(rest), wall);
      var w1 := ApplyEvent(w, se).value;
      assert w1.orders[id] == w.orders[id];
      FillsFrame(w1, next + 1, rest, wall, id);
    }
  }

  /** An order closed in the book before the match is replayed as it was. */
  lemma ClosedUntouched(w: Working, w1: Working, book: Orders, o: Order, nowMs: nat, wall: nat -> nat, id: OrderId)
    requires BookOk(book) && Arriving(o) && id in book && book[id].Closed() && id in w.orders && id != o.terms.orderId
    requires AfterFills(w, Match(book, o, o.terms.createdSequence, nowMs), wall) == Ok(w1)
    ensures id in w1.orders && w1.orders[id] == w.orders[id]
  {
    var m := Match(book, o, o.terms.createdSequence, nowMs);
    forall f | f in m.fills ensures f.takerOrderId != id && f.makerOrderId != id {
      var k :| 0 <= k < |m.fills| && m.fills[k] == f;
      FillNamesOpen(book, o, o.terms.createdSequence, nowMs, k);
    }
    FillsFrame(w, w.lastSeq + 1, m.fills, wall, id);
  }

  /** A match closes an order only by filling it. */
  lemma MatchClosesFull(book: Orders, o: Order, nowMs: nat, id: OrderId)
    requires BookOk(book) && Arriving(o) && id in book && !book[id].Closed()
    ensures var m := Match(book, o, o.terms.createdSequence, nowMs);
            id in m.orders && (m.orders[id].Closed() ==> m.orders[id].filled >= m.orders[id].terms.size)
  {
    MakersAreMakers(book, o);
    WalkMakers(book, o, Makers(book, o), o.terms.createdSequence, nowMs);
    UpdatedClosesFull(book, Makers(book, o), Match(book, o, o.terms.createdSequence, nowMs),
                      o.terms.createdSequence, id);
  }

  lemma UpdatedClosesFull(book: Orders, makers: seq<OrderId>, m: MatchResult, seqId: nat, id: OrderId)
    requires MakersUpdated(book, makers, m, seqId) && id in book && !book[id].Closed()
    ensures id in m.orders && (m.orders[id].Closed() ==> m.orders[id].filled >= m.orders[id].terms.size)
  {
    if id in makers[..|m.fills|] {
      var i :| 0 <= i < |m.fills| && makers[..|m.fills|][i] == id;
      assert makers[i] == id;
    }
  }

  /** An order of the book that the replayed log leaves open is open in the book after the match. */
  lemma MakerAgrees(w: Working, w1: Working, book: Orders, o: Order, nowMs: nat, wall: nat -> nat, id: OrderId)
    requires BookOk(book) && Arriving(o) && id in book && id in w.orders && id != o.terms.orderId
    requires AfterFills(w, Match(book, o, o.terms.createdSequence, nowMs), wall) == Ok(w1)
    requires Mirrors(w1.orders, Match(book, o, o.terms.createdSequence, nowMs).orders)
    requires !w.orders[id].Closed() ==> !book[id].Closed()
    requires id in w1.orders && !w1.orders[id].Closed() && w1.orders[id].filled < w1.orders[id].terms.size
    ensures var m := Match(book, o, o.terms.createdSequence, nowMs); id in m.orders && !m.orders[id].Closed()
  {
    if book[id].Closed() {
      ClosedUntouched(w, w1, book, o, nowMs, wall, id);
    } else {
      MatchClosesFull(book, o, nowMs, id);
    }
  }

  lemma StpOnlyCloses(w: Working, taker: Order)
    requires taker.terms.orderId in w.orders
    ensures forall id :: id in w.orders && id != taker.terms.orderId ==>
              AfterStp(w, taker).orders[id] == w.orders[id]
    ensures AfterStp(w, taker).orders.Keys == w.orders.Keys
  {
  }

  /** The fills of a match in this book, replayed on this working set. */
  ghost predicate Replays(w: Working, w1: Working, book: Orders, o: Order, m: MatchResult, wall: nat -> nat) {
    && Reproduces(w, w1, book, o, m) && m.taker.terms == o.terms
    && AfterFills(w, m, wall) == Ok(w1)
  }

  /** One order of the matched book after a settlement. */
  lemma SettledOrderAgrees(w: Working, w1: Working, book: Orders, market: MarketId, o: Order, nowMs: nat,
                           wall: nat -> nat, id: OrderId)
    requires BookTracks(book, market, w) && NewestIn(book, market, o) && o.terms.orderId in w.orders
    requires Replays(w, w1, book, o, Match(book, o, o.terms.createdSequence, nowMs), wall)
    requires OpenNotFull(AfterStp(w1, Match(book, o, o.terms.createdSequence, nowMs).taker).orders)
    requires id in book && (book[id].Closed() ==> w.orders[id].Closed())
    ensures var m := Match(book, o, o.terms.createdSequence, nowMs);
            id in m.orders && (m.orders[id].Closed() ==> AfterStp(w1, m.taker).orders[id].Closed())
  {
    var m := Match(book, o, o.terms.createdSequence, nowMs);
    WalkFrame(book, o, Makers(book, o), o.terms.createdSequence, nowMs);
    StpOnlyCloses(w1, m.taker);
    if !w1.orders[id].Closed() {
      assert w1.orders[id] == AfterStp(w1, m.taker).orders[id];
      MakerAgrees(w, w1, book, o, nowMs, wall, id);
    }
  }

  lemma SettledAgrees(books: map<MarketId, Orders>, w: Working, market: MarketId, o: Order, nowMs: nat,
                      wall: nat -> nat, w1: Working)
    requires market in books && NewestIn(books[market], market, o) && o.terms.orderId in w.orders
    requires forall other :: other in books ==> BookTracks(books[other], other, w) && o.terms.orderId !in books[other]
    requires ClosedLogged(books, w.orders)
    requires Replays(w, w1, books[market], o, Match(books[market], o, o.terms.createdSequence, nowMs), wall)
    requires var m := Match(books[market], o, o.terms.createdSequence, nowMs);
             o.terms.orderId in w1.orders && OpenNotFull(AfterStp(w1, m.taker).orders)
    ensures var m := Match(books[market], o, o.terms.createdSequence, nowMs);
            ClosedLogged(books[market := AfterMatch(m)], AfterStp(w1, m.taker).orders)
  {
    var m := Match(books[market], o, o.terms.createdSequence, nowMs);
    assert BookTracks(books[market], market, w);
    SettleTracksBook(w, w1, books[market], market, o, nowMs);
    SettleTracksBooks(books, w, w1, market, o, m);
    SettledBookAgrees(w, w1, books[market], market, o, nowMs, wall);
    PutAgrees(books, market, AfterMatch(m), w.orders, AfterStp(w1, m.taker).orders);
  }

  lemma SettledBookAgrees(w: Working, w1: Working, book: Orders, market: MarketId, o: Order, nowMs: nat,
                          wall: nat -> nat)
    requires BookTracks(book, market, w) && NewestIn(book, market, o) && o.terms.orderId in w.orders
    requires Replays(w, w1, book, o, Match(book, o, o.terms.createdSequence, nowMs), wall)
    requires OpenNotFull(AfterStp(w1, Match(book, o, o.terms.createdSequence, nowMs).taker).orders)
    requires forall id :: id in book && book[id].Closed() ==> w.orders[id].Closed()
    ensures var m := Match(book, o, o.terms.createdSequence, nowMs);
            BookAgrees(AfterMatch(m), AfterStp(w1, m.taker).orders)
  {
    var m := Match(book, o, o.terms.createdSequence, nowMs);
    WalkFrame(book, o, Makers(book, o), o.terms.createdSequence, nowMs);
    StpOnlyCloses(w1, m.taker);
    forall id | id in AfterMatch(m) && AfterMatch(m)[id].Closed()
      ensures id in w1.orders && AfterStp(w1, m.taker).orders[id].Closed()
    {
      SettledOrderAgrees(w, w1, book, market, o, nowMs, wall, id);
    }
  }

  ghost predicate BookAgrees(book: Orders, working: Orders) {
    forall id :: id in book && book[id].Closed() ==> id in working && working[id].Closed()
  }

  lemma PutAgrees(books: map<MarketId, Orders>, market: MarketId, book: Orders, working: Orders, working': Orders)
    requires ClosedLogged(books, working) && BookAgrees(book, working')
    requires forall other, id :: other in books && other != market && id in books[other] ==>
               id in working && id in working' && working'[id] == working[id]
    ensures ClosedLogged(books[market := book], working')
  {
  }

  lemma AdmitAgrees(books: map<MarketId, Orders>, w: Working, o: Order)
    requires ClosedLogged(books, w.orders) && o.terms.orderId !in w.orders
    ensures ClosedLogged(books, Admitted(w, o).orders)
  {
  }

  lemma AcceptAgrees(v: EngineView, w: Working, o: Order, nowMs: nat, world: World)
    requires Inv(v) && w == WorkingOf(v) && ClosedAgree(v) && LegalAccept(w, o, v.nextSeqId)
    requires o.terms.marketId in v.markets && o.terms.marketId in v.books
    ensures var r := AcceptOrder(v, o, nowMs, world); Inv(r.0) && ClosedAgree(r.0)
  {
    AdmittedIsNewest(v, w, o, world.wall);
    AdmitAgrees(v.books, w, o);
    SettledKeeps(v, Admit(v, o, world.wall), Admitted(w, o), o, nowMs, world);
  }

  lemma SettledKeeps(v: EngineView, v0: EngineView, w0: Working, o: Order, nowMs: nat, world: World)
    requires v0 == Admit(v, o, world.wall) && JustAdmitted(v0, w0, o) && ClosedLogged(v.books, w0.orders)
    ensures var r := AcceptOrder(v, o, nowMs, world); Inv(r.0) && ClosedAgree(r.0)
  {
    var w1, w2 := SettleTracks(v0, w0, o, nowMs, world.wall);
    var v' := AcceptOrder(v, o, nowMs, world).0;
    TracksIsInv(v', w2);
    LogOpenNotFull(v'.log);
    NewestInBook(v0, w0, o);
    SettledAgrees(v0.books, w0, o.terms.marketId, o, nowMs, world.wall, w1);
  }

  lemma SubmitAgrees(v: EngineView, s: SignedOrder, nowMs: nat, freshId: OrderId, world: World)
    requires Inv(v) && ClosedAgree(v) && freshId !in v.index
    ensures var v' := Submit(v, s, nowMs, freshId, world).0; Inv(v') && ClosedAgree(v')
  {
    var w, o := WorkingOf(v), NewOrder(s, freshId, v.nextSeqId, nowMs);
    SubmitCases(v, s, nowMs, freshId, world);
    if Passes(v, s, nowMs, world) {
      IntakeIsLegal(v, w, s, nowMs, freshId, world);
      if s.marketId in v.books {
        AcceptAgrees(v, w, o, nowMs, world);
      } else {
        AdmitTracks(v, w, o, world.wall);
        TracksIsInv(Admit(v, o, world.wall), Admitted(w, o));
        AdmitAgrees(v.books, w, o);
      }
    }
  }

  lemma CancelAgrees(v: EngineView, id: OrderId, trader: TraderId, world: World)
    requires Inv(v) && ClosedAgree(v)
    ensures var v' := Cancel(v, id, trader, world).0; Inv(v') && ClosedAgree(v')
  {
    var w, r := WorkingOf(v), Cancel(v, id, trader, world);
    if r.0 != v {
      OpenCancelTracks(v, w, id, trader, world);
      TracksIsInv(r.0, AfterCancel(w, id, Cancelled));
      CancelledAgrees(v.books, w, v.index[id], id);
    }
  }

  lemma CancelledAgrees(books: map<MarketId, Orders>, w: Working, market: MarketId, id: OrderId)
    requires ClosedLogged(books, w.orders) && id in w.orders && market in books && id in books[market]
    ensures ClosedLogged(books[market := books[market][id := books[market][id].(status := Cancelled)]],
                         AfterCancel(w, id, Cancelled).orders)
  {
  }

  // ---- Crossing --------------------------------------------------------------------------------

  lemma SubmitUncrossed(v: EngineView, s: SignedOrder, nowMs: nat, freshId: OrderId, world: World)
    requires Inv(v) && NoneCrossed(v)
    ensures NoneCrossed(Submit(v, s, nowMs, freshId, world).0)
  {
    SubmitCases(v, s, nowMs, freshId, world);
    if Passes(v, s, nowMs, world) && s.marketId in v.books {
      BookIsOk(v, s.marketId);
      NewArrives(v, s, nowMs, freshId, world);
      AcceptUncrossed(v, NewOrder(s, freshId, v.nextSeqId, nowMs), nowMs, world);
    }
  }

  lemma BookIsOk(v: EngineView, market: MarketId)
    requires Inv(v) && market in v.books
    ensures BookOk(v.books[market])
  {
    assert BookTracks(v.books[market], market, WorkingOf(v));
  }

  lemma NewArrives(v: EngineView, s: SignedOrder, nowMs: nat, freshId: OrderId, world: World)
    requires Passes(v, s, nowMs, world)
    ensures Arriving(NewOrder(s, freshId, v.nextSeqId, nowMs))
  {
    assert ValidateFields(s, nowMs).None?;
  }

  lemma AcceptUncrossed(v: EngineView, o: Order, nowMs: nat, world: World)
    requires NoneCrossed(v) && Arriving(o) && o.terms.marketId in v.books && BookOk(v.books[o.terms.marketId])
    ensures NoneCrossed(AcceptOrder(v, o, nowMs, world).0)
  {
    MatchKeepsUncrossed(v.books[o.terms.marketId], o, o.terms.createdSequence, nowMs);
  }

  lemma CancelUncrossed(v: EngineView, id: OrderId, trader: TraderId, world: World)
    requires NoneCrossed(v)
    ensures NoneCrossed(Cancel(v, id, trader, world).0)
  {
  }

  lemma AdminUncrossed(v: EngineView, op: Op, world: World)
    requires NoneCrossed(v) && !op.OpSubmit? && !op.OpCancel? && !op.OpRestart?
    ensures NoneCrossed(Step(v, op, world).0)
  {
    AdminBooks(v, op, world);
  }
}
