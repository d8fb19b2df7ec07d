/** A restored engine shadows the one that never stopped, whatever is asked of both. */
module Twins {
  import opened Domain
  import opened Books
  import opened Matching
  import opened MatchTheory
  import opened Sequencing
  import opened EngineSpec
  import opened Live
  import opened Steps
  import opened Restart

  // ---- Matching on twin books ----------------------------------------------------------------------

  /** What the second book still holds, open or closed, the first holds alike, update stamps aside. */
  ghost predicate SubBook(a: Orders, b: Orders) {
    forall id :: id in b ==>
      id in a && a[id].terms == b[id].terms && a[id].filled == b[id].filled && a[id].status == b[id].status
  }

  ghost predicate ShadowBook(a: Orders, b: Orders) {
    TwinBook(a, b) && SubBook(a, b)
  }

  lemma TwinCrossing(a: Orders, b: Orders, taker: Order)
    requires TwinBook(a, b)
    ensures CrossingIds(a, taker) == CrossingIds(b, taker)
  {
  }

  lemma TwinMakers(a: Orders, b: Orders, taker: Order)
    requires BookOk(a) && BookOk(b) && TwinBook(a, b)
    ensures Makers(a, taker) == Makers(b, taker)
  {
    TwinCrossing(a, b, taker);
    MakersAreMakers(a, taker);
    MakersAreMakers(b, taker);
    assert Sorted(Makers(b, taker), a);
    SortedUnique(Makers(a, taker), Makers(b, taker), a);
  }

  lemma ShadowUpdate(a: Orders, b: Orders, id: OrderId, x: Order, y: Order)
    requires ShadowBook(a, b) && x.terms == y.terms && x.filled == y.filled && x.status == y.status
    ensures ShadowBook(a[id := x], b[id := y])
  {
  }

  lemma {:induction false} ShadowWalk(a: Orders, b: Orders, taker: Order, ids: seq<OrderId>, seqId: nat, nowMs: nat)
    requires ShadowBook(a, b)
    ensures var ra, rb := Walk(a, taker, ids, seqId, nowMs), Walk(b, taker, ids, seqId, nowMs);
            ra.fills == rb.fills && ra.taker == rb.taker && ShadowBook(ra.orders, rb.orders)
    decreases |ids|
  {
    if ids != [] && !Done(taker) {
      if ids[0] !in a || a[ids[0]].Closed() {
        ShadowWalk(a, b, taker, ids[1..], seqId, nowMs);
      } else if a[ids[0]].terms.traderId != taker.terms.traderId {
        var qty := FillQty(taker, a[ids[0]]);
        var x, y := ApplyQty(a[ids[0]], qty, seqId), ApplyQty(b[ids[0]], qty, seqId);
        ShadowUpdate(a, b, ids[0], x, y);
        ShadowWalk(a[ids[0] := x], b[ids[0] := y], ApplyQty(taker, qty, seqId), ids[1..], seqId, nowMs);
      }
    }
  }

  /** Shadow books fill an order identically and are shadows afterwards. */
  lemma ShadowMatch(a: Orders, b: Orders, taker: Order, seqId: nat, nowMs: nat)
    requires BookOk(a) && BookOk(b) && ShadowBook(a, b)
    ensures var ma, mb := Match(a, taker, seqId, nowMs), Match(b, taker, seqId, nowMs);
            ma.fills == mb.fills && ma.taker == mb.taker && ShadowBook(AfterMatch(ma), AfterMatch(mb))
  {
    TwinMakers(a, b, taker);
    ShadowWalk(a, b, taker, Makers(a, taker), seqId, nowMs);
    var ma, mb := Match(a, taker, seqId, nowMs), Match(b, taker, seqId, nowMs);
    ShadowUpdate(ma.orders, mb.orders, ma.taker.terms.orderId, ma.taker, mb.taker);
  }

  // ---- Engines ---------------------------------------------------------------------------------------

  ghost predicate ShadowBooks(v: EngineView, r: EngineView) {
    forall m :: ShadowBook(BookOf(v, m), BookOf(r, m))
  }

  /** Everything but the books. */
  ghost predicate SameState(v: EngineView, r: EngineView) {
    && r.markets == v.markets && r.nextSeqId == v.nextSeqId && r.log == v.log
    && r.ledger == v.ledger && r.index == v.index
    && SameTable(v.idempotency, r.idempotency)
  }

  /** The second engine is a twin of the first that may lack closed orders, and books with no open order. */
  ghost predicate Shadows(v: EngineView, r: EngineView) {
    && SameState(v, r) && ShadowBooks(v, r)
    && (forall m :: m in r.books ==> m in v.books)
  }

  /** A shadow is a twin: same log, ledgers and open orders. */
  lemma ShadowIsTwin(v: EngineView, r: EngineView)
    requires Shadows(v, r)
    ensures Twin(v, r)
  {
    forall m ensures TwinBook(BookOf(v, m), BookOf(r, m)) {
      assert ShadowBook(BookOf(v, m), BookOf(r, m));
    }
  }

  lemma SelfShadow(v: EngineView)
    ensures Shadows(v, v)
  {
  }

  /** The order is still in the first engine's book but not in the second's. */
  predicate Gone(v: EngineView, r: EngineView, id: OrderId) {
    FindOrder(v, id).Some? && FindOrder(r, id).None?
  }

  lemma ShadowFind(v: EngineView, r: EngineView, id: OrderId)
    requires Shadows(v, r)
    ensures FindOrder(r, id).Some? ==>
              FindOrder(v, id).Some?
              && var x, y := FindOrder(v, id).value, FindOrder(r, id).value;
                 x.terms == y.terms && x.filled == y.filled && x.status == y.status
    ensures Gone(v, r, id) ==> FindOrder(v, id).value.Closed()
  {
    if id in v.index {
      assert ShadowBook(BookOf(v, v.index[id]), BookOf(r, v.index[id]));
    }
  }

  // ---- Which requests tell them apart ----------------------------------------------------------------

  /** The request reaches a book that only the second engine lacks. */
  predicate Strikes(v: EngineView, r: EngineView, op: Op, world: World) {
    match op
    case OpSubmit(s, nowMs, _) => Passes(v, s, nowMs, world) && s.marketId in v.books && s.marketId !in r.books
    case OpCancel(id, _) => id in v.index && v.index[id] in v.books && v.index[id] !in r.books
    case _ => false
  }

  /** The request is answered from an order that only the first engine still holds. */
  predicate ReadsGone(v: EngineView, r: EngineView, op: Op, world: World) {
    match op
    case OpSubmit(s, nowMs, _) =>
      var key := IdempotencyKey(s.traderId, s.clientOrderId);
      && Validate(v.markets, s, nowMs, world).None? && key in v.idempotency
      && Gone(v, r, v.idempotency[key].orderId)
      && FindOrder(v, v.idempotency[key].orderId).value.status != Filled
    case OpCancel(id, _) => Gone(v, r, id)
    case _ => false
  }

  // ---- Submissions -----------------------------------------------------------------------------------

  /** Writing shadow books to one market of shadows. */
  lemma ShadowSet(v: EngineView, r: EngineView, v': EngineView, r': EngineView, market: MarketId, a: Orders, b: Orders)
    requires ShadowBooks(v, r) && ShadowBook(a, b)
    requires v'.books == v.books[market := a] && r'.books == r.books[market := b]
    ensures ShadowBooks(v', r')
  {
    forall m ensures ShadowBook(BookOf(v', m), BookOf(r', m)) {
      assert ShadowBook(BookOf(v, m), BookOf(r, m));
    }
  }

  lemma SameBooksShadow(v: EngineView, r: EngineView, v': EngineView, r': EngineView)
    requires ShadowBooks(v, r) && v'.books == v.books && r'.books == r.books
    ensures ShadowBooks(v', r')
  {
    forall m ensures ShadowBook(BookOf(v', m), BookOf(r', m)) {
      assert ShadowBook(BookOf(v, m), BookOf(r, m));
    }
  }

  lemma ShadowAdmit(v: EngineView, r: EngineView, o: Order, wall: nat -> nat)
    requires SameState(v, r)
    ensures SameState(Admit(v, o, wall), Admit(r, o, wall))
  {
  }

  lemma ShadowSettle(v: EngineView, r: EngineView, market: MarketId, a: MatchResult, b: MatchResult, wall: nat -> nat)
    requires SameState(v, r) && a.fills == b.fills && a.taker == b.taker
    ensures SameState(Settle(v, market, a, wall), Settle(r, market, b, wall))
  {
  }

  lemma ShadowAccept(v: EngineView, r: EngineView, o: Order, nowMs: nat, world: World)
    requires Shadows(v, r) && o.terms.marketId in v.books && o.terms.marketId in r.books
    requires BookOk(v.books[o.terms.marketId]) && BookOk(r.books[o.terms.marketId])
    ensures var a, b := AcceptOrder(v, o, nowMs, world), AcceptOrder(r, o, nowMs, world);
            Shadows(a.0, b.0) && a.1 == b.1
  {
    var market := o.terms.marketId;
    assert ShadowBook(BookOf(v, market), BookOf(r, market));
    ShadowMatch(v.books[market], r.books[market], o, o.terms.createdSequence, nowMs);
    var ma := Match(v.books[market], o, o.terms.createdSequence, nowMs);
    var mb := Match(r.books[market], o, o.terms.createdSequence, nowMs);
    ShadowAdmit(v, r, o, world.wall);
    ShadowSettle(Admit(v, o, world.wall), Admit(r, o, world.wall), market, ma, mb, world.wall);
    ShadowSet(v, r, AcceptOrder(v, o, nowMs, world).0, AcceptOrder(r, o, nowMs, world).0, market,
              AfterMatch(ma), AfterMatch(mb));
  }

  /** Both engines lack the book: both log the order and die on it. */
  lemma ShadowCrash(v: EngineView, r: EngineView, o: Order, nowMs: nat, world: World)
    requires Shadows(v, r) && o.terms.marketId !in v.books
    ensures var a, b := AcceptOrder(v, o, nowMs, world), AcceptOrder(r, o, nowMs, world);
            Shadows(a.0, b.0) && a.1 == Panicked && b.1 == Panicked
  {
    ShadowAdmit(v, r, o, world.wall);
    SameBooksShadow(v, r, Admit(v, o, world.wall), Admit(r, o, world.wall));
  }

  lemma ShadowPasses(v: EngineView, r: EngineView, s: SignedOrder, nowMs: nat, world: World)
    requires SameState(v, r)
    ensures Passes(v, s, nowMs, world) <==> Passes(r, s, nowMs, world)
    ensures Validate(v.markets, s, nowMs, world) == Validate(r.markets, s, nowMs, world)
  {
  }

  /** A refused submission changes nothing, and only a duplicate can be answered differently. */
  lemma ShadowRefused(v: EngineView, r: EngineView, s: SignedOrder, nowMs: nat, freshId: OrderId, world: World)
    requires Shadows(v, r) && !Passes(v, s, nowMs, world)
    ensures var a, b := Submit(v, s, nowMs, freshId, world), Submit(r, s, nowMs, freshId, world);
            && a.0 == v && b.0 == r && !a.1.Panicked? && !b.1.Panicked?
            && (a.1 == b.1 <==> !ReadsGone(v, r, OpSubmit(s, nowMs, freshId), world))
  {
    var key := IdempotencyKey(s.traderId, s.clientOrderId);
    if key in v.idempotency { ShadowFind(v, r, v.idempotency[key].orderId); }
  }

  lemma BookOkAt(v: EngineView, m: MarketId)
    requires Inv(v) && m in v.books
    ensures BookOk(v.books[m])
  {
    assert BookTracks(v.books[m], m, WorkingOf(v));
  }

  lemma ShadowNew(v: EngineView, r: EngineView, s: SignedOrder, nowMs: nat, freshId: OrderId, world: World)
    requires Shadows(v, r) && Inv(v) && Inv(r) && Passes(v, s, nowMs, world)
    ensures var a, b := Submit(v, s, nowMs, freshId, world), Submit(r, s, nowMs, freshId, world);
            && (a.1.Panicked? <==> s.marketId !in v.books) && (b.1.Panicked? <==> s.marketId !in r.books)
            && ((s.marketId in v.books <==> s.marketId in r.books) ==> Shadows(a.0, b.0) && a.1 == b.1)
  {
    ShadowPasses(v, r, s, nowMs, world);
    SubmitCases(v, s, nowMs, freshId, world);
    SubmitCases(r, s, nowMs, freshId, world);
    var o := NewOrder(s, freshId, v.nextSeqId, nowMs);
    assert o == NewOrder(s, freshId, r.nextSeqId, nowMs);
    if s.marketId in r.books {
      BookOkAt(v, s.marketId);
      BookOkAt(r, s.marketId);
      ShadowAccept(v, r, o, nowMs, world);
    } else if s.marketId !in v.books {
      ShadowCrash(v, r, o, nowMs, world);
    }
  }

  // ---- Cancels ---------------------------------------------------------------------------------------

  /** The two engines after cancelling one order that is open in both. */
  lemma ShadowCancelBooks(v: EngineView, r: EngineView, id: OrderId, v': EngineView, r': EngineView)
    requires Shadows(v, r) && FindOrder(v, id).Some? && FindOrder(r, id).Some?
    requires var m := v.index[id]; v'.books == v.books[m := v.books[m][id := v.books[m][id].(status := Cancelled)]]
    requires var m := v.index[id]; r'.books == r.books[m := r.books[m][id := r.books[m][id].(status := Cancelled)]]
    ensures ShadowBooks(v', r')
  {
    ShadowFind(v, r, id);
    var m := v.index[id];
    assert ShadowBook(BookOf(v, m), BookOf(r, m));
    var x, y := v.books[m][id].(status := Cancelled), r.books[m][id].(status := Cancelled);
    ShadowUpdate(v.books[m], r.books[m], id, x, y);
    ShadowSet(v, r, v', r', m, v.books[m][id := x], r.books[m][id := y]);
  }

  lemma ShadowCancel(v: EngineView, r: EngineView, id: OrderId, trader: TraderId, world: World)
    requires Shadows(v, r) && !Strikes(v, r, OpCancel(id, trader), world)
    ensures var a, b := Cancel(v, id, trader, world), Cancel(r, id, trader, world);
            Shadows(a.0, b.0) && (a.1 == b.1 <==> !Gone(v, r, id))
  {
    ShadowFind(v, r, id);
    var a, b := Cancel(v, id, trader, world), Cancel(r, id, trader, world);
    if a.0 != v {
      ShadowCancelBooks(v, r, id, a.0, b.0);
    }
  }

  // ---- Administration --------------------------------------------------------------------------------

  lemma ShadowAppend(v: EngineView, r: EngineView, e: Event, wall: nat -> nat)
    requires Shadows(v, r)
    ensures Shadows(AppendOne(v, e, wall), AppendOne(r, e, wall))
  {
    SameBooksShadow(v, r, AppendOne(v, e, wall), AppendOne(r, e, wall));
  }

  lemma ShadowAddMarket(v: EngineView, r: EngineView, config: MarketConfig)
    requires Shadows(v, r)
    ensures Shadows(AddMarket(v, config), AddMarket(r, config))
  {
    var v', r' := AddMarket(v, config), AddMarket(r, config);
    forall m ensures ShadowBook(BookOf(v', m), BookOf(r', m)) {
      assert ShadowBook(BookOf(v, m), BookOf(r, m));
      assert BookOf(v', m) == BookOf(v, m) && BookOf(r', m) == BookOf(r, m);
    }
  }

  lemma {:induction false} ShadowForce(v: EngineView, r: EngineView, targets: seq<(OrderId, OrderHash)>, world: World)
    requires Shadows(v, r)
    ensures Shadows(ForceCancels(v, targets, world), ForceCancels(r, targets, world))
    decreases |targets|
  {
    if targets == [] {
    } else {
      var rest, last := targets[..|targets| - 1], targets[|targets| - 1];
      ShadowForce(v, r, rest, world);
      var v0, r0 := ForceCancels(v, rest, world), ForceCancels(r, rest, world);
      SameBooksShadow(v0, r0, ForceCancel(v0, last.0, last.1, world), ForceCancel(r0, last.0, last.1, world));
    }
  }

  lemma ShadowStatus(v: EngineView, r: EngineView, m: MarketId, status: MarketStatus, e: Event, world: World)
    requires Shadows(v, r) && m in v.markets
    ensures var config := v.markets[m].(status := status);
            Shadows(AppendOne(AddMarket(v, config), e, world.wall), AppendOne(AddMarket(r, config), e, world.wall))
  {
    var config := v.markets[m].(status := status);
    ShadowAddMarket(v, r, config);
    ShadowAppend(AddMarket(v, config), AddMarket(r, config), e, world.wall);
  }

  lemma ShadowAdmin(v: EngineView, r: EngineView, op: Op, world: World)
    requires Shadows(v, r) && !op.OpSubmit? && !op.OpCancel?
    ensures var a, b := Step(v, op, world), Step(r, op, world); Shadows(a.0, b.0) && a.1 == b.1 && !Panics(b.1)
  {
    match op
    case OpPause(m, who) => if m in v.markets { ShadowStatus(v, r, m, Paused, MarketPaused(m, who), world); }
    case OpResume(m, who) => if m in v.markets { ShadowStatus(v, r, m, Active, MarketResumed(m, who), world); }
    case OpCancelAll(m) => ShadowForce(v, r, AcceptedIn(v.log, m), world);
    case OpAddMarket(config) => ShadowAddMarket(v, r, config);
    case OpRestart => SelfShadow(Restarted(v));
  }

  /**
   * What an engine and its shadow make of one operation. The shadow alone crashes exactly on a request that
   * reaches a book only it lacks; short of that it stays a shadow, and is told apart exactly by a request
   * that is answered from an order only the first engine still holds.
   */
  ghost predicate TellsApart(v: EngineView, r: EngineView, op: Op, world: World,
                             a: (EngineView, Outcome), b: (EngineView, Outcome)) {
    && (Panics(a.1) ==> Panics(b.1))
    && (!Panics(a.1) && Panics(b.1) <==> Strikes(v, r, op, world))
    && (!Strikes(v, r, op, world) ==> Shadows(a.0, b.0) && (a.1 == b.1 <==> !ReadsGone(v, r, op, world)))
  }

  /** Outcomes of a submission as outcomes of an operation. */
  lemma NewTells(v: EngineView, r: EngineView, op: Op, world: World,
                 a: (EngineView, SubmitOutcome), b: (EngineView, SubmitOutcome))
    requires Shadows(v, r) && op.OpSubmit? && Passes(v, op.signed, op.nowMs, world)
    requires a.1.Panicked? <==> op.signed.marketId !in v.books
    requires b.1.Panicked? <==> op.signed.marketId !in r.books
    requires (op.signed.marketId in v.books <==> op.signed.marketId in r.books) ==> Shadows(a.0, b.0) && a.1 == b.1
    ensures TellsApart(v, r, op, world, (a.0, Submitted(a.1)), (b.0, Submitted(b.1)))
  {
  }

  lemma RefusedTells(v: EngineView, r: EngineView, op: Op, world: World,
                     a: (EngineView, SubmitOutcome), b: (EngineView, SubmitOutcome))
    requires Shadows(v, r) && op.OpSubmit? && !Passes(v, op.signed, op.nowMs, world)
    requires a.0 == v && b.0 == r && !a.1.Panicked? && !b.1.Panicked?
    requires a.1 == b.1 <==> !ReadsGone(v, r, op, world)
    ensures TellsApart(v, r, op, world, (a.0, Submitted(a.1)), (b.0, Submitted(b.1)))
  {
  }

  lemma SubmitTells(v: EngineView, r: EngineView, op: Op, world: World)
    requires Shadows(v, r) && Inv(v) && Inv(r) && op.OpSubmit?
    ensures TellsApart(v, r, op, world, Step(v, op, world), Step(r, op, world))
  {
    var a := Submit(v, op.signed, op.nowMs, op.freshId, world);
    var b := Submit(r, op.signed, op.nowMs, op.freshId, world);
    if Passes(v, op.signed, op.nowMs, world) {
      ShadowNew(v, r, op.signed, op.nowMs, op.freshId, world);
      NewTells(v, r, op, world, a, b);
    } else {
      ShadowRefused(v, r, op.signed, op.nowMs, op.freshId, world);
      RefusedTells(v, r, op, world, a, b);
    }
  }

  lemma CancelTells(v: EngineView, r: EngineView, op: Op, world: World)
    requires Shadows(v, r) && op.OpCancel?
    ensures TellsApart(v, r, op, world, Step(v, op, world), Step(r, op, world))
  {
    if !Strikes(v, r, op, world) { ShadowCancel(v, r, op.orderId, op.traderId, world); }
  }

  lemma AdminTells(v: EngineView, r: EngineView, op: Op, world: World)
    requires Shadows(v, r) && !op.OpSubmit? && !op.OpCancel?
    ensures TellsApart(v, r, op, world, Step(v, op, world), Step(r, op, world))
  {
    ShadowAdmin(v, r, op, world);
  }

  lemma ShadowStep(v: EngineView, r: EngineView, op: Op, world: World)
    requires Shadows(v, r) && Inv(v) && Inv(r)
    ensures TellsApart(v, r, op, world, Step(v, op, world), Step(r, op, world))
  {
    if op.OpSubmit? {
      SubmitTells(v, r, op, world);
    } else if op.OpCancel? {
      CancelTells(v, r, op, world);
    } else {
      AdminTells(v, r, op, world);
    }
  }
}
