/** What each operation answers and changes, told by the log and the books. */
module Answers {
  import opened Basics
  import opened Domain
  import opened Matching
  import opened MatchReplay
  import opened Store
  import opened Sequencing
  import opened Replaying
  import opened LegalLogs
  import opened EngineSpec
  import opened Live
  import opened Steps
  import opened Restart
  import opened LogTheory
  import opened Grammar
  import opened Guarantees
  import opened Provenance

  // ---- Submissions -----------------------------------------------------------------------------------

  /** These fills are exactly the fills logged after the acceptance at `n`, in order. */
  ghost predicate LoggedFills(log: seq<SequencedEvent>, n: nat, fills: seq<Fill>) {
    && n + 1 + |fills| <= |log|
    && (forall k :: 0 <= k < |fills| ==> log[n + 1 + k].event == FillEvent(fills[k]))
    && (forall i :: n + 1 + |fills| <= i < |log| ==> !log[i].event.FillEvent?)
  }

  /** The answer to a new order: its id, number and hash, the fills logged for it, and its status as replayed. */
  ghost predicate TellsTheLog(v: EngineView, v': EngineView, x: OrderResult, s: SignedOrder, id: OrderId)
    requires Inv(v')
  {
    && v.log <= v'.log && x.orderId == id && x.seqId == |v.log| + 1 <= |v'.log|
    && AcceptedBy(v'.log, |v.log|, id) && x.orderHash == v'.log[|v.log|].event.order.terms.orderHash
    && LoggedFills(v'.log, |v.log|, x.fills)
    && id in WorkingOf(v').orders && x.finalStatus == WorkingOf(v').orders[id].status
  }

  /** The table entry under which a resubmission will be found. */
  ghost predicate Remembers(v: EngineView, s: SignedOrder, x: OrderResult, nowMs: nat) {
    var key := IdempotencyKey(s.traderId, s.clientOrderId);
    key in v.idempotency && v.idempotency[key] == IdempotencyRecord(x.seqId, x.orderId, x.orderHash, nowMs)
  }

  /** The replayed taker has the status of the matched one. */
  lemma TakerStatus(w: Working, w1: Working, book: Orders, o: Order, m: MatchResult)
    requires Reproduces(w, w1, book, o, m) && m.taker.terms == o.terms && Synced(w.orders, o)
    ensures o.terms.orderId in AfterStp(w1, m.taker).orders
    ensures AfterStp(w1, m.taker).orders[o.terms.orderId].status == m.taker.status
  {
  }

  lemma AcceptStatus(v: EngineView, o: Order, nowMs: nat, world: World)
    requires Inv(v) && LegalAccept(WorkingOf(v), o, v.nextSeqId)
    requires o.terms.marketId in v.markets && o.terms.marketId in v.books
    ensures var r := AcceptOrder(v, o, nowMs, world);
            && Inv(r.0) && r.1.Accepted? && o.terms.orderId in WorkingOf(r.0).orders
            && r.1.result.finalStatus == WorkingOf(r.0).orders[o.terms.orderId].status
  {
    var w := WorkingOf(v);
    AdmittedIsNewest(v, w, o, world.wall);
    var v0, w0 := Admit(v, o, world.wall), Admitted(w, o);
    var w1, w2 := SettleTracks(v0, w0, o, nowMs, world.wall);
    TracksIsInv(AcceptOrder(v, o, nowMs, world).0, w2);
    var book := v0.books[o.terms.marketId];
    TakerStatus(w0, w1, book, o, Match(book, o, o.terms.createdSequence, nowMs));
  }

  lemma BlockFills(before: seq<SequencedEvent>, accepted: SequencedEvent, fills: seq<Fill>, taker: Order, next: nat,
                   wall: nat -> nat)
    ensures var log := before + [accepted] + Stamp(next, FillEvents(fills) + StpEvents(taker), wall);
            before <= log && |before| < |log| && log[|before|] == accepted && LoggedFills(log, |before|, fills)
  {
    var events := FillEvents(fills) + StpEvents(taker);
    var log := before + [accepted] + Stamp(next, events, wall);
    forall k | |before| < k < |log| ensures log[k].event == events[k - |before| - 1] { }
  }

  lemma AcceptFills(v: EngineView, o: Order, nowMs: nat, world: World)
    requires o.terms.marketId in v.books
    ensures var r := AcceptOrder(v, o, nowMs, world);
            && r.1.Accepted? && v.log <= r.0.log && |v.log| < |r.0.log|
            && r.0.log[|v.log|].event == OrderAccepted(o) && LoggedFills(r.0.log, |v.log|, r.1.result.fills)
  {
    var m := Match(v.books[o.terms.marketId], o, o.terms.createdSequence, nowMs);
    var accepted := SequencedEvent(v.nextSeqId, world.wall(v.nextSeqId), OrderAccepted(o));
    AcceptedLog(v, o, nowMs, world);
    BlockFills(v.log, accepted, m.fills, m.taker, v.nextSeqId + 1, world.wall);
  }

  lemma AcceptRemembers(v: EngineView, o: Order, nowMs: nat, world: World)
    requires o.terms.marketId in v.books
    ensures var r := AcceptOrder(v, o, nowMs, world);
            && r.1.Accepted? && !r.1.result.isDuplicate
            && r.1.result.orderId == o.terms.orderId && r.1.result.orderHash == o.terms.orderHash
            && r.1.result.seqId == o.terms.createdSequence
            && KeyOf(o.terms) in r.0.idempotency
            && r.0.idempotency[KeyOf(o.terms)]
               == IdempotencyRecord(r.1.result.seqId, r.1.result.orderId, r.1.result.orderHash, o.terms.acceptedAtMs)
  {
  }

  /**
   * The answer to a new order is what the log says: a submission that intake admits is logged under the id and
   * number it is told, with exactly the fills it is told, and replays with the status it is told.
   */
  lemma NewOrderAnswer(v: EngineView, s: SignedOrder, nowMs: nat, freshId: OrderId, world: World)
    requires Inv(v) && freshId !in v.index && Admits(v, s, nowMs, world) && s.marketId in v.books
    ensures var r := Submit(v, s, nowMs, freshId, world);
            && Inv(r.0) && r.1.Accepted? && !r.1.result.isDuplicate
            && TellsTheLog(v, r.0, r.1.result, s, freshId) && Remembers(r.0, s, r.1.result, nowMs)
  {
    var o := NewOrder(s, freshId, v.nextSeqId, nowMs);
    PassesAdmits(v, s, nowMs, world);
    AcceptedCases(v, s, nowMs, freshId, world);
    IntakeIsLegal(v, WorkingOf(v), s, nowMs, freshId, world);
    AcceptStatus(v, o, nowMs, world);
    AcceptFills(v, o, nowMs, world);
    AcceptRemembers(v, o, nowMs, world);
  }

  /** A duplicate is told the number, id and hash of the order logged under its key. */
  ghost predicate TellsTheFirst(v: EngineView, x: OrderResult, s: SignedOrder) {
    && x.isDuplicate && x.fills == []
    && exists i :: AcceptedBy(v.log, i, x.orderId) && x.seqId == i + 1
         && KeyOf(v.log[i].event.order.terms) == IdempotencyKey(s.traderId, s.clientOrderId)
         && x.orderHash == v.log[i].event.order.terms.orderHash
  }

  /** The nonce is not above the highest the log accepted from the trader, which the answer names. */
  ghost predicate TellsTheNonce(v: EngineView, s: SignedOrder, e: NonceError) {
    && e.submitted == s.nonce <= e.lastNonce && !NonceRises(v.log, s.traderId, s.nonce)
    && (e.lastNonce > 0 ==> exists i :: LastOf(v.log, i, s.traderId) && v.log[i].event.order.terms.nonce == e.lastNonce)
  }

  /**
   * Every answer to a submission. Without a new order the engine is as it was, and the first check that fails
   * is the one reported: intake, then the idempotency key, then the nonce.
   */
  lemma SubmitAnswer(v: EngineView, s: SignedOrder, nowMs: nat, freshId: OrderId, world: World)
    requires Inv(v) && freshId !in v.index
    ensures var r := Submit(v, s, nowMs, freshId, world);
            var used := KeyUsed(v.log, IdempotencyKey(s.traderId, s.clientOrderId));
            match r.1
            case Rejected(InvalidOrder(e)) =>
              && r.0 == v && !Admissible(v.markets, s, nowMs, world)
              && exists k: nat :: k < CHECKS && FirstRefusal(k, v.markets, s, nowMs, world)
                                  && RefusalOf(k, v.markets, s, nowMs) == Some(e)
            case Rejected(InvalidNonce(e)) =>
              r.0 == v && Admissible(v.markets, s, nowMs, world) && !used && TellsTheNonce(v, s, e)
            case Panicked => Admits(v, s, nowMs, world) && s.marketId !in v.books
            case Accepted(x) =>
              if used then r.0 == v && Admissible(v.markets, s, nowMs, world) && TellsTheFirst(v, x, s)
              else Admits(v, s, nowMs, world) && s.marketId in v.books && !x.isDuplicate
                   && Inv(r.0) && TellsTheLog(v, r.0, x, s, freshId) && Remembers(r.0, s, x, nowMs)
  {
    var key := IdempotencyKey(s.traderId, s.clientOrderId);
    IntakeDecides(v.markets, s, nowMs, world);
    TableIsLog(v, key);
    PassesAdmits(v, s, nowMs, world);
    if Validate(v.markets, s, nowMs, world).Some? {
    } else if key in v.idempotency {
      DuplicateTold(v, s, nowMs, freshId, world);
    } else if s.nonce <= Lookup(v.ledger.nonces, s.traderId, 0) {
      NonceTold(v, s);
    } else if s.marketId in v.books {
      NewOrderAnswer(v, s, nowMs, freshId, world);
    } else {
      SubmitCases(v, s, nowMs, freshId, world);
    }
  }

  lemma DuplicateTold(v: EngineView, s: SignedOrder, nowMs: nat, freshId: OrderId, world: World)
    requires Inv(v) && Validate(v.markets, s, nowMs, world).None?
    requires IdempotencyKey(s.traderId, s.clientOrderId) in v.idempotency
    ensures var r := Submit(v, s, nowMs, freshId, world);
            r.0 == v && r.1.Accepted? && TellsTheFirst(v, r.1.result, s)
  {
    var key := IdempotencyKey(s.traderId, s.clientOrderId);
    TableIsLog(v, key);
    var i :| 0 <= i < |v.log| && v.log[i].event.OrderAccepted? && KeyOf(v.log[i].event.order.terms) == key;
    LegalAt(v.log, i);
    assert AcceptedBy(v.log, i, v.idempotency[key].orderId);
  }

  lemma NonceTold(v: EngineView, s: SignedOrder)
    requires Inv(v) && s.nonce <= Lookup(v.ledger.nonces, s.traderId, 0)
    ensures TellsTheNonce(v, s, NonceError(Lookup(v.ledger.nonces, s.traderId, 0), s.nonce))
  {
    NonceIff(v.log, s.traderId, s.nonce);
    NonceIsLast(v.log, s.traderId);
  }

  // ---- Cancels ---------------------------------------------------------------------------------------

  /** The order is in the book of the market it was accepted in. */
  predicate InBook(v: EngineView, market: MarketId, id: OrderId) {
    market in v.books && id in v.books[market]
  }

  /** One order of the books is cancelled, nothing else about any order changed. */
  ghost predicate BooksCloseOnly(books: map<MarketId, Orders>, books': map<MarketId, Orders>, market: MarketId,
                                 id: OrderId)
  {
    && books'.Keys == books.Keys && market in books && id in books[market]
    && (forall m :: m in books && m != market ==> books'[m] == books[m])
    && books'[market].Keys == books[market].Keys
    && (forall x :: x in books[market] && x != id ==> books'[market][x] == books[market][x])
    && books'[market][id] == books[market][id].(status := Cancelled)
  }

  /** So does the log: it has this order cancelled and every other as before. */
  ghost predicate LogClosesOnly(w: Working, w': Working, id: OrderId) {
    && w'.orders.Keys == w.orders.Keys && id in w.orders && w'.orders[id].status == Cancelled
    && (forall x :: x in w.orders && x != id ==> w'.orders[x] == w.orders[x])
  }

  /** The order was closed in its book and in the log by one event, and nothing else changed. */
  ghost predicate ClosedOnly(v: EngineView, v': EngineView, market: MarketId, id: OrderId, hash: OrderHash,
                             world: World)
    requires Inv(v) && Inv(v')
  {
    && v'.log == v.log + [SequencedEvent(|v.log| + 1, world.wall(|v.log| + 1),
                                         OrderCancelled(id, hash, TraderRequest))]
    && BooksCloseOnly(v.books, v'.books, market, id) && LogClosesOnly(WorkingOf(v), WorkingOf(v'), id)
    && v'.ledger.cancelled.Keys == v.ledger.cancelled.Keys + {hash}
    && v'.ledger.filled == v.ledger.filled && v'.ledger.nonces == v.ledger.nonces
    && v'.markets == v.markets && v'.index == v.index && v'.idempotency == v.idempotency
  }

  /** The order with this acceptance. */
  ghost predicate Owned(v: EngineView, id: OrderId, t: Terms) {
    exists a :: AcceptedBy(v.log, a, id) && v.log[a].event.order.terms == t
  }

  /**
   * Every answer to a cancel, by the acceptance of the order in the log: only its owner closes it, and a foreign
   * request is refused exactly when the order is in its book under another trader.
   */
  lemma CancelAnswer(v: EngineView, id: OrderId, trader: TraderId, world: World)
    requires Inv(v)
    ensures var r := Cancel(v, id, trader, world);
            (r.1.CancelDone? && !r.1.wasAlreadyClosed) || r.0 == v
    ensures id !in v.index ==> Cancel(v, id, trader, world).1 == CancelNotFound(id)
                               && forall a :: !AcceptedBy(v.log, a, id)
    ensures id in v.index ==>
              exists t :: Owned(v, id, t) && OwnedAnswer(v, id, trader, t, Cancel(v, id, trader, world), world)
  {
    LogFacts(v);
    var w := WorkingOf(v);
    assert forall a :: AcceptedBy(v.log, a, id) ==> AcceptanceKnown(v.log[a], w.orders);
    if id in v.index { OwnedAnswers(v, id, trader, world); }
  }

  /** What a request for an accepted order is told. */
  ghost predicate OwnedAnswer(v: EngineView, id: OrderId, trader: TraderId, t: Terms, r: (EngineView, CancelOutcome),
                              world: World)
    requires Inv(v)
  {
    match r.1
    case CancelPanicked => t.marketId !in v.books
    case CancelNotFound(x) => x == id && t.marketId in v.books && !InBook(v, t.marketId, id)
    case CancelUnauthorized(x) => x == trader && InBook(v, t.marketId, id) && t.traderId != trader
    case CancelDone(x, n, closed) =>
      && x == id && InBook(v, t.marketId, id) && t.traderId == trader
      && (closed <==> v.books[t.marketId][id].Closed())
      && n == (if closed then None else Some(|v.log| + 1))
      && (!closed ==> Inv(r.0) && ClosedOnly(v, r.0, t.marketId, id, t.orderHash, world))
  }

  lemma OwnedAnswers(v: EngineView, id: OrderId, trader: TraderId, world: World)
    requires Inv(v) && id in v.index
    ensures id in WorkingOf(v).orders
    ensures var t := WorkingOf(v).orders[id].terms;
            Owned(v, id, t) && OwnedAnswer(v, id, trader, t, Cancel(v, id, trader, world), world)
  {
    var w := WorkingOf(v);
    LogFacts(v);
    var a :| AcceptedBy(v.log, a, id);
    assert AcceptanceKnown(v.log[a], w.orders);
    var t := w.orders[id].terms;
    assert Owned(v, id, t) && v.index[id] == t.marketId;
    if InBook(v, t.marketId, id) {
      BookOrderKnown(v, w, t.marketId, id);
      if t.traderId == trader && !v.books[t.marketId][id].Closed() { OwnerCloses(v, id, trader, world); }
    }
  }

  lemma OwnerCloses(v: EngineView, id: OrderId, trader: TraderId, world: World)
    requires Inv(v) && id in v.index && id in WorkingOf(v).orders
    requires var t := WorkingOf(v).orders[id].terms;
             && v.index[id] == t.marketId && InBook(v, t.marketId, id) && t.traderId == trader
             && v.books[t.marketId][id].terms == t && !v.books[t.marketId][id].Closed()
    ensures var r, t := Cancel(v, id, trader, world), WorkingOf(v).orders[id].terms;
            r.1 == CancelDone(id, Some(|v.log| + 1), false)
            && Inv(r.0) && ClosedOnly(v, r.0, t.marketId, id, t.orderHash, world)
  {
    var w := WorkingOf(v);
    OpenCancelTracks(v, w, id, trader, world);
    TracksIsInv(Cancel(v, id, trader, world).0, AfterCancel(w, id, Cancelled));
    CancelClosesLog(w, id);
    CancelClosesBook(v, id, trader, world);
  }

  lemma CancelClosesLog(w: Working, id: OrderId)
    requires id in w.orders
    ensures LogClosesOnly(w, AfterCancel(w, id, Cancelled), id)
  {
  }

  lemma CancelClosesBook(v: EngineView, id: OrderId, trader: TraderId, world: World)
    requires v.nextSeqId == |v.log| + 1 && id in v.index && InBook(v, v.index[id], id)
    requires var o := v.books[v.index[id]][id]; o.terms.traderId == trader && !o.Closed()
    ensures var r, market := Cancel(v, id, trader, world), v.index[id];
            var hash := v.books[market][id].terms.orderHash;
            && r.1 == CancelDone(id, Some(|v.log| + 1), false) && BooksCloseOnly(v.books, r.0.books, market, id)
            && r.0.log == v.log + [SequencedEvent(|v.log| + 1, world.wall(|v.log| + 1),
                                                  OrderCancelled(id, hash, TraderRequest))]
            && r.0.ledger.cancelled.Keys == v.ledger.cancelled.Keys + {hash}
            && r.0.ledger.filled == v.ledger.filled && r.0.ledger.nonces == v.ledger.nonces
            && r.0.markets == v.markets && r.0.index == v.index && r.0.idempotency == v.idempotency
  {
  }

  /** Only the owner can change anything by a cancel. */
  lemma OnlyOwnerCancels(v: EngineView, id: OrderId, trader: TraderId, world: World)
    requires Inv(v) && Cancel(v, id, trader, world).0 != v
    ensures exists a :: AcceptedBy(v.log, a, id) && v.log[a].event.order.terms.traderId == trader
    ensures forall a :: AcceptedBy(v.log, a, id) ==> v.log[a].event.order.terms.traderId == trader
  {
    CancelAnswer(v, id, trader, world);
    var t :| Owned(v, id, t) && OwnedAnswer(v, id, trader, t, Cancel(v, id, trader, world), world);
    LogFacts(v);
    forall a | AcceptedBy(v.log, a, id) ensures v.log[a].event.order.terms.traderId == trader {
      assert AcceptanceKnown(v.log[a], WorkingOf(v).orders);
    }
  }

  // ---- Cancel-all ------------------------------------------------------------------------------------

  ghost predicate TargetedId(targets: seq<(OrderId, OrderHash)>, id: OrderId) {
    exists t :: t in targets && t.0 == id
  }

  ghost predicate ClosesTargets(w: Working, w': Working, targets: seq<(OrderId, OrderHash)>) {
    && w'.orders.Keys == w.orders.Keys
    && (forall id :: id in w.orders && TargetedId(targets, id) ==> w'.orders[id].status == Cancelled)
    && (forall id :: id in w.orders && !TargetedId(targets, id) ==> w'.orders[id] == w.orders[id])
  }

  lemma ClosesNone(w: Working)
    ensures ClosesTargets(w, w, [])
  {
  }

  lemma ClosesOneMore(w: Working, w0: Working, targets: seq<(OrderId, OrderHash)>)
    requires targets != [] && targets[|targets| - 1].0 in w0.orders && ClosesTargets(w, w0, targets[..|targets| - 1])
    ensures ClosesTargets(w, AfterCancel(w0, targets[|targets| - 1].0, Cancelled), targets)
  {
    var rest, last := targets[..|targets| - 1], targets[|targets| - 1];
    forall id ensures TargetedId(targets, id) <==> TargetedId(rest, id) || id == last.0 {
      assert forall t :: t in targets <==> t in rest || t == last;
      assert id == last.0 ==> last in targets;
    }
  }

  /** Forced cancels close the orders named and leave the others alone. */
  lemma {:induction false} ForceExactly(v: EngineView, w: Working, targets: seq<(OrderId, OrderHash)>, world: World)
    returns (w': Working)
    requires Tracks(v, w) && Targets(targets, w.orders)
    ensures Tracks(ForceCancels(v, targets, world), w') && SameButStatus(w, w')
    ensures ClosesTargets(w, w', targets)
    decreases |targets|
  {
    if targets == [] {
      w' := w;
      ClosesNone(w);
    } else {
      var rest, last := targets[..|targets| - 1], targets[|targets| - 1];
      assert forall t :: t in rest ==> t in targets;
      var w0 := ForceExactly(v, w, rest, world);
      assert last in targets;
      ForceCancelTracks(ForceCancels(v, rest, world), w0, last.0, last.1, world);
      w' := AfterCancel(w0, last.0, Cancelled);
      CancelSame(w0, last.0, Cancelled);
      ClosesOneMore(w, w0, targets);
    }
  }

  lemma {:induction false} ForceLedger(v: EngineView, targets: seq<(OrderId, OrderHash)>, world: World)
    ensures var l := ForceCancels(v, targets, world).ledger;
            && l.filled == v.ledger.filled && l.nonces == v.ledger.nonces
            && (forall h :: h in l.cancelled <==> h in v.ledger.cancelled || exists t :: t in targets && t.1 == h)
            && (forall h :: h in l.cancelled && !(exists t :: t in targets && t.1 == h) ==>
                  l.cancelled[h] == v.ledger.cancelled[h])
            && (forall t :: t in targets ==> l.cancelled[t.1])
    decreases |targets|
  {
    if targets == [] {
    } else {
      var rest, last := targets[..|targets| - 1], targets[|targets| - 1];
      assert forall t :: t in targets <==> t in rest || t == last;
      ForceLedger(v, rest, world);
    }
  }

  /** Some order accepted in the market has this hash. */
  ghost predicate HashIn(log: seq<SequencedEvent>, market: MarketId, h: OrderHash) {
    exists i :: AcceptsIn(log, market, i) && log[i].event.order.terms.orderHash == h
  }

  /** The orders of the market are cancelled in the log, those of every other market are what they were. */
  ghost predicate CancelsMarket(w: Working, w': Working, market: MarketId) {
    && w'.orders.Keys == w.orders.Keys
    && (forall id :: id in w.orders && w.orders[id].terms.marketId == market ==>
          && w'.orders[id].status == Cancelled && w'.orders[id].terms == w.orders[id].terms
          && w'.orders[id].filled == w.orders[id].filled)
    && (forall id :: id in w.orders && w.orders[id].terms.marketId != market ==> w'.orders[id] == w.orders[id])
  }

  /**
   * Cancel-all logs one cancel for every order the log ever accepted in the market and for no other: the count
   * returned is their number, and no order and no hash of another market is touched.
   */
  lemma CancelAllExactly(v: EngineView, market: MarketId, world: World)
    requires Inv(v)
    ensures var r := CancelAll(v, market, world);
            if market !in v.markets then r == (v, Err(UnknownMarket(market))) else
              && Inv(r.0) && r.1 == Ok(|AcceptancesIn(v.log, market)|)
              && |r.0.log| == |v.log| + |AcceptancesIn(v.log, market)|
              && CancelsMarket(WorkingOf(v), WorkingOf(r.0), market)
              && r.0.books == v.books && r.0.markets == v.markets
    ensures market in v.markets ==>
              var l := CancelAll(v, market, world).0.ledger;
              && l.filled == v.ledger.filled && l.nonces == v.ledger.nonces
              && (forall h :: h in l.cancelled <==> h in v.ledger.cancelled || HashIn(v.log, market, h))
  {
    if market in v.markets {
      var w, targets := WorkingOf(v), AcceptedIn(v.log, market);
      LogFacts(v);
      SelectsExactly(v.log, market);
      AcceptedInKnown(v.log, market, w.orders);
      var w' := ForceExactly(v, w, targets, world);
      TracksIsInv(ForceCancels(v, targets, world), w');
      ForceCancelsBooks(v, targets, world);
      ForceCancelsLog(v, targets, world);
      ForceLedger(v, targets, world);
      forall id | id in w.orders ensures TargetedId(targets, id) <==> w.orders[id].terms.marketId == market {
        TargetsMarket(v, market, id);
      }
      forall h ensures (exists t :: t in targets && t.1 == h) <==> HashIn(v.log, market, h) {
        HashTargeted(v.log, market, h);
      }
    }
  }

  lemma TargetsMarket(v: EngineView, market: MarketId, id: OrderId)
    requires Inv(v) && id in WorkingOf(v).orders
    ensures TargetedId(AcceptedIn(v.log, market), id) <==> WorkingOf(v).orders[id].terms.marketId == market
  {
    var w, targets := WorkingOf(v), AcceptedIn(v.log, market);
    LogFacts(v);
    SelectsExactly(v.log, market);
    var a :| AcceptedBy(v.log, a, id);
    assert AcceptanceKnown(v.log[a], w.orders);
    if TargetedId(targets, id) {
      var t :| t in targets && t.0 == id;
      var i :| AcceptsIn(v.log, market, i) && v.log[i].event.order.terms.orderId == t.0
        && v.log[i].event.order.terms.orderHash == t.1;
      assert AcceptanceKnown(v.log[i], w.orders);
    }
    if w.orders[id].terms.marketId == market {
      var t := (id, v.log[a].event.order.terms.orderHash);
      assert AcceptsIn(v.log, market, a) && Targeted(v.log, market, t) && t in targets && t.0 == id;
    }
  }

  lemma HashTargeted(log: seq<SequencedEvent>, market: MarketId, h: OrderHash)
    requires LegalLog(log)
    ensures (exists t :: t in AcceptedIn(log, market) && t.1 == h) <==> HashIn(log, market, h)
  {
    SelectsExactly(log, market);
    if t :| t in AcceptedIn(log, market) && t.1 == h {
      assert Targeted(log, market, t);
    }
    if HashIn(log, market, h) {
      var i :| AcceptsIn(log, market, i) && log[i].event.order.terms.orderHash == h;
      var t := (log[i].event.order.terms.orderId, h);
      assert Targeted(log, market, t) && t in AcceptedIn(log, market) && t.1 == h;
    }
  }
}
