/** Which logs the engine writes, and what every such log guarantees on replay. */
module LegalLogs {
  import opened Basics
  import opened Domain
  import opened Books
  import opened Matching
  import opened Canonical
  import opened Store
  import opened Sequencing
  import opened Replaying

  /** The trader id spells the public key, and the hash binds that key and the nonce. */
  ghost predicate SignedTerms(t: Terms) {
    t.traderId.text == HexEncode(t.traderPubkey) && Binds(t.orderHash, t.nonce, t.traderPubkey)
  }

  lemma SameHashSameNonce(a: Terms, b: Terms)
    requires SignedTerms(a) && SignedTerms(b) && a.orderHash == b.orderHash
    ensures a.traderId == b.traderId && a.nonce == b.nonce
  {
  }

  // ---- One event -----------------------------------------------------------------------------

  /** A new order: unfilled, under a fresh id, with a fresh idempotency key and a higher nonce. */
  ghost predicate LegalAccept(w: Working, o: Order, seqId: nat) {
    var t := o.terms;
    && t.orderId !in w.orders
    && o.filled == 0 && o.status == Open && o.lastUpdate == seqId && t.createdSequence == seqId
    && t.size > 0 && t.price > 0
    && t.nonce > Lookup(w.ledger.nonces, t.traderId, 0)
    && SignedTerms(t)
    && (forall id :: id in w.orders ==> KeyOf(w.orders[id].terms) != KeyOf(t))
  }

  /** Names both sides of a fill correctly. */
  ghost predicate FillNames(f: Fill, taker: Terms, maker: Terms) {
    && f.takerOrderId == taker.orderId && f.makerOrderId == maker.orderId
    && f.takerOrderHash == taker.orderHash && f.makerOrderHash == maker.orderHash
    && f.takerTraderId == taker.traderId && f.makerTraderId == maker.traderId
    && f.marketId == maker.marketId && f.sequenceId == taker.createdSequence
  }

  /**
   * A fill pairs an arriving order with an earlier one of the other side and another trader, in one
   * market, at the maker's price and within the taker's limit, for no more than either has left.
   */
  ghost predicate LegalFill(w: Working, f: Fill) {
    && f.takerOrderId in w.orders && f.makerOrderId in w.orders
    && var taker, maker := w.orders[f.takerOrderId], w.orders[f.makerOrderId];
    && FillNames(f, taker.terms, maker.terms)
    && taker.terms.marketId == maker.terms.marketId
    && maker.terms.side == taker.terms.side.Opposite()
    && taker.terms.traderId != maker.terms.traderId
    && f.price == maker.terms.price && Crosses(taker, f.price)
    && maker.terms.createdSequence < taker.terms.createdSequence
    && 0 < f.size <= taker.Remaining() && f.size <= maker.Remaining()
  }

  ghost predicate LegalEvent(w: Working, se: SequencedEvent) {
    && se.seqId == w.lastSeq + 1
    && match se.event
       case OrderAccepted(o) => LegalAccept(w, o, se.seqId)
       case FillEvent(f) => LegalFill(w, f)
       case OrderCancelled(id, hash, reason) => id in w.orders && w.orders[id].terms.orderHash == hash
       case OrderRejected(_, _, _) => true
       case MarketPaused(_, _) => true
       case MarketResumed(_, _) => true
  }

  ghost predicate LegalFrom(w: Working, events: seq<SequencedEvent>)
    decreases |events|
  {
    events == [] ||
    (LegalEvent(w, events[0]) && ApplyEvent(w, events[0]).Ok?
     && LegalFrom(ApplyEvent(w, events[0]).value, events[1..]))
  }

  ghost predicate LegalLog(events: seq<SequencedEvent>) {
    LegalFrom(EMPTY_WORKING, events)
  }

  // ---- What a legal log keeps ----------------------------------------------------------------

  ghost predicate WorkingOrderOk(w: Working, id: OrderId)
    requires id in w.orders
  {
    var o := w.orders[id];
    && o.terms.orderId == id
    && 1 <= o.terms.createdSequence <= w.lastSeq
    && o.filled <= o.terms.size && o.terms.size > 0
    && SignedTerms(o.terms)
    && o.terms.nonce <= Lookup(w.ledger.nonces, o.terms.traderId, 0)
    && Lookup(w.ledger.filled, o.terms.orderHash, 0) == o.filled
  }

  ghost predicate DistinctHashes(orders: Orders) {
    forall a, b | a in orders && b in orders && a != b :: orders[a].terms.orderHash != orders[b].terms.orderHash
  }

  ghost predicate DistinctKeys(orders: Orders) {
    forall a, b | a in orders && b in orders && a != b :: KeyOf(orders[a].terms) != KeyOf(orders[b].terms)
  }

  ghost predicate HashKnown(orders: Orders, hash: OrderHash) {
    exists id :: id in orders && orders[id].terms.orderHash == hash
  }

  /**
   * Orders are never overfilled, the fill ledger agrees with each order's own count, and sequence
   * number, hash and idempotency key each identify one order.
   */
  ghost predicate WorkingOk(w: Working) {
    && (forall id :: id in w.orders ==> WorkingOrderOk(w, id))
    && DistinctSequences(w.orders) && DistinctHashes(w.orders) && DistinctKeys(w.orders)
    && (forall hash :: hash in w.ledger.filled ==> HashKnown(w.orders, hash))
  }

  /** The three identities depend on the terms alone. */
  lemma SameTermsDistinct(a: Orders, b: Orders)
    requires a.Keys == b.Keys && forall id :: id in a ==> a[id].terms == b[id].terms
    requires DistinctSequences(a) && DistinctHashes(a) && DistinctKeys(a)
    ensures DistinctSequences(b) && DistinctHashes(b) && DistinctKeys(b)
    ensures forall hash :: HashKnown(a, hash) ==> HashKnown(b, hash)
  {
    forall hash | HashKnown(a, hash) ensures HashKnown(b, hash) {
      var id :| id in a && a[id].terms.orderHash == hash;
      assert id in b && b[id].terms.orderHash == hash;
    }
  }

  /** Hashes need no separate check: an equal hash would mean a reused nonce. */
  lemma AcceptedHashIsNew(w: Working, t: Terms)
    requires WorkingOk(w) && SignedTerms(t) && t.nonce > Lookup(w.ledger.nonces, t.traderId, 0)
    ensures !HashKnown(w.orders, t.orderHash)
    ensures t.orderHash !in w.ledger.filled
  {
    forall id | id in w.orders ensures w.orders[id].terms.orderHash != t.orderHash {
      assert WorkingOrderOk(w, id);
      if w.orders[id].terms.orderHash == t.orderHash {
        SameHashSameNonce(w.orders[id].terms, t);
      }
    }
  }

  lemma AcceptDistinct(w: Working, o: Order, seqId: nat)
    requires WorkingOk(w) && LegalAccept(w, o, seqId) && seqId == w.lastSeq + 1
    ensures var next := w.orders[o.terms.orderId := o];
            DistinctSequences(next) && DistinctHashes(next) && DistinctKeys(next)
  {
    AcceptedHashIsNew(w, o.terms);
    forall id | id in w.orders
      ensures w.orders[id].terms.orderHash != o.terms.orderHash
      ensures w.orders[id].terms.createdSequence != o.terms.createdSequence
    {
      assert WorkingOrderOk(w, id);
    }
  }

  lemma AcceptKeeps(w: Working, se: SequencedEvent)
    requires WorkingOk(w) && LegalEvent(w, se) && se.event.OrderAccepted?
    ensures ApplyEvent(w, se).Ok? && WorkingOk(ApplyEvent(w, se).value)
  {
    var o := se.event.order;
    var next := ApplyEvent(w, se).value;
    AcceptDistinct(w, o, se.seqId);
    AcceptedHashIsNew(w, o.terms);
    assert next.orders == w.orders[o.terms.orderId := o] && next.ledger.filled == w.ledger.filled;
    forall id | id in next.orders ensures WorkingOrderOk(next, id) {
      assert id != o.terms.orderId ==> WorkingOrderOk(w, id);
    }
    forall hash | hash in next.ledger.filled ensures HashKnown(next.orders, hash) {
      var id :| id in w.orders && w.orders[id].terms.orderHash == hash;
      assert next.orders[id].terms.orderHash == hash;
    }
  }

  /** A fill moves the ledger entries of its two hashes and no other. */
  lemma FillLedger(filled: map<OrderHash, nat>, taker: OrderHash, maker: OrderHash, qty: nat, hash: OrderHash)
    requires taker != maker
    ensures Lookup(AddFilled(AddFilled(filled, taker, qty), maker, qty), hash, 0)
         == Lookup(filled, hash, 0) + (if hash == taker || hash == maker then qty else 0)
  {
  }

  /** What a fill does to one replayed order. */
  lemma FillQtys(orders: Orders, f: Fill, seqId: nat, id: OrderId)
    requires f.takerOrderId in orders && f.makerOrderId in orders && f.takerOrderId != f.makerOrderId && id in orders
    ensures var r := ReplayFill(orders, f, seqId);
            && r.Ok? && id in r.value && r.value[id].terms == orders[id].terms
            && r.value[id].filled == orders[id].filled
               + (if id == f.takerOrderId || id == f.makerOrderId then f.size else 0)
  {
  }

  lemma FillOrder(w: Working, se: SequencedEvent, id: OrderId)
    requires WorkingOk(w) && LegalEvent(w, se) && se.event.FillEvent? && id in w.orders
    ensures ApplyEvent(w, se).Ok? && id in ApplyEvent(w, se).value.orders
    ensures ApplyEvent(w, se).value.orders[id].terms == w.orders[id].terms
    ensures WorkingOrderOk(ApplyEvent(w, se).value, id)
  {
    var f := se.event.fill;
    assert WorkingOrderOk(w, id);
    assert WorkingOrderOk(w, f.takerOrderId) && WorkingOrderOk(w, f.makerOrderId);
    assert w.orders[f.takerOrderId].terms.orderHash != w.orders[f.makerOrderId].terms.orderHash;
    FillLedger(w.ledger.filled, f.takerOrderHash, f.makerOrderHash, f.size, w.orders[id].terms.orderHash);
    assert id != f.takerOrderId ==> w.orders[id].terms.orderHash != f.takerOrderHash;
    assert id != f.makerOrderId ==> w.orders[id].terms.orderHash != f.makerOrderHash;
    FillQtys(w.orders, f, se.seqId, id);
  }

  lemma FillKeeps(w: Working, se: SequencedEvent)
    requires WorkingOk(w) && LegalEvent(w, se) && se.event.FillEvent?
    ensures ApplyEvent(w, se).Ok? && WorkingOk(ApplyEvent(w, se).value)
  {
    var next := ApplyEvent(w, se).value;
    assert next.orders.Keys == w.orders.Keys;
    forall id | id in w.orders
      ensures WorkingOrderOk(next, id) && next.orders[id].terms == w.orders[id].terms
    {
      FillOrder(w, se, id);
    }
    FillHashesKnown(w, se);
    SameTermsDistinct(w.orders, next.orders);
  }

  lemma FillHashesKnown(w: Working, se: SequencedEvent)
    requires WorkingOk(w) && LegalEvent(w, se) && se.event.FillEvent?
    requires ApplyEvent(w, se).Ok?
    ensures forall hash :: hash in ApplyEvent(w, se).value.ledger.filled ==> HashKnown(w.orders, hash)
  {
    var f := se.event.fill;
    assert w.orders[f.takerOrderId].terms.orderHash == f.takerOrderHash;
    assert w.orders[f.makerOrderId].terms.orderHash == f.makerOrderHash;
    assert ApplyEvent(w, se).value.ledger.filled.Keys
        == w.ledger.filled.Keys + {f.takerOrderHash, f.makerOrderHash};
  }

  lemma CancelKeeps(w: Working, se: SequencedEvent)
    requires WorkingOk(w) && LegalEvent(w, se) && !se.event.OrderAccepted? && !se.event.FillEvent?
    ensures ApplyEvent(w, se).Ok? && WorkingOk(ApplyEvent(w, se).value)
  {
    var next := ApplyEvent(w, se).value;
    assert next.ledger.filled == w.ledger.filled && next.ledger.nonces == w.ledger.nonces;
    assert next.orders.Keys == w.orders.Keys;
    forall id | id in next.orders
      ensures WorkingOrderOk(next, id) && next.orders[id].terms == w.orders[id].terms
    {
      assert WorkingOrderOk(w, id);
    }
    SameTermsDistinct(w.orders, next.orders);
  }

  /** A legal event is never a gap, never names an unknown order, and keeps the working set sound. */
  lemma LegalKeeps(w: Working, se: SequencedEvent)
    requires WorkingOk(w) && LegalEvent(w, se)
    ensures ApplyEvent(w, se).Ok? && WorkingOk(ApplyEvent(w, se).value)
    ensures ApplyEvent(w, se).value.lastSeq == se.seqId
  {
    if se.event.OrderAccepted? {
      AcceptKeeps(w, se);
    } else if se.event.FillEvent? {
      FillKeeps(w, se);
    } else {
      CancelKeeps(w, se);
    }
  }

  lemma {:induction false} LegalFold(w: Working, events: seq<SequencedEvent>)
    requires WorkingOk(w) && LegalFrom(w, events)
    ensures Fold(w, events).Ok? && WorkingOk(Fold(w, events).value)
    ensures Fold(w, events).value.lastSeq == w.lastSeq + |events|
    decreases |events|
  {
    if events == [] {
    } else {
      LegalKeeps(w, events[0]);
      LegalFold(ApplyEvent(w, events[0]).value, events[1..]);
    }
  }

  lemma {:induction false} LegalConcat(w: Working, a: seq<SequencedEvent>, b: seq<SequencedEvent>)
    requires Fold(w, a).Ok?
    ensures LegalFrom(w, a + b) <==> LegalFrom(w, a) && LegalFrom(Fold(w, a).value, b)
    decreases |a|
  {
    if a == [] {
      assert [] + b == b;
    } else {
      assert (a + b)[0] == a[0] && (a + b)[1..] == a[1..] + b;
      LegalConcat(ApplyEvent(w, a[0]).value, a[1..], b);
    }
  }

  // ---- Open orders are unfilled ----------------------------------------------------------------

  ghost predicate OpenNotFull(orders: Orders) {
    forall id :: id in orders && !orders[id].Closed() ==> orders[id].filled < orders[id].terms.size
  }

  lemma {:induction false} FoldOpenNotFull(w: Working, events: seq<SequencedEvent>)
    requires LegalFrom(w, events) && OpenNotFull(w.orders)
    ensures Fold(w, events).Ok? && OpenNotFull(Fold(w, events).value.orders)
    decreases |events|
  {
    if events == [] {
    } else {
      assert OpenNotFull(ApplyEvent(w, events[0]).value.orders);
      FoldOpenNotFull(ApplyEvent(w, events[0]).value, events[1..]);
    }
  }

  lemma LogOpenNotFull(log: seq<SequencedEvent>)
    requires LegalLog(log)
    ensures Replayed(log).Ok? && OpenNotFull(Replayed(log).value.orders)
  {
    FoldOpenNotFull(EMPTY_WORKING, log);
  }
}
