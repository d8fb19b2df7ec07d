/** Replaying the fills of a match reproduces the match. */
module MatchReplay {
  import opened Basics
  import opened Domain
  import opened Matching
  import opened MatchTheory
  import opened Store
  import opened Sequencing
  import opened Replaying
  import opened LegalLogs
  import opened EngineSpec

  /** The working set knows every order of the book, with the same terms and the same filled size. */
  ghost predicate Mirrors(working: Orders, orders: Orders) {
    forall id :: id in orders ==>
      id in working && working[id].terms == orders[id].terms && working[id].filled == orders[id].filled
  }

  /** The makers a taker may walk: other side, same market, accepted earlier, within the limit. */
  ghost predicate Eligible(orders: Orders, taker: Order, ids: seq<OrderId>) {
    forall id :: id in ids ==>
      && id in orders
      && orders[id].terms.side == taker.terms.side.Opposite()
      && orders[id].terms.marketId == taker.terms.marketId
      && orders[id].terms.createdSequence < taker.terms.createdSequence
      && Crosses(taker, orders[id].terms.price)
  }

  ghost predicate ReplayInput(w: Working, orders: Orders, taker: Order, ids: seq<OrderId>) {
    && WorkingOk(w) && w.lastSeq > 0
    && Mirrors(w.orders, orders)
    && taker.terms.orderId in w.orders && taker.terms.orderId !in orders
    && w.orders[taker.terms.orderId].terms == taker.terms
    && w.orders[taker.terms.orderId].filled == taker.filled
    && WalkInput(orders, taker, ids) && Eligible(orders, taker, ids)
  }

  /** The replayed status of an order agrees with its status in the book. */
  predicate Synced(working: Orders, o: Order) {
    o.terms.orderId in working && working[o.terms.orderId].status == o.status
  }

  /** What replaying the fills yields, relative to the match itself. */
  ghost predicate Reproduces(w: Working, w': Working, orders: Orders, taker: Order, r: MatchResult) {
    && w'.orders.Keys == w.orders.Keys
    && w'.ledger == ApplyFills(w.ledger, r.fills)
    && w'.lastSeq == w.lastSeq + |r.fills|
    && Mirrors(w'.orders, r.orders)
    && taker.terms.orderId in w'.orders
    && w'.orders[taker.terms.orderId].terms == taker.terms
    && w'.orders[taker.terms.orderId].filled == r.taker.filled
    && (forall id :: id in w.orders && id !in orders && id != taker.terms.orderId ==> w'.orders[id] == w.orders[id])
    && (forall id :: id in orders && Synced(w.orders, orders[id]) ==> id in r.orders && Synced(w'.orders, r.orders[id]))
    && (Synced(w.orders, taker) ==> r.taker.status == CancelledStp || Synced(w'.orders, r.taker))
  }

  ghost function AfterFill(w: Working, f: Fill, seqId: nat): Working
    requires f.takerOrderId in w.orders && f.makerOrderId in w.orders
  {
    var taken := w.orders[f.takerOrderId := ReplayQty(w.orders[f.takerOrderId], f.size, seqId)];
    Working(taken[f.makerOrderId := ReplayQty(taken[f.makerOrderId], f.size, seqId)], ApplyFill(w.ledger, f), seqId)
  }

  /** The first fill of a walk is legal, and replaying it keeps the two sides in step. */
  lemma FirstFill(w: Working, orders: Orders, taker: Order, ids: seq<OrderId>, seqId: nat, nowMs: nat, at: nat)
    requires ReplayInput(w, orders, taker, ids) && Trades(orders, taker, ids)
    requires seqId == taker.terms.createdSequence
    ensures var maker := orders[ids[0]];
            var f := MakeFill(taker, maker, FillQty(taker, maker), seqId, nowMs);
            LegalEvent(w, SequencedEvent(w.lastSeq + 1, at, FillEvent(f)))
            && ApplyEvent(w, SequencedEvent(w.lastSeq + 1, at, FillEvent(f))) == Ok(AfterFill(w, f, w.lastSeq + 1))
  {
    assert orders[ids[0]].terms.orderId == ids[0];
  }

  function FirstFillOf(orders: Orders, taker: Order, ids: seq<OrderId>, seqId: nat, nowMs: nat): Fill
    requires ids != [] && ids[0] in orders
  {
    MakeFill(taker, orders[ids[0]], FillQty(taker, orders[ids[0]]), seqId, nowMs)
  }

  /** After the first fill both sides still agree on every order's filled size. */
  lemma FirstFillMirrors(w: Working, orders: Orders, taker: Order, ids: seq<OrderId>, seqId: nat, nowMs: nat)
    requires Mirrors(w.orders, orders) && ids != [] && ids[0] in orders && orders[ids[0]].terms.orderId == ids[0]
    requires taker.terms.orderId in w.orders && taker.terms.orderId !in orders
    requires w.orders[taker.terms.orderId].terms == taker.terms && w.orders[taker.terms.orderId].filled == taker.filled
    ensures var (orders', taker') := AfterFirst(orders, taker, ids, seqId);
            var f := FirstFillOf(orders, taker, ids, seqId, nowMs);
            && f.takerOrderId in w.orders && f.makerOrderId in w.orders
            && var w' := AfterFill(w, f, w.lastSeq + 1);
            && w'.orders.Keys == w.orders.Keys
            && Mirrors(w'.orders, orders')
            && w'.orders[taker.terms.orderId].terms == taker.terms
            && w'.orders[taker.terms.orderId].filled == taker'.filled
  {
    var (orders', taker') := AfterFirst(orders, taker, ids, seqId);
    var f := FirstFillOf(orders, taker, ids, seqId, nowMs);
    var w' := AfterFill(w, f, w.lastSeq + 1);
    forall id | id in orders'
      ensures id in w'.orders && w'.orders[id].terms == orders'[id].terms && w'.orders[id].filled == orders'[id].filled
    {
    }
  }

  lemma FirstFillEligible(orders: Orders, taker: Order, ids: seq<OrderId>, seqId: nat)
    requires Eligible(orders, taker, ids) && ids != [] && ids[0] in orders
    ensures var (orders', taker') := AfterFirst(orders, taker, ids, seqId);
            Eligible(orders', taker', ids[1..])
  {
  }

  lemma FirstFillInput(w: Working, orders: Orders, taker: Order, ids: seq<OrderId>, seqId: nat, nowMs: nat)
    requires ReplayInput(w, orders, taker, ids) && Trades(orders, taker, ids)
    requires seqId == taker.terms.createdSequence
    ensures var (orders', taker') := AfterFirst(orders, taker, ids, seqId);
            var f := FirstFillOf(orders, taker, ids, seqId, nowMs);
            f.takerOrderId in w.orders && f.makerOrderId in w.orders
            && ReplayInput(AfterFill(w, f, w.lastSeq + 1), orders', taker', ids[1..])
  {
    var f := FirstFillOf(orders, taker, ids, seqId, nowMs);
    FirstFill(w, orders, taker, ids, seqId, nowMs, 0);
    LegalKeeps(w, SequencedEvent(w.lastSeq + 1, 0, FillEvent(f)));
    WalkInputNext(orders, taker, ids, seqId);
    FirstFillMirrors(w, orders, taker, ids, seqId, nowMs);
    FirstFillEligible(orders, taker, ids, seqId);
  }

  /** The first fill recomputes both statuses alike and touches no other order. */
  lemma FirstFillSynced(w: Working, orders: Orders, taker: Order, ids: seq<OrderId>, seqId: nat, nowMs: nat)
    requires ReplayInput(w, orders, taker, ids) && Trades(orders, taker, ids)
    ensures var (orders', taker') := AfterFirst(orders, taker, ids, seqId);
            var f := FirstFillOf(orders, taker, ids, seqId, nowMs);
            && f.takerOrderId in w.orders && f.makerOrderId in w.orders
            && var w' := AfterFill(w, f, w.lastSeq + 1);
            && Synced(w'.orders, taker') && Synced(w'.orders, orders'[ids[0]])
            && orders'[ids[0]].terms.orderId == ids[0]
            && (forall id :: id in w.orders && id != ids[0] && id != taker.terms.orderId ==>
                  w'.orders[id] == w.orders[id])
  {
    assert orders[ids[0]].terms.orderId == ids[0];
    assert WorkingOrderOk(w, ids[0]);
  }

  lemma FirstFillOthers(w: Working, orders: Orders, taker: Order, ids: seq<OrderId>, seqId: nat, nowMs: nat)
    requires ReplayInput(w, orders, taker, ids) && Trades(orders, taker, ids)
    ensures var (orders', taker') := AfterFirst(orders, taker, ids, seqId);
            var f := FirstFillOf(orders, taker, ids, seqId, nowMs);
            && f.takerOrderId in w.orders && f.makerOrderId in w.orders
            && var w' := AfterFill(w, f, w.lastSeq + 1);
            && (forall id :: id in orders && Synced(w.orders, orders[id]) ==> Synced(w'.orders, orders'[id]))
            && (forall id :: id in w.orders && id !in orders && id != taker.terms.orderId ==>
                  w'.orders[id] == w.orders[id])
  {
    FirstFillSynced(w, orders, taker, ids, seqId, nowMs);
    FirstFillMirrors(w, orders, taker, ids, seqId, nowMs);
    assert forall id :: id in orders ==> orders[id].terms.orderId == id;
  }

  lemma StampCons(next: nat, f: Fill, rest: seq<Fill>, wall: nat -> nat)
    ensures Stamp(next, FillEvents([f] + rest), wall)
         == [SequencedEvent(next, wall(next), FillEvent(f))] + Stamp(next + 1, FillEvents(rest), wall)
  {
  }

  /** The fill events of a walk are legal and reproduce the walk on the working set. */
  lemma {:induction false} WalkReplays(w: Working, orders: Orders, taker: Order, ids: seq<OrderId>,
                                       seqId: nat, nowMs: nat, wall: nat -> nat)
    requires ReplayInput(w, orders, taker, ids) && seqId == taker.terms.createdSequence
    ensures var r := Walk(orders, taker, ids, seqId, nowMs);
            var events := Stamp(w.lastSeq + 1, FillEvents(r.fills), wall);
            && LegalFrom(w, events)
            && Fold(w, events).Ok?
            && Reproduces(w, Fold(w, events).value, orders, taker, r)
    decreases |ids|
  {
    if !Trades(orders, taker, ids) {
      var r := Walk(orders, taker, ids, seqId, nowMs);
      assert r.fills == [] && r.orders == orders;
    } else {
      var (orders', taker') := AfterFirst(orders, taker, ids, seqId);
      var f := FirstFillOf(orders, taker, ids, seqId, nowMs);
      var next := w.lastSeq + 1;
      FirstFill(w, orders, taker, ids, seqId, nowMs, wall(next));
      FirstFillInput(w, orders, taker, ids, seqId, nowMs);
      var w1 := AfterFill(w, f, next);
      WalkReplays(w1, orders', taker', ids[1..], seqId, nowMs, wall);
      var rest := Walk(orders', taker', ids[1..], seqId, nowMs);
      StampCons(next, f, rest.fills, wall);
      var events := Stamp(next, FillEvents([f] + rest.fills), wall);
      assert events[0] == SequencedEvent(next, wall(next), FillEvent(f));
      assert events[1..] == Stamp(next + 1, FillEvents(rest.fills), wall);
      assert Fold(w, events) == Fold(w1, events[1..]);
      assert ([f] + rest.fills)[1..] == rest.fills;
      WalkUnfold(orders, taker, ids, seqId, nowMs);
      FirstFillSynced(w, orders, taker, ids, seqId, nowMs);
      FirstFillMirrors(w, orders, taker, ids, seqId, nowMs);
      FirstFillOthers(w, orders, taker, ids, seqId, nowMs);
    }
  }
}
