/** Price-time priority matching with cancel-taker self-trade prevention: src/engine/matching.rs. */
module Matching {
  import opened Domain
  import opened Books

  // ---- Specification: a greedy walk down one flat priority list ------------------------------

  datatype MatchResult = MatchResult(orders: Orders, taker: Order, fills: seq<Fill>)

  predicate Crosses(taker: Order, makerPrice: nat) {
    if taker.terms.side == Buy then makerPrice <= taker.terms.price else makerPrice >= taker.terms.price
  }

  predicate Done(taker: Order) {
    taker.Remaining() == 0 || taker.Closed()
  }

  function FillQty(taker: Order, maker: Order): nat {
    var q := if taker.Remaining() <= maker.Remaining() then taker.Remaining() else maker.Remaining();
    if q < 0 then 0 else q
  }

  function ApplyQty(o: Order, qty: nat, seqId: nat): Order {
    o.(filled := o.filled + qty,
       lastUpdate := seqId,
       status := if o.filled + qty == o.terms.size then Filled else PartiallyFilled)
  }

  function StpCancel(taker: Order, seqId: nat): Order {
    taker.(status := CancelledStp, lastUpdate := seqId)
  }

  function MakeFill(taker: Order, maker: Order, qty: nat, seqId: nat, nowMs: nat): Fill {
    Fill(maker.terms.marketId,
         taker.terms.orderId, taker.terms.orderHash, taker.terms.traderId,
         maker.terms.orderId, maker.terms.orderHash, maker.terms.traderId,
         maker.terms.price, qty, seqId, nowMs)
  }

  /** Trade with the makers of `ids` in turn until the taker is done or meets its own order. */
  function Walk(orders: Orders, taker: Order, ids: seq<OrderId>, seqId: nat, nowMs: nat): MatchResult
    decreases |ids|
  {
    if ids == [] || Done(taker) then
      MatchResult(orders, taker, [])
    else if ids[0] !in orders || orders[ids[0]].Closed() then
      Walk(orders, taker, ids[1..], seqId, nowMs)
    else
      var maker := orders[ids[0]];
      if maker.terms.traderId == taker.terms.traderId then
        MatchResult(orders, StpCancel(taker, seqId), [])
      else
        var qty := FillQty(taker, maker);
        var rest := Walk(orders[ids[0] := ApplyQty(maker, qty, seqId)], ApplyQty(taker, qty, seqId),
                         ids[1..], seqId, nowMs);
        rest.(fills := [MakeFill(taker, maker, qty, seqId, nowMs)] + rest.fills)
  }

  /** The open orders on the other side that the taker's limit reaches. */
  ghost function CrossingIds(orders: Orders, taker: Order): set<OrderId> {
    set id | id in orders && !orders[id].Closed()
      && orders[id].terms.side == taker.terms.side.Opposite() && Crosses(taker, orders[id].terms.price)
  }

  /**
   * All crossing makers, best price first and oldest first within a price.
   * Two orders under one sequence number would have no priority order; no run produces them.
   */
  ghost function Makers(orders: Orders, taker: Order): seq<OrderId> {
    if DistinctSequences(orders) then SortIds(CrossingIds(orders, taker), orders) else []
  }

  ghost function Match(orders: Orders, taker: Order, seqId: nat, nowMs: nat): MatchResult {
    Walk(orders, taker, Makers(orders, taker), seqId, nowMs)
  }

  /** The book after matching, with the residual in it if it rests. */
  function AfterMatch(r: MatchResult): Orders {
    if !r.taker.Closed() && r.taker.Remaining() > 0 then r.orders[r.taker.terms.orderId := r.taker] else r.orders
  }

  // ---- How walks compose ---------------------------------------------------------------------

  lemma {:induction false} WalkConcat(orders: Orders, taker: Order, a: seq<OrderId>, b: seq<OrderId>,
                                      seqId: nat, nowMs: nat)
    ensures var first := Walk(orders, taker, a, seqId, nowMs);
            var second := Walk(first.orders, first.taker, b, seqId, nowMs);
            Walk(orders, taker, a + b, seqId, nowMs) == second.(fills := first.fills + second.fills)
    decreases |a|
  {
    if a == [] || Done(taker) {
      assert [] + b == b;
      var second := Walk(orders, taker, b, seqId, nowMs);
      assert [] + second.fills == second.fills;
    } else {
      assert (a + b)[1..] == a[1..] + b;
      if a[0] !in orders || orders[a[0]].Closed() {
        WalkConcat(orders, taker, a[1..], b, seqId, nowMs);
      } else if orders[a[0]].terms.traderId != taker.terms.traderId {
        var maker := orders[a[0]];
        var qty := FillQty(taker, maker);
        WalkConcat(orders[a[0] := ApplyQty(maker, qty, seqId)], ApplyQty(taker, qty, seqId), a[1..], b, seqId, nowMs);
      }
    }
  }

  /** What one walk leaves alone: every order keeps its terms, and orders off the list are untouched. */
  lemma {:induction false} WalkFrame(orders: Orders, taker: Order, ids: seq<OrderId>, seqId: nat, nowMs: nat)
    ensures var r := Walk(orders, taker, ids, seqId, nowMs);
            && r.orders.Keys == orders.Keys && r.taker.terms == taker.terms
            && (forall id :: id in orders ==> r.orders[id].terms == orders[id].terms)
            && (forall id :: id in orders && id !in ids ==> r.orders[id] == orders[id])
            && (forall id :: id in orders && orders[id].Closed() ==> r.orders[id] == orders[id])
    decreases |ids|
  {
    if ids != [] && !Done(taker) {
      if ids[0] !in orders || orders[ids[0]].Closed() {
        WalkFrame(orders, taker, ids[1..], seqId, nowMs);
      } else if orders[ids[0]].terms.traderId != taker.terms.traderId {
        var maker := orders[ids[0]];
        var qty := FillQty(taker, maker);
        WalkFrame(orders[ids[0] := ApplyQty(maker, qty, seqId)], ApplyQty(taker, qty, seqId), ids[1..], seqId, nowMs);
      }
    }
  }

  /** A taker that can still trade: open, with a positive remainder. */
  predicate Tradable(taker: Order) {
    taker.filled <= taker.terms.size && (taker.status == Filled <==> taker.filled == taker.terms.size)
  }

  /** Matching keeps the book well formed and never fills an order beyond its size. */
  lemma {:induction false} WalkOk(orders: Orders, taker: Order, ids: seq<OrderId>, seqId: nat, nowMs: nat)
    requires BookOk(orders) && Tradable(taker)
    ensures var r := Walk(orders, taker, ids, seqId, nowMs);
            BookOk(r.orders) && r.taker.filled <= r.taker.terms.size
    decreases |ids|
  {
    if ids != [] && !Done(taker) {
      if ids[0] !in orders || orders[ids[0]].Closed() {
        WalkOk(orders, taker, ids[1..], seqId, nowMs);
      } else if orders[ids[0]].terms.traderId != taker.terms.traderId {
        var maker := orders[ids[0]];
        var qty := FillQty(taker, maker);
        WalkOk(orders[ids[0] := ApplyQty(maker, qty, seqId)], ApplyQty(taker, qty, seqId), ids[1..], seqId, nowMs);
      }
    }
  }

  // ---- The loops -----------------------------------------------------------------------------

  lemma WalkOneMore(orders: Orders, taker: Order, ids: seq<OrderId>, i: nat, seqId: nat, nowMs: nat)
    requires i < |ids|
    ensures var first := Walk(orders, taker, ids[..i], seqId, nowMs);
            var second := Walk(first.orders, first.taker, [ids[i]], seqId, nowMs);
            Walk(orders, taker, ids[..i + 1], seqId, nowMs) == second.(fills := first.fills + second.fills)
  {
    assert ids[..i + 1] == ids[..i] + [ids[i]];
    WalkConcat(orders, taker, ids[..i], [ids[i]], seqId, nowMs);
  }

  /** The next maker, open and of another trader, trades. */
  lemma WalkTrade(orders: Orders, taker: Order, ids: seq<OrderId>, i: nat, seqId: nat, nowMs: nat)
    requires i < |ids|
    requires var first := Walk(orders, taker, ids[..i], seqId, nowMs);
             && !Done(first.taker) && ids[i] in first.orders && !first.orders[ids[i]].Closed()
             && first.orders[ids[i]].terms.traderId != first.taker.terms.traderId
    ensures var first := Walk(orders, taker, ids[..i], seqId, nowMs);
            var maker := first.orders[ids[i]];
            var qty := FillQty(first.taker, maker);
            Walk(orders, taker, ids[..i + 1], seqId, nowMs)
            == MatchResult(first.orders[ids[i] := ApplyQty(maker, qty, seqId)], ApplyQty(first.taker, qty, seqId),
                           first.fills + [MakeFill(first.taker, maker, qty, seqId, nowMs)])
  {
    WalkOneMore(orders, taker, ids, i, seqId, nowMs);
    assert [ids[i]][1..] == [];
  }

  /** The next maker is the taker's own order: the walk ends there. */
  lemma WalkMeetsOwn(orders: Orders, taker: Order, ids: seq<OrderId>, i: nat, seqId: nat, nowMs: nat)
    requires i < |ids|
    requires var first := Walk(orders, taker, ids[..i], seqId, nowMs);
             && !Done(first.taker) && ids[i] in first.orders && !first.orders[ids[i]].Closed()
             && first.orders[ids[i]].terms.traderId == first.taker.terms.traderId
    ensures var first := Walk(orders, taker, ids[..i], seqId, nowMs);
            Walk(orders, taker, ids, seqId, nowMs) == first.(taker := StpCancel(first.taker, seqId))
  {
    WalkOneMore(orders, taker, ids, i, seqId, nowMs);
    var first := Walk(orders, taker, ids[..i], seqId, nowMs);
    assert first.fills + [] == first.fills;
    WalkStops(orders, taker, ids, i + 1, seqId, nowMs);
  }

  /** Once the taker is done the rest of the list does not matter. */
  lemma WalkStops(orders: Orders, taker: Order, ids: seq<OrderId>, i: nat, seqId: nat, nowMs: nat)
    requires i <= |ids|
    requires Done(Walk(orders, taker, ids[..i], seqId, nowMs).taker)
    ensures Walk(orders, taker, ids, seqId, nowMs) == Walk(orders, taker, ids[..i], seqId, nowMs)
  {
    assert ids == ids[..i] + ids[i..];
    WalkConcat(orders, taker, ids[..i], ids[i..], seqId, nowMs);
    var first := Walk(orders, taker, ids[..i], seqId, nowMs);
    assert first.fills + [] == first.fills;
  }

  /** Books one fill against a resting maker; a maker that is now full leaves its queue. */
  method FillMaker(book: OrderBook, makerId: OrderId, qty: nat, seqId: nat)
    requires book.Valid() && makerId in book.orders && !book.orders[makerId].Closed()
    requires qty <= book.orders[makerId].Remaining()
    modifies book
    ensures book.Valid()
    ensures book.orders == old(book.orders)[makerId := ApplyQty(old(book.orders)[makerId], qty, seqId)]
  {
    ghost var live := OpenIds(book.orders);
    var maker := ApplyQty(book.orders[makerId], qty, seqId);
    IndexedUpdate(book.bids, Buy, book.orders, live, makerId, maker);
    IndexedUpdate(book.asks, Sell, book.orders, live, makerId, maker);
    book.orders := book.orders[makerId := maker];
    if maker.Closed() {
      book.RemoveFromQueue(makerId, live);
      assert OpenIds(book.orders) == live - {makerId};
    } else {
      assert OpenIds(book.orders) == live;
    }
  }

  /** One price level, oldest maker first. */
  method MatchAtPriceLevel(book: OrderBook, taker0: Order, price: nat, makerSide: Side, seqId: nat, nowMs: nat,
                           fills0: seq<Fill>)
    returns (taker: Order, fills: seq<Fill>)
    requires book.Valid() && Tradable(taker0) && !Done(taker0)
    modifies book
    ensures book.Valid()
    ensures var r := Walk(old(book.orders), taker0, old(book.OrdersAtPrice(price, makerSide)), seqId, nowMs);
            book.orders == r.orders && taker == r.taker && fills == fills0 + r.fills
    ensures taker.status == CancelledStp || (Tradable(taker) && (taker.Closed() ==> taker.Remaining() == 0))
  {
    ghost var orders0 := book.orders;
    var makerIds := book.OrdersAtPrice(price, makerSide);
    taker, fills := taker0, fills0;
    var i := 0;
    assert makerIds[..0] == [];
    while i < |makerIds|
      invariant 0 <= i <= |makerIds|
      invariant book.Valid() && Tradable(taker) && (taker.Closed() ==> taker.Remaining() == 0)
      invariant var r := Walk(orders0, taker0, makerIds[..i], seqId, nowMs);
                book.orders == r.orders && taker == r.taker && fills == fills0 + r.fills
      invariant forall j :: i <= j < |makerIds| ==>
                  makerIds[j] in book.orders && !book.orders[makerIds[j]].Closed()
                  && book.orders[makerIds[j]].terms.price == price
    {
      if taker.Remaining() == 0 {
        WalkStops(orders0, taker0, makerIds, i, seqId, nowMs);
        break;
      }
      var makerId := makerIds[i];
      // The lookup cannot miss and the snapshot cannot be stale: both skips of the program are dead.
      assert makerId in book.orders && !book.orders[makerId].Closed();
      var maker := book.orders[makerId];
      if maker.terms.traderId == taker.terms.traderId {
        WalkMeetsOwn(orders0, taker0, makerIds, i, seqId, nowMs);
        taker := StpCancel(taker, seqId);
        break;
      }
      WalkTrade(orders0, taker0, makerIds, i, seqId, nowMs);
      var qty := FillQty(taker, maker);
      fills := fills + [MakeFill(taker, maker, qty, seqId, nowMs)];
      taker := ApplyQty(taker, qty, seqId);
      FillMaker(book, makerId, qty, seqId);
      i := i + 1;
    }
    assert i == |makerIds| ==> makerIds[..i] == makerIds;
  }

  /** `take_while`: the leading prices the taker accepts. */
  function TakeCrossing(prices: seq<nat>, taker: Order): seq<nat> {
    if prices == [] || !Crosses(taker, prices[0]) then []
    else [prices[0]] + TakeCrossing(prices[1..], taker)
  }

  /** On a best-first list, stopping at the first refusal loses no acceptable price. */
  lemma {:induction false} TakeCrossingAll(prices: seq<nat>, taker: Order)
    requires BestFirst(prices, taker.terms.side.Opposite())
    ensures BestFirst(TakeCrossing(prices, taker), taker.terms.side.Opposite())
    ensures forall p :: p in TakeCrossing(prices, taker) <==> p in prices && Crosses(taker, p)
  {
    if prices == [] {
    } else {
      TakeCrossingAll(prices[1..], taker);
      assert forall q :: q in prices <==> q == prices[0] || q in prices[1..];
      if Crosses(taker, prices[0]) {
        BestFirstCons(prices[0], TakeCrossing(prices[1..], taker), taker.terms.side.Opposite());
      }
    }
  }

  /** The crossing makers of `orders` at one of the given prices. */
  ghost function CrossingAt(orders: Orders, taker: Order, prices: seq<nat>): set<OrderId> {
    set id | id in CrossingIds(orders, taker) && orders[id].terms.price in prices
  }

  /** Appending the next level's queue keeps the flat list in priority order. */
  lemma LevelStep(orders: Orders, now: Orders, taker: Order, prices: seq<nat>, i: nat, q: seq<OrderId>)
    requires DistinctSequences(orders) && BestFirst(prices, taker.terms.side.Opposite()) && i < |prices|
    requires Crosses(taker, prices[i])
    requires now.Keys == orders.Keys && forall id :: id in orders ==> now[id].terms == orders[id].terms
    requires forall id :: id in orders && id !in CrossingAt(orders, taker, prices[..i]) ==> now[id] == orders[id]
    requires IsQueue(q, now, OpenIds(now), taker.terms.side.Opposite(), prices[i])
    ensures SortIds(CrossingAt(orders, taker, prices[..i]), orders) + q
            == SortIds(CrossingAt(orders, taker, prices[..i + 1]), orders)
  {
    var head := SortIds(CrossingAt(orders, taker, prices[..i]), orders);
    var all := SortIds(CrossingAt(orders, taker, prices[..i + 1]), orders);
    assert prices[..i + 1] == prices[..i] + [prices[i]];
    assert prices[i] !in prices[..i];
    forall id ensures id in head + q <==> id in all {
      if id in orders && orders[id].terms.price == prices[i] {
        assert id !in head;
      }
    }
    SortedConcat(head, q, orders);
    SortedUnique(head + q, all, orders);
  }

  lemma SortedConcat(head: seq<OrderId>, q: seq<OrderId>, orders: Orders)
    requires Sorted(head, orders) && Sorted(q, orders)
    requires forall a, b :: a in head && b in q ==> Before(orders[a], orders[b])
    ensures Sorted(head + q, orders)
  {
  }

  /** The flat list splits at any level. */
  lemma LevelSplit(orders: Orders, taker: Order, prices: seq<nat>, i: nat)
    requires DistinctSequences(orders) && BestFirst(prices, taker.terms.side.Opposite()) && i <= |prices|
    ensures SortIds(CrossingAt(orders, taker, prices[..i]), orders)
            + SortIds(CrossingAt(orders, taker, prices[i..]), orders)
            == SortIds(CrossingAt(orders, taker, prices), orders)
  {
    var head := SortIds(CrossingAt(orders, taker, prices[..i]), orders);
    var tail := SortIds(CrossingAt(orders, taker, prices[i..]), orders);
    assert prices == prices[..i] + prices[i..];
    forall a, b | a in head && b in tail ensures Before(orders[a], orders[b]) {
      var m :| 0 <= m < i && prices[..i][m] == orders[a].terms.price;
      var n :| 0 <= n < |prices| - i && prices[i..][n] == orders[b].terms.price;
      assert PriceKey(taker.terms.side.Opposite(), prices[m]) < PriceKey(taker.terms.side.Opposite(), prices[i + n]);
    }
    SortedConcat(head, tail, orders);
    SortedUnique(head + tail, SortIds(CrossingAt(orders, taker, prices), orders), orders);
  }

  lemma AllCrossing(book: OrderBook, taker: Order, prices: seq<nat>)
    requires book.Valid()
    requires forall p :: p in prices <==> p in book.Levels(taker.terms.side.Opposite()) && Crosses(taker, p)
    ensures CrossingAt(book.orders, taker, prices) == CrossingIds(book.orders, taker)
  {
  }

  lemma QueueAt(book: OrderBook, side: Side, price: nat)
    requires book.Valid()
    ensures IsQueue(book.OrdersAtPrice(price, side), book.orders, OpenIds(book.orders), side, price)
  {
  }

  /** One more level of the outer loop is one more piece of the flat list. */
  lemma WalkLevel(orders: Orders, now: Orders, taker: Order, prices: seq<nat>, i: nat, q: seq<OrderId>,
                  seqId: nat, nowMs: nat)
    requires DistinctSequences(orders) && BestFirst(prices, taker.terms.side.Opposite()) && i < |prices|
    requires Crosses(taker, prices[i])
    requires now == Walk(orders, taker, SortIds(CrossingAt(orders, taker, prices[..i]), orders), seqId, nowMs).orders
    requires IsQueue(q, now, OpenIds(now), taker.terms.side.Opposite(), prices[i])
    ensures var first := Walk(orders, taker, SortIds(CrossingAt(orders, taker, prices[..i]), orders), seqId, nowMs);
            var second := Walk(now, first.taker, q, seqId, nowMs);
            Walk(orders, taker, SortIds(CrossingAt(orders, taker, prices[..i + 1]), orders), seqId, nowMs)
            == second.(fills := first.fills + second.fills)
  {
    var head := SortIds(CrossingAt(orders, taker, prices[..i]), orders);
    WalkFrame(orders, taker, head, seqId, nowMs);
    LevelStep(orders, now, taker, prices, i, q);
    WalkConcat(orders, taker, head, q, seqId, nowMs);
  }

  /** When the outer loop stops early the unvisited levels would not have traded either. */
  lemma WalkStopsAtLevel(orders: Orders, taker: Order, prices: seq<nat>, i: nat, seqId: nat, nowMs: nat)
    requires DistinctSequences(orders) && BestFirst(prices, taker.terms.side.Opposite()) && i <= |prices|
    requires i == |prices|
          || Done(Walk(orders, taker, SortIds(CrossingAt(orders, taker, prices[..i]), orders), seqId, nowMs).taker)
    ensures Walk(orders, taker, SortIds(CrossingAt(orders, taker, prices[..i]), orders), seqId, nowMs)
         == Walk(orders, taker, SortIds(CrossingAt(orders, taker, prices), orders), seqId, nowMs)
  {
    if i == |prices| {
      assert prices[..i] == prices;
    } else {
      var head := SortIds(CrossingAt(orders, taker, prices[..i]), orders);
      var all := SortIds(CrossingAt(orders, taker, prices), orders);
      LevelSplit(orders, taker, prices, i);
      assert all[..|head|] == head;
      WalkStops(orders, taker, all, |head|, seqId, nowMs);
    }
  }

  /** `match_buy` and `match_sell`: the same loop over crossing levels, with the sides exchanged. */
  method MatchOrder(book: OrderBook, taker0: Order, seqId: nat, nowMs: nat)
    returns (taker: Order, fills: seq<Fill>)
    requires book.Valid() && Tradable(taker0) && !taker0.Closed()
    modifies book
    ensures book.Valid()
    ensures MatchResult(book.orders, taker, fills) == Match(old(book.orders), taker0, seqId, nowMs)
  {
    ghost var orders0 := book.orders;
    var makerSide := taker0.terms.side.Opposite();
    var prices := TakeCrossing(book.PricesBestFirst(makerSide), taker0);
    PriceListBestFirst(book.Levels(makerSide).Keys, makerSide);
    TakeCrossingAll(book.PricesBestFirst(makerSide), taker0);
    AllCrossing(book, taker0, prices);
    assert prices[..0] == [] && CrossingAt(orders0, taker0, []) == {};
    taker, fills := taker0, [];
    var i := 0;
    while i < |prices|
      invariant 0 <= i <= |prices|
      invariant book.Valid()
      invariant taker.status == CancelledStp || (Tradable(taker) && (taker.Closed() ==> taker.Remaining() == 0))
      invariant MatchResult(book.orders, taker, fills)
             == Walk(orders0, taker0, SortIds(CrossingAt(orders0, taker0, prices[..i]), orders0), seqId, nowMs)
    {
      if Done(taker) { break; }
      var q := book.OrdersAtPrice(prices[i], makerSide);
      QueueAt(book, makerSide, prices[i]);
      assert prices[i] in prices;
      WalkLevel(orders0, book.orders, taker0, prices, i, q, seqId, nowMs);
      taker, fills := MatchAtPriceLevel(book, taker, prices[i], makerSide, seqId, nowMs, fills);
      i := i + 1;
    }
    WalkStopsAtLevel(orders0, taker0, prices, i, seqId, nowMs);
  }
}
