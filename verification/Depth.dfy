/** Level-2 depth, best prices, and the queues as functions of the open orders. */
module Depth {
  import opened Basics
  import opened Domain
  import opened Books
  import opened Matching
  import opened MatchTheory
  import opened Live
  import opened Restart

  // ---- Queues are determined by the open orders ------------------------------------------------------

  lemma TwinQueue(p: seq<OrderId>, a: Orders, q: seq<OrderId>, b: Orders, side: Side, price: nat)
    requires TwinBook(a, b)
    requires IsQueue(p, a, OpenIds(a), side, price) && IsQueue(q, b, OpenIds(b), side, price)
    ensures p == q
  {
    assert Sorted(q, a);
    SortedUnique(p, q, a);
  }

  lemma TwinLevels(x: map<nat, seq<OrderId>>, a: Orders, y: map<nat, seq<OrderId>>, b: Orders, side: Side)
    requires TwinBook(a, b) && Indexed(x, side, a, OpenIds(a)) && Indexed(y, side, b, OpenIds(b))
    ensures x == y
  {
    forall p | p in x ensures p in y {
      assert x[p][0] in x[p];
    }
    forall p | p in y ensures p in x {
      assert y[p][0] in y[p];
    }
    forall p | p in x && p in y ensures x[p] == y[p] {
      TwinQueue(x[p], a, y[p], b, side, p);
    }
  }

  /**
   * Two valid books with the same open orders have the same price levels and the same FIFO queue at each:
   * however replay enumerates its orders, the rebuilt queues are the live ones.
   */
  lemma QueuesRebuilt(live: OrderBook, rebuilt: OrderBook)
    requires live.Valid() && rebuilt.Valid() && TwinBook(live.orders, rebuilt.orders)
    ensures live.bids == rebuilt.bids && live.asks == rebuilt.asks
  {
    TwinLevels(live.bids, live.orders, rebuilt.bids, rebuilt.orders, Buy);
    TwinLevels(live.asks, live.orders, rebuilt.asks, rebuilt.orders, Sell);
  }

  // ---- Best prices ------------------------------------------------------------------------------------

  function BestOf(book: OrderBook, side: Side): Option<nat>
    reads book
  {
    var prices := book.PricesBestFirst(side);
    if prices == [] then None else Some(prices[0])
  }

  /** The best price of a side is that of an open order, and no open order there has a better one. */
  lemma BestIsBest(book: OrderBook, side: Side)
    requires book.Valid()
    ensures BestOf(book, side).None? ==>
              forall id :: id in OpenIds(book.orders) ==> book.orders[id].terms.side != side
    ensures BestOf(book, side).Some? ==>
              && (exists id :: id in OpenIds(book.orders) && book.orders[id].terms.side == side
                    && book.orders[id].terms.price == BestOf(book, side).value)
              && (forall id :: id in OpenIds(book.orders) && book.orders[id].terms.side == side ==>
                    PriceKey(side, BestOf(book, side).value) <= PriceKey(side, book.orders[id].terms.price))
  {
    var prices := book.PricesBestFirst(side);
    PriceListBestFirst(book.Levels(side).Keys, side);
    if prices != [] {
      var q := book.Levels(side)[prices[0]];
      assert prices[0] in prices && q[0] in q;
    }
    forall id | id in OpenIds(book.orders) && book.orders[id].terms.side == side
      ensures book.orders[id].terms.price in prices
      ensures prices != [] && PriceKey(side, prices[0]) <= PriceKey(side, book.orders[id].terms.price)
    {
      var j :| 0 <= j < |prices| && prices[j] == book.orders[id].terms.price;
      assert j == 0 || PriceKey(side, prices[0]) < PriceKey(side, prices[j]);
    }
  }

  /** In a book that is not crossed the best bid is below the best ask. */
  lemma BestBidBelowBestAsk(book: OrderBook)
    requires book.Valid() && Uncrossed(book.orders)
    ensures BestOf(book, Buy).Some? && BestOf(book, Sell).Some? ==> BestOf(book, Buy).value < BestOf(book, Sell).value
  {
    BestIsBest(book, Buy);
    BestIsBest(book, Sell);
  }

  // ---- Depth as a sum over open orders -----------------------------------------------------------------

  ghost function SumRemaining(ids: set<OrderId>, orders: Orders): int
    requires ids <= orders.Keys
  {
    if ids == {} then 0 else
      var x :| x in ids;
      orders[x].Remaining() + SumRemaining(ids - {x}, orders)
  }

  lemma {:induction false} SumRemove(ids: set<OrderId>, orders: Orders, y: OrderId)
    requires ids <= orders.Keys && y in ids
    ensures SumRemaining(ids, orders) == orders[y].Remaining() + SumRemaining(ids - {y}, orders)
  {
    var x :| x in ids && SumRemaining(ids, orders) == orders[x].Remaining() + SumRemaining(ids - {x}, orders);
    if x != y {
      SumRemove(ids - {x}, orders, y);
      SumRemove(ids - {y}, orders, x);
      assert ids - {x} - {y} == ids - {y} - {x};
    }
  }

  lemma {:induction false} SumSame(ids: set<OrderId>, a: Orders, b: Orders)
    requires ids <= a.Keys && ids <= b.Keys
    requires forall id :: id in ids ==> a[id].Remaining() == b[id].Remaining()
    ensures SumRemaining(ids, a) == SumRemaining(ids, b)
  {
    if ids == {} {
    } else {
      var x :| x in ids;
      SumRemove(ids, a, x);
      SumRemove(ids, b, x);
      SumSame(ids - {x}, a, b);
    }
  }

  ghost function OpenOn(orders: Orders, side: Side): set<OrderId> {
    set id | id in orders && !orders[id].Closed() && orders[id].terms.side == side
  }

  /** The total quantity resting on one side. */
  ghost function SideDepth(orders: Orders, side: Side): int {
    SumRemaining(OpenOn(orders, side), orders)
  }

  /** One trade takes exactly its quantity off the maker's side and nothing off the other. */
  lemma TradeDepth(orders: Orders, id: OrderId, qty: nat, seqId: nat, side: Side)
    requires BookOk(orders) && id in orders && !orders[id].Closed() && qty <= orders[id].Remaining()
    ensures var after := orders[id := ApplyQty(orders[id], qty, seqId)];
            SideDepth(after, side) == SideDepth(orders, side) - (if orders[id].terms.side == side then qty else 0)
  {
    var after := orders[id := ApplyQty(orders[id], qty, seqId)];
    var s, t := OpenOn(orders, side), OpenOn(after, side);
    if orders[id].terms.side == side {
      assert s - {id} == t - {id};
      SumRemove(s, orders, id);
      SumSame(s - {id}, orders, after);
      if id in t {
        SumRemove(t, after, id);
      } else {
        assert t - {id} == t;
      }
    } else {
      assert s == t;
      SumSame(s, orders, after);
    }
  }

  lemma {:induction false} WalkDepth(orders: Orders, taker: Order, ids: seq<OrderId>, seqId: nat, nowMs: nat,
                                     side: Side)
    requires WalkInput(orders, taker, ids)
    requires forall id :: id in ids ==> orders[id].terms.side == taker.terms.side.Opposite()
    ensures var r := Walk(orders, taker, ids, seqId, nowMs);
            SideDepth(r.orders, side) == SideDepth(orders, side)
              - (if side == taker.terms.side then 0 else TotalSize(r.fills))
    decreases |ids|
  {
    if !Trades(orders, taker, ids) {
    } else {
      var (orders', taker') := AfterFirst(orders, taker, ids, seqId);
      WalkInputNext(orders, taker, ids, seqId);
      WalkUnfold(orders, taker, ids, seqId, nowMs);
      TradeDepth(orders, ids[0], FillQty(taker, orders[ids[0]]), seqId, side);
      WalkDepth(orders', taker', ids[1..], seqId, nowMs, side);
      var rest := Walk(orders', taker', ids[1..], seqId, nowMs).fills;
      assert Walk(orders, taker, ids, seqId, nowMs).fills[1..] == rest;
    }
  }

  lemma AddDepth(orders: Orders, o: Order, side: Side)
    requires o.terms.orderId !in orders && !o.Closed()
    ensures SideDepth(orders[o.terms.orderId := o], side)
         == SideDepth(orders, side) + (if o.terms.side == side then o.Remaining() else 0)
  {
    var after := orders[o.terms.orderId := o];
    var s, t := OpenOn(orders, side), OpenOn(after, side);
    if o.terms.side == side {
      SumRemove(t, after, o.terms.orderId);
      assert t - {o.terms.orderId} == s;
    } else {
      assert t == s;
    }
    SumSame(s, orders, after);
  }

  /**
   * A match takes exactly the traded quantity off the maker side; the taker side grows by exactly what
   * rests: the unfilled remainder, or nothing if the taker is full or was cancelled.
   */
  lemma DepthConserved(orders: Orders, taker: Order, seqId: nat, nowMs: nat)
    requires BookOk(orders) && Arriving(taker) && taker.terms.orderId !in orders
    ensures var m := Match(orders, taker, seqId, nowMs);
            var after := AfterMatch(m);
            var residual := if m.taker.Closed() then 0 else taker.terms.size - TotalSize(m.fills);
            && SideDepth(after, taker.terms.side.Opposite())
               == SideDepth(orders, taker.terms.side.Opposite()) - TotalSize(m.fills)
            && SideDepth(after, taker.terms.side) == SideDepth(orders, taker.terms.side) + residual
  {
    var m := Match(orders, taker, seqId, nowMs);
    var makers := Makers(orders, taker);
    MakersAreMakers(orders, taker);
    WalkDepth(orders, taker, makers, seqId, nowMs, Buy);
    WalkDepth(orders, taker, makers, seqId, nowMs, Sell);
    WalkFrame(orders, taker, makers, seqId, nowMs);
    WalkTotals(orders, taker, makers, seqId, nowMs);
    if !m.taker.Closed() {
      WalkTradable(orders, taker, makers, seqId, nowMs);
      AddDepth(m.orders, m.taker, Buy);
      AddDepth(m.orders, m.taker, Sell);
    }
  }

  // ---- The L2 snapshot ----------------------------------------------------------------------------------

  function RowsTotal(rows: seq<PriceLevel>): int {
    if rows == [] then 0 else rows[0].totalQty + RowsTotal(rows[1..])
  }

  lemma {:induction false} SumUnion(a: set<OrderId>, b: set<OrderId>, orders: Orders)
    requires a <= orders.Keys && b <= orders.Keys && a !! b
    ensures SumRemaining(a + b, orders) == SumRemaining(a, orders) + SumRemaining(b, orders)
  {
    if a == {} {
      assert a + b == b;
    } else {
      var x :| x in a;
      SumRemove(a, orders, x);
      SumRemove(a + b, orders, x);
      assert a + b - {x} == (a - {x}) + b;
      SumUnion(a - {x}, b, orders);
    }
  }

  lemma {:induction false} QueueSum(q: seq<OrderId>, orders: Orders, ids: set<OrderId>)
    requires Sorted(q, orders) && ids <= orders.Keys && forall id :: id in q <==> id in ids
    ensures QueueQty(q, orders) == SumRemaining(ids, orders)
    decreases |q|
  {
    if q == [] {
      assert ids == {};
    } else {
      assert q[0] in q;
      forall id ensures id in q[1..] <==> id in ids - {q[0]} {
        TailMembers(q, orders, id);
      }
      SumRemove(ids, orders, q[0]);
      QueueSum(q[1..], orders, ids - {q[0]});
    }
  }

  ghost function OpenAt(orders: Orders, side: Side, prices: seq<nat>): set<OrderId> {
    set id | id in OpenOn(orders, side) && orders[id].terms.price in prices
  }

  lemma {:induction false} RowsSum(prices: seq<nat>, levels: map<nat, seq<OrderId>>, orders: Orders, side: Side)
    requires Indexed(levels, side, orders, OpenIds(orders)) && BestFirst(prices, side)
    requires forall p :: p in prices ==> p in levels
    ensures RowsTotal(LevelRows(prices, levels, orders)) == SumRemaining(OpenAt(orders, side, prices), orders)
    decreases |prices|
  {
    var rows := LevelRows(prices, levels, orders);
    if prices == [] {
      assert OpenAt(orders, side, prices) == {};
    } else {
      var p, rest := prices[0], prices[1..];
      assert p in prices;
      var here := OpenAt(orders, side, [p]);
      QueueSum(levels[p], orders, here);
      RowsSum(rest, levels, orders, side);
      assert forall q :: q in prices <==> q == p || q in rest;
      assert p !in rest;
      assert OpenAt(orders, side, prices) == here + OpenAt(orders, side, rest);
      SumUnion(here, OpenAt(orders, side, rest), orders);
      assert rows[1..] == LevelRows(rest, levels, orders);
    }
  }

  lemma {:induction false} RowsAt(prices: seq<nat>, levels: map<nat, seq<OrderId>>, orders: Orders, i: nat)
    requires i < |prices|
    ensures var q := Lookup(levels, prices[i], []);
            LevelRows(prices, levels, orders)[i] == PriceLevel(prices[i], QueueQty(q, orders), |q|)
    decreases |prices|
  {
    if i > 0 { RowsAt(prices[1..], levels, orders, i - 1); }
  }

  /** The full L2 snapshot lists strictly ordered prices, no empty level, and sums to the side's depth. */
  lemma FullSnapshot(book: OrderBook, side: Side, depth: nat)
    requires book.Valid() && depth >= |book.PricesBestFirst(side)|
    ensures var rows := book.L2(side, depth);
            && RowsTotal(rows) == SideDepth(book.orders, side)
            && (forall i, j :: 0 <= i < j < |rows| ==> PriceKey(side, rows[i].price) < PriceKey(side, rows[j].price))
            && (forall i :: 0 <= i < |rows| ==> rows[i].orderCount > 0)
  {
    var prices := book.PricesBestFirst(side);
    var levels := book.Levels(side);
    PriceListBestFirst(levels.Keys, side);
    RowsSum(prices, levels, book.orders, side);
    assert OpenAt(book.orders, side, prices) == OpenOn(book.orders, side);
    forall i | 0 <= i < |prices|
      ensures book.L2(side, depth)[i].price == prices[i] && book.L2(side, depth)[i].orderCount > 0
    {
      RowsAt(prices, levels, book.orders, i);
      assert prices[i] in prices;
    }
  }

  // ---- What a snapshot of any depth shows ---------------------------------------------------------------

  predicate Better(side: Side, p: nat, q: nat) {
    if side == Buy then p > q else p < q
  }

  ghost predicate BestRowFirst(rows: seq<PriceLevel>, side: Side) {
    forall i, j :: 0 <= i < j < |rows| ==> Better(side, rows[i].price, rows[j].price)
  }

  ghost predicate Occupied(orders: Orders, side: Side, price: nat) {
    exists id :: id in OpenOn(orders, side) && orders[id].terms.price == price
  }

  /** A row names a price someone rests at, with the quantity and the number of the open orders there. */
  ghost predicate RowShows(row: PriceLevel, orders: Orders, side: Side) {
    var here := OpenAt(orders, side, [row.price]);
    Occupied(orders, side, row.price) && row.totalQty == SumRemaining(here, orders) && row.orderCount == |here|
  }

  /** The price has a row, or `depth` rows show better prices. */
  ghost predicate PriceShown(rows: seq<PriceLevel>, side: Side, depth: nat, price: nat) {
    || (exists i :: 0 <= i < |rows| && rows[i].price == price)
    || (|rows| == depth && forall i :: 0 <= i < |rows| ==> Better(side, rows[i].price, price))
  }

  /** The best `depth` levels of the open orders: at most that many rows, best first, and no price left out. */
  ghost predicate IsSnapshot(rows: seq<PriceLevel>, orders: Orders, side: Side, depth: nat) {
    && |rows| <= depth
    && BestRowFirst(rows, side)
    && (forall i {:trigger RowShows(rows[i], orders, side)} :: 0 <= i < |rows| ==> RowShows(rows[i], orders, side))
    && (forall price :: Occupied(orders, side, price) ==> PriceShown(rows, side, depth, price))
  }

  lemma RowsPrefix(prices: seq<nat>, levels: map<nat, seq<OrderId>>, orders: Orders, n: nat)
    requires n <= |prices|
    ensures LevelRows(prices[..n], levels, orders) == LevelRows(prices, levels, orders)[..n]
  {
    forall i | 0 <= i < n
      ensures LevelRows(prices[..n], levels, orders)[i] == LevelRows(prices, levels, orders)[i]
    {
      RowsAt(prices, levels, orders, i);
      RowsAt(prices[..n], levels, orders, i);
    }
  }

  lemma RowIsLevel(prices: seq<nat>, levels: map<nat, seq<OrderId>>, orders: Orders, side: Side, i: nat)
    requires Indexed(levels, side, orders, OpenIds(orders)) && i < |prices| && prices[i] in levels
    ensures var row := LevelRows(prices, levels, orders)[i];
            row.price == prices[i] && RowShows(row, orders, side)
  {
    var q := levels[prices[i]];
    var here := OpenAt(orders, side, [prices[i]]);
    RowsAt(prices, levels, orders, i);
    assert q[0] in q;
    assert forall id :: id in q <==> id in here;
    assert q[0] in OpenOn(orders, side);
    QueueSum(q, orders, here);
    QueueCount(q, orders, here);
  }

  lemma {:induction false} QueueCount(q: seq<OrderId>, orders: Orders, ids: set<OrderId>)
    requires Sorted(q, orders) && forall id :: id in q <==> id in ids
    ensures |q| == |ids|
    decreases |q|
  {
    if q == [] {
      assert ids == {};
    } else {
      assert q[0] in q;
      forall id ensures id in q[1..] <==> id in ids - {q[0]} {
        TailMembers(q, orders, id);
      }
      QueueCount(q[1..], orders, ids - {q[0]});
    }
  }

  lemma PricesShown(prices: seq<nat>, rows: seq<PriceLevel>, side: Side, depth: nat, price: nat)
    requires BestFirst(prices, side) && price in prices
    requires |rows| == if depth < |prices| then depth else |prices|
    requires forall i :: 0 <= i < |rows| ==> rows[i].price == prices[i]
    ensures PriceShown(rows, side, depth, price)
  {
    var k :| 0 <= k < |prices| && prices[k] == price;
    if k < |rows| {
      assert rows[k].price == price;
    } else {
      forall i | 0 <= i < |rows| ensures Better(side, rows[i].price, price) {
        assert PriceKey(side, prices[i]) < PriceKey(side, prices[k]);
      }
    }
  }

  /** Rows that agree before row `i`: the other list has a row there, and no better one. */
  lemma NextPrice(a: seq<PriceLevel>, b: seq<PriceLevel>, side: Side, depth: nat, i: nat)
    requires BestRowFirst(a, side) && BestRowFirst(b, side) && |a| <= depth
    requires i < |a| && i <= |b| && forall j :: 0 <= j < i ==> a[j] == b[j]
    requires PriceShown(b, side, depth, a[i].price) && (i < |b| ==> PriceShown(a, side, depth, b[i].price))
    ensures i < |b| && !Better(side, b[i].price, a[i].price)
  {
  }

  lemma SameRow(a: PriceLevel, b: PriceLevel, orders: Orders, side: Side)
    requires RowShows(a, orders, side) && RowShows(b, orders, side)
    requires !Better(side, a.price, b.price) && !Better(side, b.price, a.price)
    ensures a == b
  {
    assert a.price == b.price;
  }

  /** Two snapshots that agree before row `i` agree at it. */
  lemma NextRow(a: seq<PriceLevel>, b: seq<PriceLevel>, orders: Orders, side: Side, depth: nat, i: nat)
    requires IsSnapshot(a, orders, side, depth) && IsSnapshot(b, orders, side, depth)
    requires i < |a| && i <= |b| && forall j :: 0 <= j < i ==> a[j] == b[j]
    ensures i < |b| && a[i] == b[i]
  {
    assert RowShows(a[i], orders, side) && (i < |b| ==> RowShows(b[i], orders, side));
    NextPrice(a, b, side, depth, i);
    NextPrice(b, a, side, depth, i);
    SameRow(a[i], b[i], orders, side);
  }

  lemma {:induction false} SnapshotPrefixes(a: seq<PriceLevel>, b: seq<PriceLevel>, orders: Orders, side: Side,
                                            depth: nat, i: nat)
    requires IsSnapshot(a, orders, side, depth) && IsSnapshot(b, orders, side, depth) && i <= |a|
    ensures i <= |b| && forall j :: 0 <= j < i ==> a[j] == b[j]
  {
    if i == 0 {
    } else {
      SnapshotPrefixes(a, b, orders, side, depth, i - 1);
      NextRow(a, b, orders, side, depth, i - 1);
    }
  }

  /**
   * A snapshot of any depth is the one sequence of rows that shows the best levels of the open orders, and the
   * first rows of the full one.
   */
  lemma SnapshotExact(book: OrderBook, side: Side, depth: nat, rows: seq<PriceLevel>)
    requires book.Valid()
    ensures rows == book.L2(side, depth) <==> IsSnapshot(rows, book.orders, side, depth)
    ensures var full := book.L2(side, |book.PricesBestFirst(side)|);
            book.L2(side, depth) == if depth < |full| then full[..depth] else full
  {
    SnapshotShows(book, side, depth);
    var prices := book.PricesBestFirst(side);
    if depth < |prices| { RowsPrefix(prices, book.Levels(side), book.orders, depth); }
    if IsSnapshot(rows, book.orders, side, depth) {
      var shown := book.L2(side, depth);
      SnapshotPrefixes(rows, shown, book.orders, side, depth, |rows|);
      SnapshotPrefixes(shown, rows, book.orders, side, depth, |shown|);
      assert rows == shown;
    }
  }

  lemma SnapshotShows(book: OrderBook, side: Side, depth: nat)
    requires book.Valid()
    ensures IsSnapshot(book.L2(side, depth), book.orders, side, depth)
  {
    var prices, levels, rows := book.PricesBestFirst(side), book.Levels(side), book.L2(side, depth);
    var shown := if depth < |prices| then prices[..depth] else prices;
    PriceListBestFirst(levels.Keys, side);
    forall i | 0 <= i < |rows|
      ensures rows[i].price == prices[i] && RowShows(rows[i], book.orders, side)
    {
      assert prices[i] in prices;
      RowIsLevel(shown, levels, book.orders, side, i);
    }
    forall i, j | 0 <= i < j < |rows| ensures Better(side, rows[i].price, rows[j].price) {
      assert PriceKey(side, prices[i]) < PriceKey(side, prices[j]);
    }
    forall price | Occupied(book.orders, side, price) ensures PriceShown(rows, side, depth, price) {
      PricesShown(prices, rows, side, depth, price);
    }
  }
}
