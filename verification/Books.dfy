/** The order book of one market: src/engine/orderbook.rs. */
module Books {
  import opened Basics
  import opened Domain

  // ---- Price-time priority ------------------------------------------------------------------

  /** Priority key of a resting order: better price first, then earlier acceptance. */
  function PriceKey(side: Side, price: nat): int {
    if side == Sell then price else 0 - price
  }

  predicate Before(a: Order, b: Order) {
    var ka, kb := PriceKey(a.terms.side, a.terms.price), PriceKey(b.terms.side, b.terms.price);
    ka < kb || (ka == kb && a.terms.createdSequence < b.terms.createdSequence)
  }

  ghost predicate Sorted(ids: seq<OrderId>, orders: Orders) {
    && (forall id :: id in ids ==> id in orders)
    && (forall i, j :: 0 <= i < j < |ids| ==> Before(orders[ids[i]], orders[ids[j]]))
  }

  /** No two orders of a book were accepted under the same sequence number. */
  ghost predicate DistinctSequences(orders: Orders) {
    forall a, b | a in orders && b in orders && a != b ::
      orders[a].terms.createdSequence != orders[b].terms.createdSequence
  }

  ghost predicate IsFirst(x: OrderId, ids: set<OrderId>, orders: Orders)
    requires ids <= orders.Keys
  {
    x in ids && forall y | y in ids && y != x :: Before(orders[x], orders[y])
  }

  /** The ids of a set in priority order. */
  ghost function SortIds(ids: set<OrderId>, orders: Orders): (r: seq<OrderId>)
    requires ids <= orders.Keys && DistinctSequences(orders)
    ensures Sorted(r, orders)
    ensures forall id :: id in r <==> id in ids
  {
    if ids == {} then [] else
      FirstExists(ids, orders);
      var x :| IsFirst(x, ids, orders);
      [x] + SortIds(ids - {x}, orders)
  }

  lemma {:induction false} FirstExists(ids: set<OrderId>, orders: Orders)
    requires ids != {} && ids <= orders.Keys && DistinctSequences(orders)
    ensures exists x :: IsFirst(x, ids, orders)
  {
    var z :| z in ids;
    var rest := ids - {z};
    assert forall y | y in ids && y != z :: y in rest;
    if rest == {} {
      assert IsFirst(z, ids, orders);
    } else {
      FirstExists(rest, orders);
      var x :| IsFirst(x, rest, orders);
      assert IsFirst(if Before(orders[x], orders[z]) then x else z, ids, orders);
    }
  }

  /** Priority order leaves no choice: two sorted lists with the same members are the same list. */
  lemma {:induction false} SortedUnique(xs: seq<OrderId>, ys: seq<OrderId>, orders: Orders)
    requires Sorted(xs, orders) && Sorted(ys, orders)
    requires forall id :: id in xs <==> id in ys
    ensures xs == ys
  {
    assert xs != [] ==> xs[0] in xs;
    assert ys != [] ==> ys[0] in ys;
    if xs != [] && ys != [] {
      assert xs[0] in ys && ys[0] in xs;
      HeadFirst(xs, orders, ys[0]);
      HeadFirst(ys, orders, xs[0]);
      forall id ensures id in xs[1..] <==> id in ys[1..] {
        TailMembers(xs, orders, id);
        TailMembers(ys, orders, id);
      }
      SortedUnique(xs[1..], ys[1..], orders);
      assert xs == [xs[0]] + xs[1..] && ys == [ys[0]] + ys[1..];
    }
  }

  lemma HeadFirst(xs: seq<OrderId>, orders: Orders, id: OrderId)
    requires Sorted(xs, orders) && id in xs
    ensures id == xs[0] || Before(orders[xs[0]], orders[id])
  {
    var i :| 0 <= i < |xs| && xs[i] == id;
  }

  lemma TailMembers(xs: seq<OrderId>, orders: Orders, id: OrderId)
    requires xs != [] && Sorted(xs, orders)
    ensures id in xs[1..] <==> id in xs && id != xs[0]
  {
    if id in xs[1..] {
      var k :| 0 <= k < |xs[1..]| && xs[1..][k] == id;
      assert Before(orders[xs[0]], orders[xs[k + 1]]);
    }
    if id in xs && id != xs[0] {
      var k :| 0 <= k < |xs| && xs[k] == id;
      assert xs[1..][k - 1] == id;
    }
  }

  // ---- The representation invariant ---------------------------------------------------------

  /** `q` is the FIFO queue of one price level, holding exactly the orders of `live` there. */
  ghost predicate IsQueue(q: seq<OrderId>, orders: Orders, live: set<OrderId>, side: Side, price: nat) {
    && Sorted(q, orders)
    && (forall id :: id in q <==>
          id in live && id in orders && orders[id].terms.side == side && orders[id].terms.price == price)
  }

  /** One side of the book indexes exactly the orders of `live`, with no empty level. */
  ghost predicate Indexed(levels: map<nat, seq<OrderId>>, side: Side, orders: Orders, live: set<OrderId>) {
    && (forall p :: p in levels ==> levels[p] != [] && IsQueue(levels[p], orders, live, side, p))
    && (forall id :: id in live && id in orders && orders[id].terms.side == side
          ==> orders[id].terms.price in levels)
  }

  ghost function OpenIds(orders: Orders): set<OrderId> {
    set id | id in orders && !orders[id].Closed()
  }

  /** Every order is filed under its own id, never overfilled, and closed once it is full. */
  ghost predicate BookOk(orders: Orders) {
    && DistinctSequences(orders)
    && (forall id :: id in orders ==>
          && orders[id].terms.orderId == id
          && orders[id].filled <= orders[id].terms.size
          && (!orders[id].Closed() ==> orders[id].filled < orders[id].terms.size))
  }

  /** What a caller of `insert` promises: a new, open order accepted after everything in the book. */
  ghost predicate Appendable(orders: Orders, o: Order) {
    && o.terms.orderId !in orders
    && !o.Closed() && o.filled < o.terms.size
    && (forall id :: id in orders ==> orders[id].terms.createdSequence < o.terms.createdSequence)
  }

  /** `VecDeque::retain(|oid| oid != id)`. */
  function Without(q: seq<OrderId>, id: OrderId): (r: seq<OrderId>)
    ensures forall x :: x in r <==> x in q && x != id
  {
    if q == [] then [] else
      var rest := Without(q[1..], id);
      if q[0] == id then rest else [q[0]] + rest
  }

  lemma {:induction false} WithoutSorted(q: seq<OrderId>, id: OrderId, orders: Orders)
    requires Sorted(q, orders)
    ensures Sorted(Without(q, id), orders)
  {
    if q == [] {
    } else {
      WithoutSorted(q[1..], id, orders);
      var rest := Without(q[1..], id);
      forall k | 0 <= k < |rest| ensures Before(orders[q[0]], orders[rest[k]]) {
        assert rest[k] in q[1..];
      }
    }
  }

  lemma QueueAppend(q: seq<OrderId>, orders: Orders, side: Side, price: nat, o: Order)
    requires BookOk(orders) && Appendable(orders, o)
    requires IsQueue(q, orders, OpenIds(orders), side, price)
    ensures var after := orders[o.terms.orderId := o];
            IsQueue(if o.terms.side == side && o.terms.price == price then q + [o.terms.orderId] else q,
                    after, OpenIds(after), side, price)
  {
  }

  lemma QueueRemove(q: seq<OrderId>, orders: Orders, live: set<OrderId>, side: Side, price: nat, id: OrderId)
    requires IsQueue(q, orders, live, side, price)
    ensures IsQueue(Without(q, id), orders, live - {id}, side, price)
  {
    WithoutSorted(q, id, orders);
  }

  /** Changing one order's fill state moves no queue as long as the indexed set is the same. */
  lemma IndexedUpdate(levels: map<nat, seq<OrderId>>, side: Side, orders: Orders, live: set<OrderId>,
                      id: OrderId, o: Order)
    requires Indexed(levels, side, orders, live)
    requires id in orders && o.terms == orders[id].terms
    ensures Indexed(levels, side, orders[id := o], live)
  {
  }

  /** An index of some orders is no index of more. */
  lemma NotQueued(levels: map<nat, seq<OrderId>>, side: Side, orders: Orders, live: set<OrderId>, id: OrderId)
    requires Indexed(levels, side, orders, live) && id in orders && id !in live && !orders[id].Closed()
    requires orders[id].terms.side == side
    ensures !Indexed(levels, side, orders, OpenIds(orders))
  {
    assert id in OpenIds(orders);
  }

  // ---- Price lists --------------------------------------------------------------------------

  /** Prices strictly from best to worst as seen by a taker of the other side. */
  ghost predicate BestFirst(prices: seq<nat>, side: Side) {
    forall i, j :: 0 <= i < j < |prices| ==> PriceKey(side, prices[i]) < PriceKey(side, prices[j])
  }

  predicate IsBest(p: nat, keys: set<nat>, side: Side) {
    p in keys && forall q :: q in keys ==> PriceKey(side, p) <= PriceKey(side, q)
  }

  lemma {:induction false} BestExists(keys: set<nat>, side: Side)
    requires keys != {}
    ensures exists p :: IsBest(p, keys, side)
  {
    var z :| z in keys;
    var rest := keys - {z};
    assert forall q | q in keys && q != z :: q in rest;
    if rest == {} {
      assert IsBest(z, keys, side);
    } else {
      BestExists(rest, side);
      var p :| IsBest(p, rest, side);
      assert IsBest(if PriceKey(side, p) <= PriceKey(side, z) then p else z, keys, side);
    }
  }

  /** `ask_prices_asc` for the sell side, `bid_prices_desc` for the buy side. */
  function PriceList(keys: set<nat>, side: Side): (r: seq<nat>)
    ensures forall p :: p in r <==> p in keys
    decreases |keys|
  {
    if keys == {} then [] else
      BestExists(keys, side);
      var p :| IsBest(p, keys, side);
      [p] + PriceList(keys - {p}, side)
  }

  lemma {:induction false} PriceListBestFirst(keys: set<nat>, side: Side)
    ensures BestFirst(PriceList(keys, side), side)
    decreases |keys|
  {
    if keys == {} {
    } else {
      BestExists(keys, side);
      var p :| IsBest(p, keys, side);
      var rest := PriceList(keys - {p}, side);
      PriceListBestFirst(keys - {p}, side);
      BestFirstCons(p, rest, side);
      assert PriceList(keys, side) == [p] + rest;
    }
  }

  lemma BestFirstCons(p: nat, rest: seq<nat>, side: Side)
    requires BestFirst(rest, side)
    requires forall q :: q in rest ==> q != p && PriceKey(side, p) <= PriceKey(side, q)
    ensures BestFirst([p] + rest, side)
  {
    var r := [p] + rest;
    forall i, j | 0 <= i < j < |r| ensures PriceKey(side, r[i]) < PriceKey(side, r[j]) {
      assert r[j] == rest[j - 1] && rest[j - 1] in rest;
    }
  }

  // ---- Level-2 depth ------------------------------------------------------------------------

  datatype PriceLevel = PriceLevel(price: nat, totalQty: int, orderCount: nat)

  function QueueQty(q: seq<OrderId>, orders: Orders): int {
    if q == [] then 0
    else (if q[0] in orders then orders[q[0]].Remaining() else 0) + QueueQty(q[1..], orders)
  }

  /** One row per price level: the price, the open quantity and the number of orders. */
  function LevelRows(prices: seq<nat>, levels: map<nat, seq<OrderId>>, orders: Orders): (r: seq<PriceLevel>)
    ensures |r| == |prices|
  {
    if prices == [] then [] else
      var q := Lookup(levels, prices[0], []);
      [PriceLevel(prices[0], QueueQty(q, orders), |q|)] + LevelRows(prices[1..], levels, orders)
  }

  // ---- The class ----------------------------------------------------------------------------

  class OrderBook {
    var bids: map<nat, seq<OrderId>>
    var asks: map<nat, seq<OrderId>>
    var orders: Orders

    ghost predicate Valid()
      reads this
    {
      && BookOk(orders)
      && Indexed(bids, Buy, orders, OpenIds(orders))
      && Indexed(asks, Sell, orders, OpenIds(orders))
    }

    constructor ()
      ensures Valid() && orders == map[]
    {
      bids, asks, orders := map[], map[], map[];
    }

    function Levels(side: Side): map<nat, seq<OrderId>>
      reads this
    {
      if side == Buy then bids else asks
    }

    function PricesBestFirst(side: Side): (r: seq<nat>)
      reads this
    {
      PriceList(Levels(side).Keys, side)
    }

    function OrdersAtPrice(price: nat, side: Side): seq<OrderId>
      reads this
    {
      Lookup(Levels(side), price, [])
    }

    /** `l2_bids` and `l2_asks`: the best `depth` levels. */
    function L2(side: Side, depth: nat): seq<PriceLevel>
      reads this
    {
      var prices := PricesBestFirst(side);
      LevelRows(if depth < |prices| then prices[..depth] else prices, Levels(side), orders)
    }

    /** Files the order and pushes it to the back of its level; the index survives if it is newest. */
    method Insert(order: Order)
      modifies this
      ensures orders == old(orders)[order.terms.orderId := order]
      ensures old(Valid()) && Appendable(old(orders), order) ==> Valid()
    {
      ghost var before, was := orders, [bids, asks];
      var id := order.terms.orderId;
      orders := orders[id := order];
      if order.terms.side == Buy {
        bids := bids[order.terms.price := Lookup(bids, order.terms.price, []) + [id]];
      } else {
        asks := asks[order.terms.price := Lookup(asks, order.terms.price, []) + [id]];
      }
      if old(Valid()) && Appendable(before, order) {
        InsertIndexed(was[0], Buy, before, order);
        InsertIndexed(was[1], Sell, before, order);
      }
    }

    /**
     * Gives an open order a status and takes it out of its queue; anything else is left alone. The book stays
     * well formed exactly when the status is a closed one, as every caller's is.
     */
    method CancelWithStatus(id: OrderId, status: OrderStatus) returns (done: bool)
      requires Valid()
      modifies this
      ensures Valid() <==> !done || status == Filled || status == Cancelled || status == CancelledStp
      ensures done <==> id in old(orders) && !old(orders)[id].Closed()
      ensures orders == if done then old(orders)[id := old(orders)[id].(status := status)] else old(orders)
    {
      if id !in orders { return false; }
      if orders[id].Closed() { return false; }
      ghost var live := OpenIds(orders);
      var order := orders[id].(status := status);
      IndexedUpdate(bids, Buy, orders, live, id, order);
      IndexedUpdate(asks, Sell, orders, live, id, order);
      orders := orders[id := order];
      RemoveFromQueue(id, live);
      if order.Closed() {
        assert OpenIds(orders) == live - {id};
      } else {
        assert id in OpenIds(orders);
        NotQueued(Levels(order.terms.side), order.terms.side, orders, live - {id}, id);
      }
      return true;
    }

    /** Takes one id out of the queues; a level that becomes empty disappears. */
    method RemoveFromQueue(id: OrderId, ghost live: set<OrderId>)
      requires Indexed(bids, Buy, orders, live) && Indexed(asks, Sell, orders, live)
      modifies this`bids, this`asks
      ensures Indexed(bids, Buy, orders, live - {id}) && Indexed(asks, Sell, orders, live - {id})
    {
      if id !in orders { return; }
      var price := orders[id].terms.price;
      if orders[id].terms.side == Buy {
        if price in bids {
          RemoveIndexed(bids, Buy, orders, live, id);
          var q := Without(bids[price], id);
          bids := if q == [] then bids - {price} else bids[price := q];
        }
      } else {
        if price in asks {
          RemoveIndexed(asks, Sell, orders, live, id);
          var q := Without(asks[price], id);
          asks := if q == [] then asks - {price} else asks[price := q];
        }
      }
    }
  }

  /** The levels after an insert index the enlarged book. */
  lemma InsertIndexed(levels: map<nat, seq<OrderId>>, side: Side, orders: Orders, o: Order)
    requires BookOk(orders) && Appendable(orders, o)
    requires Indexed(levels, side, orders, OpenIds(orders))
    ensures var after := orders[o.terms.orderId := o];
            var p := o.terms.price;
            Indexed(if o.terms.side == side then levels[p := Lookup(levels, p, []) + [o.terms.orderId]] else levels,
                    side, after, OpenIds(after))
  {
    var p := o.terms.price;
    if p !in levels { assert IsQueue([], orders, OpenIds(orders), side, p); }
    QueueAppend(Lookup(levels, p, []), orders, side, p, o);
    forall q | q in levels && q != p
      ensures IsQueue(levels[q], orders[o.terms.orderId := o], OpenIds(orders[o.terms.orderId := o]), side, q)
    {
      QueueAppend(levels[q], orders, side, q, o);
    }
  }

  /** The levels after a removal index the smaller set. */
  lemma RemoveIndexed(levels: map<nat, seq<OrderId>>, side: Side, orders: Orders, live: set<OrderId>, id: OrderId)
    requires Indexed(levels, side, orders, live)
    requires id in orders && orders[id].terms.side == side && orders[id].terms.price in levels
    ensures var p := orders[id].terms.price;
            var q := Without(levels[p], id);
            Indexed(if q == [] then levels - {p} else levels[p := q], side, orders, live - {id})
  {
    var p := orders[id].terms.price;
    QueueRemove(levels[p], orders, live, side, p, id);
    var q := Without(levels[p], id);
    var after := if q == [] then levels - {p} else levels[p := q];
    forall x | x in live - {id} && x in orders && orders[x].terms.side == side
      ensures orders[x].terms.price in after
    {
      if orders[x].terms.price == p { assert x in q; }
    }
  }
}
