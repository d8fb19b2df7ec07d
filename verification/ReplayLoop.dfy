/** `replay` itself: one loop over the events, then one over the orders left open. */
module ReplayLoop {
  import opened Basics
  import opened Domain
  import opened Books
  import opened Store
  import opened Replaying
  import opened EngineSpec

  datatype ReplayResult = ReplayResult(
    books: map<MarketId, OrderBook>,
    state: StateStore,
    lastSeqId: nat,
    eventCount: nat)

  // ---- Books as a heap structure ---------------------------------------------------------------

  function Objects(books: map<MarketId, OrderBook>): set<OrderBook> {
    set m | m in books :: books[m]
  }

  /** Each market owns its book. */
  ghost predicate Separate(books: map<MarketId, OrderBook>) {
    forall m, n :: m in books && n in books && m != n ==> books[m] != books[n]
  }

  function BooksView(books: map<MarketId, OrderBook>): map<MarketId, Orders>
    reads Objects(books)
  {
    map m | m in books :: books[m].orders
  }

  // ---- The event loop --------------------------------------------------------------------------

  ghost predicate KeyedById(orders: Orders) {
    forall id :: id in orders ==> orders[id].terms.orderId == id
  }

  lemma FoldOne(w: Working, events: seq<SequencedEvent>, i: nat)
    requires i < |events|
    ensures Fold(w, events[i..]) == match ApplyEvent(w, events[i])
                                    case Err(e) => Err(e)
                                    case Ok(next) => Fold(next, events[i + 1..])
  {
    assert events[i..][0] == events[i] && events[i..][1..] == events[i + 1..];
  }

  /** One fill on the working orders; an unknown side aborts the replay. */
  method ApplyFillEvent(orders0: Orders, f: Fill, seqId: nat) returns (r: Result<Orders, ReplayError>)
    ensures r == ReplayFill(orders0, f, seqId)
  {
    var orders := orders0;
    if f.takerOrderId !in orders { return Err(UnknownOrder(f.takerOrderId)); }
    var taker := orders[f.takerOrderId];
    taker := taker.(filled := taker.filled + f.size, lastUpdate := seqId);
    taker := taker.(status := if taker.filled >= taker.terms.size then Filled else PartiallyFilled);
    orders := orders[f.takerOrderId := taker];
    if f.makerOrderId !in orders { return Err(UnknownOrder(f.makerOrderId)); }
    var maker := orders[f.makerOrderId];
    maker := maker.(filled := maker.filled + f.size, lastUpdate := seqId);
    maker := maker.(status := if maker.filled >= maker.terms.size then Filled else PartiallyFilled);
    orders := orders[f.makerOrderId := maker];
    return Ok(orders);
  }

  method FoldEvents(events: seq<SequencedEvent>) returns (r: Result<Orders, ReplayError>, state: StateStore,
                    lastSeqId: nat)
    ensures fresh(state)
    ensures match Replayed(events)
            case Err(e) => r == Err(e)
            case Ok(w) => r.Ok? && w == Working(r.value, state.View(), lastSeqId) && KeyedById(r.value)
  {
    var orders: Orders := map[];
    state := new StateStore();
    lastSeqId := 0;
    var i := 0;
    while i < |events|
      invariant 0 <= i <= |events|
      invariant fresh(state)
      invariant KeyedById(orders)
      invariant Replayed(events) == Fold(Working(orders, state.View(), lastSeqId), events[i..])
    {
      var se := events[i];
      FoldOne(Working(orders, state.View(), lastSeqId), events, i);
      if lastSeqId != 0 && se.seqId != lastSeqId + 1 {
        return Err(SeqIdGap(lastSeqId + 1, se.seqId)), state, lastSeqId;
      }
      lastSeqId := se.seqId;
      match se.event {
        case OrderAccepted(order) =>
          state.RaiseNonce(order.terms.traderId, order.terms.nonce);
          orders := orders[order.terms.orderId := order];
        case FillEvent(f) =>
          var filled := ApplyFillEvent(orders, f, se.seqId);
          if filled.Err? { return Err(filled.error), state, lastSeqId; }
          orders := filled.value;
          state.ApplyFillPair(f);
        case OrderCancelled(id, hash, reason) =>
          if id !in orders { return Err(UnknownOrder(id)), state, lastSeqId; }
          orders := orders[id := orders[id].(status := CancelStatus(reason), lastUpdate := se.seqId)];
          state.CancelOrder(hash);
        case OrderRejected(_, _, _) =>
        case MarketPaused(_, _) =>
        case MarketResumed(_, _) =>
      }
      i := i + 1;
    }
    r := Ok(orders);
  }

  // ---- The book loop ---------------------------------------------------------------------------

  ghost predicate Distinct(ids: seq<OrderId>) {
    forall i, j :: 0 <= i < j < |ids| ==> ids[i] != ids[j]
  }

  /** Oldest first. */
  ghost predicate BySequence(ids: seq<OrderId>, orders: Orders) {
    && (forall id :: id in ids ==> id in orders)
    && (forall i, j :: 0 <= i < j < |ids| ==>
          orders[ids[i]].terms.createdSequence <= orders[ids[j]].terms.createdSequence)
  }

  /** The open ids, in whatever order the hash map yields them. */
  method CollectOpen(orders: Orders) returns (ids: seq<OrderId>)
    ensures Distinct(ids) && forall id :: id in ids <==> id in OpenIds(orders)
  {
    ids := [];
    var todo := orders.Keys;
    while todo != {}
      invariant todo <= orders.Keys
      invariant Distinct(ids)
      invariant forall id :: id in ids <==> id in OpenIds(orders) && id !in todo
      decreases |todo|
    {
      var id :| id in todo;
      if !orders[id].Closed() { ids := ids + [id]; }
      todo := todo - {id};
    }
  }

  /** `sort_by_key(created_sequence)`. */
  function InsertBySequence(id: OrderId, ids: seq<OrderId>, orders: Orders): (r: seq<OrderId>)
    requires id in orders && forall x :: x in ids ==> x in orders
    ensures forall x :: x in r <==> x == id || x in ids
    ensures |r| == |ids| + 1
  {
    if ids == [] || orders[id].terms.createdSequence <= orders[ids[0]].terms.createdSequence then [id] + ids
    else [ids[0]] + InsertBySequence(id, ids[1..], orders)
  }

  function SortBySequence(ids: seq<OrderId>, orders: Orders): (r: seq<OrderId>)
    requires forall x :: x in ids ==> x in orders
    ensures forall x :: x in r <==> x in ids
    ensures |r| == |ids|
  {
    if ids == [] then [] else InsertBySequence(ids[0], SortBySequence(ids[1..], orders), orders)
  }

  lemma {:induction false} InsertSorted(id: OrderId, ids: seq<OrderId>, orders: Orders)
    requires id in orders && BySequence(ids, orders)
    ensures BySequence(InsertBySequence(id, ids, orders), orders)
  {
    if ids != [] && orders[id].terms.createdSequence > orders[ids[0]].terms.createdSequence {
      InsertSorted(id, ids[1..], orders);
      var rest := InsertBySequence(id, ids[1..], orders);
      forall k | 0 <= k < |rest| ensures orders[ids[0]].terms.createdSequence <= orders[rest[k]].terms.createdSequence {
        assert rest[k] in rest;
        if rest[k] != id {
          var j :| 0 <= j < |ids[1..]| && ids[1..][j] == rest[k];
          assert ids[j + 1] == rest[k];
        }
      }
    }
  }

  lemma {:induction false} SortSorted(ids: seq<OrderId>, orders: Orders)
    requires forall x :: x in ids ==> x in orders
    ensures BySequence(SortBySequence(ids, orders), orders)
  {
    if ids == [] {
    } else {
      SortSorted(ids[1..], orders);
      InsertSorted(ids[0], SortBySequence(ids[1..], orders), orders);
    }
  }

  /** The listed orders of one market. */
  function Listed(orders: Orders, ids: seq<OrderId>, market: MarketId): Orders {
    map id | id in orders && id in ids && orders[id].terms.marketId == market :: orders[id]
  }

  /** What sound logs guarantee of the orders they leave open. */
  ghost predicate SoundOrders(orders: Orders) {
    && DistinctSequences(orders)
    && (forall id :: id in orders && !orders[id].Closed() ==> orders[id].filled < orders[id].terms.size)
  }

  /** The books after inserting a prefix of the sorted open orders. */
  ghost predicate Building(books: map<MarketId, OrderBook>, orders: Orders, ids: seq<OrderId>, sound: bool)
    reads Objects(books)
  {
    && Separate(books)
    && (forall m :: m in books ==> books[m].orders == Listed(orders, ids, m) && books[m].orders != map[])
    && (forall id :: id in ids && id in orders ==> orders[id].terms.marketId in books)
    && (sound ==> forall m :: m in books ==> books[m].Valid())
  }

  lemma ListedMore(orders: Orders, ids: seq<OrderId>, id: OrderId, market: MarketId)
    requires id in orders
    ensures Listed(orders, ids + [id], market)
         == if orders[id].terms.marketId == market then Listed(orders, ids, market)[id := orders[id]]
            else Listed(orders, ids, market)
  {
  }

  /** The next order in sequence can be appended to its book. */
  lemma NextAppendable(orders: Orders, sorted: seq<OrderId>, i: nat, m: MarketId)
    requires i < |sorted| && Distinct(sorted) && BySequence(sorted, orders) && SoundOrders(orders) && KeyedById(orders)
    requires !orders[sorted[i]].Closed()
    ensures Appendable(Listed(orders, sorted[..i], m), orders[sorted[i]])
  {
    forall id | id in Listed(orders, sorted[..i], m)
      ensures id != sorted[i] && orders[id].terms.createdSequence < orders[sorted[i]].terms.createdSequence
    {
      var j :| 0 <= j < i && sorted[..i][j] == id;
      assert sorted[j] == id;
    }
  }

  /** `entry(market).or_default()`. */
  method EntryOrDefault(books0: map<MarketId, OrderBook>, market: MarketId) returns (books: map<MarketId, OrderBook>)
    requires Separate(books0)
    ensures Separate(books) && market in books
    ensures forall m :: m in books0 ==> m in books && books[m] == books0[m]
    ensures forall m :: m in books && m !in books0 ==> m == market
    ensures market !in books0 ==> fresh(books[market]) && books[market].Valid() && books[market].orders == map[]
    ensures fresh(Objects(books) - Objects(books0))
  {
    books := books0;
    if market !in books {
      var book := new OrderBook();
      books := books[market := book];
    }
  }

  lemma NoneListed(orders: Orders, ids: seq<OrderId>, market: MarketId)
    requires forall id :: id in ids && id in orders ==> orders[id].terms.marketId != market
    ensures Listed(orders, ids, market) == map[]
  {
  }

  /** The books while one order is being inserted: its own book may still be empty. */
  ghost predicate Ready(books: map<MarketId, OrderBook>, orders: Orders, ids: seq<OrderId>, market: MarketId,
                        sound: bool)
    reads Objects(books)
  {
    && Separate(books) && market in books
    && (forall m :: m in books ==>
          books[m].orders == Listed(orders, ids, m) && (books[m].orders != map[] || m == market))
    && (forall id :: id in ids && id in orders ==> orders[id].terms.marketId in books)
    && (sound ==> forall m :: m in books ==> books[m].Valid())
  }

  /** With the market's book in place, created empty if it was missing, the next order can go in. */
  lemma EntryReady(books0: map<MarketId, OrderBook>, books: map<MarketId, OrderBook>, orders: Orders, ids: seq<OrderId>,
                   market: MarketId, sound: bool)
    requires Building(books0, orders, ids, sound) && Separate(books) && market in books
    requires forall m :: m in books0 ==> m in books && books[m] == books0[m]
    requires forall m :: m in books && m !in books0 ==> m == market
    requires market !in books0 ==> books[market].Valid() && books[market].orders == map[]
    ensures Ready(books, orders, ids, market, sound)
  {
    if market !in books0 { NoneListed(orders, ids, market); }
  }

  /** Inserts one order, creating its book if this is the market's first. */
  method InsertNext(books0: map<MarketId, OrderBook>, orders: Orders, sorted: seq<OrderId>, i: nat, ghost sound: bool)
    returns (books: map<MarketId, OrderBook>)
    requires i < |sorted| && Distinct(sorted) && BySequence(sorted, orders) && KeyedById(orders)
    requires !orders[sorted[i]].Closed() && (sound ==> SoundOrders(orders))
    requires Building(books0, orders, sorted[..i], sound)
    modifies Objects(books0)
    ensures Building(books, orders, sorted[..i + 1], sound)
    ensures fresh(Objects(books) - Objects(books0))
  {
    var order := orders[sorted[i]];
    books := EntryOrDefault(books0, order.terms.marketId);
    EntryReady(books0, books, orders, sorted[..i], order.terms.marketId, sound);
    InsertReady(books, orders, sorted, i, sound);
  }

  /** One more order listed: its own book has gained it, the others are as they were. */
  lemma InsertBuilds(books: map<MarketId, OrderBook>, was: map<MarketId, Orders>, orders: Orders, ids: seq<OrderId>,
                     id: OrderId, sound: bool)
    requires id in orders && orders[id].terms.marketId in books && Separate(books) && was.Keys == books.Keys
    requires forall m :: m in books ==> was[m] == Listed(orders, ids, m)
    requires forall m :: m in books && m != orders[id].terms.marketId ==> was[m] != map[]
    requires forall m :: m in books ==>
               books[m].orders == if m == orders[id].terms.marketId then was[m][id := orders[id]] else was[m]
    requires forall x :: x in ids && x in orders ==> orders[x].terms.marketId in books
    requires sound ==> forall m :: m in books ==> books[m].Valid()
    ensures Building(books, orders, ids + [id], sound)
  {
    forall m | m in books
      ensures books[m].orders == Listed(orders, ids + [id], m) && books[m].orders != map[]
    {
      ListedMore(orders, ids, id, m);
      assert m == orders[id].terms.marketId ==> id in books[m].orders;
    }
  }

  method InsertReady(books: map<MarketId, OrderBook>, orders: Orders, sorted: seq<OrderId>, i: nat, ghost sound: bool)
    requires i < |sorted| && Distinct(sorted) && BySequence(sorted, orders) && KeyedById(orders)
    requires !orders[sorted[i]].Closed() && (sound ==> SoundOrders(orders))
    requires Ready(books, orders, sorted[..i], orders[sorted[i]].terms.marketId, sound)
    modifies books[orders[sorted[i]].terms.marketId]
    ensures Building(books, orders, sorted[..i + 1], sound)
  {
    var order := orders[sorted[i]];
    var market := order.terms.marketId;
    ghost var was := BooksView(books);
    if sound { NextAppendable(orders, sorted, i, market); }
    books[market].Insert(order);
    assert sorted[..i + 1] == sorted[..i] + [sorted[i]];
    InsertBuilds(books, was, orders, sorted[..i], sorted[i], sound);
  }

  /** Inserting the open orders oldest first rebuilds one book per market that has any. */
  method BuildBooks(orders: Orders) returns (books: map<MarketId, OrderBook>)
    requires KeyedById(orders)
    ensures fresh(Objects(books)) && Separate(books)
    ensures BooksView(books) == ReplayedBooks(orders)
    ensures SoundOrders(orders) ==> forall m :: m in books ==> books[m].Valid()
  {
    ghost var sound := SoundOrders(orders);
    var ids := CollectOpen(orders);
    var sorted := SortBySequence(ids, orders);
    SortSorted(ids, orders);
    assert Distinct(sorted) by { SortDistinct(ids, orders); }
    books := map[];
    var i := 0;
    while i < |sorted|
      invariant 0 <= i <= |sorted|
      invariant fresh(Objects(books))
      invariant Building(books, orders, sorted[..i], sound)
    {
      assert sorted[i] in sorted;
      books := InsertNext(books, orders, sorted, i, sound);
      i := i + 1;
    }
    assert sorted[..i] == sorted;
    AllListed(orders, sorted, books, sound);
  }

  lemma {:induction false} SortDistinct(ids: seq<OrderId>, orders: Orders)
    requires Distinct(ids) && forall x :: x in ids ==> x in orders
    ensures Distinct(SortBySequence(ids, orders))
  {
    if ids == [] {
    } else {
      SortDistinct(ids[1..], orders);
      assert ids[0] !in ids[1..];
      InsertDistinct(ids[0], SortBySequence(ids[1..], orders), orders);
    }
  }

  lemma {:induction false} InsertDistinct(id: OrderId, ids: seq<OrderId>, orders: Orders)
    requires id in orders && id !in ids && Distinct(ids) && forall x :: x in ids ==> x in orders
    ensures Distinct(InsertBySequence(id, ids, orders))
  {
    if ids != [] && orders[id].terms.createdSequence > orders[ids[0]].terms.createdSequence {
      InsertDistinct(id, ids[1..], orders);
      assert ids[0] !in ids[1..];
      assert ids[0] !in InsertBySequence(id, ids[1..], orders);
    }
  }

  lemma AllListed(orders: Orders, sorted: seq<OrderId>, books: map<MarketId, OrderBook>, sound: bool)
    requires Building(books, orders, sorted, sound)
    requires forall id :: id in sorted <==> id in OpenIds(orders)
    ensures BooksView(books) == ReplayedBooks(orders)
  {
    ListedIsReplayed(BooksView(books), orders, sorted);
  }

  lemma ListedIsReplayed(view: map<MarketId, Orders>, orders: Orders, sorted: seq<OrderId>)
    requires forall id :: id in sorted <==> id in OpenIds(orders)
    requires forall m :: m in view ==> view[m] == Listed(orders, sorted, m) && view[m] != map[]
    requires forall x :: x in sorted && x in orders ==> orders[x].terms.marketId in view
    ensures view == ReplayedBooks(orders)
  {
    forall m ensures Listed(orders, sorted, m) == OpenOrders(orders, m) {
    }
    forall m ensures m in view <==> m in ReplayedBooks(orders) {
      if m in view {
        var id :| id in Listed(orders, sorted, m);
        assert id in OpenIds(orders);
      }
    }
  }

  method Replay(events: seq<SequencedEvent>) returns (r: Result<ReplayResult, ReplayError>)
    ensures match Replayed(events)
            case Err(e) => r == Err(e)
            case Ok(w) =>
              && r.Ok? && var x := r.value;
              && fresh(Objects(x.books)) && fresh(x.state) && Separate(x.books)
              && BooksView(x.books) == ReplayedBooks(w.orders)
              && x.state.View() == w.ledger && x.lastSeqId == w.lastSeq && x.eventCount == |events|
              && (SoundOrders(w.orders) ==> forall m :: m in x.books ==> x.books[m].Valid())
  {
    var orders, state, lastSeqId := FoldEvents(events);
    if orders.Err? { return Err(orders.error); }
    var books := BuildBooks(orders.value);
    return Ok(ReplayResult(books, state, lastSeqId, |events|));
  }
}
