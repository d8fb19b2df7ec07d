/** What matching promises: greedy fills in priority order, and a book that never crosses. */
module MatchTheory {
  import opened Domain
  import opened Books
  import opened Matching

  // ---- Greedy fills ---------------------------------------------------------------------------

  function TotalSize(fills: seq<Fill>): nat {
    if fills == [] then 0 else fills[0].size + TotalSize(fills[1..])
  }

  /** Distinct open makers of other orders' books, all with something left. */
  ghost predicate MakerList(ids: seq<OrderId>, orders: Orders) {
    && (forall i, j :: 0 <= i < j < |ids| ==> ids[i] != ids[j])
    && (forall id :: id in ids ==> id in orders && !orders[id].Closed())
  }

  /** The i-th fill trades with the i-th maker, at the maker's price, never with the taker's own trader. */
  ghost predicate FillsInOrder(orders: Orders, taker: Order, ids: seq<OrderId>, fills: seq<Fill>, seqId: nat,
                               nowMs: nat) {
    && |fills| <= |ids|
    && forall i :: 0 <= i < |fills| ==>
         ids[i] in orders && orders[ids[i]].terms.traderId != taker.terms.traderId
         && 0 < fills[i].size <= orders[ids[i]].Remaining()
         && fills[i] == MakeFill(taker, orders[ids[i]], fills[i].size, seqId, nowMs)
  }

  /** Every maker before the last one traded is filled completely. */
  ghost predicate AllButLastFull(orders: Orders, ids: seq<OrderId>, fills: seq<Fill>) {
    |fills| <= |ids| && forall i :: 0 <= i < |fills| - 1 ==>
      ids[i] in orders && fills[i].size == orders[ids[i]].Remaining()
  }

  /** Why the walk stopped: the taker is full, it met its own order, or every maker was used up. */
  ghost predicate StopReason(orders: Orders, taker: Order, ids: seq<OrderId>, r: MatchResult) {
    var k := |r.fills|;
    && k <= |ids|
    && (r.taker.status == CancelledStp ==>
          && r.taker.Remaining() > 0 && k < |ids|
          && ids[k] in orders && orders[ids[k]].terms.traderId == taker.terms.traderId)
    && (r.taker.status != CancelledStp && r.taker.Remaining() > 0 ==> k == |ids|)
    && (r.taker.Remaining() > 0 && k > 0 ==>
          ids[k - 1] in orders && r.fills[k - 1].size == orders[ids[k - 1]].Remaining())
  }

  /** Exactly the traded makers change, each by its own fill. */
  ghost predicate MakersUpdated(orders: Orders, ids: seq<OrderId>, r: MatchResult, seqId: nat) {
    && |r.fills| <= |ids| && r.orders.Keys == orders.Keys
    && (forall i :: 0 <= i < |r.fills| ==>
          ids[i] in orders && r.orders[ids[i]] == ApplyQty(orders[ids[i]], r.fills[i].size, seqId))
    && OthersUntouched(orders, ids, r)
  }

  ghost predicate OthersUntouched(orders: Orders, ids: seq<OrderId>, r: MatchResult) {
    |r.fills| <= |ids| &&
    forall id :: id in orders && id !in ids[..|r.fills|] ==> id in r.orders && r.orders[id] == orders[id]
  }

  /** The state after the first maker of the list has traded. */
  function AfterFirst(orders: Orders, taker: Order, ids: seq<OrderId>, seqId: nat): (Orders, Order)
    requires ids != [] && ids[0] in orders
  {
    var qty := FillQty(taker, orders[ids[0]]);
    (orders[ids[0] := ApplyQty(orders[ids[0]], qty, seqId)], ApplyQty(taker, qty, seqId))
  }

  ghost predicate WalkInput(orders: Orders, taker: Order, ids: seq<OrderId>) {
    && BookOk(orders) && MakerList(ids, orders) && Tradable(taker)
    && (taker.Closed() ==> taker.status == Filled)
  }

  predicate Trades(orders: Orders, taker: Order, ids: seq<OrderId>) {
    ids != [] && !Done(taker) && ids[0] in orders && orders[ids[0]].terms.traderId != taker.terms.traderId
  }

  lemma WalkInputNext(orders: Orders, taker: Order, ids: seq<OrderId>, seqId: nat)
    requires WalkInput(orders, taker, ids) && Trades(orders, taker, ids)
    ensures var (orders', taker') := AfterFirst(orders, taker, ids, seqId);
            WalkInput(orders', taker', ids[1..])
    ensures forall i :: 1 <= i < |ids| ==> ids[i] != ids[0]
  {
  }

  lemma WalkUnfold(orders: Orders, taker: Order, ids: seq<OrderId>, seqId: nat, nowMs: nat)
    requires WalkInput(orders, taker, ids) && Trades(orders, taker, ids)
    ensures var (orders', taker') := AfterFirst(orders, taker, ids, seqId);
            var rest := Walk(orders', taker', ids[1..], seqId, nowMs);
            var f := MakeFill(taker, orders[ids[0]], FillQty(taker, orders[ids[0]]), seqId, nowMs);
            Walk(orders, taker, ids, seqId, nowMs) == rest.(fills := [f] + rest.fills)
  {
  }

  /** One fill more at the front: the later makers are as they were before it. */
  lemma FillsCons(orders: Orders, orders': Orders, taker: Order, taker': Order, ids: seq<OrderId>, f: Fill,
                  rest: seq<Fill>,
                  seqId: nat, nowMs: nat)
    requires ids != [] && taker'.terms == taker.terms
    requires FillsInOrder(orders', taker', ids[1..], rest, seqId, nowMs)
    requires forall id :: id in ids[1..] && id in orders' ==> id in orders && orders'[id] == orders[id]
    requires ids[0] in orders && orders[ids[0]].terms.traderId != taker.terms.traderId
    requires 0 < f.size <= orders[ids[0]].Remaining() && f == MakeFill(taker, orders[ids[0]], f.size, seqId, nowMs)
    ensures FillsInOrder(orders, taker, ids, [f] + rest, seqId, nowMs)
  {
    var fills := [f] + rest;
    forall i | 1 <= i < |fills|
      ensures ids[i] in orders && orders[ids[i]].terms.traderId != taker.terms.traderId
      ensures 0 < fills[i].size <= orders[ids[i]].Remaining()
      ensures fills[i] == MakeFill(taker, orders[ids[i]], fills[i].size, seqId, nowMs)
    {
      assert fills[i] == rest[i - 1] && ids[i] == ids[1..][i - 1] && ids[1..][i - 1] in ids[1..];
    }
  }

  lemma {:induction false} WalkFills(orders: Orders, taker: Order, ids: seq<OrderId>, seqId: nat, nowMs: nat)
    requires WalkInput(orders, taker, ids)
    ensures FillsInOrder(orders, taker, ids, Walk(orders, taker, ids, seqId, nowMs).fills, seqId, nowMs)
    decreases |ids|
  {
    if !Trades(orders, taker, ids) {
    } else {
      var (orders', taker') := AfterFirst(orders, taker, ids, seqId);
      WalkInputNext(orders, taker, ids, seqId);
      WalkUnfold(orders, taker, ids, seqId, nowMs);
      WalkFills(orders', taker', ids[1..], seqId, nowMs);
      var f := MakeFill(taker, orders[ids[0]], FillQty(taker, orders[ids[0]]), seqId, nowMs);
      FillsCons(orders, orders', taker, taker', ids, f, Walk(orders', taker', ids[1..], seqId, nowMs).fills, seqId,
        nowMs);
    }
  }

  lemma {:induction false} WalkFullMakers(orders: Orders, taker: Order, ids: seq<OrderId>, seqId: nat, nowMs: nat)
    requires WalkInput(orders, taker, ids)
    ensures AllButLastFull(orders, ids, Walk(orders, taker, ids, seqId, nowMs).fills)
    decreases |ids|
  {
    if !Trades(orders, taker, ids) {
    } else {
      var (orders', taker') := AfterFirst(orders, taker, ids, seqId);
      WalkInputNext(orders, taker, ids, seqId);
      WalkUnfold(orders, taker, ids, seqId, nowMs);
      WalkFullMakers(orders', taker', ids[1..], seqId, nowMs);
      var rest := Walk(orders', taker', ids[1..], seqId, nowMs).fills;
      var fills := Walk(orders, taker, ids, seqId, nowMs).fills;
      assert rest != [] ==> !Done(taker');
      forall i | 1 <= i < |fills|
        ensures fills[i] == rest[i - 1] && ids[i] == ids[1..][i - 1] && orders'[ids[i]] == orders[ids[i]]
      {
      }
    }
  }

  /** One fill more at the front does not change why the walk stopped. */
  lemma StopReasonCons(orders: Orders, orders': Orders, taker: Order, taker': Order, ids: seq<OrderId>, f: Fill,
                       rest: MatchResult)
    requires ids != [] && ids[0] in orders && taker'.terms == taker.terms
    requires StopReason(orders', taker', ids[1..], rest)
    requires forall id :: id in ids[1..] && id in orders' ==> id in orders && orders'[id] == orders[id]
    requires rest.fills == [] && rest.taker.Remaining() > 0 ==> f.size == orders[ids[0]].Remaining()
    ensures StopReason(orders, taker, ids, rest.(fills := [f] + rest.fills))
  {
    var k := |rest.fills|;
    assert k < |ids[1..]| ==> ids[k + 1] == ids[1..][k] && ids[1..][k] in ids[1..];
    assert k > 0 ==> ids[k] == ids[1..][k - 1] && ids[1..][k - 1] in ids[1..];
  }

  /** A taker that trades once and is left with a remainder has filled the maker. */
  lemma OnlyFillIsFull(orders: Orders, taker: Order, ids: seq<OrderId>, seqId: nat, nowMs: nat)
    requires WalkInput(orders, taker, ids) && Trades(orders, taker, ids)
    ensures var (orders', taker') := AfterFirst(orders, taker, ids, seqId);
            var rest := Walk(orders', taker', ids[1..], seqId, nowMs);
            rest.fills == [] && rest.taker.Remaining() > 0
            ==> FillQty(taker, orders[ids[0]]) == orders[ids[0]].Remaining()
  {
    var (orders', taker') := AfterFirst(orders, taker, ids, seqId);
    WalkInputNext(orders, taker, ids, seqId);
    if FillQty(taker, orders[ids[0]]) != orders[ids[0]].Remaining() {
      assert taker'.Remaining() == 0;
      WalkTotals(orders', taker', ids[1..], seqId, nowMs);
    }
  }

  lemma {:induction false} WalkStopReason(orders: Orders, taker: Order, ids: seq<OrderId>, seqId: nat, nowMs: nat)
    requires WalkInput(orders, taker, ids)
    ensures StopReason(orders, taker, ids, Walk(orders, taker, ids, seqId, nowMs))
    decreases |ids|
  {
    if !Trades(orders, taker, ids) {
    } else {
      var (orders', taker') := AfterFirst(orders, taker, ids, seqId);
      WalkInputNext(orders, taker, ids, seqId);
      WalkUnfold(orders, taker, ids, seqId, nowMs);
      WalkStopReason(orders', taker', ids[1..], seqId, nowMs);
      OnlyFillIsFull(orders, taker, ids, seqId, nowMs);
      var f := MakeFill(taker, orders[ids[0]], FillQty(taker, orders[ids[0]]), seqId, nowMs);
      StopReasonCons(orders, orders', taker, taker', ids, f, Walk(orders', taker', ids[1..], seqId, nowMs));
    }
  }

  lemma {:induction false} WalkTotals(orders: Orders, taker: Order, ids: seq<OrderId>, seqId: nat, nowMs: nat)
    requires WalkInput(orders, taker, ids)
    ensures var r := Walk(orders, taker, ids, seqId, nowMs);
            r.taker.filled == taker.filled + TotalSize(r.fills) && r.taker.filled <= taker.terms.size
    decreases |ids|
  {
    if !Trades(orders, taker, ids) {
    } else {
      var (orders', taker') := AfterFirst(orders, taker, ids, seqId);
      WalkInputNext(orders, taker, ids, seqId);
      WalkUnfold(orders, taker, ids, seqId, nowMs);
      WalkTotals(orders', taker', ids[1..], seqId, nowMs);
      var rest := Walk(orders', taker', ids[1..], seqId, nowMs).fills;
      assert Walk(orders, taker, ids, seqId, nowMs).fills[1..] == rest;
    }
  }

  lemma OthersCons(orders: Orders, maker: Order, ids: seq<OrderId>, f: Fill, rest: MatchResult)
    requires ids != [] && OthersUntouched(orders[ids[0] := maker], ids[1..], rest)
    ensures OthersUntouched(orders, ids, rest.(fills := [f] + rest.fills))
  {
    assert ids[..|rest.fills| + 1] == [ids[0]] + ids[1..][..|rest.fills|];
  }

  lemma {:induction false} WalkOthers(orders: Orders, taker: Order, ids: seq<OrderId>, seqId: nat, nowMs: nat)
    requires WalkInput(orders, taker, ids)
    ensures OthersUntouched(orders, ids, Walk(orders, taker, ids, seqId, nowMs))
    decreases |ids|
  {
    if !Trades(orders, taker, ids) {
    } else {
      var (orders', taker') := AfterFirst(orders, taker, ids, seqId);
      WalkInputNext(orders, taker, ids, seqId);
      WalkUnfold(orders, taker, ids, seqId, nowMs);
      WalkOthers(orders', taker', ids[1..], seqId, nowMs);
      var f := MakeFill(taker, orders[ids[0]], FillQty(taker, orders[ids[0]]), seqId, nowMs);
      OthersCons(orders, orders'[ids[0]], ids, f, Walk(orders', taker', ids[1..], seqId, nowMs));
    }
  }

  lemma {:induction false} WalkMaker(orders: Orders, taker: Order, ids: seq<OrderId>, seqId: nat, nowMs: nat, i: nat)
    requires WalkInput(orders, taker, ids) && i < |Walk(orders, taker, ids, seqId, nowMs).fills| <= |ids|
    ensures var r := Walk(orders, taker, ids, seqId, nowMs);
            ids[i] in orders && ids[i] in r.orders
            && r.orders[ids[i]] == ApplyQty(orders[ids[i]], r.fills[i].size, seqId)
    decreases |ids|
  {
    var (orders', taker') := AfterFirst(orders, taker, ids, seqId);
    WalkInputNext(orders, taker, ids, seqId);
    WalkUnfold(orders, taker, ids, seqId, nowMs);
    if i == 0 {
      assert ids[0] !in ids[1..];
      WalkFrame(orders', taker', ids[1..], seqId, nowMs);
    } else {
      WalkMaker(orders', taker', ids[1..], seqId, nowMs, i - 1);
    }
  }

  lemma WalkMakers(orders: Orders, taker: Order, ids: seq<OrderId>, seqId: nat, nowMs: nat)
    requires WalkInput(orders, taker, ids)
    ensures MakersUpdated(orders, ids, Walk(orders, taker, ids, seqId, nowMs), seqId)
  {
    var r := Walk(orders, taker, ids, seqId, nowMs);
    WalkOthers(orders, taker, ids, seqId, nowMs);
    WalkFrame(orders, taker, ids, seqId, nowMs);
    forall i | 0 <= i < |r.fills|
      ensures ids[i] in orders && r.orders[ids[i]] == ApplyQty(orders[ids[i]], r.fills[i].size, seqId)
    {
      WalkMaker(orders, taker, ids, seqId, nowMs, i);
    }
  }

  // ---- The statement for a whole match --------------------------------------------------------

  lemma MakersAreMakers(orders: Orders, taker: Order)
    requires BookOk(orders)
    ensures MakerList(Makers(orders, taker), orders)
    ensures Sorted(Makers(orders, taker), orders)
    ensures forall id :: id in Makers(orders, taker) <==> id in CrossingIds(orders, taker)
  {
  }

  /** An arriving order: accepted, unfilled and with a positive size. */
  predicate Arriving(taker: Order) {
    taker.filled == 0 && taker.status == Open && taker.terms.size > 0
  }

  /**
   * Matching is the greedy walk of the crossing makers in price-time order: the fills are those of the
   * first makers of the list, one each, every one of them filled completely except perhaps the last,
   * and the walk ends because the taker is full, met its own order, or used up the list.
   */
  lemma MatchIsGreedy(orders: Orders, taker: Order, seqId: nat, nowMs: nat)
    requires BookOk(orders) && Arriving(taker)
    ensures var makers, r := Makers(orders, taker), Match(orders, taker, seqId, nowMs);
            && FillsInOrder(orders, taker, makers, r.fills, seqId, nowMs)
            && AllButLastFull(orders, makers, r.fills)
            && StopReason(orders, taker, makers, r)
            && MakersUpdated(orders, makers, r, seqId)
            && r.taker.terms == taker.terms && r.taker.filled == TotalSize(r.fills) <= taker.terms.size
  {
    var makers := Makers(orders, taker);
    MakersAreMakers(orders, taker);
    WalkFills(orders, taker, makers, seqId, nowMs);
    WalkFullMakers(orders, taker, makers, seqId, nowMs);
    WalkStopReason(orders, taker, makers, seqId, nowMs);
    WalkTotals(orders, taker, makers, seqId, nowMs);
    WalkMakers(orders, taker, makers, seqId, nowMs);
    WalkFrame(orders, taker, makers, seqId, nowMs);
  }

  /** Every traded maker but the last is closed by the match; so is the last if the taker is not done. */
  lemma EarlierMakerFilled(orders: Orders, taker: Order, seqId: nat, nowMs: nat, j: nat)
    requires BookOk(orders) && Arriving(taker)
    requires var r := Match(orders, taker, seqId, nowMs);
             j < |r.fills| - 1 || (j < |r.fills| && !Done(r.taker))
    ensures j < |Makers(orders, taker)|
    ensures var id, r := Makers(orders, taker)[j], Match(orders, taker, seqId, nowMs);
            id in r.orders && r.orders[id].status == Filled
  {
    MatchIsGreedy(orders, taker, seqId, nowMs);
  }

  /** Price-time priority: whoever trades, everyone ahead of them in the queue has been filled. */
  lemma PriorityRespected(orders: Orders, taker: Order, seqId: nat, nowMs: nat, ahead: OrderId, i: nat)
    requires BookOk(orders) && Arriving(taker)
    requires ahead in CrossingIds(orders, taker)
    requires i < |Match(orders, taker, seqId, nowMs).fills|
    requires var behind := Match(orders, taker, seqId, nowMs).fills[i].makerOrderId;
             behind in orders && Before(orders[ahead], orders[behind])
    ensures var after := Match(orders, taker, seqId, nowMs).orders;
            ahead in after && after[ahead].status == Filled
  {
    var makers := Makers(orders, taker);
    MakersAreMakers(orders, taker);
    FillNamesMaker(orders, taker, seqId, nowMs, i);
    var j :| 0 <= j < |makers| && makers[j] == ahead;
    SortedIndices(makers, orders, i, j);
    EarlierMakerFilled(orders, taker, seqId, nowMs, j);
  }

  lemma SortedIndices(ids: seq<OrderId>, orders: Orders, i: nat, j: nat)
    requires Sorted(ids, orders) && i < |ids| && j < |ids|
    requires Before(orders[ids[j]], orders[ids[i]])
    ensures j < i
  {
  }

  lemma FillNamesMaker(orders: Orders, taker: Order, seqId: nat, nowMs: nat, i: nat)
    requires BookOk(orders) && Arriving(taker)
    requires i < |Match(orders, taker, seqId, nowMs).fills|
    ensures i < |Makers(orders, taker)|
    ensures Match(orders, taker, seqId, nowMs).fills[i].makerOrderId == Makers(orders, taker)[i]
  {
    MakersAreMakers(orders, taker);
    WalkFills(orders, taker, Makers(orders, taker), seqId, nowMs);
  }

  /** Every fill of a match names the taker and an order that was open in the book. */
  lemma FillNamesOpen(book: Orders, o: Order, seqId: nat, nowMs: nat, k: nat)
    requires BookOk(book) && Arriving(o) && k < |Match(book, o, seqId, nowMs).fills|
    ensures var f := Match(book, o, seqId, nowMs).fills[k];
            f.takerOrderId == o.terms.orderId && f.makerOrderId in book && !book[f.makerOrderId].Closed()
  {
    MakersAreMakers(book, o);
    WalkFills(book, o, Makers(book, o), seqId, nowMs);
    assert Makers(book, o)[k] in Makers(book, o);
  }

  // ---- A taker that rests has emptied every level it crosses -----------------------------------

  lemma RestingTookAll(orders: Orders, taker: Order, seqId: nat, nowMs: nat, id: OrderId)
    requires BookOk(orders) && Arriving(taker)
    requires !Done(Match(orders, taker, seqId, nowMs).taker)
    requires id in CrossingIds(orders, taker)
    ensures id in Match(orders, taker, seqId, nowMs).orders
    ensures Match(orders, taker, seqId, nowMs).orders[id].Closed()
  {
    var makers, r := Makers(orders, taker), Match(orders, taker, seqId, nowMs);
    MakersAreMakers(orders, taker);
    MatchIsGreedy(orders, taker, seqId, nowMs);
    var j :| 0 <= j < |makers| && makers[j] == id;
    EarlierMakerFilled(orders, taker, seqId, nowMs, j);
  }

  ghost predicate Uncrossed(orders: Orders) {
    forall a, b :: a in orders && b in orders && !orders[a].Closed() && !orders[b].Closed()
      && orders[a].terms.side == Buy && orders[b].terms.side == Sell
      ==> orders[a].terms.price < orders[b].terms.price
  }

  /** Matching never leaves a crossed book. */
  lemma MatchKeepsUncrossed(orders: Orders, taker: Order, seqId: nat, nowMs: nat)
    requires BookOk(orders) && Uncrossed(orders) && Arriving(taker)
    ensures Uncrossed(AfterMatch(Match(orders, taker, seqId, nowMs)))
  {
    var r := Match(orders, taker, seqId, nowMs);
    WalkFrame(orders, taker, Makers(orders, taker), seqId, nowMs);
    assert Uncrossed(r.orders);
    if !Done(r.taker) {
      forall id | id in r.orders && !r.orders[id].Closed()
        && r.orders[id].terms.side == taker.terms.side.Opposite()
        ensures !Crosses(taker, r.orders[id].terms.price)
      {
        if Crosses(taker, r.orders[id].terms.price) {
          RestingTookAll(orders, taker, seqId, nowMs, id);
        }
      }
    }
  }
}
