/** When a fill can follow a cancel of the same order: exactly after a forced cancel, and exactly how. */
module Finality {
  import opened Domain
  import opened Books
  import opened Matching
  import opened MatchTheory
  import opened Sequencing
  import opened EngineSpec
  import opened Live
  import opened Steps
  import opened Restart
  import opened Grammar
  import opened Guarantees

  // ---- Cancels in the log --------------------------------------------------------------------------

  ghost predicate CancelLogged(log: seq<SequencedEvent>, id: OrderId) {
    exists i :: 0 <= i < |log| && log[i].event.OrderCancelled? && log[i].event.orderId == id
  }

  lemma LoggedMore(log: seq<SequencedEvent>, more: seq<SequencedEvent>, id: OrderId)
    requires CancelLogged(log, id)
    ensures CancelLogged(log + more, id)
  {
    var i :| 0 <= i < |log| && log[i].event.OrderCancelled? && log[i].event.orderId == id;
    assert (log + more)[i] == log[i];
  }

  /** Forced cancels are all logged, and by themselves break nothing. */
  lemma {:induction false} ForceCancelsLogged(v: EngineView, targets: seq<(OrderId, OrderHash)>, world: World)
    requires CancelsFinal(v.log)
    ensures var log := ForceCancels(v, targets, world).log;
            CancelsFinal(log) && forall t :: t in targets ==> CancelLogged(log, t.0)
    decreases |targets|
  {
    if targets == [] {
    } else {
      var rest, last := targets[..|targets| - 1], targets[|targets| - 1];
      ForceCancelsLogged(v, rest, world);
      var v0 := ForceCancels(v, rest, world);
      var se := SequencedEvent(v0.nextSeqId, world.wall(v0.nextSeqId), OrderCancelled(last.0, last.1, AdminForce));
      CancelsFinalAppend(v0.log, [se]);
      assert (v0.log + [se])[|v0.log|] == se;
      forall t | t in targets ensures CancelLogged(v0.log + [se], t.0) {
        if t in rest { LoggedMore(v0.log, [se], t.0); }
      }
    }
  }

  /** An order's block breaks finality exactly when one of its fills names an order already cancelled. */
  lemma BlockFinality(log: seq<SequencedEvent>, accepted: SequencedEvent, m: MatchResult, next: nat, wall: nat -> nat)
    requires CancelsFinal(log) && accepted.event.OrderAccepted?
    ensures CancelsFinal(log + [accepted] + Stamp(next, FillEvents(m.fills) + StpEvents(m.taker), wall))
            <==> forall k :: 0 <= k < |m.fills| ==> !NamesCancelled(log, m.fills[k])
  {
    var tail := Stamp(next, FillEvents(m.fills) + StpEvents(m.taker), wall);
    var all := log + [accepted] + tail;
    if forall k :: 0 <= k < |m.fills| ==> !NamesCancelled(log, m.fills[k]) {
      BlockKeepsCancelsFinal(log, accepted, m, tail, next, wall);
    } else {
      var k :| 0 <= k < |m.fills| && NamesCancelled(log, m.fills[k]);
      var i :| 0 <= i < |log| && log[i].event.OrderCancelled? && Names(FillEvent(m.fills[k]), log[i].event.orderId);
      assert all[i] == log[i] && all[|log| + 1 + k] == tail[k] && tail[k].event == FillEvent(m.fills[k]);
    }
  }

  ghost predicate NamesCancelled(log: seq<SequencedEvent>, f: Fill) {
    exists i :: 0 <= i < |log| && log[i].event.OrderCancelled? && Names(FillEvent(f), log[i].event.orderId)
  }

  lemma NamesEither(log: seq<SequencedEvent>, f: Fill)
    ensures NamesCancelled(log, f) <==> CancelLogged(log, f.takerOrderId) || CancelLogged(log, f.makerOrderId)
  {
  }

  lemma CancelAllLogs(v: EngineView, market: MarketId, world: World, id: OrderId)
    requires Inv(v) && CancelsFinal(v.log) && market in v.markets
    ensures var v' := CancelAll(v, market, world).0;
            && CancelsFinal(v'.log) && v'.books == v.books
            && (id in BookOf(v, market) ==> CancelLogged(v'.log, id))
  {
    var w, targets := WorkingOf(v), AcceptedIn(v.log, market);
    ForceCancelsLogged(v, targets, world);
    ForceCancelsBooks(v, targets, world);
    if id in BookOf(v, market) {
      assert BookTracks(v.books[market], market, w);
      LogFacts(v);
      SelectsAll(v.log, w.orders, market, id);
      assert (id, w.orders[id].terms.orderHash).0 == id;
    }
  }

  // ---- How far an arriving order gets ---------------------------------------------------------------

  /** What these makers have left together. */
  function RemainingOf(book: Orders, ids: seq<OrderId>): nat {
    if ids == [] then 0
    else
      var left := if ids[0] in book then book[ids[0]].Remaining() else 0;
      (if left > 0 then left else 0) + RemainingOf(book, ids[1..])
  }

  lemma {:induction false} RemainingSame(book: Orders, book': Orders, ids: seq<OrderId>)
    requires forall id :: id in ids ==> id in book && id in book' && book[id] == book'[id]
    ensures RemainingOf(book, ids) == RemainingOf(book', ids)
    decreases |ids|
  {
    if ids == [] {
    } else {
      assert ids[0] in ids && forall id :: id in ids[1..] ==> id in ids;
      RemainingSame(book, book', ids[1..]);
    }
  }

  /** The taker is not stopped before this maker: it has more left than those ahead, and none up to it is its own. */
  ghost predicate Reaches(book: Orders, taker: Order, ids: seq<OrderId>, k: int) {
    && 0 <= k < |ids| && RemainingOf(book, ids[..k]) < taker.Remaining()
    && (forall j :: 0 <= j <= k ==> ids[j] in book && book[ids[j]].terms.traderId != taker.terms.traderId)
  }

  /** One maker less in front. */
  lemma ReachesNext(book: Orders, taker: Order, ids: seq<OrderId>, seqId: nat, k: nat)
    requires WalkInput(book, taker, ids) && Trades(book, taker, ids) && 0 < k < |ids|
    ensures var (book', taker') := AfterFirst(book, taker, ids, seqId);
            Reaches(book, taker, ids, k) <==> Reaches(book', taker', ids[1..], k - 1)
  {
    var (book', taker') := AfterFirst(book, taker, ids, seqId);
    WalkInputNext(book, taker, ids, seqId);
    assert ids[..k][1..] == ids[1..][..k - 1];
    assert forall id :: id in ids[1..] ==> id in ids && id != ids[0] && book'[id] == book[id];
    RemainingSame(book, book', ids[1..][..k - 1]);
    assert forall j :: 1 <= j <= k ==> ids[j] == ids[1..][j - 1];
    assert forall j :: 0 <= j <= k - 1 ==> ids[1..][j] == ids[j + 1] && ids[1..][j] in ids[1..];
  }

  lemma {:induction false} WalkReaches(book: Orders, taker: Order, ids: seq<OrderId>, seqId: nat, nowMs: nat, k: nat)
    requires WalkInput(book, taker, ids) && k < |ids|
    ensures k < |Walk(book, taker, ids, seqId, nowMs).fills| <==> Reaches(book, taker, ids, k)
    decreases |ids|
  {
    assert ids[0] in ids;
    if !Trades(book, taker, ids) {
      assert Walk(book, taker, ids, seqId, nowMs).fills == [];
    } else {
      var (book', taker') := AfterFirst(book, taker, ids, seqId);
      WalkInputNext(book, taker, ids, seqId);
      WalkUnfold(book, taker, ids, seqId, nowMs);
      if k == 0 {
        assert ids[..0] == [];
      } else {
        ReachesNext(book, taker, ids, seqId, k);
        WalkReaches(book', taker', ids[1..], seqId, nowMs, k - 1);
      }
    }
  }

  /** The k-th crossing maker is traded with exactly when the order reaches it. */
  lemma MatchReaches(book: Orders, o: Order, seqId: nat, nowMs: nat, k: nat)
    requires BookOk(book) && Arriving(o) && k < |Makers(book, o)|
    ensures k < |Match(book, o, seqId, nowMs).fills| <==> Reaches(book, o, Makers(book, o), k)
  {
    MakersAreMakers(book, o);
    WalkReaches(book, o, Makers(book, o), seqId, nowMs, k);
  }

  // ---- When a fill follows a cancel -------------------------------------------------------------------

  /** The order reaches a maker, and the log has cancelled that maker or the order itself. */
  ghost predicate ReachesCancelled(log: seq<SequencedEvent>, book: Orders, o: Order) {
    exists k :: Reaches(book, o, Makers(book, o), k)
      && (CancelLogged(log, Makers(book, o)[k]) || CancelLogged(log, o.terms.orderId))
  }

  lemma AcceptFinality(v: EngineView, o: Order, nowMs: nat, world: World)
    requires CancelsFinal(v.log) && Arriving(o) && o.terms.createdSequence == v.nextSeqId
    requires o.terms.marketId in v.books && BookOk(v.books[o.terms.marketId])
    ensures CancelsFinal(AcceptOrder(v, o, nowMs, world).0.log)
            <==> !ReachesCancelled(v.log, v.books[o.terms.marketId], o)
  {
    var book := v.books[o.terms.marketId];
    var makers, m := Makers(book, o), Match(book, o, v.nextSeqId, nowMs);
    MakersAreMakers(book, o);
    WalkFills(book, o, makers, v.nextSeqId, nowMs);
    AcceptedLog(v, o, nowMs, world);
    BlockFinality(v.log, SequencedEvent(v.nextSeqId, world.wall(v.nextSeqId), OrderAccepted(o)), m,
                  v.nextSeqId + 1, world.wall);
    FillsReach(v.log, book, o, nowMs);
  }

  lemma FillsReach(log: seq<SequencedEvent>, book: Orders, o: Order, nowMs: nat)
    requires BookOk(book) && Arriving(o)
    ensures (exists k :: 0 <= k < |Match(book, o, o.terms.createdSequence, nowMs).fills|
               && NamesCancelled(log, Match(book, o, o.terms.createdSequence, nowMs).fills[k]))
            <==> ReachesCancelled(log, book, o)
  {
    var makers, fills := Makers(book, o), Match(book, o, o.terms.createdSequence, nowMs).fills;
    MakersAreMakers(book, o);
    WalkFills(book, o, makers, o.terms.createdSequence, nowMs);
    forall k | 0 <= k < |makers|
      ensures k < |fills| <==> Reaches(book, o, makers, k)
      ensures k < |fills| ==>
                (NamesCancelled(log, fills[k]) <==> CancelLogged(log, makers[k]) || CancelLogged(log, o.terms.orderId))
    {
      MatchReaches(book, o, o.terms.createdSequence, nowMs, k);
      if k < |fills| {
        assert makers[k] in makers;
        NamesEither(log, fills[k]);
      }
    }
    if k :| 0 <= k < |fills| && NamesCancelled(log, fills[k]) {
      assert Reaches(book, o, makers, k);
    }
    if k :| Reaches(book, o, makers, k) && (CancelLogged(log, makers[k]) || CancelLogged(log, o.terms.orderId)) {
      assert NamesCancelled(log, fills[k]);
    }
  }

  /**
   * When a log whose cancels were final so far stops being so: exactly with an accepted order that, walking the
   * makers it crosses, is neither filled nor stopped by an order of its own before one whose cancel is logged.
   */
  lemma FinalityStep(v: EngineView, s: SignedOrder, nowMs: nat, freshId: OrderId, world: World)
    requires Inv(v) && CancelsFinal(v.log) && Passes(v, s, nowMs, world) && s.marketId in v.books
    ensures var r := Submit(v, s, nowMs, freshId, world);
            && r.1.Accepted?
            && (CancelsFinal(r.0.log)
                <==> !ReachesCancelled(v.log, v.books[s.marketId], NewOrder(s, freshId, v.nextSeqId, nowMs)))
  {
    assert BookOk(v.books[s.marketId]) by { assert BookTracks(v.books[s.marketId], s.marketId, WorkingOf(v)); }
    AcceptedCases(v, s, nowMs, freshId, world);
    AcceptFinality(v, NewOrder(s, freshId, v.nextSeqId, nowMs), nowMs, world);
  }

  /** No other operation does: a forced cancel logs no fill, and the rest log none either. */
  lemma OthersFinal(v: EngineView, op: Op, world: World)
    requires Inv(v) && CancelsFinal(v.log) && !op.OpSubmit?
    ensures CancelsFinal(Step(v, op, world).0.log)
  {
    if op.OpCancelAll? {
      ForceCancelsLogged(v, AcceptedIn(v.log, op.marketId), world);
    } else if op.OpRestart? {
      RestartedLog(v);
    } else {
      OtherKeepsCancelsFinal(v, op, world);
    }
  }

  /** The order crosses some maker, and the first is not its own trader's. */
  predicate TradesFirst(makers: seq<OrderId>, book: Orders, trader: TraderId) {
    makers != [] && makers[0] in book && book[makers[0]].terms.traderId != trader
  }

  /** In a book whose every order the log has cancelled, the first maker decides. */
  lemma AllCancelled(log: seq<SequencedEvent>, book: Orders, o: Order)
    requires BookOk(book) && Arriving(o) && forall id :: id in book ==> CancelLogged(log, id)
    ensures ReachesCancelled(log, book, o) <==> TradesFirst(Makers(book, o), book, o.terms.traderId)
  {
    var makers := Makers(book, o);
    MakersAreMakers(book, o);
    if TradesFirst(makers, book, o.terms.traderId) {
      assert makers[..0] == [] && makers[0] in makers;
      assert Reaches(book, o, makers, 0);
    }
  }

  /**
   * After a cancel-all, the next order accepted in the market puts a fill after a cancel of the same order
   * into the log exactly when it crosses some resting order and the first it meets is another trader's.
   */
  lemma FinalityAfterCancelAll(v: EngineView, s: SignedOrder, nowMs: nat, freshId: OrderId, world: World)
    requires Inv(v) && CancelsFinal(v.log) && s.marketId in v.books
    requires Passes(CancelAll(v, s.marketId, world).0, s, nowMs, world) && s.marketId in v.markets
    ensures var v' := CancelAll(v, s.marketId, world).0;
            var r := Submit(v', s, nowMs, freshId, world);
            var book, o := v.books[s.marketId], NewOrder(s, freshId, v'.nextSeqId, nowMs);
            && r.1.Accepted?
            && (CancelsFinal(r.0.log) <==> !TradesFirst(Makers(book, o), book, s.traderId))
  {
    var v' := CancelAll(v, s.marketId, world).0;
    CancelAllKeeps(v, s.marketId, world);
    CancelAllLogs(v, s.marketId, world, freshId);
    forall id | id in v'.books[s.marketId] ensures CancelLogged(v'.log, id) {
      CancelAllLogs(v, s.marketId, world, id);
    }
    FinalityStep(v', s, nowMs, freshId, world);
    assert BookTracks(v.books[s.marketId], s.marketId, WorkingOf(v));
    AcceptedCases(v', s, nowMs, freshId, world);
    AllCancelled(v'.log, v.books[s.marketId], NewOrder(s, freshId, v'.nextSeqId, nowMs));
  }
}
