/** The shape of the log, and what is final: blocks of own fills, no fill after a cancel. */
module Grammar {
  import opened Domain
  import opened Books
  import opened Matching
  import opened MatchTheory
  import opened MatchReplay
  import opened Sequencing
  import opened Replaying
  import opened LegalLogs
  import opened EngineSpec
  import opened Live
  import opened Steps
  import opened Runs
  import opened Restart
  import opened LogTheory

  // ---- Blocks --------------------------------------------------------------------------------------

  /** Positions `from` to `to` hold fills stamped with the given number. */
  ghost predicate OwnFills(log: seq<SequencedEvent>, from: int, to: int, seqId: nat)
    requires 0 <= from <= to <= |log|
  {
    forall j :: from <= j < to ==> log[j].event.FillEvent? && log[j].event.fill.sequenceId == seqId
  }

  /** Between the acceptance at `a` and position `i` there are only fills of that acceptance. */
  ghost predicate InBlock(log: seq<SequencedEvent>, i: int, a: int, id: OrderId) {
    0 <= a < i < |log| && AcceptedBy(log, a, id) && OwnFills(log, a + 1, i, a + 1)
  }

  ghost predicate IsStp(e: Event) {
    e.OrderCancelled? && e.cancelReason == SelfTradePrevention
  }

  /** A fill, and an STP cancel, stands in the block of the taker it names. */
  ghost predicate WellPlaced(log: seq<SequencedEvent>, i: int)
    requires 0 <= i < |log|
  {
    && (log[i].event.FillEvent? ==> var f := log[i].event.fill; InBlock(log, i, f.sequenceId - 1, f.takerOrderId))
    && (IsStp(log[i].event) ==> exists a :: InBlock(log, i, a, log[i].event.orderId))
  }

  ghost predicate WellFormedLog(log: seq<SequencedEvent>) {
    forall i :: 0 <= i < |log| ==> WellPlaced(log, i)
  }

  lemma Unplaced(log: seq<SequencedEvent>, more: seq<SequencedEvent>, i: int)
    requires 0 <= i < |log| && WellPlaced(log, i)
    ensures WellPlaced(log + more, i)
  {
    var all := log + more;
    if log[i].event.FillEvent? {
      assert InBlock(all, i, log[i].event.fill.sequenceId - 1, log[i].event.fill.takerOrderId);
    }
    if IsStp(log[i].event) {
      var a :| InBlock(log, i, a, log[i].event.orderId);
      assert InBlock(all, i, a, log[i].event.orderId);
    }
  }

  lemma PlainAppend(log: seq<SequencedEvent>, se: SequencedEvent)
    requires WellFormedLog(log) && !se.event.FillEvent? && !IsStp(se.event)
    ensures WellFormedLog(log + [se])
  {
    forall i | 0 <= i < |log| + 1 ensures WellPlaced(log + [se], i) {
      if i < |log| { Unplaced(log, [se], i); }
    }
  }

  /** An acceptance, its own fills, and at most one STP cancel. */
  lemma BlockAppend(log: seq<SequencedEvent>, accepted: SequencedEvent, tail: seq<SequencedEvent>, fills: nat)
    requires WellFormedLog(log) && accepted.event.OrderAccepted?
    requires fills <= |tail| <= fills + 1
    requires forall k :: 0 <= k < fills ==>
               && tail[k].event.FillEvent? && tail[k].event.fill.sequenceId == |log| + 1
               && tail[k].event.fill.takerOrderId == accepted.event.order.terms.orderId
    requires |tail| == fills + 1 ==>
               IsStp(tail[fills].event) && tail[fills].event.orderId == accepted.event.order.terms.orderId
    ensures WellFormedLog(log + [accepted] + tail)
  {
    var all := log + [accepted] + tail;
    var id := accepted.event.order.terms.orderId;
    PlainAppend(log, accepted);
    forall i | 0 <= i < |all| ensures WellPlaced(all, i) {
      if i <= |log| {
        Unplaced(log + [accepted], tail, i);
      } else {
        assert all[i] == tail[i - |log| - 1];
        assert forall j :: |log| + 1 <= j < i ==> all[j] == tail[j - |log| - 1];
        assert InBlock(all, i, |log|, id);
      }
    }
  }

  // ---- Every run writes such a log -------------------------------------------------------------------

  /** The log after an acceptance that finds its book. */
  lemma AcceptedLog(v: EngineView, o: Order, nowMs: nat, world: World)
    requires o.terms.marketId in v.books
    ensures var m := Match(v.books[o.terms.marketId], o, o.terms.createdSequence, nowMs);
            AcceptOrder(v, o, nowMs, world).0.log
            == v.log + [SequencedEvent(v.nextSeqId, world.wall(v.nextSeqId), OrderAccepted(o))]
               + Stamp(v.nextSeqId + 1, FillEvents(m.fills) + StpEvents(m.taker), world.wall)
  {
    var m := Match(v.books[o.terms.marketId], o, o.terms.createdSequence, nowMs);
    AdmitAppends(v, o, world.wall);
    SettleAppends(Admit(v, o, world.wall), o.terms.marketId, m, world.wall);
    assert AcceptOrder(v, o, nowMs, world).0 == Settle(Admit(v, o, world.wall), o.terms.marketId, m, world.wall);
  }

  lemma AdmitAppends(v: EngineView, o: Order, wall: nat -> nat)
    ensures var v0 := Admit(v, o, wall);
            && v0.log == v.log + [SequencedEvent(v.nextSeqId, wall(v.nextSeqId), OrderAccepted(o))]
            && v0.nextSeqId == v.nextSeqId + 1
  {
  }

  lemma SettleAppends(v: EngineView, market: MarketId, m: MatchResult, wall: nat -> nat)
    ensures Settle(v, market, m, wall).log == v.log + Stamp(v.nextSeqId, FillEvents(m.fills) + StpEvents(m.taker), wall)
  {
  }

  /** What a match writes: the fills carry the acceptance's number and the taker's id. */
  lemma MatchWritesBlock(log: seq<SequencedEvent>, accepted: SequencedEvent, book: Orders, o: Order, nowMs: nat,
                         tail: seq<SequencedEvent>, wall: nat -> nat)
    requires WellFormedLog(log) && BookOk(book) && Arriving(o)
    requires o.terms.createdSequence == |log| + 1 && accepted.event == OrderAccepted(o)
    requires var m := Match(book, o, o.terms.createdSequence, nowMs);
             tail == Stamp(|log| + 2, FillEvents(m.fills) + StpEvents(m.taker), wall)
    ensures WellFormedLog(log + [accepted] + tail)
  {
    var m := Match(book, o, o.terms.createdSequence, nowMs);
    FillsAreOwn(book, o, nowMs);
    BlockAppend(log, accepted, tail, |m.fills|);
  }

  lemma FillsAreOwn(book: Orders, o: Order, nowMs: nat)
    requires BookOk(book) && Arriving(o)
    ensures var m := Match(book, o, o.terms.createdSequence, nowMs);
            && m.taker.terms == o.terms
            && forall k :: 0 <= k < |m.fills| ==>
                 m.fills[k].sequenceId == o.terms.createdSequence && m.fills[k].takerOrderId == o.terms.orderId
  {
    MakersAreMakers(book, o);
    WalkFills(book, o, Makers(book, o), o.terms.createdSequence, nowMs);
    WalkFrame(book, o, Makers(book, o), o.terms.createdSequence, nowMs);
  }

  lemma AcceptWritesBlock(v: EngineView, o: Order, nowMs: nat, world: World)
    requires WellFormedLog(v.log) && v.nextSeqId == |v.log| + 1
    requires o.terms.createdSequence == v.nextSeqId && Arriving(o)
    requires o.terms.marketId in v.books ==> BookOk(v.books[o.terms.marketId])
    ensures WellFormedLog(AcceptOrder(v, o, nowMs, world).0.log)
  {
    var accepted := SequencedEvent(v.nextSeqId, world.wall(v.nextSeqId), OrderAccepted(o));
    if o.terms.marketId !in v.books {
      PlainAppend(v.log, accepted);
    } else {
      var book := v.books[o.terms.marketId];
      var m := Match(book, o, o.terms.createdSequence, nowMs);
      var tail := Stamp(v.nextSeqId + 1, FillEvents(m.fills) + StpEvents(m.taker), world.wall);
      AcceptedLog(v, o, nowMs, world);
      MatchWritesBlock(v.log, accepted, book, o, nowMs, tail, world.wall);
    }
  }

  ghost predicate IsPlain(e: Event) {
    !e.OrderAccepted? && !e.FillEvent? && !IsStp(e)
  }

  /** Every other operation writes at most one event, and never a fill. */
  lemma PlainStep(v: EngineView, op: Op, world: World)
    requires !op.OpSubmit? && !op.OpCancelAll? && !op.OpRestart?
    ensures var log := Step(v, op, world).0.log;
            log == v.log || (|log| == |v.log| + 1 && log == v.log + [log[|v.log|]] && IsPlain(log[|v.log|].event))
  {
  }

  lemma {:induction false} ForceWrites(v: EngineView, targets: seq<(OrderId, OrderHash)>, world: World)
    requires WellFormedLog(v.log)
    ensures WellFormedLog(ForceCancels(v, targets, world).log)
    decreases |targets|
  {
    if targets == [] {
    } else {
      var rest := targets[..|targets| - 1];
      ForceWrites(v, rest, world);
      var v0 := ForceCancels(v, rest, world);
      var last := targets[|targets| - 1];
      var se := SequencedEvent(v0.nextSeqId, world.wall(v0.nextSeqId), OrderCancelled(last.0, last.1, AdminForce));
      PlainAppend(v0.log, se);
    }
  }

  lemma SubmitWrites(v: EngineView, s: SignedOrder, nowMs: nat, freshId: OrderId, world: World)
    requires Inv(v) && WellFormedLog(v.log)
    ensures WellFormedLog(Submit(v, s, nowMs, freshId, world).0.log)
  {
    if Passes(v, s, nowMs, world) {
      if s.marketId in v.books { assert BookTracks(v.books[s.marketId], s.marketId, WorkingOf(v)); }
      AcceptWritesBlock(v, NewOrder(s, freshId, v.nextSeqId, nowMs), nowMs, world);
    }
  }

  lemma StepWrites(v: EngineView, op: Op, world: World)
    requires Inv(v) && WellFormedLog(v.log)
    ensures WellFormedLog(Step(v, op, world).0.log)
  {
    if op.OpSubmit? {
      SubmitWrites(v, op.signed, op.nowMs, op.freshId, world);
    } else if op.OpCancelAll? {
      ForceWrites(v, AcceptedIn(v.log, op.marketId), world);
    } else if op.OpRestart? {
      RestartedLog(v);
    } else {
      PlainStep(v, op, world);
      var log := Step(v, op, world).0.log;
      if log != v.log { PlainAppend(v.log, log[|v.log|]); }
    }
  }

  /** The log of every run is numbered from 1 without gaps, legal, and made of such blocks. */
  lemma {:induction false} RunWrites(v: EngineView, ops: seq<Op>, world: World)
    requires CanRun(v, ops, world) && WellFormedLog(v.log)
    ensures var log := Run(v, ops, world).log;
            && LegalLog(log) && Replayed(log).Ok? && WellFormedLog(log)
            && (forall i :: 0 <= i < |log| ==> log[i].seqId == i + 1)
    decreases |ops|
  {
    if ops == [] {
      forall i | 0 <= i < |v.log| ensures v.log[i].seqId == i + 1 { LegalAt(v.log, i); }
    } else {
      FirstStep(v, ops, world);
      StepWrites(v, ops[0], world);
      RunWrites(Step(v, ops[0], world).0, ops[1..], world);
    }
  }

  // ---- Finality in the book ---------------------------------------------------------------------------

  /** Every closed order of the first books is still there, unchanged, in the second. */
  ghost predicate KeepsClosed(a: map<MarketId, Orders>, b: map<MarketId, Orders>) {
    forall m, id :: m in a && id in a[m] && a[m][id].Closed() ==> m in b && id in b[m] && b[m][id] == a[m][id]
  }

  lemma AcceptKeepsClosed(v: EngineView, o: Order, nowMs: nat, world: World)
    requires forall m :: m in v.books ==> o.terms.orderId !in v.books[m]
    ensures KeepsClosed(v.books, AcceptOrder(v, o, nowMs, world).0.books)
  {
    var market := o.terms.marketId;
    if market in v.books {
      var book := v.books[market];
      WalkFrame(book, o, Makers(book, o), o.terms.createdSequence, nowMs);
    }
  }

  lemma FreshInNoBook(v: EngineView, freshId: OrderId)
    requires Inv(v) && freshId !in v.index
    ensures forall m :: m in v.books ==> freshId !in v.books[m]
  {
    forall m | m in v.books ensures freshId !in v.books[m] {
      assert BookTracks(v.books[m], m, WorkingOf(v));
    }
  }

  lemma SubmitKeepsClosed(v: EngineView, s: SignedOrder, nowMs: nat, freshId: OrderId, world: World)
    requires forall m :: m in v.books ==> freshId !in v.books[m]
    ensures KeepsClosed(v.books, Submit(v, s, nowMs, freshId, world).0.books)
  {
    if Passes(v, s, nowMs, world) {
      AcceptKeepsClosed(v, NewOrder(s, freshId, v.nextSeqId, nowMs), nowMs, world);
    }
  }

  lemma OtherKeepsClosed(v: EngineView, op: Op, world: World)
    requires !op.OpSubmit? && !op.OpCancel? && !op.OpRestart?
    ensures KeepsClosed(v.books, Step(v, op, world).0.books)
  {
    AdminBooks(v, op, world);
  }

  lemma CancelKeepsClosed(v: EngineView, id: OrderId, trader: TraderId, world: World)
    ensures KeepsClosed(v.books, Cancel(v, id, trader, world).0.books)
  {
  }

  lemma StepKeepsClosed(v: EngineView, op: Op, world: World)
    requires Inv(v) && Fresh(v, op) && !op.OpRestart?
    ensures KeepsClosed(v.books, Step(v, op, world).0.books)
  {
    if op.OpSubmit? {
      FreshInNoBook(v, op.freshId);
      SubmitKeepsClosed(v, op.signed, op.nowMs, op.freshId, world);
    } else if op.OpCancel? {
      CancelKeepsClosed(v, op.orderId, op.traderId, world);
    } else {
      OtherKeepsClosed(v, op, world);
    }
  }

  /** The one market whose book may hold the order, and the order as it would be found there. */
  ghost predicate OnlyAs(v: EngineView, market: MarketId, o: Order) {
    var id := o.terms.orderId;
    && id in v.index && v.index[id] == market
    && (forall m :: m in v.books && id in v.books[m] ==> m == market && v.books[m][id] == o)
  }

  /** Nothing but `id` enters a book. */
  ghost predicate AddsOnly(a: map<MarketId, Orders>, b: map<MarketId, Orders>, id: OrderId) {
    forall m, x :: m in b && x in b[m] && x != id ==> m in a && x in a[m]
  }

  ghost predicate AddsNone(a: map<MarketId, Orders>, b: map<MarketId, Orders>) {
    forall m, x :: m in b && x in b[m] ==> m in a && x in a[m]
  }

  lemma AcceptAdds(v: EngineView, o: Order, nowMs: nat, world: World)
    ensures AddsOnly(v.books, AcceptOrder(v, o, nowMs, world).0.books, o.terms.orderId)
    ensures AcceptOrder(v, o, nowMs, world).0.index == v.index[o.terms.orderId := o.terms.marketId]
  {
    var market := o.terms.marketId;
    if market in v.books {
      WalkFrame(v.books[market], o, Makers(v.books[market], o), o.terms.createdSequence, nowMs);
    }
  }

  lemma SubmitAdds(v: EngineView, s: SignedOrder, nowMs: nat, freshId: OrderId, world: World)
    ensures AddsOnly(v.books, Submit(v, s, nowMs, freshId, world).0.books, freshId)
    ensures var index := Submit(v, s, nowMs, freshId, world).0.index;
            index == v.index || index == v.index[freshId := s.marketId]
  {
    SubmitCases(v, s, nowMs, freshId, world);
    if Passes(v, s, nowMs, world) {
      AcceptAdds(v, NewOrder(s, freshId, v.nextSeqId, nowMs), nowMs, world);
    }
  }

  lemma CancelAdds(v: EngineView, id: OrderId, trader: TraderId, world: World)
    ensures AddsNone(v.books, Cancel(v, id, trader, world).0.books)
    ensures Cancel(v, id, trader, world).0.index == v.index
  {
  }

  lemma AddMarketAdds(v: EngineView, config: MarketConfig)
    ensures AddsNone(v.books, AddMarket(v, config).books) && AddMarket(v, config).index == v.index
  {
  }

  lemma AdminAdds(v: EngineView, op: Op, world: World)
    requires !op.OpSubmit? && !op.OpCancel? && !op.OpRestart?
    ensures AddsNone(v.books, Step(v, op, world).0.books) && Step(v, op, world).0.index == v.index
  {
    match op
    case OpPause(m, who) => if m in v.markets { AddMarketAdds(v, v.markets[m].(status := Paused)); }
    case OpResume(m, who) => if m in v.markets { AddMarketAdds(v, v.markets[m].(status := Active)); }
    case OpCancelAll(m) => ForceCancelsBooks(v, AcceptedIn(v.log, m), world);
    case OpAddMarket(config) => AddMarketAdds(v, config);
  }

  /** No known order enters a book, and the index keeps what it knows. */
  lemma StepAdds(v: EngineView, op: Op, world: World, id: OrderId)
    requires Fresh(v, op) && id in v.index && !op.OpRestart?
    ensures var v' := Step(v, op, world).0;
            && id in v'.index && v'.index[id] == v.index[id]
            && (forall m :: m in v'.books && id in v'.books[m] ==> m in v.books && id in v.books[m])
  {
    if op.OpSubmit? {
      SubmitAdds(v, op.signed, op.nowMs, op.freshId, world);
    } else if op.OpCancel? {
      CancelAdds(v, op.orderId, op.traderId, world);
    } else {
      AdminAdds(v, op, world);
    }
  }

  ghost predicate Names(e: Event, id: OrderId) {
    e.FillEvent? && (e.fill.takerOrderId == id || e.fill.makerOrderId == id)
  }

  lemma EventKeepsClosed(w: Working, se: SequencedEvent, id: OrderId)
    requires LegalEvent(w, se) && ApplyEvent(w, se).Ok? && id in w.orders && w.orders[id].Closed()
    requires !Names(se.event, id)
    ensures id in ApplyEvent(w, se).value.orders && ApplyEvent(w, se).value.orders[id].Closed()
  {
  }

  /** The log has the order closed. */
  ghost predicate LogCloses(log: seq<SequencedEvent>, id: OrderId) {
    Replayed(log).Ok? && id in Replayed(log).value.orders && Replayed(log).value.orders[id].Closed()
  }

  /** An order that is closed stays so while no fill names it. */
  lemma {:induction false} ClosedStays(log: seq<SequencedEvent>, n: nat, id: OrderId)
    requires LegalLog(log) && n <= |log| && LogCloses(log[..n], id)
    requires forall k :: n <= k < |log| ==> !Names(log[k].event, id)
    ensures LogCloses(log, id)
    decreases |log|
  {
    if n == |log| {
      assert log[..n] == log;
    } else {
      var last := |log| - 1;
      LastStep(log);
      assert log[..last][..n] == log[..n];
      ClosedStays(log[..last], n, id);
      EventKeepsClosed(WorkingBefore(log, last), log[last], id);
    }
  }

  lemma {:induction false} ForceLog(v: EngineView, targets: seq<(OrderId, OrderHash)>, world: World)
    ensures var log := ForceCancels(v, targets, world).log;
            && |v.log| <= |log| && log[..|v.log|] == v.log
            && (forall i :: |v.log| <= i < |log| ==> log[i].event.OrderCancelled?)
    decreases |targets|
  {
    if targets == [] {
    } else {
      ForceLog(v, targets[..|targets| - 1], world);
    }
  }

  /** The log grew, and no new fill names the order. */
  ghost predicate GrowsWithout(log: seq<SequencedEvent>, log': seq<SequencedEvent>, id: OrderId) {
    && |log| <= |log'| && log'[..|log|] == log
    && (forall k :: |log| <= k < |log'| ==> !Names(log'[k].event, id))
  }

  lemma AcceptNames(v: EngineView, o: Order, nowMs: nat, world: World, id: OrderId)
    requires Arriving(o) && o.terms.orderId != id
    requires o.terms.marketId in v.books ==>
               var book := v.books[o.terms.marketId]; BookOk(book) && (id in book ==> book[id].Closed())
    ensures GrowsWithout(v.log, AcceptOrder(v, o, nowMs, world).0.log, id)
  {
    var accepted := SequencedEvent(v.nextSeqId, world.wall(v.nextSeqId), OrderAccepted(o));
    if o.terms.marketId in v.books {
      AcceptedLog(v, o, nowMs, world);
      MatchNames(v.books[o.terms.marketId], o, nowMs, v.nextSeqId + 1, world.wall, id);
      BlockWithout(v.log, accepted, MatchTail(v.books[o.terms.marketId], o, nowMs, v.nextSeqId + 1, world.wall), id);
    } else {
      OneMoreWithout(v.log, AcceptOrder(v, o, nowMs, world).0.log, id);
    }
  }

  /** What a match logs after the acceptance. */
  ghost function MatchTail(book: Orders, o: Order, nowMs: nat, next: nat, wall: nat -> nat): seq<SequencedEvent> {
    var m := Match(book, o, o.terms.createdSequence, nowMs);
    Stamp(next, FillEvents(m.fills) + StpEvents(m.taker), wall)
  }

  lemma MatchNames(book: Orders, o: Order, nowMs: nat, next: nat, wall: nat -> nat, id: OrderId)
    requires BookOk(book) && Arriving(o) && o.terms.orderId != id && (id in book ==> book[id].Closed())
    ensures forall k :: 0 <= k < |MatchTail(book, o, nowMs, next, wall)| ==>
              !Names(MatchTail(book, o, nowMs, next, wall)[k].event, id)
  {
    var m, tail := Match(book, o, o.terms.createdSequence, nowMs), MatchTail(book, o, nowMs, next, wall);
    forall k | 0 <= k < |tail| ensures !Names(tail[k].event, id) {
      if k < |m.fills| {
        FillNamesOpen(book, o, o.terms.createdSequence, nowMs, k);
        assert tail[k].event == FillEvent(m.fills[k]);
      }
    }
  }

  lemma BlockWithout(log: seq<SequencedEvent>, accepted: SequencedEvent, tail: seq<SequencedEvent>, id: OrderId)
    requires accepted.event.OrderAccepted? && forall k :: 0 <= k < |tail| ==> !Names(tail[k].event, id)
    ensures GrowsWithout(log, log + [accepted] + tail, id)
  {
  }

  lemma SubmitNames(v: EngineView, s: SignedOrder, nowMs: nat, freshId: OrderId, world: World, id: OrderId)
    requires Inv(v) && id != freshId
    requires forall m :: m in v.books && id in v.books[m] ==> v.books[m][id].Closed()
    ensures GrowsWithout(v.log, Submit(v, s, nowMs, freshId, world).0.log, id)
  {
    SubmitCases(v, s, nowMs, freshId, world);
    if Passes(v, s, nowMs, world) {
      if s.marketId in v.books { assert BookTracks(v.books[s.marketId], s.marketId, WorkingOf(v)); }
      AcceptNames(v, NewOrder(s, freshId, v.nextSeqId, nowMs), nowMs, world, id);
    }
  }

  lemma OneMoreWithout(log: seq<SequencedEvent>, log': seq<SequencedEvent>, id: OrderId)
    requires log' == log || (|log'| == |log| + 1 && log' == log + [log'[|log|]] && !log'[|log|].event.FillEvent?)
    ensures GrowsWithout(log, log', id)
  {
  }

  lemma OtherNames(v: EngineView, op: Op, world: World, id: OrderId)
    requires !op.OpSubmit? && !op.OpRestart?
    ensures GrowsWithout(v.log, Step(v, op, world).0.log, id)
  {
    if op.OpCancelAll? {
      ForceLog(v, AcceptedIn(v.log, op.marketId), world);
    } else {
      PlainStep(v, op, world);
      OneMoreWithout(v.log, Step(v, op, world).0.log, id);
    }
  }

  /** Only an order that is open in a book, or new, gets into a fill. */
  lemma StepNames(v: EngineView, op: Op, world: World, id: OrderId)
    requires Inv(v) && Fresh(v, op) && id in v.index
    requires forall m :: m in v.books && id in v.books[m] ==> v.books[m][id].Closed()
    ensures GrowsWithout(v.log, Step(v, op, world).0.log, id)
  {
    if op.OpSubmit? {
      SubmitNames(v, op.signed, op.nowMs, op.freshId, world, id);
    } else if op.OpRestart? {
      RestartedLog(v);
      OneMoreWithout(v.log, Restarted(v).log, id);
    } else {
      OtherNames(v, op, world, id);
    }
  }

  /** A restart finds a closed order nowhere. */
  lemma RestartDropsClosed(v: EngineView, market: MarketId, o: Order)
    requires Inv(v) && OnlyAs(v, market, o) && LogCloses(v.log, o.terms.orderId)
    ensures OnlyAs(Restarted(v), market, o)
  {
    RestartedLog(v);
    if v.log != [] { RestartedFields(v); }
  }

  lemma StepOnlyAs(v: EngineView, op: Op, world: World, market: MarketId, o: Order)
    requires Inv(v) && Fresh(v, op) && Inv(Step(v, op, world).0)
    requires OnlyAs(v, market, o) && o.Closed() && LogCloses(v.log, o.terms.orderId)
    ensures OnlyAs(Step(v, op, world).0, market, o) && LogCloses(Step(v, op, world).0.log, o.terms.orderId)
  {
    var v', id := Step(v, op, world).0, o.terms.orderId;
    StepNames(v, op, world, id);
    ClosedStays(v'.log, |v.log|, id);
    if op.OpRestart? {
      RestartDropsClosed(v, market, o);
    } else {
      StepAdds(v, op, world, id);
      StepKeepsClosed(v, op, world);
    }
  }

  lemma {:induction false} RunOnlyAs(v: EngineView, ops: seq<Op>, world: World, market: MarketId, o: Order)
    requires CanRun(v, ops, world) && OnlyAs(v, market, o) && o.Closed() && LogCloses(v.log, o.terms.orderId)
    ensures OnlyAs(Run(v, ops, world), market, o)
    decreases |ops|
  {
    if ops == [] {
    } else {
      FirstStep(v, ops, world);
      StepOnlyAs(v, ops[0], world, market, o);
      RunOnlyAs(Step(v, ops[0], world).0, ops[1..], world, market, o);
    }
  }

  lemma {:induction false} RunKeepsClosed(v: EngineView, ops: seq<Op>, world: World)
    requires CanRun(v, ops, world) && NoRestart(ops)
    ensures KeepsClosed(v.books, Run(v, ops, world).books)
    decreases |ops|
  {
    if ops == [] {
    } else {
      assert ops[0] in ops && forall op :: op in ops[1..] ==> op in ops;
      FirstStep(v, ops, world);
      StepKeepsClosed(v, ops[0], world);
      RunKeepsClosed(Step(v, ops[0], world).0, ops[1..], world);
    }
  }

  /**
   * Once an order in a book is filled or cancelled, no later operation changes or reopens it: it is found
   * unchanged or, after a restart, not at all.
   */
  lemma ClosedIsFinal(v: EngineView, ops: seq<Op>, world: World, market: MarketId, id: OrderId)
    requires CanRun(v, ops, world) && market in v.books && id in v.books[market] && v.books[market][id].Closed()
    ensures var books := Run(v, ops, world).books;
            && (forall m :: m in books && id in books[m] ==> m == market && books[m][id] == v.books[market][id])
            && (NoRestart(ops) ==> market in books && id in books[market])
  {
    var o, w := v.books[market][id], WorkingOf(v);
    forall m | m in v.books && id in v.books[m] ensures m == market && id in w.orders && o.terms.orderId == id {
      assert BookTracks(v.books[m], m, w) && BookTracks(v.books[market], market, w);
    }
    RunOnlyAs(v, ops, world, market, o);
    if NoRestart(ops) { RunKeepsClosed(v, ops, world); }
  }

  // ---- Finality in the log ----------------------------------------------------------------------------

  /** No fill names an order after its cancel. */
  ghost predicate CancelsFinal(log: seq<SequencedEvent>) {
    forall i, j :: 0 <= i < j < |log| && log[i].event.OrderCancelled? ==> !Names(log[j].event, log[i].event.orderId)
  }

  /** In such a log a cancelled order is known and replays as closed. */
  lemma {:induction false} CancelledReplaysClosed(log: seq<SequencedEvent>, i: nat)
    requires LegalLog(log) && CancelsFinal(log) && i < |log| && log[i].event.OrderCancelled?
    ensures Replayed(log).Ok?
    ensures var id := log[i].event.orderId; id in Replayed(log).value.orders && Replayed(log).value.orders[id].Closed()
    decreases |log|
  {
    var n := |log| - 1;
    LastStep(log);
    if i < n {
      CancelledReplaysClosed(log[..n], i);
      EventKeepsClosed(WorkingBefore(log, n), log[n], log[i].event.orderId);
    }
  }

  lemma CancelsFinalAppend(log: seq<SequencedEvent>, more: seq<SequencedEvent>)
    requires CancelsFinal(log)
    requires forall i, k :: 0 <= i < |log| && log[i].event.OrderCancelled? && 0 <= k < |more| ==>
               !Names(more[k].event, log[i].event.orderId)
    requires forall k, l :: 0 <= k < l < |more| && more[k].event.OrderCancelled? ==> !more[l].event.FillEvent?
    ensures CancelsFinal(log + more)
  {
    var all := log + more;
    forall i, j | 0 <= i < j < |all| && all[i].event.OrderCancelled?
      ensures !Names(all[j].event, all[i].event.orderId)
    {
      if i >= |log| { assert all[i] == more[i - |log|] && all[j] == more[j - |log|]; }
    }
  }

  /** The makers of a match were open, so none of them was cancelled earlier in the log. */
  lemma MakersNotCancelled(v: EngineView, o: Order, nowMs: nat, i: nat, k: nat)
    requires Inv(v) && BooksSynced(v) && CancelsFinal(v.log) && Arriving(o)
    requires o.terms.marketId in v.books && o.terms.orderId !in v.index
    requires i < |v.log| && v.log[i].event.OrderCancelled?
    requires k < |Match(v.books[o.terms.marketId], o, o.terms.createdSequence, nowMs).fills|
    ensures var f := Match(v.books[o.terms.marketId], o, o.terms.createdSequence, nowMs).fills[k];
            !Names(FillEvent(f), v.log[i].event.orderId)
  {
    var w := WorkingOf(v);
    var m := o.terms.marketId;
    var book := v.books[m];
    CancelledReplaysClosed(v.log, i);
    assert BookTracks(book, m, w);
    FillNamesOpen(book, o, o.terms.createdSequence, nowMs, k);
    var maker := Match(book, o, o.terms.createdSequence, nowMs).fills[k].makerOrderId;
    assert Synced(w.orders, book[maker]);
  }

  lemma AcceptKeepsCancelsFinal(v: EngineView, o: Order, nowMs: nat, world: World)
    requires Inv(v) && BooksSynced(v) && CancelsFinal(v.log) && Arriving(o) && o.terms.orderId !in v.index
    ensures CancelsFinal(AcceptOrder(v, o, nowMs, world).0.log)
  {
    var accepted := SequencedEvent(v.nextSeqId, world.wall(v.nextSeqId), OrderAccepted(o));
    if o.terms.marketId !in v.books {
      CancelsFinalAppend(v.log, [accepted]);
    } else {
      var m := Match(v.books[o.terms.marketId], o, o.terms.createdSequence, nowMs);
      var tail := Stamp(v.nextSeqId + 1, FillEvents(m.fills) + StpEvents(m.taker), world.wall);
      forall i, k | 0 <= i < |v.log| && v.log[i].event.OrderCancelled? && 0 <= k < |m.fills|
        ensures !Names(FillEvent(m.fills[k]), v.log[i].event.orderId)
      {
        MakersNotCancelled(v, o, nowMs, i, k);
      }
      AcceptedLog(v, o, nowMs, world);
      BlockKeepsCancelsFinal(v.log, accepted, m, tail, v.nextSeqId + 1, world.wall);
    }
  }

  lemma BlockKeepsCancelsFinal(log: seq<SequencedEvent>, accepted: SequencedEvent, m: MatchResult,
                               tail: seq<SequencedEvent>, next: nat, wall: nat -> nat)
    requires CancelsFinal(log) && accepted.event.OrderAccepted?
    requires tail == Stamp(next, FillEvents(m.fills) + StpEvents(m.taker), wall)
    requires forall i, k :: 0 <= i < |log| && log[i].event.OrderCancelled? && 0 <= k < |m.fills| ==>
               !Names(FillEvent(m.fills[k]), log[i].event.orderId)
    ensures CancelsFinal(log + [accepted] + tail)
  {
    var more := [accepted] + tail;
    forall k | 0 <= k < |more|
      ensures more[k].event.FillEvent? ==> 1 <= k <= |m.fills| && more[k].event == FillEvent(m.fills[k - 1])
      ensures more[k].event.OrderCancelled? ==> k == |m.fills| + 1
    {
    }
    CancelsFinalAppend(log, more);
    assert log + [accepted] + tail == log + more;
  }

  lemma SubmitKeepsCancelsFinal(v: EngineView, s: SignedOrder, nowMs: nat, freshId: OrderId, world: World)
    requires Inv(v) && BooksSynced(v) && freshId !in v.index && CancelsFinal(v.log)
    ensures CancelsFinal(Submit(v, s, nowMs, freshId, world).0.log)
  {
    SubmitCases(v, s, nowMs, freshId, world);
    if Passes(v, s, nowMs, world) {
      var o := NewOrder(s, freshId, v.nextSeqId, nowMs);
      IntakeIsLegal(v, WorkingOf(v), s, nowMs, freshId, world);
      AcceptKeepsCancelsFinal(v, o, nowMs, world);
    }
  }

  lemma OtherKeepsCancelsFinal(v: EngineView, op: Op, world: World)
    requires !op.OpSubmit? && !op.OpCancelAll? && !op.OpRestart? && CancelsFinal(v.log)
    ensures CancelsFinal(Step(v, op, world).0.log)
  {
    PlainStep(v, op, world);
    var log := Step(v, op, world).0.log;
    if log != v.log { CancelsFinalAppend(v.log, [log[|v.log|]]); }
  }

  lemma StepKeepsCancelsFinal(v: EngineView, op: Op, world: World)
    requires Inv(v) && BooksSynced(v) && Fresh(v, op) && !op.OpCancelAll? && CancelsFinal(v.log)
    ensures CancelsFinal(Step(v, op, world).0.log)
  {
    if op.OpSubmit? {
      SubmitKeepsCancelsFinal(v, op.signed, op.nowMs, op.freshId, world);
    } else if op.OpRestart? {
      RestartedLog(v);
    } else {
      OtherKeepsCancelsFinal(v, op, world);
    }
  }

  /** Without forced cancels, no fill in the log of a run names an order after its cancel. */
  lemma {:induction false} CancelledIsFinal(v: EngineView, ops: seq<Op>, world: World)
    requires CanRun(v, ops, world) && BooksSynced(v) && CancelsFinal(v.log) && NoForce(ops)
    ensures CancelsFinal(Run(v, ops, world).log)
    decreases |ops|
  {
    if ops == [] {
    } else {
      assert ops[0] in ops;
      FirstStep(v, ops, world);
      StepKeeps(v, ops[0], world);
      StepKeepsCancelsFinal(v, ops[0], world);
      CancelledIsFinal(Step(v, ops[0], world).0, ops[1..], world);
    }
  }
}
