/** What the replayed ledgers, the replayed orders and the errors of replay say about the log. */
module Ledgers {
  import opened Domain
  import opened Books
  import opened Matching
  import opened MatchTheory
  import opened Sequencing
  import opened Replaying
  import opened LegalLogs
  import opened EngineSpec
  import opened Steps
  import opened LogTheory

  // ---- The cancelled table ------------------------------------------------------------------------

  ghost predicate CancelOf(log: seq<SequencedEvent>, i: int, h: OrderHash) {
    0 <= i < |log| && log[i].event.OrderCancelled? && log[i].event.orderHash == h
  }

  ghost predicate CancelLogged(log: seq<SequencedEvent>, h: OrderHash) {
    exists i :: CancelOf(log, i, h)
  }

  /** The cancelled table holds exactly the hashes of the logged cancels, each as true. */
  ghost predicate CancelledIsLogged(log: seq<SequencedEvent>, cancelled: map<OrderHash, bool>) {
    forall h :: (h in cancelled <==> CancelLogged(log, h)) && (h in cancelled ==> cancelled[h])
  }

  lemma EventCancelled(w: Working, se: SequencedEvent)
    requires ApplyEvent(w, se).Ok?
    ensures ApplyEvent(w, se).value.ledger.cancelled
         == if se.event.OrderCancelled? then w.ledger.cancelled[se.event.orderHash := true] else w.ledger.cancelled
  {
  }

  lemma {:induction false} CancelledTable(log: seq<SequencedEvent>)
    requires LegalLog(log)
    ensures Replayed(log).Ok? && CancelledIsLogged(log, Replayed(log).value.ledger.cancelled)
    decreases |log|
  {
    if log == [] {
    } else {
      var n := |log| - 1;
      LastStep(log);
      CancelledTable(log[..n]);
      EventCancelled(WorkingBefore(log, n), log[n]);
      forall h ensures CancelLogged(log, h) <==> CancelLogged(log[..n], h) || CancelOf(log, n, h) {
        OneCancelMore(log, h);
      }
    }
  }

  lemma OneCancelMore(log: seq<SequencedEvent>, h: OrderHash)
    requires log != []
    ensures var n := |log| - 1;
            CancelLogged(log, h) <==> CancelLogged(log[..n], h) || CancelOf(log, n, h)
  {
    var n := |log| - 1;
    if CancelLogged(log, h) {
      var i :| CancelOf(log, i, h);
      if i < n { assert CancelOf(log[..n], i, h); }
    }
    if CancelLogged(log[..n], h) {
      var i :| CancelOf(log[..n], i, h);
      assert CancelOf(log, i, h);
    }
  }

  /** The live table too: a hash is in it exactly if the log cancels it. */
  lemma LiveCancelled(v: EngineView)
    requires Inv(v)
    ensures CancelledIsLogged(v.log, v.ledger.cancelled)
  {
    CancelledTable(v.log);
  }

  // ---- The last event of an order -----------------------------------------------------------------

  predicate Touches(e: Event, id: OrderId) {
    (e.OrderAccepted? && e.order.terms.orderId == id) || Concerns(e, id)
  }

  ghost predicate LastTouch(log: seq<SequencedEvent>, i: int, id: OrderId) {
    0 <= i < |log| && Touches(log[i].event, id) && forall j :: i < j < |log| ==> !Touches(log[j].event, id)
  }

  /** The status an order has after this event, if it is the last that names it. */
  predicate StatusAfter(e: Event, o: Order) {
    match e
    case OrderAccepted(_) => o.status == Open && o.filled == 0
    case FillEvent(_) => o.filled > 0 && o.status == if o.filled < o.terms.size then PartiallyFilled else Filled
    case OrderCancelled(_, _, reason) => o.status == if reason == SelfTradePrevention then CancelledStp else Cancelled
    case _ => false
  }

  lemma EventTouches(w: Working, se: SequencedEvent, id: OrderId)
    requires LegalEvent(w, se) && ApplyEvent(w, se).Ok?
    ensures var orders := ApplyEvent(w, se).value.orders;
            && (id in orders <==> id in w.orders || (se.event.OrderAccepted? && Touches(se.event, id)))
            && (id in orders && Touches(se.event, id) ==>
                  orders[id].lastUpdate == se.seqId && StatusAfter(se.event, orders[id]))
            && (id in w.orders && !Touches(se.event, id) ==> orders[id] == w.orders[id])
  {
  }

  /** The order has the status and the update number of the last event that names it. */
  ghost predicate Decided(log: seq<SequencedEvent>, id: OrderId, o: Order) {
    exists i :: LastTouch(log, i, id) && o.lastUpdate == i + 1 && StatusAfter(log[i].event, o)
  }

  lemma DecidedLater(log: seq<SequencedEvent>, id: OrderId, o: Order)
    requires log != [] && Decided(log[..|log| - 1], id, o) && !Touches(log[|log| - 1].event, id)
    ensures Decided(log, id, o)
  {
    var n := |log| - 1;
    var i :| LastTouch(log[..n], i, id) && o.lastUpdate == i + 1 && StatusAfter(log[..n][i].event, o);
    assert LastTouch(log, i, id);
  }

  lemma DecidedNow(log: seq<SequencedEvent>, id: OrderId, o: Order)
    requires log != [] && o.lastUpdate == |log| && StatusAfter(log[|log| - 1].event, o)
    requires Touches(log[|log| - 1].event, id)
    ensures Decided(log, id, o)
  {
    assert LastTouch(log, |log| - 1, id);
  }

  /** Every replayed order has the status and the update number of the last event that names it. */
  lemma {:induction false} LastEventDecides(log: seq<SequencedEvent>, id: OrderId)
    requires LegalLog(log)
    ensures Replayed(log).Ok?
    ensures id in Replayed(log).value.orders ==> Decided(log, id, Replayed(log).value.orders[id])
    decreases |log|
  {
    if log == [] {
    } else {
      var n := |log| - 1;
      LastStep(log);
      LegalAt(log, n);
      LastEventDecides(log[..n], id);
      EventTouches(WorkingBefore(log, n), log[n], id);
      if id in Replayed(log).value.orders {
        var o := Replayed(log).value.orders[id];
        if Touches(log[n].event, id) {
          DecidedNow(log, id, o);
        } else {
          DecidedLater(log, id, o);
        }
      }
    }
  }

  // ---- The live maker -----------------------------------------------------------------------------

  /** A maker that traded: more filled by the size of its fill, stamped with the taker's number, closed when full. */
  lemma TradedMaker(book: Orders, o: Order, nowMs: nat, k: nat)
    requires BookOk(book) && Arriving(o) && k < |Match(book, o, o.terms.createdSequence, nowMs).fills|
    ensures var m := Match(book, o, o.terms.createdSequence, nowMs);
            var id := m.fills[k].makerOrderId;
            && id in book && id in m.orders && m.orders[id].terms == book[id].terms
            && m.orders[id].filled == book[id].filled + m.fills[k].size <= book[id].terms.size
            && m.orders[id].lastUpdate == o.terms.createdSequence
            && m.orders[id].status == if m.orders[id].filled == book[id].terms.size then Filled else PartiallyFilled
  {
    var makers := Makers(book, o);
    MakersAreMakers(book, o);
    WalkFills(book, o, makers, o.terms.createdSequence, nowMs);
    WalkMakers(book, o, makers, o.terms.createdSequence, nowMs);
    assert makers[k] in makers;
  }

  // ---- The rebuilt idempotency table --------------------------------------------------------------

  /** A resumed sequencer takes the acceptance time of a record from the event. */
  lemma {:induction false} RebuiltTime(log: seq<SequencedEvent>, i: nat)
    requires LegalLog(log) && i < |log| && log[i].event.OrderAccepted?
    ensures var key := KeyOf(log[i].event.order.terms);
            key in RebuildTable(log) && RebuildTable(log)[key].acceptedAtMs == log[i].timestampMs
    decreases |log|
  {
    var n := |log| - 1;
    LastStep(log);
    if i < n {
      RebuiltTime(log[..n], i);
      if log[n].event.OrderAccepted? { AcceptancesOrdered(log, i, n); }
    }
  }

  // ---- The errors of replay ---------------------------------------------------------------------------

  /** The first event that cannot be applied, and what is wrong with it. */
  ghost predicate FailsAt(w: Working, events: seq<SequencedEvent>, i: nat, e: ReplayError) {
    && i < |events| && Fold(w, events[..i]).Ok?
    && var before := Fold(w, events[..i]).value;
    match e
    case SeqIdGap(expected, found) =>
      before.lastSeq != 0 && expected == before.lastSeq + 1 && found == events[i].seqId && found != expected
    case UnknownOrder(id) => id !in before.orders && Concerns(events[i].event, id)
  }

  /** Replay stops at the first event that skips a number or names an unknown order, and says which. */
  lemma {:induction false} ErrorTells(w: Working, events: seq<SequencedEvent>)
    requires Fold(w, events).Err?
    ensures exists i: nat :: FailsAt(w, events, i, Fold(w, events).error)
    decreases |events|
  {
    if ApplyEvent(w, events[0]).Err? {
      assert events[..0] == [];
      assert FailsAt(w, events, 0, Fold(w, events).error);
    } else {
      var next := ApplyEvent(w, events[0]).value;
      ErrorTells(next, events[1..]);
      var i: nat :| FailsAt(next, events[1..], i, Fold(next, events[1..]).error);
      assert events[..i + 1][1..] == events[1..][..i];
      assert FailsAt(w, events, i + 1, Fold(w, events).error);
    }
  }
}
