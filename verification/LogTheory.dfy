/** What the event log of any run says: fill totals, grammar, nonces, idempotency, finality. */
module LogTheory {
  import opened Basics
  import opened Domain
  import opened Matching
  import opened Sequencing
  import opened Replaying
  import opened LegalLogs
  import opened EngineSpec
  import opened Live
  import opened Steps
  import opened Restart

  // ---- Three ledgers -------------------------------------------------------------------------------

  function QtyIn(e: Event, id: OrderId): nat {
    if !e.FillEvent? then 0
    else (if e.fill.takerOrderId == id then e.fill.size else 0) + (if e.fill.makerOrderId == id then e.fill.size else 0)
  }

  /** The sizes of all logged fills that name the order. */
  function LoggedQty(log: seq<SequencedEvent>, id: OrderId): nat {
    if log == [] then 0 else QtyIn(log[0].event, id) + LoggedQty(log[1..], id)
  }

  function FilledOf(orders: Orders, id: OrderId): nat {
    if id in orders then orders[id].filled else 0
  }

  lemma EventQty(w: Working, se: SequencedEvent, id: OrderId)
    requires LegalEvent(w, se) && ApplyEvent(w, se).Ok?
    ensures FilledOf(ApplyEvent(w, se).value.orders, id) == FilledOf(w.orders, id) + QtyIn(se.event, id)
  {
  }

  lemma {:induction false} FoldQty(w: Working, events: seq<SequencedEvent>, id: OrderId)
    requires LegalFrom(w, events)
    ensures Fold(w, events).Ok?
    ensures FilledOf(Fold(w, events).value.orders, id) == FilledOf(w.orders, id) + LoggedQty(events, id)
    decreases |events|
  {
    if events == [] {
    } else {
      EventQty(w, events[0], id);
      FoldQty(ApplyEvent(w, events[0]).value, events[1..], id);
    }
  }

  /**
   * For every order ever accepted, the logged fills naming it, the ledger entry of its hash and, if it
   * rested, its own count are one number, and that number never exceeds its size.
   */
  lemma LedgersAgree(v: EngineView, i: int, id: OrderId)
    requires Inv(v) && AcceptedBy(v.log, i, id)
    ensures var t := v.log[i].event.order.terms;
            && LoggedQty(v.log, id) == Lookup(v.ledger.filled, t.orderHash, 0) <= t.size
            && (id in BookOf(v, t.marketId) ==>
                  BookOf(v, t.marketId)[id].terms == t && BookOf(v, t.marketId)[id].filled == LoggedQty(v.log, id))
  {
    var w := WorkingOf(v);
    LogFacts(v);
    assert AcceptanceKnown(v.log[i], w.orders);
    assert WorkingOrderOk(w, id);
    FoldQty(EMPTY_WORKING, v.log, id);
    var m := w.orders[id].terms.marketId;
    if m in v.books { assert BookTracks(v.books[m], m, w); }
  }

  // ---- Legality at every position -------------------------------------------------------------------

  /** The working set just before the i-th event. */
  ghost function WorkingBefore(log: seq<SequencedEvent>, i: nat): Working
    requires i <= |log| && Replayed(log[..i]).Ok?
  {
    Replayed(log[..i]).value
  }

  lemma LegalAt(log: seq<SequencedEvent>, i: nat)
    requires LegalLog(log) && i < |log|
    ensures LegalLog(log[..i]) && Replayed(log[..i]).Ok? && WorkingOk(WorkingBefore(log, i))
    ensures LegalEvent(WorkingBefore(log, i), log[i]) && log[i].seqId == i + 1
    ensures LogOrdersKnown(log[..i], WorkingBefore(log, i).orders)
    ensures forall id :: id in WorkingBefore(log, i).orders ==> exists a :: AcceptedBy(log[..i], a, id)
  {
    EmptyWorkingOk();
    LegalFold(EMPTY_WORKING, log);
    assert log == log[..i] + log[i..];
    FoldConcat(EMPTY_WORKING, log[..i], log[i..]);
    LegalConcat(EMPTY_WORKING, log[..i], log[i..]);
    LegalFold(EMPTY_WORKING, log[..i]);
    FoldKeepsTerms(EMPTY_WORKING, log[..i]);
    assert log[i..][0] == log[i];
  }

  // ---- Grammar: who trades with whom -----------------------------------------------------------------

  /** The fill at `i` names the order accepted at `a` as taker and the one accepted at `b` as maker. */
  ghost predicate Pairs(log: seq<SequencedEvent>, i: int, a: int, b: int) {
    && 0 <= b < a < i < |log| && log[i].event.FillEvent?
    && var f := log[i].event.fill;
    && AcceptedBy(log, a, f.takerOrderId) && AcceptedBy(log, b, f.makerOrderId)
    && var taker, maker := log[a].event.order, log[b].event.order;
    && FillNames(f, taker.terms, maker.terms)
    && taker.terms.marketId == maker.terms.marketId
    && maker.terms.side == taker.terms.side.Opposite()
    && taker.terms.traderId != maker.terms.traderId
    && f.price == maker.terms.price && Crosses(taker, f.price) && f.size > 0
  }

  /**
   * Every logged fill pairs two accepted orders, the maker accepted first: different traders, opposite
   * sides, one market, at the maker's price and within the taker's limit.
   */
  lemma FillsPair(log: seq<SequencedEvent>, i: nat) returns (a: int, b: int)
    requires LegalLog(log) && i < |log| && log[i].event.FillEvent?
    ensures Pairs(log, i, a, b) && log[i].event.fill.sequenceId == a + 1
  {
    LegalAt(log, i);
    var w := WorkingBefore(log, i);
    var f := log[i].event.fill;
    a :| AcceptedBy(log[..i], a, f.takerOrderId);
    b :| AcceptedBy(log[..i], b, f.makerOrderId);
    AcceptedTerms(log, i, a, f.takerOrderId);
    AcceptedTerms(log, i, b, f.makerOrderId);
  }

  lemma AcceptedTerms(log: seq<SequencedEvent>, i: nat, a: int, id: OrderId)
    requires LegalLog(log) && i < |log| && AcceptedBy(log[..i], a, id)
    ensures Replayed(log[..i]).Ok?
    ensures AcceptedBy(log, a, id) && a < i && id in WorkingBefore(log, i).orders
    ensures WorkingBefore(log, i).orders[id].terms == log[a].event.order.terms
    ensures log[a].event.order.terms.createdSequence == a + 1
  {
    LegalAt(log, i);
    LegalAt(log, a);
    assert AcceptanceKnown(log[..i][a], WorkingBefore(log, i).orders);
  }

  // ---- Nonces and idempotency keys -------------------------------------------------------------------

  /** Of two accepted orders, the later has a new key, and a higher nonce if the trader is the same. */
  lemma AcceptancesOrdered(log: seq<SequencedEvent>, i: nat, j: nat)
    requires LegalLog(log) && i < j < |log|
    requires log[i].event.OrderAccepted? && log[j].event.OrderAccepted?
    ensures var s, t := log[i].event.order.terms, log[j].event.order.terms;
            && s.orderId != t.orderId && KeyOf(s) != KeyOf(t) && s.orderHash != t.orderHash
            && (s.traderId == t.traderId ==> s.nonce < t.nonce)
  {
    var s, t := log[i].event.order.terms, log[j].event.order.terms;
    LegalAt(log, j);
    var w := WorkingBefore(log, j);
    assert AcceptedBy(log[..j], i, s.orderId);
    AcceptedTerms(log, j, i, s.orderId);
    assert WorkingOrderOk(w, s.orderId);
    AcceptedHashIsNew(w, t);
    assert w.orders[s.orderId].terms == s;
    assert !HashKnown(w.orders, t.orderHash);
  }

  lemma LastStep(log: seq<SequencedEvent>)
    requires LegalLog(log) && log != []
    ensures var n := |log| - 1;
            LegalLog(log[..n]) && Replayed(log[..n]).Ok? && LegalEvent(WorkingBefore(log, n), log[n])
            && Replayed(log) == ApplyEvent(WorkingBefore(log, n), log[n]) && Replayed(log).Ok?
  {
    var n := |log| - 1;
    LegalAt(log, n);
    EmptyWorkingOk();
    LegalFold(EMPTY_WORKING, log);
    assert log == log[..n] + [log[n]];
    FoldConcat(EMPTY_WORKING, log[..n], [log[n]]);
    assert [log[n]][1..] == [];
  }

  lemma EventNonce(w: Working, se: SequencedEvent, trader: TraderId)
    requires LegalEvent(w, se) && ApplyEvent(w, se).Ok?
    ensures ApplyEvent(w, se).value.ledger.nonces
         == if se.event.OrderAccepted? then w.ledger.nonces[se.event.order.terms.traderId := se.event.order.terms.nonce]
            else w.ledger.nonces
  {
  }

  /** The table's entry for the trader is the nonce of the last accepted order, or there was none. */
  ghost predicate NonceOfLast(log: seq<SequencedEvent>, nonces: map<TraderId, nat>, trader: TraderId) {
    if trader in nonces then exists i :: LastOf(log, i, trader) && nonces[trader] == log[i].event.order.terms.nonce
    else forall i :: 0 <= i < |log| && log[i].event.OrderAccepted? ==> log[i].event.order.terms.traderId != trader
  }

  /** The stored nonce is that of the trader's last accepted order. */
  lemma {:induction false} NonceIsLast(log: seq<SequencedEvent>, trader: TraderId)
    requires LegalLog(log)
    ensures Replayed(log).Ok? && NonceOfLast(log, Replayed(log).value.ledger.nonces, trader)
    decreases |log|
  {
    if log == [] {
    } else {
      var n := |log| - 1;
      LastStep(log);
      NonceIsLast(log[..n], trader);
      EventNonce(WorkingBefore(log, n), log[n], trader);
      if log[n].event.OrderAccepted? && log[n].event.order.terms.traderId == trader {
        assert LastOf(log, n, trader);
      } else if trader in WorkingBefore(log, n).ledger.nonces {
        var i :| LastOf(log[..n], i, trader)
          && WorkingBefore(log, n).ledger.nonces[trader] == log[..n][i].event.order.terms.nonce;
        assert LastOf(log, i, trader);
      }
    }
  }

  /** The last acceptance of a trader's order. */
  ghost predicate LastOf(log: seq<SequencedEvent>, i: int, trader: TraderId) {
    && 0 <= i < |log| && log[i].event.OrderAccepted? && log[i].event.order.terms.traderId == trader
    && (forall j :: i < j < |log| && log[j].event.OrderAccepted? ==> log[j].event.order.terms.traderId != trader)
  }

  /** The idempotency table holds exactly the accepted keys, each with the original number, id and hash. */
  lemma TableIsLog(v: EngineView, key: IdempotencyKey)
    requires Inv(v)
    ensures key in v.idempotency <==>
              exists i :: 0 <= i < |v.log| && v.log[i].event.OrderAccepted? && KeyOf(v.log[i].event.order.terms) == key
    ensures forall i :: 0 <= i < |v.log| && v.log[i].event.OrderAccepted?
                        && KeyOf(v.log[i].event.order.terms) == key ==>
              key in v.idempotency
              && var t, r := v.log[i].event.order.terms, v.idempotency[key];
              r.originalSeqId == v.log[i].seqId && r.orderId == t.orderId && r.orderHash == t.orderHash
    ensures SameTable(v.idempotency, RebuildTable(v.log))
  {
    var w := WorkingOf(v);
    LogFacts(v);
    RebuiltTableTracks(v, w);
    SameTables(v.idempotency, RebuildTable(v.log), w.orders);
    forall i | 0 <= i < |v.log| && v.log[i].event.OrderAccepted? && KeyOf(v.log[i].event.order.terms) == key
      ensures key in v.idempotency
      ensures var t, r := v.log[i].event.order.terms, v.idempotency[key];
              r.originalSeqId == v.log[i].seqId && r.orderId == t.orderId && r.orderHash == t.orderHash
    {
      assert AcceptanceKnown(v.log[i], w.orders);
      assert w.orders[v.log[i].event.order.terms.orderId].terms == v.log[i].event.order.terms;
    }
    if key in v.idempotency {
      var id := v.idempotency[key].orderId;
      var i :| AcceptedBy(v.log, i, id);
      assert AcceptanceKnown(v.log[i], w.orders);
    }
  }

  /** A rejection or a duplicate leaves the engine exactly as it was; a new order always grows the log. */
  lemma OnlyAcceptanceChanges(v: EngineView, s: SignedOrder, nowMs: nat, freshId: OrderId, world: World)
    ensures var r := Submit(v, s, nowMs, freshId, world);
            && (r.1.Rejected? || (r.1.Accepted? && r.1.result.isDuplicate) ==> r.0 == v)
            && (r.1.Accepted? && !r.1.result.isDuplicate ==> v.log < r.0.log)
  {
    if Passes(v, s, nowMs, world) && s.marketId in v.books {
      var o := NewOrder(s, freshId, v.nextSeqId, nowMs);
      assert v.log < Admit(v, o, world.wall).log;
    }
  }

  // ---- Which event sequences replay ------------------------------------------------------------------

  /** Each number follows the one before; replay takes any first number, and anything after a number 0. */
  ghost predicate Consecutive(events: seq<SequencedEvent>) {
    forall i :: 0 < i < |events| && events[i - 1].seqId != 0 ==> events[i].seqId == events[i - 1].seqId + 1
  }

  /** The event is a fill or a cancel of the order. */
  predicate Concerns(e: Event, id: OrderId) {
    || (e.FillEvent? && (e.fill.takerOrderId == id || e.fill.makerOrderId == id))
    || (e.OrderCancelled? && e.orderId == id)
  }

  ghost predicate AcceptedBefore(events: seq<SequencedEvent>, i: int, id: OrderId) {
    exists j :: j < i && AcceptedBy(events, j, id)
  }

  /** Every fill and cancel concerns orders accepted earlier in the same sequence. */
  ghost predicate SelfContained(events: seq<SequencedEvent>) {
    forall i, id :: 0 <= i < |events| && Concerns(events[i].event, id) ==> AcceptedBefore(events, i, id)
  }

  /** The same, when some orders are known already. */
  ghost predicate ContainedFrom(known: Orders, events: seq<SequencedEvent>) {
    forall i, id :: 0 <= i < |events| && Concerns(events[i].event, id) ==> id in known || AcceptedBefore(events, i, id)
  }

  lemma EventKeys(w: Working, se: SequencedEvent)
    ensures ApplyEvent(w, se).Ok? <==>
              (w.lastSeq == 0 || se.seqId == w.lastSeq + 1) && forall id :: Concerns(se.event, id) ==> id in w.orders
    ensures ApplyEvent(w, se).Ok? ==>
              var next := ApplyEvent(w, se).value;
              && next.lastSeq == se.seqId
              && (forall id :: id in next.orders <==>
                    id in w.orders || (se.event.OrderAccepted? && se.event.order.terms.orderId == id))
  {
    if se.event.FillEvent? {
      assert Concerns(se.event, se.event.fill.takerOrderId) && Concerns(se.event, se.event.fill.makerOrderId);
    } else if se.event.OrderCancelled? {
      assert Concerns(se.event, se.event.orderId);
    }
  }

  lemma AcceptedShift(se: SequencedEvent, rest: seq<SequencedEvent>, i: nat, id: OrderId)
    ensures AcceptedBefore([se] + rest, i + 1, id) <==>
              AcceptedBefore(rest, i, id) || (se.event.OrderAccepted? && se.event.order.terms.orderId == id)
  {
    var events := [se] + rest;
    if AcceptedBefore(events, i + 1, id) {
      var j :| j < i + 1 && AcceptedBy(events, j, id);
      if j > 0 { assert AcceptedBy(rest, j - 1, id); }
    }
    if AcceptedBefore(rest, i, id) {
      var j :| j < i && AcceptedBy(rest, j, id);
      assert AcceptedBy(events, j + 1, id);
    }
    if se.event.OrderAccepted? && se.event.order.terms.orderId == id { assert AcceptedBy(events, 0, id); }
  }

  lemma ContainedCons(known: Orders, known': Orders, se: SequencedEvent, rest: seq<SequencedEvent>)
    requires forall id :: id in known' <==>
               id in known || (se.event.OrderAccepted? && se.event.order.terms.orderId == id)
    ensures ContainedFrom(known, [se] + rest) <==>
              (forall id :: Concerns(se.event, id) ==> id in known) && ContainedFrom(known', rest)
  {
    var events := [se] + rest;
    forall i, id | 0 <= i < |rest| && Concerns(rest[i].event, id)
      ensures (id in known' || AcceptedBefore(rest, i, id)) <==> (id in known || AcceptedBefore(events, i + 1, id))
    {
      AcceptedShift(se, rest, i, id);
    }
    assert forall id :: !AcceptedBefore(events, 0, id);
    assert forall i :: 0 <= i < |rest| ==> events[i + 1] == rest[i];
    assert events[0] == se;
    if ContainedFrom(known, events) {
      forall i, id | 0 <= i < |rest| && Concerns(rest[i].event, id)
        ensures id in known' || AcceptedBefore(rest, i, id)
      {
        assert Concerns(events[i + 1].event, id);
      }
      forall id | Concerns(se.event, id) ensures id in known {
        assert Concerns(events[0].event, id);
      }
    }
    if (forall id :: Concerns(se.event, id) ==> id in known) && ContainedFrom(known', rest) {
      forall i, id | 0 <= i < |events| && Concerns(events[i].event, id)
        ensures id in known || AcceptedBefore(events, i, id)
      {
        if i > 0 { assert Concerns(rest[i - 1].event, id); }
      }
    }
  }

  lemma ConsecutiveCons(se: SequencedEvent, rest: seq<SequencedEvent>)
    ensures Consecutive([se] + rest) <==>
              (rest != [] && se.seqId != 0 ==> rest[0].seqId == se.seqId + 1) && Consecutive(rest)
  {
    var events := [se] + rest;
    assert forall i :: 0 <= i < |rest| ==> events[i + 1] == rest[i];
    if Consecutive(events) {
      forall i | 0 < i < |rest| && rest[i - 1].seqId != 0 ensures rest[i].seqId == rest[i - 1].seqId + 1 {
        assert events[i + 1].seqId == events[i].seqId + 1;
      }
      if rest != [] && se.seqId != 0 { assert events[1].seqId == events[0].seqId + 1; }
    }
  }

  lemma {:induction false} FoldsExactly(w: Working, events: seq<SequencedEvent>)
    ensures Fold(w, events).Ok? <==>
              && (events != [] && w.lastSeq != 0 ==> events[0].seqId == w.lastSeq + 1)
              && Consecutive(events) && ContainedFrom(w.orders, events)
    decreases |events|
  {
    if events == [] {
    } else {
      var se, rest := events[0], events[1..];
      assert events == [se] + rest;
      EventKeys(w, se);
      ConsecutiveCons(se, rest);
      if ApplyEvent(w, se).Ok? {
        var next := ApplyEvent(w, se).value;
        ContainedCons(w.orders, next.orders, se, rest);
        FoldsExactly(next, rest);
      } else if w.lastSeq == 0 || se.seqId == w.lastSeq + 1 {
        var id :| Concerns(se.event, id) && id !in w.orders;
        assert Concerns(events[0].event, id) && !AcceptedBefore(events, 0, id);
      }
    }
  }

  /** Replay succeeds exactly on consecutive events whose fills and cancels concern orders accepted among them. */
  lemma ReplaysExactly(events: seq<SequencedEvent>)
    ensures Replayed(events).Ok? <==> Consecutive(events) && SelfContained(events)
  {
    FoldsExactly(EMPTY_WORKING, events);
  }
}
