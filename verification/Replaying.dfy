/** The fold of an event log into working orders and ledgers: src/replay/mod.rs. */
module Replaying {
  import opened Basics
  import opened Domain
  import opened Store

  /** Every order ever accepted, the ledgers, and the last sequence number seen (0 before the first). */
  datatype Working = Working(orders: Orders, ledger: Ledger, lastSeq: nat)

  const EMPTY_WORKING := Working(map[], EMPTY_LEDGER, 0)

  datatype ReplayError = SeqIdGap(expected: nat, got: nat) | UnknownOrder(orderId: OrderId)

  function ReplayQty(o: Order, qty: nat, seqId: nat): Order {
    o.(filled := o.filled + qty,
       lastUpdate := seqId,
       status := if o.filled + qty >= o.terms.size then Filled else PartiallyFilled)
  }

  function ReplayFill(orders: Orders, f: Fill, seqId: nat): Result<Orders, ReplayError> {
    if f.takerOrderId !in orders then Err(UnknownOrder(f.takerOrderId)) else
      var taken := orders[f.takerOrderId := ReplayQty(orders[f.takerOrderId], f.size, seqId)];
      if f.makerOrderId !in taken then Err(UnknownOrder(f.makerOrderId))
      else Ok(taken[f.makerOrderId := ReplayQty(taken[f.makerOrderId], f.size, seqId)])
  }

  function CancelStatus(reason: CancelReason): OrderStatus {
    if reason == SelfTradePrevention then CancelledStp else Cancelled
  }

  /** One iteration of the event loop. */
  function ApplyEvent(w: Working, se: SequencedEvent): Result<Working, ReplayError> {
    if w.lastSeq != 0 && se.seqId != w.lastSeq + 1 then Err(SeqIdGap(w.lastSeq + 1, se.seqId)) else
      match se.event
      case OrderAccepted(o) =>
        var t := o.terms;
        var ledger := if t.nonce > Lookup(w.ledger.nonces, t.traderId, 0) then SetNonce(w.ledger, t.traderId, t.nonce)
                      else w.ledger;
        Ok(Working(w.orders[t.orderId := o], ledger, se.seqId))
      case FillEvent(f) =>
        (match ReplayFill(w.orders, f, se.seqId)
         case Err(e) => Err(e)
         case Ok(orders) => Ok(Working(orders, ApplyFill(w.ledger, f), se.seqId)))
      case OrderCancelled(id, hash, reason) =>
        if id !in w.orders then Err(UnknownOrder(id))
        else Ok(Working(w.orders[id := w.orders[id].(status := CancelStatus(reason), lastUpdate := se.seqId)],
                        CancelHash(w.ledger, hash), se.seqId))
      case OrderRejected(_, _, _) => Ok(w.(lastSeq := se.seqId))
      case MarketPaused(_, _) => Ok(w.(lastSeq := se.seqId))
      case MarketResumed(_, _) => Ok(w.(lastSeq := se.seqId))
  }

  function Fold(w: Working, events: seq<SequencedEvent>): Result<Working, ReplayError>
    decreases |events|
  {
    if events == [] then Ok(w) else
      match ApplyEvent(w, events[0])
      case Err(e) => Err(e)
      case Ok(next) => Fold(next, events[1..])
  }

  function Replayed(events: seq<SequencedEvent>): Result<Working, ReplayError> {
    Fold(EMPTY_WORKING, events)
  }

  lemma {:induction false} FoldConcat(w: Working, a: seq<SequencedEvent>, b: seq<SequencedEvent>)
    ensures Fold(w, a + b) == if Fold(w, a).Err? then Fold(w, a) else Fold(Fold(w, a).value, b)
    decreases |a|
  {
    if a == [] {
      assert [] + b == b;
    } else {
      assert (a + b)[0] == a[0] && (a + b)[1..] == a[1..] + b;
      if ApplyEvent(w, a[0]).Ok? {
        FoldConcat(ApplyEvent(w, a[0]).value, a[1..], b);
      }
    }
  }
}
