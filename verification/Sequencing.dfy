/** Sequence numbers, the event log and the idempotency table: src/sequencer/mod.rs. */
module Sequencing {
  import opened Basics
  import opened Domain

  datatype IdempotencyKey = IdempotencyKey(traderId: TraderId, clientOrderId: Text)

  datatype IdempotencyRecord = IdempotencyRecord(
    originalSeqId: nat,
    orderId: OrderId,
    orderHash: OrderHash,
    acceptedAtMs: nat)

  type Idempotency = map<IdempotencyKey, IdempotencyRecord>

  function KeyOf(t: Terms): IdempotencyKey {
    IdempotencyKey(t.traderId, t.clientOrderId)
  }

  /** Consecutive numbers from `next`; `wall(n)` is the wall clock read when number n is assigned. */
  function Stamp(next: nat, events: seq<Event>, wall: nat -> nat): (r: seq<SequencedEvent>)
    ensures |r| == |events|
    ensures forall i :: 0 <= i < |r| ==> r[i] == SequencedEvent(next + i, wall(next + i), events[i])
  {
    seq(|events|, i requires 0 <= i < |events| => SequencedEvent(next + i, wall(next + i), events[i]))
  }

  lemma StampConcat(next: nat, a: seq<Event>, b: seq<Event>, wall: nat -> nat)
    ensures Stamp(next, a + b, wall) == Stamp(next, a, wall) + Stamp(next + |a|, b, wall)
  {
  }

  /** The table a resumed sequencer rebuilds; it takes the acceptance time from the event. */
  function RecordEvent(table: Idempotency, se: SequencedEvent): Idempotency {
    if se.event.OrderAccepted? then
      var t := se.event.order.terms;
      table[KeyOf(t) := IdempotencyRecord(se.seqId, t.orderId, t.orderHash, se.timestampMs)]
    else table
  }

  function RebuildTable(log: seq<SequencedEvent>): Idempotency {
    if log == [] then map[] else RecordEvent(RebuildTable(log[..|log| - 1]), log[|log| - 1])
  }

  class Sequencer {
    var nextSeqId: nat
    var log: seq<SequencedEvent>
    var idempotency: Idempotency

    constructor ()
      ensures nextSeqId == 1 && log == [] && idempotency == map[]
    {
      nextSeqId, log, idempotency := 1, [], map[];
    }

    constructor Resume(resumeFrom: nat, events: seq<SequencedEvent>)
      ensures nextSeqId == resumeFrom && log == events && idempotency == RebuildTable(events)
    {
      nextSeqId, log := resumeFrom, events;
      var table: Idempotency := map[];
      var i := 0;
      while i < |events|
        invariant 0 <= i <= |events|
        invariant table == RebuildTable(events[..i])
      {
        var ev := events[i];
        if ev.event.OrderAccepted? {
          var t := ev.event.order.terms;
          table := table[IdempotencyKey(t.traderId, t.clientOrderId)
                         := IdempotencyRecord(ev.seqId, t.orderId, t.orderHash, ev.timestampMs)];
        }
        assert events[..i + 1][..i] == events[..i];
        i := i + 1;
      }
      assert events[..i] == events;
      idempotency := table;
    }

    method AppendEvent(event: Event, timestampMs: nat)
      modifies this`nextSeqId, this`log
      ensures nextSeqId == old(nextSeqId) + 1
      ensures log == old(log) + [SequencedEvent(old(nextSeqId), timestampMs, event)]
    {
      var seqId := nextSeqId;
      nextSeqId := nextSeqId + 1;
      log := log + [SequencedEvent(seqId, timestampMs, event)];
    }

    function IdempotencyCheck(trader: TraderId, clientOrderId: Text): (r: Option<IdempotencyRecord>)
      reads this
    {
      var key := IdempotencyKey(trader, clientOrderId);
      if key in idempotency then Some(idempotency[key]) else None
    }

    method RegisterAccepted(trader: TraderId, clientOrderId: Text, record: IdempotencyRecord)
      modifies this`idempotency
      ensures idempotency == old(idempotency)[IdempotencyKey(trader, clientOrderId) := record]
    {
      idempotency := idempotency[IdempotencyKey(trader, clientOrderId) := record];
    }
  }
}
