/** Orders, fills, markets and events: src/domain/order.rs, src/domain/market.rs, src/events/mod.rs. */
module Domain {
  import opened Basics

  datatype Side = Buy | Sell {
    function Opposite(): Side {
      if this == Buy then Sell else Buy
    }
  }

  datatype TimeInForce = Gtc

  datatype OrderStatus = Open | PartiallyFilled | Filled | Cancelled | CancelledStp

  datatype MarketId = MarketId(text: Text)
  datatype OrderId = OrderId(text: Text)
  datatype TraderId = TraderId(text: Text)

  // SHA-256 is taken to be collision free: a hash is represented by the bytes it was computed from.
  datatype OrderHash = OrderHash(preimage: Text)

  datatype SignedOrder = SignedOrder(
    schemaVersion: u16,
    clientOrderId: Text,
    marketId: MarketId,
    traderId: TraderId,
    side: Side,
    priceTicks: u64,
    sizeLots: u64,
    timeInForce: TimeInForce,
    nonce: u64,
    expiryTsMs: u64,
    createdAtMs: u64,
    salt: u64,
    traderPubkey: Key32,
    signature: Text)

  /** The fields of a live order that never change after acceptance. */
  datatype Terms = Terms(
    orderId: OrderId,
    clientOrderId: Text,
    orderHash: OrderHash,
    marketId: MarketId,
    traderId: TraderId,
    traderPubkey: Key32,
    side: Side,
    price: nat,
    size: nat,
    timeInForce: TimeInForce,
    nonce: nat,
    expiryTsMs: nat,
    createdSequence: nat,
    acceptedAtMs: nat)

  /** A live order: its fixed terms and the three fields the engine updates. */
  datatype Order = Order(terms: Terms, filled: nat, status: OrderStatus, lastUpdate: nat) {

    // Negative exactly where the program's unsigned subtraction would underflow.
    function Remaining(): int {
      terms.size - filled
    }

    predicate Closed() {
      status == Filled || status == Cancelled || status == CancelledStp
    }
  }

  datatype Fill = Fill(
    marketId: MarketId,
    takerOrderId: OrderId,
    takerOrderHash: OrderHash,
    takerTraderId: TraderId,
    makerOrderId: OrderId,
    makerOrderHash: OrderHash,
    makerTraderId: TraderId,
    price: nat,
    size: nat,
    sequenceId: nat,
    executedAtMs: nat)

  datatype MarketStatus = Active | Paused | Settled

  datatype MarketConfig = MarketConfig(id: MarketId, tickSize: nat, lotSize: nat, status: MarketStatus)

  datatype CancelReason = TraderRequest | Expired | SelfTradePrevention | AdminForce

  datatype Event =
    | OrderAccepted(order: Order)
    | OrderRejected(clientOrderId: Text, traderId: TraderId, reason: Text)
    | FillEvent(fill: Fill)
    | OrderCancelled(orderId: OrderId, orderHash: OrderHash, cancelReason: CancelReason)
    | MarketPaused(marketId: MarketId, triggeredBy: Text)
    | MarketResumed(marketId: MarketId, triggeredBy: Text)

  datatype SequencedEvent = SequencedEvent(seqId: nat, timestampMs: nat, event: Event)

  type Orders = map<OrderId, Order>

  /** `u64::is_multiple_of`: nothing but 0 is a multiple of 0. */
  predicate IsMultipleOf(x: nat, m: nat) {
    if m == 0 then x == 0 else x % m == 0
  }
}
