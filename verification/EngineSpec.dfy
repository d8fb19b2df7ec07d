/** The engine as a state machine over values: src/engine/mod.rs and src/ops/admin.rs. */
module EngineSpec {
  import opened Basics
  import opened Domain
  import opened Matching
  import opened Canonical
  import opened Store
  import opened Sequencing
  import opened Replaying

  datatype EngineView = EngineView(
    markets: map<MarketId, MarketConfig>,
    books: map<MarketId, Orders>,
    nextSeqId: nat,
    log: seq<SequencedEvent>,
    idempotency: Idempotency,
    ledger: Ledger,
    index: map<OrderId, MarketId>)

  const NEW_ENGINE := EngineView(map[], map[], 1, [], map[], EMPTY_LEDGER, map[])

  /** What the engine reads from outside: the ed25519 check and the wall clock of each append. */
  datatype World = World(verify: (Key32, OrderHash, Text) -> SignatureCheck, wall: nat -> nat)

  datatype SignatureCheck = SignatureOk | BadPublicKey | BadSignature

  datatype OrderError =
    | UnsupportedSchemaVersion(version: nat)
    | EmptyMarketId
    | EmptyTraderId
    | EmptyClientOrderId
    | ZeroPrice
    | ZeroSize
    | OrderExpired(expiryTsMs: nat, nowMs: nat)
    | InvalidPublicKey
    | InvalidSignature
    | TraderIdMismatch
    | MarketNotFound(marketId: MarketId)
    | MarketNotActive(marketId: MarketId)
    | InvalidTick(price: nat, tickSize: nat)
    | InvalidLot(size: nat, lotSize: nat)

  datatype EngineError = InvalidOrder(error: OrderError) | InvalidNonce(nonceError: NonceError)

  datatype OrderResult = OrderResult(
    orderId: OrderId,
    orderHash: OrderHash,
    seqId: nat,
    fills: seq<Fill>,
    finalStatus: OrderStatus,
    isDuplicate: bool)

  // Panicked: the program's `unwrap` of a missing book.
  datatype SubmitOutcome = Accepted(result: OrderResult) | Rejected(error: EngineError) | Panicked

  datatype CancelOutcome =
    | CancelDone(orderId: OrderId, seqId: Option<nat>, wasAlreadyClosed: bool)
    | CancelNotFound(orderId: OrderId)
    | CancelUnauthorized(traderId: TraderId)
    | CancelPanicked

  datatype AdminError =
    | UnknownMarket(marketId: MarketId)
    | AlreadyInState(marketId: MarketId, status: MarketStatus)
    | SettledMarket(marketId: MarketId)

  // ---- Intake --------------------------------------------------------------------------------

  const SCHEMA_VERSION: nat := 1

  /** `validate_fields`, in the order of the program's checks. */
  function ValidateFields(s: SignedOrder, nowMs: nat): Option<OrderError> {
    if s.schemaVersion != SCHEMA_VERSION then Some(UnsupportedSchemaVersion(s.schemaVersion))
    else if s.marketId.text == [] then Some(EmptyMarketId)
    else if s.traderId.text == [] then Some(EmptyTraderId)
    else if s.clientOrderId == [] then Some(EmptyClientOrderId)
    else if s.priceTicks == 0 then Some(ZeroPrice)
    else if s.sizeLots == 0 then Some(ZeroSize)
    else if s.expiryTsMs != 0 && s.expiryTsMs <= nowMs then Some(OrderExpired(s.expiryTsMs, nowMs))
    else None
  }

  function VerifySignature(s: SignedOrder, world: World): Option<OrderError> {
    match world.verify(s.traderPubkey, OrderHash(CanonicalBytes(s)), s.signature)
    case SignatureOk => None
    case BadPublicKey => Some(InvalidPublicKey)
    case BadSignature => Some(InvalidSignature)
  }

  /** Market existence, status, tick and lot alignment. */
  function ValidateMarket(markets: map<MarketId, MarketConfig>, s: SignedOrder): Option<OrderError> {
    if s.marketId !in markets then Some(MarketNotFound(s.marketId)) else
      var market := markets[s.marketId];
      if market.status != Active then Some(MarketNotActive(s.marketId))
      else if s.priceTicks == 0 || !IsMultipleOf(s.priceTicks, market.tickSize)
        then Some(InvalidTick(s.priceTicks, market.tickSize))
      else if s.sizeLots == 0 || !IsMultipleOf(s.sizeLots, market.lotSize)
        then Some(InvalidLot(s.sizeLots, market.lotSize))
      else None
  }

  /** Steps 1 to 5: everything checked before any table is consulted. */
  function Validate(markets: map<MarketId, MarketConfig>, s: SignedOrder, nowMs: nat, world: World)
    : Option<OrderError>
  {
    var fields := ValidateFields(s, nowMs);
    if fields.Some? then fields else
      var signature := VerifySignature(s, world);
      if signature.Some? then signature
      else if s.traderId.text != HexEncode(s.traderPubkey) then Some(TraderIdMismatch)
      else ValidateMarket(markets, s)
  }

  function FindOrder(v: EngineView, id: OrderId): Option<Order> {
    if id !in v.index || v.index[id] !in v.books || id !in v.books[v.index[id]] then None
    else Some(v.books[v.index[id]][id])
  }

  function NewOrder(s: SignedOrder, id: OrderId, seqId: nat, nowMs: nat): Order {
    Order(Terms(id, s.clientOrderId, OrderHash(CanonicalBytes(s)), s.marketId, s.traderId, s.traderPubkey, s.side,
                s.priceTicks, s.sizeLots, s.timeInForce, s.nonce, s.expiryTsMs, seqId, nowMs),
          0, Open, seqId)
  }

  function DuplicateResult(v: EngineView, r: IdempotencyRecord): OrderResult {
    var found := FindOrder(v, r.orderId);
    OrderResult(r.orderId, r.orderHash, r.originalSeqId, [],
                if found.Some? then found.value.status else Filled, true)
  }

  // ---- Acceptance ----------------------------------------------------------------------------

  function FillEvents(fills: seq<Fill>): (r: seq<Event>)
    ensures |r| == |fills|
  {
    seq(|fills|, i requires 0 <= i < |fills| => FillEvent(fills[i]))
  }

  function StpEvents(taker: Order): seq<Event> {
    if taker.status == CancelledStp
    then [OrderCancelled(taker.terms.orderId, taker.terms.orderHash, SelfTradePrevention)]
    else []
  }

  /** Nonce, log, idempotency table and index once the order is in the log. */
  function Admit(v: EngineView, o: Order, wall: nat -> nat): EngineView {
    var t := o.terms;
    v.(nextSeqId := v.nextSeqId + 1,
       log := v.log + [SequencedEvent(v.nextSeqId, wall(v.nextSeqId), OrderAccepted(o))],
       idempotency := v.idempotency[KeyOf(t)
                      := IdempotencyRecord(t.createdSequence, t.orderId, t.orderHash, t.acceptedAtMs)],
       ledger := SetNonce(v.ledger, t.traderId, t.nonce),
       index := v.index[t.orderId := t.marketId])
  }

  /** Fills, an STP cancel and the resting residual of an admitted order. */
  function Settle(v: EngineView, market: MarketId, m: MatchResult, wall: nat -> nat): EngineView {
    var events := FillEvents(m.fills) + StpEvents(m.taker);
    var filled := ApplyFills(v.ledger, m.fills);
    v.(nextSeqId := v.nextSeqId + |events|,
       log := v.log + Stamp(v.nextSeqId, events, wall),
       ledger := if m.taker.status == CancelledStp then CancelHash(filled, m.taker.terms.orderHash) else filled,
       books := v.books[market := AfterMatch(m)])
  }

  ghost function AcceptOrder(v: EngineView, o: Order, nowMs: nat, world: World): (EngineView, SubmitOutcome) {
    var admitted := Admit(v, o, world.wall);
    var market := o.terms.marketId;
    if market !in v.books then (admitted, Panicked) else
      var m := Match(v.books[market], o, o.terms.createdSequence, nowMs);
      (Settle(admitted, market, m, world.wall),
       Accepted(OrderResult(o.terms.orderId, o.terms.orderHash, o.terms.createdSequence, m.fills,
                            m.taker.status, false)))
  }

  /** The order passes steps 1 to 7 as a new order. */
  predicate Passes(v: EngineView, s: SignedOrder, nowMs: nat, world: World) {
    && Validate(v.markets, s, nowMs, world).None?
    && IdempotencyKey(s.traderId, s.clientOrderId) !in v.idempotency
    && s.nonce > Lookup(v.ledger.nonces, s.traderId, 0)
  }

  /** `process_order`. */
  ghost function Submit(v: EngineView, s: SignedOrder, nowMs: nat, freshId: OrderId, world: World)
    : (EngineView, SubmitOutcome)
  {
    var invalid := Validate(v.markets, s, nowMs, world);
    if invalid.Some? then (v, Rejected(InvalidOrder(invalid.value))) else
      var key := IdempotencyKey(s.traderId, s.clientOrderId);
      if key in v.idempotency then (v, Accepted(DuplicateResult(v, v.idempotency[key]))) else
        var last := Lookup(v.ledger.nonces, s.traderId, 0);
        if s.nonce <= last then (v, Rejected(InvalidNonce(NonceError(last, s.nonce)))) else
          AcceptOrder(v, NewOrder(s, freshId, v.nextSeqId, nowMs), nowMs, world)
  }

  /** A submission is accepted as a new order, panics for want of a book, or changes nothing. */
  lemma SubmitCases(v: EngineView, s: SignedOrder, nowMs: nat, freshId: OrderId, world: World)
    ensures var r := Submit(v, s, nowMs, freshId, world);
            if Passes(v, s, nowMs, world)
            then r == AcceptOrder(v, NewOrder(s, freshId, v.nextSeqId, nowMs), nowMs, world) && s.marketId in v.markets
            else r.0 == v && !r.1.Panicked? && (r.1.Accepted? ==> r.1.result.isDuplicate)
  {
  }

  // ---- Cancels -------------------------------------------------------------------------------

  function AppendOne(v: EngineView, e: Event, wall: nat -> nat): EngineView {
    v.(nextSeqId := v.nextSeqId + 1, log := v.log + [SequencedEvent(v.nextSeqId, wall(v.nextSeqId), e)])
  }

  /** `process_cancel`. */
  function Cancel(v: EngineView, id: OrderId, trader: TraderId, world: World): (EngineView, CancelOutcome) {
    if id !in v.index then (v, CancelNotFound(id))
    else if v.index[id] !in v.books then (v, CancelPanicked)
    else if id !in v.books[v.index[id]] then (v, CancelNotFound(id))
    else
      var market := v.index[id];
      var o := v.books[market][id];
      if o.terms.traderId != trader then (v, CancelUnauthorized(trader))
      else if o.Closed() then (v, CancelDone(id, None, true))
      else
        var logged := AppendOne(v, OrderCancelled(id, o.terms.orderHash, TraderRequest), world.wall);
        (logged.(ledger := CancelHash(v.ledger, o.terms.orderHash),
                 books := v.books[market := v.books[market][id := o.(status := Cancelled)]]),
         CancelDone(id, Some(v.nextSeqId), false))
  }

  // ---- Administration ------------------------------------------------------------------------

  /** `add_market`: a new market gets an empty book, a known one keeps its book. */
  function AddMarket(v: EngineView, config: MarketConfig): EngineView {
    v.(markets := v.markets[config.id := config],
       books := if config.id in v.books then v.books else v.books[config.id := map[]])
  }

  function Pause(v: EngineView, market: MarketId, who: Text, world: World): (EngineView, Result<nat, AdminError>) {
    if market !in v.markets then (v, Err(UnknownMarket(market)))
    else if v.markets[market].status == Paused then (v, Err(AlreadyInState(market, Paused)))
    else if v.markets[market].status == Settled then (v, Err(SettledMarket(market)))
    else (AppendOne(AddMarket(v, v.markets[market].(status := Paused)), MarketPaused(market, who), world.wall),
          Ok(v.nextSeqId))
  }

  function Resume(v: EngineView, market: MarketId, who: Text, world: World): (EngineView, Result<nat, AdminError>) {
    if market !in v.markets then (v, Err(UnknownMarket(market)))
    else if v.markets[market].status == Active then (v, Err(AlreadyInState(market, Active)))
    else if v.markets[market].status == Settled then (v, Err(SettledMarket(market)))
    else (AppendOne(AddMarket(v, v.markets[market].(status := Active)), MarketResumed(market, who), world.wall),
          Ok(v.nextSeqId))
  }

  /** The log entries `cancel_all_orders` selects: every order ever accepted in the market. */
  function AcceptedIn(log: seq<SequencedEvent>, market: MarketId): seq<(OrderId, OrderHash)> {
    if log == [] then [] else
      var head := AcceptedIn(log[..|log| - 1], market);
      var e := log[|log| - 1].event;
      if e.OrderAccepted? && e.order.terms.marketId == market && !e.order.Closed()
      then head + [(e.order.terms.orderId, e.order.terms.orderHash)]
      else head
  }

  function ForceCancel(v: EngineView, id: OrderId, hash: OrderHash, world: World): EngineView {
    AppendOne(v, OrderCancelled(id, hash, AdminForce), world.wall).(ledger := CancelHash(v.ledger, hash))
  }

  function ForceCancels(v: EngineView, targets: seq<(OrderId, OrderHash)>, world: World): EngineView {
    if targets == [] then v
    else
      var last := targets[|targets| - 1];
      ForceCancel(ForceCancels(v, targets[..|targets| - 1], world), last.0, last.1, world)
  }

  /** `cancel_all_orders`: logs and records the cancels; the book is not touched. */
  function CancelAll(v: EngineView, market: MarketId, world: World): (EngineView, Result<nat, AdminError>) {
    if market !in v.markets then (v, Err(UnknownMarket(market))) else
      var targets := AcceptedIn(v.log, market);
      (ForceCancels(v, targets, world), Ok(|targets|))
  }

  // ---- Crash recovery ------------------------------------------------------------------------

  function OpenOrders(orders: Orders, market: MarketId): Orders {
    map id | id in orders && !orders[id].Closed() && orders[id].terms.marketId == market :: orders[id]
  }

  /** One book per market that still has an open order, holding just its open orders. */
  function ReplayedBooks(orders: Orders): map<MarketId, Orders> {
    var markets := set id | id in orders && !orders[id].Closed() :: orders[id].terms.marketId;
    map m | m in markets :: OpenOrders(orders, m)
  }

  function IndexEvent(index: map<OrderId, MarketId>, se: SequencedEvent): map<OrderId, MarketId> {
    if se.event.OrderAccepted? then index[se.event.order.terms.orderId := se.event.order.terms.marketId] else index
  }

  function RebuildIndex(log: seq<SequencedEvent>): map<OrderId, MarketId> {
    if log == [] then map[] else IndexEvent(RebuildIndex(log[..|log| - 1]), log[|log| - 1])
  }

  /** `restore_from_events`. */
  function Restore(v: EngineView, events: seq<SequencedEvent>): (EngineView, Result<(), ReplayError>) {
    if events == [] then (v, Ok(())) else
      match Replayed(events)
      case Err(e) => (v, Err(e))
      case Ok(w) =>
        (EngineView(v.markets, ReplayedBooks(w.orders), events[|events| - 1].seqId + 1, events,
                    RebuildTable(events), w.ledger, RebuildIndex(events)),
         Ok(()))
  }

  /** An engine with its markets registered and nothing else. */
  function Started(markets: map<MarketId, MarketConfig>): EngineView {
    EngineView(markets, map m | m in markets :: map[], 1, [], map[], EMPTY_LEDGER, map[])
  }

  /** The engine after a restart as the program starts: markets registered first, the rest from the log. */
  function Restarted(v: EngineView): EngineView {
    Restore(Started(v.markets), v.log).0
  }

  // ---- Runs ----------------------------------------------------------------------------------

  datatype Op =
    | OpSubmit(signed: SignedOrder, nowMs: nat, freshId: OrderId)
    | OpCancel(orderId: OrderId, traderId: TraderId)
    | OpPause(marketId: MarketId, triggeredBy: Text)
    | OpResume(marketId: MarketId, triggeredBy: Text)
    | OpCancelAll(marketId: MarketId)
    | OpAddMarket(config: MarketConfig)
    | OpRestart

  datatype Outcome =
    | Submitted(submit: SubmitOutcome)
    | Cancelling(cancel: CancelOutcome)
    | Administered(admin: Result<nat, AdminError>)
    | Registered
    | Restored

  ghost function Step(v: EngineView, op: Op, world: World): (EngineView, Outcome) {
    match op
    case OpSubmit(s, nowMs, freshId) => var r := Submit(v, s, nowMs, freshId, world); (r.0, Submitted(r.1))
    case OpCancel(id, trader) => var r := Cancel(v, id, trader, world); (r.0, Cancelling(r.1))
    case OpPause(m, who) => var r := Pause(v, m, who, world); (r.0, Administered(r.1))
    case OpResume(m, who) => var r := Resume(v, m, who, world); (r.0, Administered(r.1))
    case OpCancelAll(m) => var r := CancelAll(v, m, world); (r.0, Administered(r.1))
    case OpAddMarket(config) => (AddMarket(v, config), Registered)
    case OpRestart => (Restarted(v), Restored)
  }

  /** The program dereferenced a missing book. */
  predicate Panics(outcome: Outcome) {
    || outcome == Submitted(Panicked)
    || outcome == Cancelling(CancelPanicked)
  }

  /** A generated order id has not been seen before. */
  predicate Fresh(v: EngineView, op: Op) {
    op.OpSubmit? ==> op.freshId !in v.index
  }

  ghost function Run(v: EngineView, ops: seq<Op>, world: World): EngineView
    decreases |ops|
  {
    if ops == [] then v else Run(Step(v, ops[0], world).0, ops[1..], world)
  }

  predicate NoRestart(ops: seq<Op>) {
    forall op :: op in ops ==> !op.OpRestart?
  }

  /** Generated ids are new throughout the run. */
  ghost predicate FreshIds(v: EngineView, ops: seq<Op>, world: World)
    decreases |ops|
  {
    ops == [] || (Fresh(v, ops[0]) && FreshIds(Step(v, ops[0], world).0, ops[1..], world))
  }

  /** No operation of the run panics. */
  ghost predicate NoCrash(v: EngineView, ops: seq<Op>, world: World)
    decreases |ops|
  {
    ops == [] || (var r := Step(v, ops[0], world); !Panics(r.1) && NoCrash(r.0, ops[1..], world))
  }

  predicate NoForce(ops: seq<Op>) {
    forall op :: op in ops ==> !op.OpCancelAll?
  }
}
